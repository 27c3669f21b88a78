/** Process-tree reaping by a guard that is PID 1 of its namespace, or a subreaper.

    `born` is the order in which tasks were created; the kernel never compares it, it only
    orders the proof. A task with a pending SIGKILL is doomed: it runs no more user code, so it
    neither forks nor waits, but it may exit at any later time. */
module Reaping {
  import opened Records

  datatype Task = Task(parent: Pid, born: nat, zombie: bool, doomed: bool, subreaper: bool)

  type Forest = map<Pid, Task>

  /** The guard lives and was not killed; everybody else has a living, older parent. */
  ghost predicate Rooted(f: Forest, guard: Pid) {
    && guard in f && !f[guard].zombie && !f[guard].doomed && f[guard].subreaper
    && forall p | p in f && p != guard ::
         f[p].parent in f && !f[f[p].parent].zombie && f[f[p].parent].born < f[p].born
  }

  /** Who adopts the children of `p`: the nearest ancestor that is a subreaper. */
  function Adopter(f: Forest, guard: Pid, p: Pid): (q: Pid)
    requires Rooted(f, guard) && p in f && p != guard
    ensures q in f && !f[q].zombie && f[q].born < f[p].born && f[q].subreaper
    decreases f[p].born
  {
    var up := f[p].parent;
    if up == guard || f[up].subreaper then up else Adopter(f, guard, up)
  }

  /** `c` follows parent links through living tasks. */
  ghost predicate IsChain(f: Forest, c: seq<Pid>) {
    && (forall i | 0 <= i < |c| :: c[i] in f)
    && (forall i | 0 < i < |c| :: !f[c[i]].zombie)
    && (forall i | 0 <= i < |c| - 1 :: f[c[i]].parent == c[i + 1])
  }

  /** The chain of parents of `p`. */
  function Chain(f: Forest, guard: Pid, p: Pid): (c: seq<Pid>)
    requires Rooted(f, guard) && p in f
    decreases f[p].born
  {
    if p == guard then [p] else [p] + Chain(f, guard, f[p].parent)
  }

  lemma {:induction false} ChainEndsInTheGuard(f: Forest, guard: Pid, p: Pid)
    requires Rooted(f, guard) && p in f
    ensures var c := Chain(f, guard, p); |c| > 0 && c[0] == p && c[|c| - 1] == guard && IsChain(f, c)
    decreases f[p].born
  {
    if p != guard { ChainEndsInTheGuard(f, guard, f[p].parent); }
  }

  // ---- what tasks and the kernel do -------------------------------------------------------------

  datatype Step =
    | Fork(parent: Pid, child: Pid, born: nat)
    | Exit(pid: Pid)
    | BecomeSubreaper(pid: Pid)
    | WaitFor(parent: Pid, child: Pid)     // some task reaps its own zombie child

  predicate Enabled(f: Forest, guard: Pid, s: Step) {
    match s
    case Fork(p, c, born) =>
      p in f && p != guard && !f[p].zombie && !f[p].doomed && c !in f && forall q | q in f :: f[q].born < born
    case Exit(p) => p in f && p != guard && !f[p].zombie
    case BecomeSubreaper(p) => p in f && p != guard && !f[p].zombie && !f[p].doomed
    case WaitFor(p, c) =>
      p in f && p != guard && !f[p].zombie && !f[p].doomed && c in f && c != guard && f[c].zombie && f[c].parent == p
  }

  /** Exiting leaves a zombie and hands the children to the nearest subreaper above. */
  function ExitOf(f: Forest, guard: Pid, p: Pid): Forest
    requires Rooted(f, guard) && p in f && p != guard
  {
    var q := Adopter(f, guard, p);
    map t | t in f ::
      if t == p then f[t].(zombie := true)
      else if t != guard && f[t].parent == p then f[t].(parent := q) else f[t]
  }

  function Next(f: Forest, guard: Pid, s: Step): Forest
    requires Rooted(f, guard) && Enabled(f, guard, s)
  {
    match s
    case Fork(p, c, born) => f[c := Task(p, born, false, false, false)]
    case Exit(p) => ExitOf(f, guard, p)
    case BecomeSubreaper(p) => f[p := f[p].(subreaper := true)]
    case WaitFor(_, c) => f - {c}
  }

  /** SIGKILL to a set of tasks at once. */
  function Kill(f: Forest, guard: Pid, targets: set<Pid>): Forest {
    map t | t in f :: if t != guard && t in targets && !f[t].zombie then f[t].(doomed := true) else f[t]
  }

  predicate ZombieChild(f: Forest, guard: Pid, p: Pid) {
    p in f && p != guard && f[p].parent == guard && f[p].zombie
  }

  /** waitpid(-1) would answer ECHILD. */
  predicate NoChild(f: Forest, guard: Pid) {
    forall p | p in f && p != guard :: f[p].parent != guard
  }

  ghost predicate HasOlderParent(f: Forest, p: Pid) {
    p in f && f[p].parent in f && !f[f[p].parent].zombie && f[f[p].parent].born < f[p].born
  }

  lemma ExitKeepsParent(f: Forest, guard: Pid, p: Pid, t: Pid)
    requires Rooted(f, guard) && p in f && p != guard && t in f && t != guard
    ensures HasOlderParent(ExitOf(f, guard, p), t)
  {
    var g, q := ExitOf(f, guard, p), Adopter(f, guard, p);
    assert HasOlderParent(f, t);
    if f[t].parent == p {
      assert t != p && q != p && q != t;
    }
  }

  lemma ExitKeepsRoots(f: Forest, guard: Pid, p: Pid)
    requires Rooted(f, guard) && p in f && p != guard
    ensures Rooted(ExitOf(f, guard, p), guard)
  {
    var g := ExitOf(f, guard, p);
    forall t | t in g && t != guard ensures HasOlderParent(g, t) {
      ExitKeepsParent(f, guard, p, t);
    }
  }

  lemma KillKeepsRoots(f: Forest, guard: Pid, targets: set<Pid>)
    requires Rooted(f, guard)
    ensures Rooted(Kill(f, guard, targets), guard)
  {
    var g := Kill(f, guard, targets);
    forall t | t in g && t != guard ensures HasOlderParent(g, t) {
      assert HasOlderParent(f, t);
    }
  }

  lemma StepKeepsRoots(f: Forest, guard: Pid, s: Step)
    requires Rooted(f, guard) && Enabled(f, guard, s)
    ensures Rooted(Next(f, guard, s), guard)
  {
    if s.Exit? { ExitKeepsRoots(f, guard, s.pid); }
  }

  lemma ReapKeepsRoots(f: Forest, guard: Pid, p: Pid)
    requires Rooted(f, guard) && ZombieChild(f, guard, p)
    ensures Rooted(f - {p}, guard)
  {
  }

  /** A step of the whole system: a task, a kill by the guard, or the guard reaping one child. */
  datatype Label = Env(step: Step) | KillBy(targets: set<Pid>) | Reaped(pid: Pid)

  predicate Allowed(f: Forest, guard: Pid, l: Label) {
    match l
    case Env(s) => Enabled(f, guard, s)
    case KillBy(_) => true
    case Reaped(p) => ZombieChild(f, guard, p)
  }

  function After(f: Forest, guard: Pid, l: Label): Forest
    requires Rooted(f, guard) && Allowed(f, guard, l)
  {
    match l
    case Env(s) => Next(f, guard, s)
    case KillBy(targets) => Kill(f, guard, targets)
    case Reaped(p) => f - {p}
  }

  lemma AfterKeepsRoots(f: Forest, guard: Pid, l: Label)
    requires Rooted(f, guard) && Allowed(f, guard, l)
    ensures Rooted(After(f, guard, l), guard)
  {
    match l
    case Env(s) => StepKeepsRoots(f, guard, s);
    case KillBy(targets) => KillKeepsRoots(f, guard, targets);
    case Reaped(p) => ReapKeepsRoots(f, guard, p);
  }

  /** `l` leads from `f` to `g`. */
  ghost predicate Leads(f: Forest, guard: Pid, l: Label, g: Forest) {
    Allowed(f, guard, l) && (Rooted(f, guard) ==> g == After(f, guard, l))
  }

  ghost predicate Behaviour(t: seq<Forest>, labels: seq<Label>, guard: Pid) {
    && |t| == |labels| + 1 && Rooted(t[0], guard)
    && forall i | 0 <= i < |labels| :: Leads(t[i], guard, labels[i], t[i + 1])
  }

  lemma LeadsKeepsRoots(f: Forest, guard: Pid, l: Label, g: Forest)
    requires Rooted(f, guard) && Leads(f, guard, l, g)
    ensures Rooted(g, guard)
  {
    AfterKeepsRoots(f, guard, l);
  }

  lemma {:induction false} AlwaysRooted(t: seq<Forest>, labels: seq<Label>, guard: Pid, i: nat)
    requires Behaviour(t, labels, guard) && i < |t|
    ensures Rooted(t[i], guard)
  {
    if i > 0 {
      AlwaysRooted(t, labels, guard, i - 1);
      LeadsKeepsRoots(t[i - 1], guard, labels[i - 1], t[i]);
    }
  }

  /** In every interleaving of fork, exit, reparenting, kill and wait, every task keeps a chain of
      living parents to the guard. */
  lemma ChainsReachTheGuard(t: seq<Forest>, labels: seq<Label>, guard: Pid, i: nat, p: Pid)
    requires Behaviour(t, labels, guard) && i < |t| && p in t[i]
    ensures Rooted(t[i], guard)
    ensures var c := Chain(t[i], guard, p);
            |c| > 0 && c[0] == p && c[|c| - 1] == guard && IsChain(t[i], c)
  {
    AlwaysRooted(t, labels, guard, i);
    ChainEndsInTheGuard(t[i], guard, p);
  }

  /** ECHILD means the whole tree is gone. */
  lemma NoChildMeansNobody(f: Forest, guard: Pid)
    requires Rooted(f, guard) && NoChild(f, guard)
    ensures f.Keys == {guard}
  {
    forall p | p in f ensures p == guard {
      if p != guard {
        var c := Chain(f, guard, p);
        ChainEndsInTheGuard(f, guard, p);
        LastLink(f, guard, p);
      }
    }
  }

  /** The last but one of a chain is a child of the guard, and not the guard. */
  lemma {:induction false} LastLink(f: Forest, guard: Pid, p: Pid)
    requires Rooted(f, guard) && p in f && p != guard
    ensures var c := Chain(f, guard, p);
            |c| > 1 && c[|c| - 2] in f && c[|c| - 2] != guard && f[c[|c| - 2]].parent == guard
    decreases f[p].born
  {
    var rest := Chain(f, guard, f[p].parent);
    assert Chain(f, guard, p) == [p] + rest;
    if f[p].parent == guard {
      assert rest == [guard];
    } else {
      LastLink(f, guard, f[p].parent);
      assert ([p] + rest)[|rest| - 1] == rest[|rest| - 2];
    }
  }

  // ---- the code ---------------------------------------------------------------------------------

  datatype WaitResult = Child(pid: Pid) | Interrupted | Echild

  class Namespace {
    const guard: Pid
    var tasks: Forest

    ghost predicate Valid()
      reads this
    {
      Rooted(tasks, guard)
    }

    ghost predicate AllDoomed()
      reads this
    {
      forall p | p in tasks && p != guard :: tasks[p].doomed || tasks[p].zombie
    }

    /** kill(-1, SIGKILL): every other task of the namespace, at once. */
    method KillNamespace()
      requires Valid()
      modifies this`tasks
      ensures Valid() && AllDoomed() && tasks.Keys == old(tasks).Keys
      ensures tasks == Kill(old(tasks), guard, old(tasks).Keys)
    {
      KillKeepsRoots(tasks, guard, tasks.Keys);
      tasks := Kill(tasks, guard, tasks.Keys);
    }

    /** Doomed tasks exit, in any number and order; they can do nothing else. */
    method TasksExit()
      requires Valid() && AllDoomed()
      modifies this`tasks
      ensures Valid() && AllDoomed() && tasks.Keys == old(tasks).Keys
    {
      var exiting: set<Pid> :| exiting <= tasks.Keys - {guard};
      while exiting != {}
        invariant Valid() && AllDoomed() && tasks.Keys == old(tasks).Keys && exiting <= tasks.Keys - {guard}
        decreases |exiting|
      {
        var p :| p in exiting;
        exiting := exiting - {p};
        if !tasks[p].zombie {
          ExitKeepsRoots(tasks, guard, p);
          tasks := ExitOf(tasks, guard, p);
        }
      }
    }

    /** waitpid(-1, 0) after a kill of everybody: it blocks until some child has exited. A signal
        may interrupt it, finitely often. */
    method WaitAny(interrupts: nat) returns (r: WaitResult)
      requires Valid() && AllDoomed()
      modifies this`tasks
      ensures Valid() && AllDoomed()
      ensures r.Echild? ==> NoChild(tasks, guard) && tasks.Keys == old(tasks).Keys
      ensures r.Interrupted? ==> interrupts > 0 && tasks.Keys == old(tasks).Keys
      ensures r.Child? ==> r.pid in old(tasks) && r.pid != guard && tasks.Keys == old(tasks).Keys - {r.pid}
    {
      if NoChild(tasks, guard) { return Echild; }
      TasksExit();
      var interrupted: bool :| interrupted ==> interrupts > 0;
      if interrupted { return Interrupted; }
      if NoChild(tasks, guard) { return Echild; }
      var p :| p in tasks && p != guard && tasks[p].parent == guard;
      if !tasks[p].zombie {
        ExitKeepsRoots(tasks, guard, p);
        tasks := ExitOf(tasks, guard, p);
        StaysChild(tasks, guard, p);
      }
      ReapKeepsRoots(tasks, guard, p);
      tasks := tasks - {p};
      return Child(p);
    }

    /** wait() for one direct child. */
    method WaitChild(child: Pid)
      requires Valid() && AllDoomed() && child in tasks && child != guard && tasks[child].parent == guard
      modifies this`tasks
      ensures Valid() && AllDoomed() && tasks.Keys == old(tasks).Keys - {child}
    {
      if !tasks[child].zombie {
        ExitKeepsRoots(tasks, guard, child);
        tasks := ExitOf(tasks, guard, child);
      }
      ReapKeepsRoots(tasks, guard, child);
      tasks := tasks - {child};
    }

    /** `reap_tasks`. It terminates because a namespace-wide kill leaves nobody who could fork: the
        number of tasks is the measure. It ends only when nobody but the guard is left, and has
        then counted every task other than the guard and the given child exactly once. */
    method ReapTasks(child: Option<Pid>, interrupts: nat) returns (reaped: nat)
      requires Valid()
      requires child.Some? ==> child.value in tasks && child.value != guard && tasks[child.value].parent == guard
      modifies this`tasks
      ensures tasks.Keys == {guard}
      ensures reaped + (if child.Some? then 2 else 1) == |old(tasks)|
    {
      KillNamespace();
      SameSize(tasks, old(tasks));
      if child.Some? {
        ghost var before := tasks;
        WaitChild(child.value);
        OneLess(before, tasks, child.value);
      }
      reaped := 0;
      var left := interrupts;
      ghost var total := |tasks|;
      while true
        invariant Valid() && AllDoomed() && reaped + |tasks| == total
        decreases |tasks|, left
      {
        ghost var before := tasks;
        var r := WaitAny(left);
        match r
        case Child(pid) =>
          OneLess(before, tasks, pid);
          reaped := reaped + 1;
          ghost var now := tasks;
          KillNamespace();
          SameSize(tasks, now);
        case Interrupted =>
          SameSize(tasks, before);
          left := left - 1;
        case Echild =>
          NoChildMeansNobody(tasks, guard);
          SameSize(tasks, before);
          assert |tasks.Keys| == 1;
          return;
      }
    }

    constructor (guard: Pid, tasks: Forest)
      requires Rooted(tasks, guard)
      ensures Valid() && this.guard == guard && this.tasks == tasks
    {
      this.guard := guard;
      this.tasks := tasks;
    }

    /** The browser guard's `reap`: it kills only its direct children, so tasks may go on forking
        between any two of its steps. `env` is what happens in the successive rounds; the loop
        may outlast it, but if it ends, it ends on ECHILD with the whole tree gone. */
    method ReapSubtree(env: seq<seq<Step>>) returns (done: bool)
      requires Valid()
      modifies this`tasks
      ensures Valid()
      ensures done ==> tasks.Keys == {guard}
    {
      for i := 0 to |env|
        invariant Valid()
      {
        var children := set p | p in tasks && p != guard && tasks[p].parent == guard;
        KillKeepsRoots(tasks, guard, children);
        tasks := Kill(tasks, guard, children);
        for j := 0 to |env[i]|
          invariant Valid()
        {
          if Enabled(tasks, guard, env[i][j]) {
            StepKeepsRoots(tasks, guard, env[i][j]);
            tasks := Next(tasks, guard, env[i][j]);
          }
        }
        if NoChild(tasks, guard) {
          NoChildMeansNobody(tasks, guard);
          return true;
        }
        if exists p | p in tasks :: ZombieChild(tasks, guard, p) {
          var p :| p in tasks && ZombieChild(tasks, guard, p);
          ReapKeepsRoots(tasks, guard, p);
          tasks := tasks - {p};
        }
      }
      return false;
    }
  }

  // ---- the guard inside its namespace ------------------------------------------------------------

  datatype Emission = Ready | Complete(exitCode: nat, reaped: nat)

  /** A wait status as an exit code: a signal n becomes 128 + n, and nothing exceeds 255. */
  function ExitCode(status: int): (r: nat)
    ensures r <= 255 && (0 <= status <= 255 ==> r == status) && (-127 <= status < 0 ==> r == 128 - status)
    ensures r == 0 <==> status == 0
  {
    var code := if status >= 0 then status else 128 - status;
    if code <= 255 then code else 255
  }

  /** The guard's own child: nobody else can reap or adopt it. */
  ghost predicate IsChild(f: Forest, guard: Pid, child: Pid) {
    child in f && child != guard && f[child].parent == guard
  }

  /** The forest after `steps`, each taken where the kernel allows it. */
  ghost function Ran(f: Forest, guard: Pid, steps: seq<Step>): (g: Forest)
    requires Rooted(f, guard)
    ensures Rooted(g, guard)
    decreases |steps|
  {
    if steps == [] then f
    else if !Enabled(f, guard, steps[0]) then Ran(f, guard, steps[1..])
    else
      StepKeepsRoots(f, guard, steps[0]);
      Ran(Next(f, guard, steps[0]), guard, steps[1..])
  }

  /** Everything that happens in the namespace until the guard takes over again. */
  method RunTasks(namespace: Namespace, child: Pid, steps: seq<Step>)
    requires namespace.Valid() && IsChild(namespace.tasks, namespace.guard, child)
    modifies namespace
    ensures namespace.Valid() && IsChild(namespace.tasks, namespace.guard, child)
    ensures namespace.tasks == Ran(old(namespace.tasks), namespace.guard, steps)
  {
    ghost var guard := namespace.guard;
    for i := 0 to |steps|
      invariant namespace.Valid() && IsChild(namespace.tasks, namespace.guard, child)
      invariant Ran(old(namespace.tasks), guard, steps) == Ran(namespace.tasks, guard, steps[i..])
    {
      assert steps[i..][0] == steps[i] && steps[i..][1..] == steps[i + 1..];
      if Enabled(namespace.tasks, namespace.guard, steps[i]) {
        StepKeepsRoots(namespace.tasks, namespace.guard, steps[i]);
        namespace.tasks := Next(namespace.tasks, namespace.guard, steps[i]);
      }
    }
  }

  /** The namespace as the guard leaves it to the task it starts. */
  function Started(f: Forest, guard: Pid): (g: Forest)
    requires f.Keys == {guard} && Rooted(f, guard)
    ensures Rooted(g, guard) && IsChild(g, guard, guard + 1)
  {
    f[guard + 1 := Task(guard, f[guard].born + 1, false, false, false)]
  }

  /** The end of the task, awaited or not, and then of everybody it has left behind. */
  method Finish(namespace: Namespace, child: Pid, awaited: bool, interrupts: nat) returns (reaped: nat)
    requires namespace.Valid() && IsChild(namespace.tasks, namespace.guard, child)
    modifies namespace`tasks
    ensures namespace.tasks.Keys == {namespace.guard} && reaped + 2 == |old(namespace.tasks)|
  {
    var guard := namespace.guard;
    if !awaited {
      reaped := namespace.ReapTasks(Some(child), interrupts);
      return;
    }
    if !namespace.tasks[child].zombie {
      ExitKeepsRoots(namespace.tasks, guard, child);
      namespace.tasks := ExitOf(namespace.tasks, guard, child);
    }
    ReapKeepsRoots(namespace.tasks, guard, child);
    OneLess(old(namespace.tasks), namespace.tasks - {child}, child);
    namespace.tasks := namespace.tasks - {child};
    reaped := namespace.ReapTasks(None, interrupts);
  }

  /** One task, from its start to the end of its tree. */
  method OneTask(namespace: Namespace, steps: seq<Step>, awaited: bool, interrupts: nat) returns (reaped: nat)
    requires namespace.Valid() && namespace.tasks.Keys == {namespace.guard}
    modifies namespace
    ensures namespace.tasks.Keys == {namespace.guard}
    ensures var ran := Ran(Started(old(namespace.tasks), namespace.guard), namespace.guard, steps);
            IsChild(ran, namespace.guard, namespace.guard + 1) && reaped + 2 == |ran|
  {
    namespace.tasks := Started(namespace.tasks, namespace.guard);
    RunTasks(namespace, namespace.guard + 1, steps);
    reaped := Finish(namespace, namespace.guard + 1, awaited, interrupts);
  }

  /** What else may fail in `inside`: building the workspace, starting the task, a signal, reading the
      log or collecting the output. */
  datatype Fate = Fate(materializes: bool, spawns: bool, cancelled: bool, collects: bool)

  /** `inside`: READY once the workspace stands, then exactly the line GO, then one task tree, which is
      gone before its output is collected and reported. `status` is the task's wait status unless it
      timed out. What is counted is every task that the started one has left behind, itself and the
      guard excepted, once each. However it ends, no task is left. */
  method Inside(namespace: Namespace, line: Data, fate: Fate, steps: seq<Step>, status: Option<int>, interrupts: nat)
    returns (emitted: seq<Emission>, reaped: nat)
    requires namespace.Valid() && namespace.tasks.Keys == {namespace.guard}
    modifies namespace
    ensures namespace.tasks.Keys == {namespace.guard}
    ensures emitted == if !fate.materializes then []
                       else if line == GO_LINE && fate.spawns && !fate.cancelled && fate.collects
                       then [Ready, Complete(if status.Some? then ExitCode(status.value) else 124, reaped)]
                       else [Ready]
    ensures line != GO_LINE || !fate.materializes || !fate.spawns ==> namespace.tasks == old(namespace.tasks) && reaped == 0
    ensures line == GO_LINE && fate.materializes && fate.spawns ==>
              var ran := Ran(Started(old(namespace.tasks), namespace.guard), namespace.guard, steps);
              IsChild(ran, namespace.guard, namespace.guard + 1) && reaped + 2 == |ran|
  {
    emitted, reaped := [], 0;
    if !fate.materializes { return; }
    emitted := [Ready];
    if line != GO_LINE || !fate.spawns { return; }
    reaped := OneTask(namespace, steps, status.Some? && !fate.cancelled, interrupts);
    if fate.cancelled || !fate.collects { return; }
    emitted := emitted + [Complete(if status.Some? then ExitCode(status.value) else 124, reaped)];
  }

  lemma StaysChild(f: Forest, guard: Pid, p: Pid)
    requires Rooted(f, guard) && p in f && p != guard && f[p].zombie && f[p].parent == guard
    ensures ZombieChild(f, guard, p)
  {
  }

  lemma SameSize(f: Forest, g: Forest)
    requires f.Keys == g.Keys
    ensures |f| == |g|
  {
    assert |f| == |f.Keys| && |g| == |g.Keys|;
  }

  lemma OneLess(f: Forest, g: Forest, p: Pid)
    requires p in f && g.Keys == f.Keys - {p}
    ensures |g| + 1 == |f|
  {
    assert |f| == |f.Keys| && |g| == |g.Keys|;
  }
}
