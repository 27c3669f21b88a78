/** Where a controller runs: the whole system's trace so far, extended by everybody. */
module ControllerSite {
  import opened Records
  import opened RunDirectory
  import opened ControllerState
  import opened ControllerInvariant
  import opened ControllerProof
  import opened ControllerSteps
  import opened ControllerTheorems
  import opened ControllerShapes

  /** A step of anybody but `pid`, after which `pid` is still alive. */
  predicate Elsewhere(l: Label, pid: Pid) {
    match l
    case Spawn(q, _, _) => q != pid
    case Acquire(q) => q != pid
    case Refused(q) => q != pid
    case Move(q, _) => q != pid
    case Kill(q) => q != pid
    case MachineCrash(_, _) => false
    case _ => true
  }

  lemma ElsewhereKeeps(w: World, l: Label, pid: Pid)
    requires Inv(w) && Enabled(w, l) && Elsewhere(l, pid)
    ensures pid in w.procs ==> pid in Next(w, l).procs && Next(w, l).procs[pid] == w.procs[pid]
    ensures pid in w.spawned <==> pid in Next(w, l).spawned
    ensures pid in w.procs && Critical(w.procs[pid].pc) ==>
              Next(w, l).core.dirs == w.core.dirs && Next(w, l).core.history == w.core.history
  {
    if l.Move? { MoveShape(w, l.pid, l.choice); }
  }

  class Site {
    var trace: seq<World>
    var labels: seq<Label>

    ghost predicate Valid()
      reads this
    {
      Behaviour(trace, labels)
    }

    function Now(): World
      reads this
      requires |trace| > 0
    {
      trace[|trace| - 1]
    }

    constructor ()
      ensures Valid() && Now() == EMPTY_WORLD
    {
      trace, labels := [EMPTY_WORLD], [];
    }

    method Take(l: Label)
      requires Valid() && Enabled(Now(), l)
      modifies this
      ensures Valid() && trace == old(trace) + [Next(old(Now()), l)]
    {
      ghost var t, k := trace, labels;
      labels := labels + [l];
      trace := trace + [Next(Now(), l)];
      forall i | 0 <= i < |labels| ensures Enabled(trace[i], labels[i]) && trace[i + 1] == Next(trace[i], labels[i]) {
        if i < |k| { assert trace[i] == t[i] && trace[i + 1] == t[i + 1] && labels[i] == k[i]; }
      }
    }

    /** Everybody else: other controllers, the manager, the server. */
    method Others(pid: Pid)
      requires Valid()
      modifies this
      ensures Valid() && old(trace) <= trace
      ensures pid in old(Now()).procs ==> pid in Now().procs && Now().procs[pid] == old(Now()).procs[pid]
      ensures pid in old(Now()).spawned <==> pid in Now().spawned
      ensures pid in old(Now()).procs && Critical(old(Now()).procs[pid].pc) ==>
                Now().core.dirs == old(Now()).core.dirs && Now().core.history == old(Now()).core.history
    {
      var rounds: nat :| true;
      for i := 0 to rounds
        invariant Valid() && old(trace) <= trace
        invariant pid in old(Now()).procs ==> pid in Now().procs && Now().procs[pid] == old(Now()).procs[pid]
        invariant pid in old(Now()).spawned <==> pid in Now().spawned
        invariant pid in old(Now()).procs && Critical(old(Now()).procs[pid].pc) ==>
                    Now().core.dirs == old(Now()).core.dirs && Now().core.history == old(Now()).core.history
      {
        var l: Label := *;
        if Elsewhere(l, pid) && Enabled(Now(), l) {
          Reachable(trace, labels, |labels|);
          ElsewhereKeeps(Now(), l, pid);
          Take(l);
        }
      }
    }

    /** One effect of `pid`, with whatever outcome the world has for it. */
    method Do(pid: Pid) returns (ch: Choice, ghost c: Core)
      requires Valid() && pid in Now().procs && Critical(Now().procs[pid].pc)
      modifies this
      ensures Valid() && old(trace) <= trace && pid in Now().procs
      ensures CoreInv(c) && ProcOk(c, pid, old(Now()).procs[pid]) && c.dirs == old(Now()).core.dirs
      ensures c.history == old(Now()).core.history
      ensures !Sends(old(Now()).procs[pid].pc) ==> Now().core.history == old(Now()).core.history
      ensures Allows(c, old(Now()).procs[pid], ch)
      ensures (Now().core, Now().procs[pid]) == Act(c, pid, old(Now()).procs[pid], ch)
    {
      ghost var p := Now().procs[pid];
      Others(pid);
      c := Now().core;
      RaiseIsAllowed(c, p);
      Reachable(trace, labels, |labels|);
      assert ProcOk(c, pid, p);
      ch :| Allows(Now().core, Now().procs[pid], ch);
      MoveShape(Now(), pid, ch);
      if !Sends(p.pc) { QuietAct(c, pid, p, ch); }
      Take(Move(pid, ch));
    }

    /** Did the effect raise? */
    predicate Raised(pid: Pid)
      reads this
      requires |trace| > 0 && pid in Now().procs
    {
      Now().procs[pid].pc.EnterAbort? || Now().procs[pid].pc.Finished?
    }
  }
}
