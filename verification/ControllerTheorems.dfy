/** What holds in every run of any number of controllers, crashes and restarts. */
module ControllerTheorems {
  import opened Records
  import opened RunDirectory
  import opened ControllerState
  import opened ControllerInvariant
  import opened ControllerProof
  import opened ControllerSteps

  // ---- what one step can do to the disk and to the history --------------------------------

  lemma LinkNeverOverwrites(d: RunDir, draft: Draft)
    ensures var e := LinkDraft(d, draft); e.Some? ==> Improves(d, e.value)
  {
  }

  ghost predicate OnlyImprovesDisk(c: Core, c1: Core) {
    c1 == c.(dirs := c1.dirs) && forall r | r in c.dirs :: r in c1.dirs && Improves(c.dirs[r], c1.dirs[r])
  }

  lemma ScanningImproves(c: Core, p: Proc, ch: Choice)
    requires (p.pc.Scan? || p.pc.ScanSync? || p.pc.CheckFresh?) && SetupAllows(c, p, ch)
    ensures OnlyImprovesDisk(c, Setup(c, p, ch).0)
  {
  }

  lemma DirectoryImproves(c: Core, p: Proc, ch: Choice)
    requires (p.pc.MakeDir? || p.pc.SyncDirs?) && SetupAllows(c, p, ch)
    ensures OnlyImprovesDisk(c, Setup(c, p, ch).0)
  {
  }

  lemma TicketImproves(c: Core, p: Proc, ch: Choice)
    requires (p.pc.LinkTicket? || p.pc.SyncTicket?) && SetupAllows(c, p, ch)
    ensures OnlyImprovesDisk(c, Setup(c, p, ch).0)
  {
  }

  lemma SetupImproves(c: Core, p: Proc, ch: Choice)
    requires SetupPc(p.pc) && SetupAllows(c, p, ch)
    ensures var c1 := Setup(c, p, ch).0;
            forall r | r in c.dirs :: r in c1.dirs && Improves(c.dirs[r], c1.dirs[r])
    ensures Setup(c, p, ch).0 == c.(dirs := Setup(c, p, ch).0.dirs)
  {
    if p.pc.Scan? || p.pc.ScanSync? || p.pc.CheckFresh? { ScanningImproves(c, p, ch);
    } else if p.pc.MakeDir? || p.pc.SyncDirs? { DirectoryImproves(c, p, ch);
    } else if p.pc.LinkTicket? || p.pc.SyncTicket? { TicketImproves(c, p, ch); }
  }

  lemma JournalImproves(c: Core, p: Proc, ch: Choice)
    requires JournalPc(p.pc) && JournalAllows(c, p, ch)
    ensures var c1 := Journal(c, p, ch).0;
            forall r | r in c.dirs :: r in c1.dirs && Improves(c.dirs[r], c1.dirs[r])
    ensures Journal(c, p, ch).0 == c.(dirs := Journal(c, p, ch).0.dirs)
  {
    if !ch.Raise? {
      if p.pc.Barrier? {
        BarrierShape(c, p, ch);
      } else if p.pc.Link? {
        LinkShape(c, p, ch);
        if p.run in c.dirs { LinkNeverOverwrites(c.dirs[p.run], p.pc.draft); }
      } else if p.run in c.dirs {
        SyncShape(c, p, ch);
      }
    }
  }

  ghost predicate SendsOne(c: Core, c1: Core, pid: Pid, p: Proc) {
    && |c1.history| == |c.history| + 1 && c.history <= c1.history
    && c1.history[|c.history|].pid == pid
    && (c1.history[|c.history|].GoSent? ==> p.pc.SendGo?)
  }

  ghost predicate LaunchesOne(c: Core, c1: Core, pid: Pid, p: Proc, ch: Choice) {
    && p.pc.LaunchUnit? && !ch.Raise? && p.launch.Some?
    && p.launch.value.unit in c1.units && c1.units[p.launch.value.unit].launcher == pid
    && c1.units == c.units[p.launch.value.unit := c1.units[p.launch.value.unit]]
  }

  lemma PhysicalImproves(c: Core, pid: Pid, p: Proc, ch: Choice)
    requires UnitPc(p.pc) && UnitAllows(c, p, ch)
    ensures var c1 := Physical(c, pid, p, ch).0;
            && (forall r | r in c.dirs :: r in c1.dirs && Improves(c.dirs[r], c1.dirs[r]))
            && (c1.history == c.history
                || (c1.dirs == c.dirs && c1.units == c.units && SendsOne(c, c1, pid, p)))
            && (c1.units == c.units || LaunchesOne(c, c1, pid, p, ch))
  {
  }

  lemma NetworkImproves(c: Core, pid: Pid, p: Proc, ch: Choice)
    requires NetworkPc(p.pc) && NetworkAllows(c, p, ch)
    ensures var c1 := Network(c, pid, p, ch).0;
            && c1.dirs == c.dirs && c1.units == c.units
            && (c1.history == c.history || SendsOne(c, c1, pid, p))
  {
  }

  lemma RecoveryOnlySyncs(c: Core, p: Proc, ch: Choice)
    requires RecoveryPc(p.pc) && RecoveryAllows(ch)
    ensures var c1 := Recovery(c, p, ch).0; c1 == c || (p.run in c.dirs && c1 == Put(c, p.run, SyncDir(c.dirs[p.run])))
  {
  }

  lemma RecoveryImproves(c: Core, p: Proc, ch: Choice)
    requires RecoveryPc(p.pc) && RecoveryAllows(ch)
    ensures var c1 := Recovery(c, p, ch).0;
            forall r | r in c.dirs :: r in c1.dirs && Improves(c.dirs[r], c1.dirs[r])
    ensures Recovery(c, p, ch).0 == c.(dirs := Recovery(c, p, ch).0.dirs)
  {
    RecoveryOnlySyncs(c, p, ch);
  }

  /** One step of a process overwrites no record, sends at most one thing, and sends GO only at SendGo. */
  lemma ActImproves(c: Core, pid: Pid, p: Proc, ch: Choice)
    requires Allows(c, p, ch)
    ensures var c1 := Act(c, pid, p, ch).0;
            && (forall r | r in c.dirs :: r in c1.dirs && Improves(c.dirs[r], c1.dirs[r]))
            && (c1.history == c.history
                || (c1.dirs == c.dirs && c1.units == c.units && SendsOne(c, c1, pid, p)))
            && (c1.units == c.units || LaunchesOne(c, c1, pid, p, ch))
  {
    if SetupPc(p.pc) { SetupImproves(c, p, ch);
    } else if JournalPc(p.pc) { JournalImproves(c, p, ch);
    } else if UnitPc(p.pc) { PhysicalImproves(c, pid, p, ch);
    } else if NetworkPc(p.pc) { NetworkImproves(c, pid, p, ch);
    } else { RecoveryImproves(c, p, ch); }
  }

  lemma ActMode(c: Core, pid: Pid, p: Proc, ch: Choice)
    requires Allows(c, p, ch)
    ensures Act(c, pid, p, ch).1.mode.ReconcileMode? <==> p.mode.ReconcileMode?
  {
  }

  // ---- runs -------------------------------------------------------------------------------

  /** The invariant holds in every state of every run. */
  lemma {:induction false} Reachable(t: seq<World>, labels: seq<Label>, i: nat)
    requires Behaviour(t, labels) && i < |t|
    ensures Inv(t[i])
  {
    if i == 0 {
    } else {
      Reachable(t, labels, i - 1);
      NextKeeps(t[i - 1], labels[i - 1]);
    }
  }

  /** No two units launched for the worker are ever both unstopped, counting as unstopped even a
      request whose reply was lost and which may start at any later time. */
  lemma PhysicalMutualExclusion(t: seq<World>, labels: seq<Label>, i: nat, u: UnitName, v: UnitName)
    requires Behaviour(t, labels) && i < |t|
    requires Unstopped(t[i].core, u) && Unstopped(t[i].core, v)
    ensures u == v
  {
    Reachable(t, labels, i);
  }

  lemma LaunchingAlone(c: Core, pid: Pid, p: Proc)
    requires ProcOk(c, pid, p) && p.pc.LaunchUnit?
    ensures p.run in c.dirs && Alone(c, p.run)
    ensures c.dirs[p.run].entryDurable && c.dirs[p.run].claim.Durable? && c.dirs[p.run].launch.Durable?
  {
  }

  lemma ResolvedIsSealed(c: Core, r: Run)
    requires CoreInv(c) && r in c.dirs && Resolved(c.dirs[r])
    ensures SealedStop(c, r)
  {
    assert DirOk(c, r);
    DurableStopIsSealed(c, r);
  }

  /** A unit is requested only when the Run's own directory, ticket and launch record are durable
      and every other Run directory carries a durable acknowledgement of a sealed stop. An
      acknowledgement that was only visible when the scan began is durable by then. */
  lemma LaunchRestsOnDurableAcknowledgements(t: seq<World>, labels: seq<Label>, i: nat, pid: Pid, ch: Choice, other: Run)
    requires Behaviour(t, labels) && i < |labels| && labels[i] == Move(pid, ch)
    requires t[i].procs[pid].pc.LaunchUnit? && !ch.Raise?
    requires other in t[i].core.dirs
    ensures var c, run := t[i].core, t[i].procs[pid].run;
            && run in c.dirs && c.dirs[run].entryDurable && c.dirs[run].claim.Durable? && c.dirs[run].launch.Durable?
            && (other != run ==> Resolved(c.dirs[other]) && SealedStop(c, other))
  {
    Reachable(t, labels, i);
    var c, p := t[i].core, t[i].procs[pid];
    assert ProcOk(c, pid, p);
    LaunchingAlone(c, pid, p);
    if other != p.run { ResolvedIsSealed(c, other); }
  }

  // ---- GO ---------------------------------------------------------------------------------

  /** Reconcilers and their processes: who may launch and send GO. */
  ghost predicate Kinds(w: World) {
    && (forall pid | pid in w.procs :: pid in w.spawned && (w.spawned[pid] <==> w.procs[pid].mode.ReconcileMode?))
    && (forall e | e in w.core.history && e.GoSent? :: e.pid in w.spawned && !w.spawned[e.pid])
    && (forall u | u in w.core.units :: w.core.units[u].launcher in w.spawned && !w.spawned[w.core.units[u].launcher])
  }

  /** Sending GO and launching are steps of `run` alone. */
  lemma ExecutionIsRunMode(w: World, pid: Pid)
    requires Inv(w) && pid in w.procs && (w.procs[pid].pc.SendGo? || w.procs[pid].pc.LaunchUnit?)
    ensures w.procs[pid].mode.RunMode?
  {
    assert ProcOk(w.core, pid, w.procs[pid]);
  }

  lemma MoveKeepsKinds(w: World, pid: Pid, ch: Choice)
    requires Inv(w) && Kinds(w) && Enabled(w, Move(pid, ch))
    ensures Kinds(Next(w, Move(pid, ch)))
  {
    var p := w.procs[pid];
    assert (p.pc.SendGo? || p.pc.LaunchUnit?) ==> !w.spawned[pid] by {
      if p.pc.SendGo? || p.pc.LaunchUnit? { ExecutionIsRunMode(w, pid); }
    }
    ActImproves(w.core, pid, p, ch);
    ActMode(w.core, pid, p, ch);
    MoveShape(w, pid, ch);
    KindsFollow(w, pid, Act(w.core, pid, p, ch).0, Act(w.core, pid, p, ch).1, ch);
  }

  lemma KindsFollow(w: World, pid: Pid, c1: Core, p1: Proc, ch: Choice)
    requires Kinds(w) && pid in w.procs && (p1.mode.ReconcileMode? <==> w.procs[pid].mode.ReconcileMode?)
    requires w.procs[pid].pc.SendGo? || w.procs[pid].pc.LaunchUnit? ==> !w.spawned[pid]
    requires c1.history == w.core.history || SendsOne(w.core, c1, pid, w.procs[pid])
    requires c1.units == w.core.units || LaunchesOne(w.core, c1, pid, w.procs[pid], ch)
    ensures Kinds(World(c1, if Critical(p1.pc) then w.lock else None, w.procs[pid := p1], w.spawned))
  {
    forall e | e in c1.history && e.GoSent? ensures e.pid in w.spawned && !w.spawned[e.pid] {
      var k :| 0 <= k < |c1.history| && c1.history[k] == e;
      if k < |w.core.history| { assert w.core.history[k] == e; }
    }
  }

  lemma NextKeepsKinds(w: World, l: Label)
    requires Inv(w) && Kinds(w) && Enabled(w, l)
    ensures Kinds(Next(w, l))
  {
    if l.Move? { MoveKeepsKinds(w, l.pid, l.choice); }
  }

  lemma {:induction false} ReachableKinds(t: seq<World>, labels: seq<Label>, i: nat)
    requires Behaviour(t, labels) && i < |t|
    ensures Kinds(t[i])
  {
    if i == 0 {
    } else {
      ReachableKinds(t, labels, i - 1);
      Reachable(t, labels, i - 1);
      NextKeepsKinds(t[i - 1], labels[i - 1]);
    }
  }

  /** In the whole history, a Run id is sent GO at most once. */
  lemma AtMostOneGo(t: seq<World>, labels: seq<Label>, i: nat, j: nat, k: nat)
    requires Behaviour(t, labels) && i < |t|
    requires j < |t[i].core.history| && k < |t[i].core.history|
    requires t[i].core.history[j].GoSent? && t[i].core.history[k].GoSent?
    requires t[i].core.history[j].run == t[i].core.history[k].run
    ensures j == k
  {
    Reachable(t, labels, i);
  }

  /** Whatever is sent or released at a step, all it rests on was durable before the step. */
  lemma EffectsAreGuarded(t: seq<World>, labels: seq<Label>, i: nat, e: Event)
    requires Behaviour(t, labels) && i < |labels|
    requires t[i + 1].core.history == t[i].core.history + [e]
    ensures EventOk(t[i].core, e)
  {
    Reachable(t, labels, i);
    Reachable(t, labels, i + 1);
    var c, c1 := t[i].core, t[i + 1].core;
    assert c1.history[|c.history|] == e && e in c1.history;
    assert EventOk(c1, e);
    assert |c1.history| == |c.history| + 1;
    OnlyMovesSend(t[i], labels[i]);
    ActImproves(c, labels[i].pid, t[i].procs[labels[i].pid], labels[i].choice);
  }

  lemma OnlyMovesSend(w: World, l: Label)
    requires Enabled(w, l)
    ensures l.Move? || Next(w, l).core.history == w.core.history
  {
  }

  /** GO leaves only from `run`, after the run directory, ticket, launch record and an admitted
      record naming the unit launched by that same process became durable. */
  lemma GoIsAdmitted(t: seq<World>, labels: seq<Label>, i: nat, pid: Pid, run: Run, unit: UnitName)
    requires Behaviour(t, labels) && i < |labels|
    requires t[i + 1].core.history == t[i].core.history + [GoSent(pid, run, unit)]
    ensures pid in t[i].spawned && !t[i].spawned[pid]
    ensures var c := t[i].core;
            && run in c.dirs && c.dirs[run].entryDurable && c.dirs[run].claim.Durable?
            && c.dirs[run].launch.Durable? && c.dirs[run].launch.record.unit == unit
            && c.dirs[run].admitted.Durable? && c.dirs[run].admitted.record.identity.unit == unit
            && unit in c.units && c.units[unit].launcher == pid && c.units[unit].run == run
  {
    EffectsAreGuarded(t, labels, i, GoSent(pid, run, unit));
    ReachableKinds(t, labels, i);
  }

  /** `reconcile` never sends GO and never launches, from any crash state. */
  lemma ReconcileNeverExecutes(t: seq<World>, labels: seq<Label>, i: nat, pid: Pid)
    requires Behaviour(t, labels) && i < |t| && pid in t[i].spawned && t[i].spawned[pid]
    ensures forall e | e in t[i].core.history && e.GoSent? :: e.pid != pid
    ensures forall u | u in t[i].core.units :: t[i].core.units[u].launcher != pid
  {
    ReachableKinds(t, labels, i);
  }

  // ---- stops and completions --------------------------------------------------------------

  /** Every completion message of a Run carries the one output sealed in its stopped record,
      under the one lease of its ticket; a success code only for a unit that succeeded. */
  lemma OneSealedOutput(t: seq<World>, labels: seq<Label>, i: nat, e: Event, f: Event)
    requires Behaviour(t, labels) && i < |t|
    requires e in t[i].core.history && e.CompleteSent? && f in t[i].core.history && f.CompleteSent? && f.run == e.run
    ensures f.output == e.output && f.lease == e.lease
    ensures var c := t[i].core;
            && e.run in c.dirs && c.dirs[e.run].stopped.Durable?
            && c.dirs[e.run].stopped.record.output == Some(e.output)
            && (e.output.exitCode == 0 ==> c.dirs[e.run].stopped.record.observation.success)
  {
    Reachable(t, labels, i);
    assert EventOk(t[i].core, e) && EventOk(t[i].core, f);
  }

  /** An exit code 0 goes out only with a recorded success; and of a unit that did succeed exactly when
      the record does not also say `failed`, which a caller can see before it publishes. */
  lemma ZeroExitIsRealIff(t: seq<World>, labels: seq<Label>, i: nat, e: Event)
    requires Behaviour(t, labels) && i < |t| && e in t[i].core.history && e.CompleteSent? && e.output.exitCode == 0
    ensures var c := t[i].core;
            && e.run in c.dirs && c.dirs[e.run].stopped.Durable?
            && var o := c.dirs[e.run].stopped.record.observation;
               && o.success && UnitIs(c, e.run, o.identity) && c.units[o.identity.unit].status.UnitStopped?
               && (c.units[o.identity.unit].status == UnitStopped(true) <==> !o.failed)
  {
    Reachable(t, labels, i);
    assert EventOk(t[i].core, e);
  }

  /** A journaled completion, durable or not, means the server completed this very lease with
      the sealed output. */
  lemma CompletionIsTrue(t: seq<World>, labels: seq<Label>, i: nat, r: Run)
    requires Behaviour(t, labels) && i < |t| && r in t[i].core.dirs
    requires t[i].core.dirs[r].acknowledged.Present() && t[i].core.dirs[r].acknowledged.record.outcome.Completion?
    ensures var c, d := t[i].core, t[i].core.dirs[r];
            && r in c.completed && d.stopped.Durable? && d.claim.Durable? && d.stopped.record.output.Some?
            && c.completed[r].lease == d.claim.record.nonce == d.acknowledged.record.outcome.receipt.lease
            && d.stopped.record.output == Some(c.completed[r].output)
  {
    Reachable(t, labels, i);
    assert DirOk(t[i].core, r);
  }

  // ---- the chain --------------------------------------------------------------------------

  /** Whatever survived, the phases on disk are a valid prefix: `_chain` never meets a gap or a
      broken link that the code itself made. */
  lemma ChainIsNeverBroken(t: seq<World>, labels: seq<Label>, i: nat, r: Run)
    requires Behaviour(t, labels) && i < |t| && r in t[i].core.dirs
    ensures ChainAccepts(t[i].core.dirs[r])
  {
    Reachable(t, labels, i);
    assert DirOk(t[i].core, r);
  }

  lemma NextKeepsDurable(w: World, l: Label, r: Run)
    requires Enabled(w, l) && r in w.core.dirs && w.core.dirs[r].entryDurable
    ensures r in Next(w, l).core.dirs && KeepsDurable(w.core.dirs[r], Next(w, l).core.dirs[r])
  {
    match l
    case Move(pid, ch) => ActImproves(w.core, pid, w.procs[pid], ch);
    case MachineCrash(kept, names) => {}
    case _ => {}
  }

  /** A durable record is never lost and never changed, through any steps and any crashes. */
  lemma {:induction false} DurableForever(t: seq<World>, labels: seq<Label>, i: nat, j: nat, r: Run)
    requires Behaviour(t, labels) && i <= j < |t|
    requires r in t[i].core.dirs && t[i].core.dirs[r].entryDurable
    ensures r in t[j].core.dirs && KeepsDurable(t[i].core.dirs[r], t[j].core.dirs[r])
    decreases j - i
  {
    if i < j {
      NextKeepsDurable(t[i], labels[i], r);
      DurableForever(t, labels, i + 1, j, r);
    }
  }
}
