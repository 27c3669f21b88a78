/** Where the contents of a record came from: the sealed result is the one that was read, and an
    acknowledgement is the server's own answer. */
module ControllerProvenance {
  import opened Records
  import opened RunDirectory
  import opened ControllerState
  import opened ControllerInvariant
  import opened ControllerProof
  import opened ControllerSteps
  import opened ControllerTheorems

  /** Some process of Run `r` waited for its unit to stop and read this result. */
  ghost predicate WasRead(t: seq<World>, labels: seq<Label>, i: nat, r: Run, o: Observation) {
    exists j, pid :: ReadAt(t, labels, i, j, pid, r, o)
  }

  ghost predicate ReadAt(t: seq<World>, labels: seq<Label>, i: nat, j: nat, pid: Pid, r: Run, o: Observation) {
    && j < i && j < |labels| && j < |t| && labels[j] == Move(pid, Observed(o.success))
    && pid in t[j].procs && t[j].procs[pid].pc.WaitStopped? && t[j].procs[pid].run == r
    && t[j].procs[pid].identity == Some(o.identity)
  }

  /** The server answered some process of Run `r` with exactly this outcome. */
  ghost predicate WasAnswered(t: seq<World>, labels: seq<Label>, i: nat, r: Run, outcome: Outcome) {
    exists j, pid :: AnsweredAt(t, labels, i, j, pid, r, outcome)
  }

  ghost predicate AnsweredAt(t: seq<World>, labels: seq<Label>, i: nat, j: nat, pid: Pid, r: Run, outcome: Outcome) {
    && j < i && j < |labels| && j < |t| && pid in t[j].procs && t[j].procs[pid].run == r
    && match outcome
       case StopOnly(run, stopAck) => labels[j] == Move(pid, StopReplied(run, stopAck)) && t[j].procs[pid].pc.AwaitStop?
       case Completion(receipt) =>
         labels[j] == Move(pid, Replied(receipt)) && (t[j].procs[pid].pc.AwaitComplete? || t[j].procs[pid].pc.Status?)
  }

  // ---- one process ------------------------------------------------------------------------------

  /** The stopped record on its way to the disk, if any. */
  function StoppedUnderway(pc: Pc): Option<Stopped> {
    match pc
    case Link(StoppedDraft(s)) => Some(s)
    case SyncPhase(StoppedDraft(s)) => Some(s)
    case _ => None
  }

  /** The outcome on its way to the disk, if any. */
  function OutcomeUnderway(pc: Pc): Option<Outcome> {
    match pc
    case Barrier(PlanAcknowledged(outcome)) => Some(outcome)
    case Link(AcknowledgedDraft(a)) => Some(a.outcome)
    case SyncPhase(AcknowledgedDraft(a)) => Some(a.outcome)
    case _ => None
  }

  ghost predicate ProcTraced(t: seq<World>, labels: seq<Label>, i: nat, p: Proc) {
    && (p.observation.Some? ==> WasRead(t, labels, i, p.run, p.observation.value))
    && (StoppedUnderway(p.pc).Some? ==> WasRead(t, labels, i, p.run, StoppedUnderway(p.pc).value.observation))
    && (OutcomeUnderway(p.pc).Some? ==> WasAnswered(t, labels, i, p.run, OutcomeUnderway(p.pc).value))
  }

  ghost predicate DirTraced(t: seq<World>, labels: seq<Label>, i: nat, r: Run, d: RunDir) {
    && (d.stopped.Present() ==> WasRead(t, labels, i, r, d.stopped.record.observation))
    && (d.acknowledged.Present() ==> WasAnswered(t, labels, i, r, d.acknowledged.record.outcome))
  }

  /** What a step does to the process: an observation is kept or read at this step, a stopped record is
      built from the observation, an outcome is the answer of this step or on its way already. */
  ghost predicate ProcSource(p: Proc, ch: Choice, q: Proc) {
    && q.run == p.run
    && (q.observation == p.observation
        || (p.pc.WaitStopped? && ch.Observed? && p.identity.Some? && q.observation.Some?
            && q.observation.value.identity == p.identity.value && q.observation.value.success == ch.success))
    && (StoppedUnderway(q.pc).Some? ==>
          StoppedUnderway(q.pc) == StoppedUnderway(p.pc)
          || (p.observation.Some? && StoppedUnderway(q.pc).value.observation == p.observation.value))
    && (OutcomeUnderway(q.pc).Some? ==>
          || OutcomeUnderway(q.pc) == OutcomeUnderway(p.pc)
          || (p.pc.AwaitStop? && ch.StopReplied? && OutcomeUnderway(q.pc).value == StopOnly(ch.run, ch.stopAck))
          || ((p.pc.AwaitComplete? || p.pc.Status?) && ch.Replied? && OutcomeUnderway(q.pc).value == Completion(ch.receipt)))
  }

  /** What a step does to a directory: a record is kept, or it was underway in the stepping process. */
  ghost predicate DirSource(p: Proc, r: Run, d: RunDir, e: RunDir) {
    && (e.stopped.Present() ==>
          (d.stopped.Present() && d.stopped.record == e.stopped.record)
          || (r == p.run && StoppedUnderway(p.pc) == Some(e.stopped.record)))
    && (e.acknowledged.Present() ==>
          (d.acknowledged.Present() && d.acknowledged.record == e.acknowledged.record)
          || (r == p.run && OutcomeUnderway(p.pc) == Some(e.acknowledged.record.outcome)))
  }

  lemma SetupSource(c: Core, p: Proc, ch: Choice)
    requires SetupPc(p.pc) && SetupAllows(c, p, ch)
    ensures ProcSource(p, ch, Setup(c, p, ch).1)
  {
  }

  lemma JournalSource(c: Core, p: Proc, ch: Choice)
    requires JournalPc(p.pc) && JournalAllows(c, p, ch)
    ensures ProcSource(p, ch, Journal(c, p, ch).1)
  {
  }

  lemma PhysicalSource(c: Core, pid: Pid, p: Proc, ch: Choice)
    requires UnitPc(p.pc) && UnitAllows(c, p, ch)
    ensures ProcSource(p, ch, Physical(c, pid, p, ch).1)
  {
  }

  lemma NetworkSource(c: Core, pid: Pid, p: Proc, ch: Choice)
    requires NetworkPc(p.pc) && NetworkAllows(c, p, ch)
    ensures ProcSource(p, ch, Network(c, pid, p, ch).1)
  {
  }

  lemma RecoverySource(c: Core, p: Proc, ch: Choice)
    requires RecoveryPc(p.pc) && RecoveryAllows(ch)
    ensures ProcSource(p, ch, Recovery(c, p, ch).1)
  {
  }

  lemma ActSource(c: Core, pid: Pid, p: Proc, ch: Choice)
    requires Allows(c, p, ch)
    ensures ProcSource(p, ch, Act(c, pid, p, ch).1)
  {
    if SetupPc(p.pc) { SetupSource(c, p, ch);
    } else if JournalPc(p.pc) { JournalSource(c, p, ch);
    } else if UnitPc(p.pc) { PhysicalSource(c, pid, p, ch);
    } else if NetworkPc(p.pc) { NetworkSource(c, pid, p, ch);
    } else { RecoverySource(c, p, ch); }
  }

  // ---- the disk ---------------------------------------------------------------------------------

  ghost predicate DirsSource(c: Core, p: Proc, c1: Core) {
    forall r | r in c1.dirs :: DirSource(p, r, DirOf(c, r), c1.dirs[r])
  }

  lemma SetupDisk(c: Core, p: Proc, ch: Choice)
    requires SetupPc(p.pc) && SetupAllows(c, p, ch)
    ensures DirsSource(c, p, Setup(c, p, ch).0)
  {
  }

  lemma JournalDisk(c: Core, p: Proc, ch: Choice)
    requires JournalPc(p.pc) && JournalAllows(c, p, ch)
    ensures DirsSource(c, p, Journal(c, p, ch).0)
  {
  }

  lemma PhysicalDisk(c: Core, pid: Pid, p: Proc, ch: Choice)
    requires UnitPc(p.pc) && UnitAllows(c, p, ch)
    ensures DirsSource(c, p, Physical(c, pid, p, ch).0)
  {
  }

  lemma NetworkDisk(c: Core, pid: Pid, p: Proc, ch: Choice)
    requires NetworkPc(p.pc) && NetworkAllows(c, p, ch)
    ensures DirsSource(c, p, Network(c, pid, p, ch).0)
  {
  }

  lemma RecoveryDisk(c: Core, p: Proc, ch: Choice)
    requires RecoveryPc(p.pc) && RecoveryAllows(ch)
    ensures DirsSource(c, p, Recovery(c, p, ch).0)
  {
    RecoveryOnlySyncs(c, p, ch);
  }

  lemma ActDisk(c: Core, pid: Pid, p: Proc, ch: Choice)
    requires Allows(c, p, ch)
    ensures DirsSource(c, p, Act(c, pid, p, ch).0)
  {
    if SetupPc(p.pc) { SetupDisk(c, p, ch);
    } else if JournalPc(p.pc) { JournalDisk(c, p, ch);
    } else if UnitPc(p.pc) { PhysicalDisk(c, pid, p, ch);
    } else if NetworkPc(p.pc) { NetworkDisk(c, pid, p, ch);
    } else { RecoveryDisk(c, p, ch); }
  }

  // ---- every run --------------------------------------------------------------------------------

  ghost predicate Traced(t: seq<World>, labels: seq<Label>, i: nat)
    requires i < |t|
  {
    && (forall pid | pid in t[i].procs :: ProcTraced(t, labels, i, t[i].procs[pid]))
    && (forall r | r in t[i].core.dirs :: DirTraced(t, labels, i, r, t[i].core.dirs[r]))
  }

  lemma ReadLater(t: seq<World>, labels: seq<Label>, i: nat, r: Run, o: Observation)
    requires WasRead(t, labels, i, r, o)
    ensures WasRead(t, labels, i + 1, r, o)
  {
    var j, pid :| ReadAt(t, labels, i, j, pid, r, o);
    assert ReadAt(t, labels, i + 1, j, pid, r, o);
  }

  lemma AnsweredLater(t: seq<World>, labels: seq<Label>, i: nat, r: Run, outcome: Outcome)
    requires WasAnswered(t, labels, i, r, outcome)
    ensures WasAnswered(t, labels, i + 1, r, outcome)
  {
    var j, pid :| AnsweredAt(t, labels, i, j, pid, r, outcome);
    assert AnsweredAt(t, labels, i + 1, j, pid, r, outcome);
  }

  lemma ProcLater(t: seq<World>, labels: seq<Label>, i: nat, p: Proc)
    requires ProcTraced(t, labels, i, p)
    ensures ProcTraced(t, labels, i + 1, p)
  {
    if p.observation.Some? { ReadLater(t, labels, i, p.run, p.observation.value); }
    if StoppedUnderway(p.pc).Some? { ReadLater(t, labels, i, p.run, StoppedUnderway(p.pc).value.observation); }
    if OutcomeUnderway(p.pc).Some? { AnsweredLater(t, labels, i, p.run, OutcomeUnderway(p.pc).value); }
  }

  lemma DirLater(t: seq<World>, labels: seq<Label>, i: nat, r: Run, d: RunDir)
    requires DirTraced(t, labels, i, r, d)
    ensures DirTraced(t, labels, i + 1, r, d)
  {
    if d.stopped.Present() { ReadLater(t, labels, i, r, d.stopped.record.observation); }
    if d.acknowledged.Present() { AnsweredLater(t, labels, i, r, d.acknowledged.record.outcome); }
  }

  /** A move keeps the traces of the moving process. */
  lemma MoverTraced(t: seq<World>, labels: seq<Label>, i: nat, pid: Pid, ch: Choice, q: Proc)
    requires i < |labels| && i < |t| && labels[i] == Move(pid, ch) && pid in t[i].procs
    requires ProcTraced(t, labels, i, t[i].procs[pid]) && ProcSource(t[i].procs[pid], ch, q)
    ensures ProcTraced(t, labels, i + 1, q)
  {
    var p := t[i].procs[pid];
    ProcLater(t, labels, i, p);
    if q.observation.Some? && q.observation != p.observation {
      assert ReadAt(t, labels, i + 1, i, pid, q.run, q.observation.value);
    }
    if OutcomeUnderway(q.pc).Some? && OutcomeUnderway(q.pc) != OutcomeUnderway(p.pc) {
      assert AnsweredAt(t, labels, i + 1, i, pid, q.run, OutcomeUnderway(q.pc).value);
    }
  }

  lemma MovedDirTraced(t: seq<World>, labels: seq<Label>, i: nat, p: Proc, r: Run, e: RunDir)
    requires i < |t| && ProcTraced(t, labels, i, p) && DirSource(p, r, DirOf(t[i].core, r), e)
    requires r in t[i].core.dirs ==> DirTraced(t, labels, i, r, t[i].core.dirs[r])
    ensures DirTraced(t, labels, i + 1, r, e)
  {
    ProcLater(t, labels, i, p);
    if r in t[i].core.dirs { DirLater(t, labels, i, r, t[i].core.dirs[r]); }
  }

  lemma MoveTraced(t: seq<World>, labels: seq<Label>, i: nat)
    requires Behaviour(t, labels) && i < |labels| && labels[i].Move? && Traced(t, labels, i)
    ensures Traced(t, labels, i + 1)
  {
    var pid, ch := labels[i].pid, labels[i].choice;
    var c, p := t[i].core, t[i].procs[pid];
    MoveShape(t[i], pid, ch);
    ActSource(c, pid, p, ch);
    ActDisk(c, pid, p, ch);
    var k, w := i + 1, t[i + 1];
    forall q | q in w.procs ensures ProcTraced(t, labels, k, w.procs[q]) {
      if q == pid { MoverTraced(t, labels, i, pid, ch, w.procs[q]); }
      else { ProcLater(t, labels, i, t[i].procs[q]); }
    }
    forall r | r in w.core.dirs ensures DirTraced(t, labels, k, r, w.core.dirs[r]) {
      MovedDirTraced(t, labels, i, p, r, w.core.dirs[r]);
    }
  }

  /** Every other step keeps what is there, loses some of it, or adds a process that knows nothing. */
  ghost predicate Leaves(w: World, w1: World) {
    && (forall r | r in w1.core.dirs ::
          && r in w.core.dirs
          && (w1.core.dirs[r].stopped.Present() ==>
                w.core.dirs[r].stopped.Present() && w.core.dirs[r].stopped.record == w1.core.dirs[r].stopped.record)
          && (w1.core.dirs[r].acknowledged.Present() ==>
                w.core.dirs[r].acknowledged.Present() && w.core.dirs[r].acknowledged.record == w1.core.dirs[r].acknowledged.record))
    && (forall q | q in w1.procs ::
          (q in w.procs && w1.procs[q] == w.procs[q].(pc := w1.procs[q].pc)
           && (w1.procs[q].pc == w.procs[q].pc || Blank(w1.procs[q].pc)))
          || (w1.procs[q].observation.None? && Blank(w1.procs[q].pc)))
  }

  predicate Blank(pc: Pc) {
    StoppedUnderway(pc).None? && OutcomeUnderway(pc).None?
  }

  lemma CrashLeaves(w: World, kept: set<Run>, names: set<(Run, Name)>)
    ensures Leaves(w, Next(w, MachineCrash(kept, names)))
  {
  }

  lemma OtherStepsLeave(w: World, l: Label)
    requires Enabled(w, l) && !l.Move?
    ensures Leaves(w, Next(w, l))
  {
    if l.MachineCrash? { CrashLeaves(w, l.dirs, l.names); }
    else if l.Spawn? || l.Acquire? || l.Refused? || l.Kill? { LockLeaves(w, l); }
    else { OutsideLeaves(w, l); }
  }

  lemma LockLeaves(w: World, l: Label)
    requires Enabled(w, l) && (l.Spawn? || l.Acquire? || l.Refused? || l.Kill?)
    ensures Leaves(w, Next(w, l))
  {
  }

  lemma OutsideLeaves(w: World, l: Label)
    requires Enabled(w, l) && (l.UnitStarts? || l.UnitStops? || l.ServerCompletes?)
    ensures Leaves(w, Next(w, l))
  {
  }

  lemma OtherTraced(t: seq<World>, labels: seq<Label>, i: nat)
    requires Behaviour(t, labels) && i < |labels| && !labels[i].Move? && Traced(t, labels, i)
    ensures Traced(t, labels, i + 1)
  {
    OtherStepsLeave(t[i], labels[i]);
    var k, w := i + 1, t[i + 1];
    forall q | q in w.procs ensures ProcTraced(t, labels, k, w.procs[q]) {
      if q in t[i].procs { ProcLater(t, labels, i, t[i].procs[q]); }
    }
    forall r | r in w.core.dirs ensures DirTraced(t, labels, k, r, w.core.dirs[r]) {
      DirLater(t, labels, i, r, t[i].core.dirs[r]);
    }
  }

  lemma {:induction false} AlwaysTraced(t: seq<World>, labels: seq<Label>, i: nat)
    requires Behaviour(t, labels) && i < |t|
    ensures Traced(t, labels, i)
  {
    if i > 0 {
      AlwaysTraced(t, labels, i - 1);
      if labels[i - 1].Move? { MoveTraced(t, labels, i - 1); } else { OtherTraced(t, labels, i - 1); }
    }
  }

  // ---- what that means ----------------------------------------------------------------------------

  /** A sealed result is the one that a process of the Run read when it saw the unit stopped. */
  lemma SealedResultWasRead(t: seq<World>, labels: seq<Label>, i: nat, r: Run) returns (j: nat, pid: Pid)
    requires Behaviour(t, labels) && i < |t| && r in t[i].core.dirs && t[i].core.dirs[r].stopped.Present()
    ensures j < i && pid in t[j].procs && t[j].procs[pid].pc.WaitStopped? && t[j].procs[pid].run == r
    ensures labels[j] == Move(pid, Observed(t[i].core.dirs[r].stopped.record.observation.success))
    ensures t[j].procs[pid].identity == Some(t[i].core.dirs[r].stopped.record.observation.identity)
  {
    AlwaysTraced(t, labels, i);
    var o := t[i].core.dirs[r].stopped.record.observation;
    assert DirTraced(t, labels, i, r, t[i].core.dirs[r]);
    j, pid :| ReadAt(t, labels, i, j, pid, r, o);
  }

  /** A Run none of whose waits read a success never sends exit code 0. */
  lemma NoSuccessReadNoZeroExit(t: seq<World>, labels: seq<Label>, i: nat, e: Event)
    requires Behaviour(t, labels) && i < |t| && e in t[i].core.history && e.CompleteSent?
    requires forall j, pid | 0 <= j < i && pid in t[j].procs && t[j].procs[pid].run == e.run && t[j].procs[pid].pc.WaitStopped? ::
               labels[j] != Move(pid, Observed(true))
    ensures e.output.exitCode != 0
  {
    if e.output.exitCode == 0 {
      OneSealedOutput(t, labels, i, e, e);
      var j, pid := SealedResultWasRead(t, labels, i, e.run);
    }
  }

  /** A stop-only acknowledgement is the server's own acknowledgement of this very Run's stop. */
  lemma StopWasAcknowledged(t: seq<World>, labels: seq<Label>, i: nat, r: Run) returns (j: nat, pid: Pid)
    requires Behaviour(t, labels) && i < |t| && r in t[i].core.dirs
    requires t[i].core.dirs[r].acknowledged.Present() && t[i].core.dirs[r].acknowledged.record.outcome.StopOnly?
    ensures j < i && pid in t[j].procs && t[j].procs[pid].run == r && t[j].procs[pid].pc.AwaitStop?
    ensures labels[j] == Move(pid, StopReplied(r, true))
  {
    AlwaysTraced(t, labels, i);
    Reachable(t, labels, i);
    assert DirOk(t[i].core, r) && DirTraced(t, labels, i, r, t[i].core.dirs[r]);
    j, pid :| AnsweredAt(t, labels, i, j, pid, r, t[i].core.dirs[r].acknowledged.record.outcome);
  }

  /** A journaled completion is a receipt the server gave this Run: completed, of this lease, with the
      stop acknowledged. */
  lemma CompletionWasReceived(t: seq<World>, labels: seq<Label>, i: nat, r: Run) returns (j: nat, pid: Pid, receipt: Receipt)
    requires Behaviour(t, labels) && i < |t| && r in t[i].core.dirs
    requires t[i].core.dirs[r].acknowledged.Present() && t[i].core.dirs[r].acknowledged.record.outcome.Completion?
    ensures j < i && pid in t[j].procs && t[j].procs[pid].run == r && labels[j] == Move(pid, Replied(receipt))
    ensures t[i].core.dirs[r].acknowledged.record.outcome == Completion(receipt)
    ensures receipt.run == r && receipt.state == ServerCompleted && receipt.stopAck
    ensures t[i].core.dirs[r].claim.Present() && receipt.lease == t[i].core.dirs[r].claim.record.nonce
  {
    AlwaysTraced(t, labels, i);
    Reachable(t, labels, i);
    assert DirOk(t[i].core, r) && DirTraced(t, labels, i, r, t[i].core.dirs[r]);
    receipt := t[i].core.dirs[r].acknowledged.record.outcome.receipt;
    j, pid :| AnsweredAt(t, labels, i, j, pid, r, Completion(receipt));
  }
}
