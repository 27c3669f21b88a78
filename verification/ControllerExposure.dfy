/** What a controller still holds: a unit it asked for stays among its references until that Run's
    stop is sealed, whatever fails, so that closing the observer refuses every open exposure. */
module ControllerExposure {
  import opened Records
  import opened RunDirectory
  import opened ControllerState
  import opened ControllerInvariant
  import opened ControllerProof
  import opened ControllerSteps
  import opened ControllerTheorems

  /** `u` was requested by `pid`, even if the reply was lost, and its Run has no sealed stop. */
  ghost predicate Exposed(c: Core, pid: Pid, u: UnitName) {
    u in c.units && c.units[u].launcher == pid && !SealedStop(c, c.units[u].run)
  }

  ghost predicate Holding(c: Core, pid: Pid, p: Proc) {
    forall u | Exposed(c, pid, u) :: u in p.references
  }

  lemma HoldingIsRemembering(c: Core, pid: Pid, p: Proc)
    requires Holding(c, pid, p)
    ensures forall u | u in c.units && c.units[u].launcher == pid :: SealedStop(c, c.units[u].run) || u in p.references
  {
    forall u | u in c.units && c.units[u].launcher == pid ensures SealedStop(c, c.units[u].run) || u in p.references {
      if !SealedStop(c, c.units[u].run) { assert Exposed(c, pid, u); }
    }
  }

  ghost predicate AllHolding(w: World) {
    forall pid | pid in w.procs :: Holding(w.core, pid, w.procs[pid])
  }

  /** A step adds to the references, or drops the one unit whose stop is sealed. */
  ghost predicate DropsOnlySealed(c: Core, p: Proc, p1: Proc) {
    p.references <= p1.references
    || (SealedStop(c, p.run) && p.identity.Some? && UnitIs(c, p.run, p.identity.value)
        && p1.references == p.references - {p.identity.value.unit})
  }

  lemma PhysicalDrops(c: Core, pid: Pid, p: Proc, ch: Choice)
    requires FieldsOk(c, pid, p) && At(c, p) && UnitPc(p.pc) && UnitAllows(c, p, ch)
    ensures DropsOnlySealed(c, p, Physical(c, pid, p, ch).1)
    ensures p.pc.LaunchUnit? && !ch.Raise? ==> p.launch.Some? && p.launch.value.unit in Physical(c, pid, p, ch).1.references
  {
  }

  lemma SetupDrops(c: Core, p: Proc, ch: Choice)
    requires SetupPc(p.pc) && SetupAllows(c, p, ch)
    ensures Setup(c, p, ch).1.references == p.references
  {
  }

  lemma JournalDrops(c: Core, p: Proc, ch: Choice)
    requires JournalPc(p.pc) && JournalAllows(c, p, ch)
    ensures Journal(c, p, ch).1.references == p.references
  {
  }

  lemma NetworkDrops(c: Core, pid: Pid, p: Proc, ch: Choice)
    requires NetworkPc(p.pc) && NetworkAllows(c, p, ch)
    ensures Network(c, pid, p, ch).1.references == p.references
  {
  }

  lemma RecoveryDrops(c: Core, p: Proc, ch: Choice)
    requires RecoveryPc(p.pc) && RecoveryAllows(ch)
    ensures Recovery(c, p, ch).1.references == p.references
  {
  }

  lemma ActDrops(c: Core, pid: Pid, p: Proc, ch: Choice)
    requires FieldsOk(c, pid, p) && At(c, p) && Allows(c, p, ch)
    ensures DropsOnlySealed(c, p, Act(c, pid, p, ch).1)
    ensures p.pc.LaunchUnit? && !ch.Raise? ==> p.launch.Some? && p.launch.value.unit in Act(c, pid, p, ch).1.references
  {
    if SetupPc(p.pc) { SetupDrops(c, p, ch);
    } else if JournalPc(p.pc) { JournalDrops(c, p, ch);
    } else if UnitPc(p.pc) { PhysicalDrops(c, pid, p, ch);
    } else if NetworkPc(p.pc) { NetworkDrops(c, pid, p, ch);
    } else { RecoveryDrops(c, p, ch); }
  }

  /** A step of a process leaves the units as they are, or adds the one it requests. */
  lemma ActGrows(c: Core, pid: Pid, p: Proc, ch: Choice)
    requires Allows(c, p, ch)
    ensures Grows(c, Act(c, pid, p, ch).0)
  {
    ActImproves(c, pid, p, ch);
    ActCompletesNothing(c, pid, p, ch);
    if LaunchesOne(c, Act(c, pid, p, ch).0, pid, p, ch) { LaunchIsNew(c, p, ch); }
  }

  lemma ActCompletesNothing(c: Core, pid: Pid, p: Proc, ch: Choice)
    requires Allows(c, p, ch)
    ensures Act(c, pid, p, ch).0.completed == c.completed
  {
  }

  lemma LaunchIsNew(c: Core, p: Proc, ch: Choice)
    requires p.pc.LaunchUnit? && Allows(c, p, ch) && !ch.Raise?
    ensures p.launch.Some? && p.launch.value.unit !in c.units
  {
  }

  lemma MoverHolds(c: Core, pid: Pid, p: Proc, ch: Choice)
    requires FieldsOk(c, pid, p) && At(c, p) && Allows(c, p, ch) && Holding(c, pid, p)
    ensures Holding(Act(c, pid, p, ch).0, pid, Act(c, pid, p, ch).1)
  {
    ActDrops(c, pid, p, ch);
    ActGrows(c, pid, p, ch);
    ActImproves(c, pid, p, ch);
    var (c1, p1) := Act(c, pid, p, ch);
    forall u | Exposed(c1, pid, u) ensures u in p1.references {
      if u in c.units {
        if SealedStop(c, c.units[u].run) { SealedStable(c, c1, c.units[u].run); }
        assert Exposed(c, pid, u);
      }
    }
  }

  lemma BystanderHolds(c: Core, c1: Core, pid: Pid, q: Pid, p: Proc, ch: Choice, bystander: Proc)
    requires Allows(c, p, ch) && c1 == Act(c, pid, p, ch).0 && pid != q && Holding(c, q, bystander)
    ensures Holding(c1, q, bystander)
  {
    ActGrows(c, pid, p, ch);
    ActImproves(c, pid, p, ch);
    forall u | Exposed(c1, q, u) ensures u in bystander.references {
      if u in c.units {
        if SealedStop(c, c.units[u].run) { SealedStable(c, c1, c.units[u].run); }
        assert Exposed(c, q, u);
      }
    }
  }

  /** The environment seals nothing and requests nothing. */
  lemma CalmHolds(c: Core, c1: Core, pid: Pid, p: Proc)
    requires Calm(c, c1) && Holding(c, pid, p)
    ensures Holding(c1, pid, p)
  {
    forall u | Exposed(c1, pid, u) ensures u in p.references { assert Exposed(c, pid, u); }
  }

  lemma MoveHolds(w: World, pid: Pid, ch: Choice, q: Pid)
    requires Inv(w) && Enabled(w, Move(pid, ch)) && AllHolding(w) && q in w.procs
    ensures Holding(Next(w, Move(pid, ch)).core, q, Next(w, Move(pid, ch)).procs[q])
  {
    assert ProcOk(w.core, pid, w.procs[pid]);
    MoveShape(w, pid, ch);
    if q == pid { MoverHolds(w.core, pid, w.procs[pid], ch); }
    else { BystanderHolds(w.core, Act(w.core, pid, w.procs[pid], ch).0, pid, q, w.procs[pid], ch, w.procs[q]); }
  }

  lemma NextHolds(w: World, l: Label)
    requires Inv(w) && Kinds(w) && Enabled(w, l) && AllHolding(w)
    ensures AllHolding(Next(w, l))
  {
    var w1 := Next(w, l);
    forall q | q in w1.procs ensures Holding(w1.core, q, w1.procs[q]) {
      if q in w.procs { assert Holding(w.core, q, w.procs[q]); }
      if l.Move? {
        MoveHolds(w, l.pid, l.choice, q);
      } else if l.UnitStarts? || l.UnitStops? || l.ServerCompletes? {
        CalmHolds(w.core, w1.core, q, w.procs[q]);
      }
    }
  }

  lemma {:induction false} ExposureIsHeld(t: seq<World>, labels: seq<Label>, i: nat)
    requires Behaviour(t, labels) && i < |t|
    ensures AllHolding(t[i])
  {
    if i > 0 {
      ExposureIsHeld(t, labels, i - 1);
      Reachable(t, labels, i - 1);
      ReachableKinds(t, labels, i - 1);
      NextHolds(t[i - 1], labels[i - 1]);
    }
  }

  /** When a living controller holds nothing, so that closing its observer is not refused, every unit
      it ever requested belongs to a Run whose stop is durably sealed. */
  lemma CloseMeansSealed(t: seq<World>, labels: seq<Label>, i: nat, pid: Pid, u: UnitName)
    requires Behaviour(t, labels) && i < |t| && pid in t[i].procs && t[i].procs[pid].references == {}
    requires u in t[i].core.units && t[i].core.units[u].launcher == pid
    ensures SealedStop(t[i].core, t[i].core.units[u].run)
  {
    var c, p := t[i].core, t[i].procs[pid];
    ExposureIsHeld(t, labels, i);
    assert Holding(c, pid, p);
    assert Exposed(c, pid, u) ==> u in p.references;
  }
}
