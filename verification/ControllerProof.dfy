/** Every step of a process keeps the invariant.

    `ProcOk` has a case for each program point. The lemmas conclude `ProcOk(...)`, which
    keeps it whole: one fact to prove, instead of one for each part of each case. */
module ControllerProof {
  import opened Records
  import opened RunDirectory
  import opened ControllerState
  import opened ControllerInvariant

  // ---- what each kind of effect keeps ----------------------------------------------------

  /** `c1` is `c` with more on disk, more units and a longer history. */
  ghost predicate Grows(c: Core, c1: Core) {
    && (forall r | r in c.dirs :: r in c1.dirs && Improves(c.dirs[r], c1.dirs[r]))
    && (forall u | u in c.units :: u in c1.units && c1.units[u] == c.units[u])
    && (forall r | r in c.completed :: r in c1.completed && c1.completed[r] == c.completed[r])
    && c.history <= c1.history
  }

  lemma UnitStable(c: Core, c1: Core, u: UnitName)
    requires Grows(c, c1) && u in c.units && UnitOk(c, u)
    ensures UnitOk(c1, u)
  {
  }

  lemma SealedStable(c: Core, c1: Core, r: Run)
    requires Grows(c, c1) && SealedStop(c, r)
    ensures SealedStop(c1, r) && c1.dirs[r].stopped == c.dirs[r].stopped
  {
  }

  lemma EventStable(c: Core, c1: Core, e: Event)
    requires Grows(c, c1) && EventOk(c, e)
    ensures EventOk(c1, e)
  {
    if !e.GoSent? { SealedStable(c, c1, e.run); }
  }

  lemma DirStable(c: Core, c1: Core, r: Run)
    requires Grows(c, c1) && r in c.dirs && DirOk(c, r) && c1.dirs[r] == c.dirs[r]
    ensures DirOk(c1, r)
  {
  }

  lemma ServerStable(c: Core, c1: Core)
    requires Grows(c, c1) && ServerOk(c) && c1.completed == c.completed
    ensures ServerOk(c1)
  {
    forall r | r in c1.completed
      ensures exists pid :: CompleteSent(pid, r, c1.completed[r].lease, c1.completed[r].output) in c1.history
    {
      var pid :| CompleteSent(pid, r, c.completed[r].lease, c.completed[r].output) in c.history;
      assert CompleteSent(pid, r, c1.completed[r].lease, c1.completed[r].output) in c1.history;
    }
  }

  /** What carries over without looking at the effect. */
  lemma GrowthKeeps(c: Core, c1: Core)
    requires CoreInv(c) && Grows(c, c1) && c1.completed == c.completed
    ensures forall u {:trigger UnitOk(c1, u)} | u in c.units :: UnitOk(c1, u)
    ensures forall e {:trigger EventOk(c1, e)} | e in c.history :: EventOk(c1, e)
    ensures forall r {:trigger DirOk(c1, r)} | r in c.dirs && c1.dirs[r] == c.dirs[r] :: DirOk(c1, r)
    ensures ServerOk(c1)
  {
    forall u | u in c.units ensures UnitOk(c1, u) { UnitStable(c, c1, u); }
    forall e | e in c.history ensures EventOk(c1, e) { EventStable(c, c1, e); }
    forall r | r in c.dirs && c1.dirs[r] == c.dirs[r] ensures DirOk(c1, r) { DirStable(c, c1, r); }
    ServerStable(c, c1);
  }

  lemma DiskEffectKeeps(c: Core, c1: Core)
    requires CoreInv(c) && c1 == c.(dirs := c1.dirs)
    requires forall r | r in c.dirs :: r in c1.dirs && Improves(c.dirs[r], c1.dirs[r])
    requires forall r {:trigger DirOk(c1, r)} | r in c1.dirs && (r !in c.dirs || c1.dirs[r] != c.dirs[r]) :: DirOk(c1, r)
    ensures CoreInv(c1) && Grows(c, c1)
  {
    GrowthKeeps(c, c1);
    assert MutualExclusion(c1) by {
      forall u, v | Unstopped(c1, u) && Unstopped(c1, v) ensures u == v {
        assert Unstopped(c, u) && Unstopped(c, v);
      }
    }
  }

  lemma OneDirKeeps(c: Core, r: Run, e: RunDir)
    requires CoreInv(c) && r in c.dirs && Improves(c.dirs[r], e) && DirOk(Put(c, r, e), r)
    ensures CoreInv(Put(c, r, e)) && Grows(c, Put(c, r, e))
  {
    DiskEffectKeeps(c, Put(c, r, e));
  }

  lemma SyncedDirOk(c: Core, c1: Core, r: Run)
    requires r in c.dirs && r in c1.dirs && DirOk(c, r) && c1.units == c.units && c1.completed == c.completed
    requires c1.dirs[r] == SyncDir(c.dirs[r]) || c1.dirs[r] == c.dirs[r].(entryDurable := true)
          || c1.dirs[r] == SyncDir(c.dirs[r]).(entryDurable := true)
    ensures DirOk(c1, r) && Improves(c.dirs[r], c1.dirs[r])
  {
  }

  lemma SyncKeeps(c: Core, r: Run)
    requires CoreInv(c) && r in c.dirs
    ensures CoreInv(Put(c, r, SyncDir(c.dirs[r]))) && Grows(c, Put(c, r, SyncDir(c.dirs[r])))
  {
    SyncedDirOk(c, Put(c, r, SyncDir(c.dirs[r])), r);
    OneDirKeeps(c, r, SyncDir(c.dirs[r]));
  }

  lemma LogKeeps(c: Core, e: Event)
    requires CoreInv(c) && EventOk(c, e)
    requires e.GoSent? ==> NoGo(c, e.run)
    ensures CoreInv(Log(c, e)) && Grows(c, Log(c, e))
  {
    var c1 := Log(c, e);
    GrowthKeeps(c, c1);
    EventStable(c, c1, e);
    assert MutualExclusion(c1) by {
      forall u, v | Unstopped(c1, u) && Unstopped(c1, v) ensures u == v {
        assert Unstopped(c, u) && Unstopped(c, v);
      }
    }
    assert OneGo(c1.history) by {
      forall i, j | 0 <= i < j < |c1.history| && c1.history[i].GoSent? && c1.history[j].GoSent?
        ensures c1.history[i].run != c1.history[j].run
      {
        assert c.history[i] in c.history;
      }
    }
  }

  /** Every unit of another, resolved Run has stopped. */
  lemma OthersStopped(c: Core, run: Run, v: UnitName)
    requires CoreInv(c) && Alone(c, run) && NoUnit(c, run) && v in c.units
    ensures c.units[v].status.UnitStopped?
  {
    var r := c.units[v].run;
    assert UnitOk(c, v);
    assert r != run && Resolved(c.dirs[r]);
    assert DirOk(c, r);
  }

  /** A new unit is alone: every other unit belongs to a Run whose acknowledgement is durable. */
  lemma RequestKeeps(c: Core, u: UnitName, unit: Unit)
    requires CoreInv(c) && u !in c.units && unit.identity.unit == u
    requires unit.run in c.dirs && c.dirs[unit.run].entryDurable
    requires c.dirs[unit.run].launch.Durable? && c.dirs[unit.run].launch.record.unit == u
    requires Alone(c, unit.run) && NoUnit(c, unit.run)
    ensures CoreInv(c.(units := c.units[u := unit])) && Grows(c, c.(units := c.units[u := unit]))
  {
    var c1 := c.(units := c.units[u := unit]);
    assert forall r | r in c.dirs :: Improves(c.dirs[r], c1.dirs[r]);
    GrowthKeeps(c, c1);
    assert MutualExclusion(c1) by {
      forall a, b | Unstopped(c1, a) && Unstopped(c1, b) ensures a == b {
        if a != u { OthersStopped(c, unit.run, a); }
        if b != u { OthersStopped(c, unit.run, b); }
      }
    }
  }

  lemma FieldsStable(c: Core, c1: Core, pid: Pid, p: Proc)
    requires FieldsOk(c, pid, p) && Grows(c, c1)
    ensures FieldsOk(c1, pid, p)
  {
  }

  // ---- one step of the lock holder, point by point ---------------------------------------

  lemma AbortFields(c: Core, pid: Pid, p: Proc)
    requires FieldsOk(c, pid, p)
    ensures ProcOk(c, pid, p.(mode := AbortMode, pc := EnterAbort, output := None))
  {
    var q := p.(mode := AbortMode, pc := EnterAbort, output := None);
    assert FieldsOk(c, pid, q);
    assert At(c, q);
  }

  lemma FailKeeps(c: Core, pid: Pid, p: Proc)
    requires FieldsOk(c, pid, p)
    ensures ProcOk(c, pid, Fail(p))
  {
    if p.mode.RunMode? && !p.attempted && !BeforeTry(p.pc) {
      AbortFields(c, pid, p);
    } else {
      assert !Critical(Fail(p).pc);
    }
  }

  lemma ScanKeeps(c: Core, pid: Pid, p: Proc, ch: Choice)
    requires CoreInv(c) && FieldsOk(c, pid, p) && At(c, p) && p.pc.Scan? && SetupAllows(c, p, ch) && !ch.Raise?
    ensures CoreInv(Setup(c, p, ch).0) && ProcOk(Setup(c, p, ch).0, pid, Setup(c, p, ch).1)
  {
    FailKeeps(c, pid, p);
    if ch.Scanned? && ScanAccepts(c.dirs[ch.run], ch.run) {
      SyncKeeps(c, ch.run);
      FieldsStable(c, Put(c, ch.run, SyncDir(c.dirs[ch.run])), pid, p);
    }
  }

  lemma SyncRunsKeeps(c: Core)
    requires CoreInv(c)
    ensures CoreInv(SyncRuns(c)) && Grows(c, SyncRuns(c))
  {
    var c1 := SyncRuns(c);
    forall r | r in c1.dirs ensures DirOk(c1, r) && Improves(c.dirs[r], c1.dirs[r]) {
      assert DirOk(c, r);
      SyncedDirOk(c, c1, r);
    }
    DiskEffectKeeps(c, c1);
  }

  lemma ScanSyncKeeps(c: Core, pid: Pid, p: Proc, ch: Choice)
    requires CoreInv(c) && FieldsOk(c, pid, p) && At(c, p) && p.pc.ScanSync? && SetupAllows(c, p, ch) && !ch.Raise?
    ensures CoreInv(Setup(c, p, ch).0) && ProcOk(Setup(c, p, ch).0, pid, Setup(c, p, ch).1)
  {
    SyncRunsKeeps(c);
    FieldsStable(c, SyncRuns(c), pid, p);
    FailKeeps(SyncRuns(c), pid, p);
  }

  lemma MakeDirKeeps(c: Core, pid: Pid, p: Proc, ch: Choice)
    requires CoreInv(c) && FieldsOk(c, pid, p) && At(c, p) && (p.pc.CheckFresh? || p.pc.MakeDir?)
    requires SetupAllows(c, p, ch) && !ch.Raise?
    ensures CoreInv(Setup(c, p, ch).0) && ProcOk(Setup(c, p, ch).0, pid, Setup(c, p, ch).1)
  {
    FailKeeps(c, pid, p);
    if p.pc.MakeDir? {
      var c1 := Put(c, p.run, FRESH_DIR);
      DiskEffectKeeps(c, c1);
      UnusedRun(c, p.run);
      FieldsStable(c, c1, pid, p);
    }
  }

  /** Without a directory there has been neither a unit nor a GO. */
  lemma UnusedRun(c: Core, run: Run)
    requires CoreInv(c) && run !in c.dirs
    ensures NoUnit(c, run) && NoGo(c, run)
  {
    forall u | u in c.units ensures c.units[u].run != run { assert UnitOk(c, u); }
    forall e | e in c.history && e.GoSent? ensures e.run != run { assert EventOk(c, e); }
  }

  lemma SyncDirsShape(c: Core, p: Proc, ch: Choice)
    requires p.pc.SyncDirs? && SetupAllows(c, p, ch) && !ch.Raise? && p.run in c.dirs
    ensures Setup(c, p, ch) == (SyncRuns(Put(c, p.run, SyncDir(c.dirs[p.run]))), p.(pc := LinkTicket))
  {
  }

  lemma SyncedRun(c: Core, p: Proc)
    requires p.run in c.dirs && Fresh(c, p) && DirOf(c, p.run).claim.Absent?
    ensures var c1 := SyncRuns(Put(c, p.run, SyncDir(c.dirs[p.run])));
            Fresh(c1, p) && DirOf(c1, p.run).entryDurable && DirOf(c1, p.run).claim.Absent?
  {
  }

  lemma SyncDirsKeeps(c: Core, pid: Pid, p: Proc, ch: Choice)
    requires CoreInv(c) && FieldsOk(c, pid, p) && At(c, p) && p.pc.SyncDirs? && SetupAllows(c, p, ch) && !ch.Raise?
    ensures CoreInv(Setup(c, p, ch).0) && ProcOk(Setup(c, p, ch).0, pid, Setup(c, p, ch).1)
  {
    var c0 := Put(c, p.run, SyncDir(c.dirs[p.run]));
    SyncKeeps(c, p.run);
    FieldsStable(c, c0, pid, p);
    SyncRunsKeeps(c0);
    FieldsStable(c0, SyncRuns(c0), pid, p);
    SyncDirsShape(c, p, ch);
    SyncedRun(c, p);
    Onward(SyncRuns(c0), pid, p, p.(pc := LinkTicket));
  }

  lemma LinkTicketKeeps(c: Core, pid: Pid, p: Proc, ch: Choice)
    requires CoreInv(c) && FieldsOk(c, pid, p) && At(c, p) && p.pc.LinkTicket?
    requires SetupAllows(c, p, ch) && !ch.Raise?
    ensures CoreInv(Setup(c, p, ch).0) && ProcOk(Setup(c, p, ch).0, pid, Setup(c, p, ch).1)
  {
    var c1 := Setup(c, p, ch).0;
    assert DirOk(c, p.run);
    OneDirKeeps(c, p.run, c1.dirs[p.run]);
    FieldsStable(c, c1, pid, p);
  }

  lemma SyncTicketKeeps(c: Core, pid: Pid, p: Proc, ch: Choice)
    requires CoreInv(c) && FieldsOk(c, pid, p) && At(c, p) && p.pc.SyncTicket?
    requires SetupAllows(c, p, ch) && !ch.Raise?
    ensures CoreInv(Setup(c, p, ch).0) && ProcOk(Setup(c, p, ch).0, pid, Setup(c, p, ch).1)
  {
    SyncKeeps(c, p.run);
    FieldsStable(c, Put(c, p.run, SyncDir(c.dirs[p.run])), pid, p);
  }

  lemma AdmissionKeeps(c: Core, pid: Pid, p: Proc, ch: Choice)
    requires CoreInv(c) && FieldsOk(c, pid, p) && At(c, p) && (p.pc.ClaimLease? || p.pc.FirstTick? || p.pc.Fetch?)
    requires SetupAllows(c, p, ch) && !ch.Raise?
    ensures CoreInv(Setup(c, p, ch).0) && ProcOk(Setup(c, p, ch).0, pid, Setup(c, p, ch).1)
  {
  }

  // ---- the journal ------------------------------------------------------------------------

  /** What a barrier step comes to. */
  lemma BarrierShape(c: Core, p: Proc, ch: Choice)
    requires p.pc.Barrier? && JournalAllows(c, p, ch) && !ch.Raise?
    ensures p.run !in c.dirs || !ChainAccepts(c.dirs[p.run]) ==> Journal(c, p, ch) == (c, Fail(p))
    ensures p.run in c.dirs && ChainAccepts(c.dirs[p.run]) && DraftOf(c.dirs[p.run], p, p.pc.plan, ch).None? ==>
              Journal(c, p, ch) == (Put(c, p.run, SyncDir(c.dirs[p.run])), Fail(p))
    ensures p.run in c.dirs && ChainAccepts(c.dirs[p.run]) && DraftOf(c.dirs[p.run], p, p.pc.plan, ch).Some? ==>
              Journal(c, p, ch) ==
                (Put(c, p.run, SyncDir(c.dirs[p.run])), p.(pc := Link(DraftOf(c.dirs[p.run], p, p.pc.plan, ch).value)))
  {
  }

  /** The core of a barrier step: the chain that was read is durable, and nothing is lost. */
  lemma BarrierCore(c: Core, pid: Pid, p: Proc)
    requires CoreInv(c) && FieldsOk(c, pid, p) && p.run in c.dirs
    ensures var c1 := Put(c, p.run, SyncDir(c.dirs[p.run]));
            CoreInv(c1) && FieldsOk(c1, pid, p) && (SealedStop(c, p.run) ==> SealedStop(c1, p.run))
  {
    SyncKeeps(c, p.run);
    FieldsStable(c, Put(c, p.run, SyncDir(c.dirs[p.run])), pid, p);
    if SealedStop(c, p.run) { SealedStable(c, Put(c, p.run, SyncDir(c.dirs[p.run])), p.run); }
  }

  /** A planned record may be linked once its chain is durable. */
  ghost predicate Linkable(c: Core, p: Proc, draft: Draft) {
    && DraftOk(c, p, draft)
    && (draft.LaunchDraft? ==> UnitUnused(c, draft.launch.unit) && DirOf(c, p.run).launch.Absent?)
    && (draft.StoppedDraft? && p.mode.RunMode? ==> DirOf(c, p.run).stopped.Absent?)
  }

  lemma LaunchLinkable(c: Core, pid: Pid, p: Proc, ch: Choice)
    requires CoreInv(c) && FieldsOk(c, pid, p) && p.run in c.dirs && p.pc == Barrier(PlanLaunch) && PlanOk(c, p, PlanLaunch)
    requires JournalAllows(c, p, ch) && !ch.Raise? && DraftOf(c.dirs[p.run], p, PlanLaunch, ch).Some?
    ensures Linkable(Put(c, p.run, SyncDir(c.dirs[p.run])), p, DraftOf(c.dirs[p.run], p, PlanLaunch, ch).value)
  {
  }

  lemma AdmittedLinkable(c: Core, pid: Pid, p: Proc, ch: Choice)
    requires CoreInv(c) && FieldsOk(c, pid, p) && p.run in c.dirs && PlanOk(c, p, PlanAdmitted)
    requires DraftOf(c.dirs[p.run], p, PlanAdmitted, ch).Some?
    ensures Linkable(Put(c, p.run, SyncDir(c.dirs[p.run])), p, DraftOf(c.dirs[p.run], p, PlanAdmitted, ch).value)
  {
  }

  lemma StoppedLinkable(c: Core, pid: Pid, p: Proc, ch: Choice)
    requires CoreInv(c) && FieldsOk(c, pid, p) && p.run in c.dirs && PlanOk(c, p, PlanStopped)
    requires DraftOf(c.dirs[p.run], p, PlanStopped, ch).Some?
    ensures Linkable(Put(c, p.run, SyncDir(c.dirs[p.run])), p, DraftOf(c.dirs[p.run], p, PlanStopped, ch).value)
  {
  }

  lemma AcknowledgedLinkable(c: Core, pid: Pid, p: Proc, plan: Plan, ch: Choice)
    requires CoreInv(c) && FieldsOk(c, pid, p) && p.run in c.dirs && plan.PlanAcknowledged? && PlanOk(c, p, plan)
    requires DraftOf(c.dirs[p.run], p, plan, ch).Some?
    ensures Linkable(Put(c, p.run, SyncDir(c.dirs[p.run])), p, DraftOf(c.dirs[p.run], p, plan, ch).value)
  {
    BarrierCore(c, pid, p);
    assert DirOk(c, p.run);
  }

  lemma BarrierKeeps(c: Core, pid: Pid, p: Proc, ch: Choice)
    requires CoreInv(c) && FieldsOk(c, pid, p) && At(c, p) && p.pc.Barrier?
    requires JournalAllows(c, p, ch) && !ch.Raise?
    ensures CoreInv(Journal(c, p, ch).0) && ProcOk(Journal(c, p, ch).0, pid, Journal(c, p, ch).1)
  {
    BarrierShape(c, p, ch);
    if p.run !in c.dirs || !ChainAccepts(c.dirs[p.run]) {
      FailKeeps(c, pid, p);
    } else {
      BarrierCore(c, pid, p);
      if DraftOf(c.dirs[p.run], p, p.pc.plan, ch).None? { FailKeeps(Put(c, p.run, SyncDir(c.dirs[p.run])), pid, p); }
      else { PlannedKeeps(c, pid, p, ch); }
    }
  }

  lemma PlannedKeeps(c: Core, pid: Pid, p: Proc, ch: Choice)
    requires CoreInv(c) && FieldsOk(c, pid, p) && p.pc.Barrier? && PlanOk(c, p, p.pc.plan) && p.run in c.dirs
    requires JournalAllows(c, p, ch) && !ch.Raise? && DraftOf(c.dirs[p.run], p, p.pc.plan, ch).Some?
    ensures ProcOk(Put(c, p.run, SyncDir(c.dirs[p.run])), pid, p.(pc := Link(DraftOf(c.dirs[p.run], p, p.pc.plan, ch).value)))
  {
    var c1 := Put(c, p.run, SyncDir(c.dirs[p.run]));
    var draft := DraftOf(c.dirs[p.run], p, p.pc.plan, ch).value;
    BarrierCore(c, pid, p);
    match p.pc.plan
    case PlanLaunch => LaunchLinkable(c, pid, p, ch);
    case PlanAdmitted => AdmittedLinkable(c, pid, p, ch);
    case PlanStopped => StoppedLinkable(c, pid, p, ch);
    case PlanAcknowledged(_) => AcknowledgedLinkable(c, pid, p, p.pc.plan, ch);
    ToLink(c1, pid, p, draft);
  }

  lemma ToLink(c: Core, pid: Pid, p: Proc, draft: Draft)
    requires FieldsOk(c, pid, p) && Linkable(c, p, draft)
    ensures ProcOk(c, pid, p.(pc := Link(draft)))
  {
    LinkableAnywhere(c, p, p.(pc := Link(draft)), draft);
    Onward(c, pid, p, p.(pc := Link(draft)));
  }

  lemma LinkableAnywhere(c: Core, p: Proc, q: Proc, draft: Draft)
    requires Linkable(c, p, draft) && q == p.(pc := q.pc)
    ensures Linkable(c, q, draft)
  {
  }

  lemma LinkLaunchKeeps(c: Core, pid: Pid, p: Proc, ch: Choice)
    requires CoreInv(c) && FieldsOk(c, pid, p) && At(c, p) && p.pc.Link? && p.pc.draft.LaunchDraft?
    requires JournalAllows(c, p, ch) && !ch.Raise?
    ensures CoreInv(Journal(c, p, ch).0) && ProcOk(Journal(c, p, ch).0, pid, Journal(c, p, ch).1)
  {
    var c1 := Journal(c, p, ch).0;
    assert DirOk(c, p.run);
    OneDirKeeps(c, p.run, c1.dirs[p.run]);
    FieldsStable(c, c1, pid, p);
  }

  /** A no-overwrite link of a record that continues the chain. */
  lemma LinkedDirKeeps(c: Core, pid: Pid, p: Proc, e: RunDir)
    requires CoreInv(c) && FieldsOk(c, pid, p) && p.run in c.dirs
    requires Improves(c.dirs[p.run], e) && DirOk(Put(c, p.run, e), p.run)
    ensures CoreInv(Put(c, p.run, e)) && FieldsOk(Put(c, p.run, e), pid, p)
    ensures SealedStop(c, p.run) ==> SealedStop(Put(c, p.run, e), p.run) && e.stopped == c.dirs[p.run].stopped
  {
    OneDirKeeps(c, p.run, e);
    FieldsStable(c, Put(c, p.run, e), pid, p);
    if SealedStop(c, p.run) { SealedStable(c, Put(c, p.run, e), p.run); }
  }

  /** What a link step comes to. */
  lemma LinkShape(c: Core, p: Proc, ch: Choice)
    requires p.pc.Link? && JournalAllows(c, p, ch) && !ch.Raise?
    ensures p.run !in c.dirs || LinkDraft(c.dirs[p.run], p.pc.draft).None? ==> Journal(c, p, ch) == (c, Fail(p))
    ensures p.run in c.dirs && LinkDraft(c.dirs[p.run], p.pc.draft).Some? ==>
              Journal(c, p, ch) == (Put(c, p.run, LinkDraft(c.dirs[p.run], p.pc.draft).value), p.(pc := SyncPhase(p.pc.draft)))
  {
  }

  lemma LinkAdmittedAt(c: Core, pid: Pid, p: Proc, e: RunDir)
    requires CoreInv(c) && FieldsOk(c, pid, p) && At(c, p) && p.pc.Link? && p.pc.draft.AdmittedDraft? && p.run in c.dirs
    requires LinkDraft(c.dirs[p.run], p.pc.draft) == Some(e)
    ensures Improves(c.dirs[p.run], e) && DirOk(Put(c, p.run, e), p.run)
    ensures DraftOk(Put(c, p.run, e), p, p.pc.draft) && e.admitted.Present() && e.admitted.record == p.pc.draft.admitted
  {
    assert DirOk(c, p.run);
  }

  lemma LinkAdmittedKeeps(c: Core, pid: Pid, p: Proc, ch: Choice)
    requires CoreInv(c) && FieldsOk(c, pid, p) && At(c, p) && p.pc.Link? && p.pc.draft.AdmittedDraft?
    requires JournalAllows(c, p, ch) && !ch.Raise?
    ensures CoreInv(Journal(c, p, ch).0) && ProcOk(Journal(c, p, ch).0, pid, Journal(c, p, ch).1)
  {
    LinkShape(c, p, ch);
    if p.run !in c.dirs || LinkDraft(c.dirs[p.run], p.pc.draft).None? {
      FailKeeps(c, pid, p);
    } else {
      var e := LinkDraft(c.dirs[p.run], p.pc.draft).value;
      LinkAdmittedAt(c, pid, p, e);
      LinkedDirKeeps(c, pid, p, e);
      Onward(Put(c, p.run, e), pid, p, p.(pc := SyncPhase(p.pc.draft)));
    }
  }

  /** Moving on changes no field. */
  lemma Onward(c: Core, pid: Pid, p: Proc, q: Proc)
    requires FieldsOk(c, pid, p) && q == p.(pc := q.pc) && At(c, q)
    ensures ProcOk(c, pid, q)
  {
  }

  lemma LinkStoppedAt(c: Core, pid: Pid, p: Proc, e: RunDir)
    requires CoreInv(c) && FieldsOk(c, pid, p) && At(c, p) && p.pc.Link? && p.pc.draft.StoppedDraft? && p.run in c.dirs
    requires LinkDraft(c.dirs[p.run], p.pc.draft) == Some(e)
    ensures Improves(c.dirs[p.run], e) && DirOk(Put(c, p.run, e), p.run)
    ensures DraftOk(Put(c, p.run, e), p, p.pc.draft) && e.stopped.Present() && e.stopped.record == p.pc.draft.stopped
  {
    assert DirOk(c, p.run);
  }

  lemma LinkStoppedKeeps(c: Core, pid: Pid, p: Proc, ch: Choice)
    requires CoreInv(c) && FieldsOk(c, pid, p) && At(c, p) && p.pc.Link? && p.pc.draft.StoppedDraft?
    requires JournalAllows(c, p, ch) && !ch.Raise?
    ensures CoreInv(Journal(c, p, ch).0) && ProcOk(Journal(c, p, ch).0, pid, Journal(c, p, ch).1)
  {
    LinkShape(c, p, ch);
    if p.run !in c.dirs || LinkDraft(c.dirs[p.run], p.pc.draft).None? {
      FailKeeps(c, pid, p);
    } else {
      var e := LinkDraft(c.dirs[p.run], p.pc.draft).value;
      LinkStoppedAt(c, pid, p, e);
      LinkedDirKeeps(c, pid, p, e);
      Onward(Put(c, p.run, e), pid, p, p.(pc := SyncPhase(p.pc.draft)));
    }
  }

  /** The acceptance a completion rests on is of the very output that was sealed. */
  lemma AcceptedIsSealed(c: Core, r: Run)
    requires CoreInv(c) && r in c.completed
    ensures SealedStop(c, r) && c.completed[r].lease == c.dirs[r].claim.record.nonce
    ensures c.dirs[r].stopped.record.output == Some(c.completed[r].output)
  {
    var pid :| CompleteSent(pid, r, c.completed[r].lease, c.completed[r].output) in c.history;
    assert EventOk(c, CompleteSent(pid, r, c.completed[r].lease, c.completed[r].output));
  }

  lemma AcknowledgementContinues(c: Core, r: Run, a: Acknowledged, cell: Cell<Acknowledged>)
    requires CoreInv(c) && SealedStop(c, r)
    requires ValidAcknowledged(a, c.dirs[r].launch.record, c.dirs[r].stopped.record)
    requires a.outcome.Completion? ==> r in c.completed
    requires Some(cell) == LinkCell(c.dirs[r].acknowledged, a)
    ensures Improves(c.dirs[r], c.dirs[r].(acknowledged := cell))
    ensures DirOk(Put(c, r, c.dirs[r].(acknowledged := cell)), r)
  {
    assert DirOk(c, r);
    if a.outcome.Completion? { AcceptedIsSealed(c, r); }
  }

  lemma LinkAcknowledgedAt(c: Core, pid: Pid, p: Proc, e: RunDir)
    requires CoreInv(c) && FieldsOk(c, pid, p) && At(c, p) && p.pc.Link? && p.pc.draft.AcknowledgedDraft? && p.run in c.dirs
    requires LinkDraft(c.dirs[p.run], p.pc.draft) == Some(e)
    ensures Improves(c.dirs[p.run], e) && DirOk(Put(c, p.run, e), p.run) && SealedHere(c, p)
    ensures e.acknowledged.Present() && e.acknowledged.record == p.pc.draft.acknowledged
  {
    AcknowledgementContinues(c, p.run, p.pc.draft.acknowledged, e.acknowledged);
  }

  lemma LinkAcknowledgedKeeps(c: Core, pid: Pid, p: Proc, ch: Choice)
    requires CoreInv(c) && FieldsOk(c, pid, p) && At(c, p) && p.pc.Link? && p.pc.draft.AcknowledgedDraft?
    requires JournalAllows(c, p, ch) && !ch.Raise?
    ensures CoreInv(Journal(c, p, ch).0) && ProcOk(Journal(c, p, ch).0, pid, Journal(c, p, ch).1)
  {
    LinkShape(c, p, ch);
    if p.run !in c.dirs || LinkDraft(c.dirs[p.run], p.pc.draft).None? {
      FailKeeps(c, pid, p);
    } else {
      var e := LinkDraft(c.dirs[p.run], p.pc.draft).value;
      LinkAcknowledgedAt(c, pid, p, e);
      LinkedDirKeeps(c, pid, p, e);
      Onward(Put(c, p.run, e), pid, p, p.(pc := SyncPhase(p.pc.draft)));
    }
  }

  lemma SyncShape(c: Core, p: Proc, ch: Choice)
    requires p.pc.SyncPhase? && JournalAllows(c, p, ch) && !ch.Raise? && p.run in c.dirs
    ensures Journal(c, p, ch) == (Put(c, p.run, SyncDir(c.dirs[p.run])), AfterPhase(p, p.pc.draft))
  {
  }

  lemma SyncLaunchKeeps(c: Core, pid: Pid, p: Proc, ch: Choice)
    requires CoreInv(c) && FieldsOk(c, pid, p) && At(c, p) && p.pc.SyncPhase? && p.pc.draft.LaunchDraft?
    requires JournalAllows(c, p, ch) && !ch.Raise?
    ensures CoreInv(Journal(c, p, ch).0) && ProcOk(Journal(c, p, ch).0, pid, Journal(c, p, ch).1)
  {
    SyncShape(c, p, ch);
    SyncKeeps(c, p.run);
    FieldsStable(c, Put(c, p.run, SyncDir(c.dirs[p.run])), pid, p);
  }

  lemma AdmittedDraftHere(c: Core, pid: Pid, p: Proc)
    requires FieldsOk(c, pid, p) && At(c, p) && p.pc.SyncPhase? && p.pc.draft.AdmittedDraft?
    ensures p.run in c.dirs && p.identity.Some? && p.ticket.Some?
    ensures c.dirs[p.run].admitted.Present() && c.dirs[p.run].admitted.record.identity == p.identity.value
    ensures p.mode.RunMode? ==> NoGo(c, p.run) && Holds(p) && c.dirs[p.run].stopped.Absent?
  {
  }

  lemma SyncAdmittedKeeps(c: Core, pid: Pid, p: Proc, ch: Choice)
    requires CoreInv(c) && FieldsOk(c, pid, p) && At(c, p) && p.pc.SyncPhase? && p.pc.draft.AdmittedDraft?
    requires JournalAllows(c, p, ch) && !ch.Raise?
    ensures CoreInv(Journal(c, p, ch).0) && ProcOk(Journal(c, p, ch).0, pid, Journal(c, p, ch).1)
  {
    AdmittedDraftHere(c, pid, p);
    SyncShape(c, p, ch);
    var c1 := Put(c, p.run, SyncDir(c.dirs[p.run]));
    SyncKeeps(c, p.run);
    FieldsStable(c, c1, pid, p);
    if p.mode.RunMode? { Onward(c1, pid, p, p.(pc := TickBeforeGo)); }
    else { Onward(c1, pid, p, p.(pc := WaitStopped)); }
  }

  /** A durable stopped record in a consistent core is a sealed stop. */
  lemma DurableStopIsSealed(c: Core, r: Run)
    requires CoreInv(c) && r in c.dirs && c.dirs[r].stopped.Durable?
    ensures SealedStop(c, r)
  {
    assert DirOk(c, r);
  }

  lemma SealedDraft(c: Core, pid: Pid, p: Proc)
    requires CoreInv(c) && FieldsOk(c, pid, p) && At(c, p) && p.pc.SyncPhase? && p.pc.draft.StoppedDraft?
    ensures p.run in c.dirs && AdmittedDurably(c, p) && p.ticket.Some?
    ensures c.dirs[p.run].stopped.Present() && (p.mode.RunMode? ==> p.output.Some? && c.dirs[p.run].stopped.record.output == p.output)
  {
  }

  lemma SyncStoppedKeeps(c: Core, pid: Pid, p: Proc, ch: Choice)
    requires CoreInv(c) && FieldsOk(c, pid, p) && At(c, p) && p.pc.SyncPhase? && p.pc.draft.StoppedDraft?
    requires JournalAllows(c, p, ch) && !ch.Raise?
    ensures CoreInv(Journal(c, p, ch).0) && ProcOk(Journal(c, p, ch).0, pid, Journal(c, p, ch).1)
  {
    SealedDraft(c, pid, p);
    SyncShape(c, p, ch);
    var c1 := Put(c, p.run, SyncDir(c.dirs[p.run]));
    SyncKeeps(c, p.run);
    FieldsStable(c, c1, pid, p);
    DurableStopIsSealed(c1, p.run);
    Onward(c1, pid, p, p.(pc := Release));
  }

  lemma SyncAcknowledgedKeeps(c: Core, pid: Pid, p: Proc, ch: Choice)
    requires CoreInv(c) && FieldsOk(c, pid, p) && At(c, p) && p.pc.SyncPhase? && p.pc.draft.AcknowledgedDraft?
    requires JournalAllows(c, p, ch) && !ch.Raise?
    ensures CoreInv(Journal(c, p, ch).0) && ProcOk(Journal(c, p, ch).0, pid, Journal(c, p, ch).1)
  {
    SyncKeeps(c, p.run);
  }

  // ---- the unit ---------------------------------------------------------------------------

  function Requested(p: Proc, pid: Pid, ch: Choice): Unit
    requires p.launch.Some?
  {
    Unit(p.run, pid, Identity(p.launch.value.unit, if ch.Invocation? then ch.invocation else 0), UnitRequested)
  }

  function Held(p: Proc): Proc
    requires p.launch.Some?
  {
    p.(references := p.references + {p.launch.value.unit})
  }

  function Confirmed(p: Proc): Proc
    requires p.launch.Some?
  {
    Held(p).(launched := p.launched + {p.launch.value.unit}, pc := AwaitReady)
  }

  lemma LaunchShape(c: Core, pid: Pid, p: Proc, ch: Choice)
    requires p.pc.LaunchUnit? && UnitAllows(c, p, ch) && !ch.Raise?
    ensures Physical(c, pid, p, ch) ==
              (c.(units := c.units[p.launch.value.unit := Requested(p, pid, ch)]), if ch.Lost? then Fail(Held(p)) else Confirmed(p))
  {
  }

  lemma ConfirmedFields(c: Core, pid: Pid, p: Proc)
    requires FieldsOk(c, pid, p) && p.launch.Some?
    requires p.launch.value.unit in c.units && c.units[p.launch.value.unit].launcher == pid && c.units[p.launch.value.unit].run == p.run
    ensures FieldsOk(c, pid, Held(p)) && FieldsOk(c, pid, Confirmed(p))
  {
  }

  lemma LaunchKeeps(c: Core, pid: Pid, p: Proc, ch: Choice)
    requires CoreInv(c) && FieldsOk(c, pid, p) && At(c, p) && p.pc.LaunchUnit? && UnitAllows(c, p, ch) && !ch.Raise?
    ensures CoreInv(Physical(c, pid, p, ch).0) && ProcOk(Physical(c, pid, p, ch).0, pid, Physical(c, pid, p, ch).1)
  {
    LaunchShape(c, pid, p, ch);
    var u := p.launch.value.unit;
    var c1 := c.(units := c.units[u := Requested(p, pid, ch)]);
    RequestKeeps(c, u, Requested(p, pid, ch));
    FieldsStable(c, c1, pid, p);
    ConfirmedFields(c1, pid, p);
    if ch.Lost? { FailKeeps(c1, pid, Held(p)); } else { Onward(c1, pid, Confirmed(p), Confirmed(p)); }
  }

  lemma CaptureKeeps(c: Core, pid: Pid, p: Proc, ch: Choice)
    requires CoreInv(c) && FieldsOk(c, pid, p) && At(c, p) && (p.pc.AwaitReady? || p.pc.Capture?) && UnitAllows(c, p, ch) && !ch.Raise?
    ensures CoreInv(Physical(c, pid, p, ch).0) && ProcOk(Physical(c, pid, p, ch).0, pid, Physical(c, pid, p, ch).1)
  {
    if p.pc.Capture? { assert UnitOk(c, p.launch.value.unit); }
  }

  lemma GoShape(c: Core, pid: Pid, p: Proc, ch: Choice)
    requires p.pc.SendGo? && UnitAllows(c, p, ch) && !ch.Raise? && p.launch.Some?
    ensures Physical(c, pid, p, ch) ==
              (Log(c, GoSent(pid, p.run, p.launch.value.unit)), if ch.Lost? then Fail(p) else p.(pc := AwaitOutput))
  {
  }

  lemma GoIsReady(c: Core, pid: Pid, p: Proc)
    requires CoreInv(c) && FieldsOk(c, pid, p) && At(c, p) && p.pc.SendGo?
    ensures p.launch.Some? && ReadyForGo(c, p) && EventOk(c, GoSent(pid, p.run, p.launch.value.unit))
  {
  }

  /** GO is sent once, and only the name of the unit that was admitted. */
  lemma GoKeeps(c: Core, pid: Pid, p: Proc, ch: Choice)
    requires CoreInv(c) && FieldsOk(c, pid, p) && At(c, p) && p.pc.SendGo? && UnitAllows(c, p, ch) && !ch.Raise?
    ensures CoreInv(Physical(c, pid, p, ch).0) && ProcOk(Physical(c, pid, p, ch).0, pid, Physical(c, pid, p, ch).1)
  {
    GoIsReady(c, pid, p);
    GoShape(c, pid, p, ch);
    var c1 := Log(c, GoSent(pid, p.run, p.launch.value.unit));
    LogKeeps(c, GoSent(pid, p.run, p.launch.value.unit));
    FieldsStable(c, c1, pid, p);
    if ch.Lost? { FailKeeps(c1, pid, p); } else { Onward(c1, pid, p, p.(pc := AwaitOutput)); }
  }

  lemma TickBeforeGoKeeps(c: Core, pid: Pid, p: Proc, ch: Choice)
    requires CoreInv(c) && FieldsOk(c, pid, p) && At(c, p) && p.pc.TickBeforeGo? && UnitAllows(c, p, ch) && !ch.Raise?
    ensures CoreInv(Physical(c, pid, p, ch).0) && ProcOk(Physical(c, pid, p, ch).0, pid, Physical(c, pid, p, ch).1)
  {
    Onward(c, pid, p, p.(pc := SendGo));
  }

  lemma OutputKeeps(c: Core, pid: Pid, p: Proc, ch: Choice)
    requires CoreInv(c) && FieldsOk(c, pid, p) && At(c, p) && p.pc.AwaitOutput? && UnitAllows(c, p, ch) && !ch.Raise?
    ensures CoreInv(Physical(c, pid, p, ch).0) && ProcOk(Physical(c, pid, p, ch).0, pid, Physical(c, pid, p, ch).1)
  {
  }

  lemma WaitKeeps(c: Core, pid: Pid, p: Proc, ch: Choice)
    requires CoreInv(c) && FieldsOk(c, pid, p) && At(c, p) && p.pc.WaitStopped? && UnitAllows(c, p, ch) && !ch.Raise?
    ensures CoreInv(Physical(c, pid, p, ch).0) && ProcOk(Physical(c, pid, p, ch).0, pid, Physical(c, pid, p, ch).1)
  {
  }

  lemma LoadStoppedShape(c: Core, pid: Pid, p: Proc, ch: Choice)
    requires p.pc.LoadStopped? && UnitAllows(c, p, ch) && !ch.Raise?
    ensures p.run !in c.dirs || !ChainAccepts(c.dirs[p.run]) ==> Physical(c, pid, p, ch) == (c, Fail(p))
    ensures p.run in c.dirs && ChainAccepts(c.dirs[p.run]) ==>
              Physical(c, pid, p, ch) ==
                (Put(c, p.run, SyncDir(c.dirs[p.run])),
                 p.(pc := if c.dirs[p.run].stopped.Present() then Release else Barrier(PlanStopped)))
  {
  }

  lemma Observed(c: Core, pid: Pid, p: Proc)
    requires FieldsOk(c, pid, p) && At(c, p) && p.pc.LoadStopped?
    ensures AdmittedDurably(c, p) && p.observation.Some? && Unsealed(c, p) && p.ticket.Some?
  {
  }

  lemma LoadStoppedKeeps(c: Core, pid: Pid, p: Proc, ch: Choice)
    requires CoreInv(c) && FieldsOk(c, pid, p) && At(c, p) && p.pc.LoadStopped? && UnitAllows(c, p, ch) && !ch.Raise?
    ensures CoreInv(Physical(c, pid, p, ch).0) && ProcOk(Physical(c, pid, p, ch).0, pid, Physical(c, pid, p, ch).1)
  {
    LoadStoppedShape(c, pid, p, ch);
    Observed(c, pid, p);
    if p.run !in c.dirs || !ChainAccepts(c.dirs[p.run]) {
      FailKeeps(c, pid, p);
    } else {
      var d, c1 := c.dirs[p.run], Put(c, p.run, SyncDir(c.dirs[p.run]));
      LoadKeeps(c, pid, p);
      if d.stopped.Present() { Onward(c1, pid, p, p.(pc := Release)); }
      else { Onward(c1, pid, p, p.(pc := Barrier(PlanStopped))); }
    }
  }

  /** Where `_seal` returns to, and what a release drops. */
  function Dropped(p: Proc): Proc
    requires p.identity.Some?
  {
    p.(references := p.references - {p.identity.value.unit}, launched := p.launched - {p.identity.value.unit},
       pc := match p.mode case RunMode => TickAfterSeal case AbortMode => SendStop case ReconcileMode => ReloadChain)
  }

  lemma ReleaseShape(c: Core, pid: Pid, p: Proc, ch: Choice)
    requires p.pc.Release? && UnitAllows(c, p, ch) && !ch.Raise?
    ensures Physical(c, pid, p, ch) ==
              (Log(c, Released(pid, p.run, p.identity.value)), if ch.Lost? then Fail(p) else Dropped(p))
  {
  }

  lemma AfterRelease(c: Core, pid: Pid, p: Proc)
    requires FieldsOk(c, pid, p) && p.identity.Some? && SealedHere(c, p)
    requires p.mode.RunMode? ==> p.output.Some? && DirOf(c, p.run).stopped.record.output == p.output
    ensures ProcOk(c, pid, Dropped(p))
  {
    var q := Dropped(p);
    assert FieldsOk(c, pid, q);
    match p.mode
    case RunMode => assert At(c, q);
    case AbortMode => assert At(c, q);
    case ReconcileMode => assert At(c, q);
  }

  lemma ReleaseKeeps(c: Core, pid: Pid, p: Proc, ch: Choice)
    requires CoreInv(c) && FieldsOk(c, pid, p) && At(c, p) && p.pc.Release? && UnitAllows(c, p, ch) && !ch.Raise?
    ensures CoreInv(Physical(c, pid, p, ch).0) && ProcOk(Physical(c, pid, p, ch).0, pid, Physical(c, pid, p, ch).1)
  {
    ReleaseShape(c, pid, p, ch);
    var e := Released(pid, p.run, p.identity.value);
    LogKeeps(c, e);
    FieldsStable(c, Log(c, e), pid, p);
    SealedStable(c, Log(c, e), p.run);
    if ch.Lost? { FailKeeps(Log(c, e), pid, p); } else { AfterRelease(Log(c, e), pid, p); }
  }

  lemma StopUnitShape(c: Core, pid: Pid, p: Proc, ch: Choice)
    requires (p.pc.TickAfterSeal? || p.pc.StopUnit? || p.pc.Retain?) && UnitAllows(c, p, ch) && !ch.Raise?
    ensures var held := if p.pc.Retain? then p.(references := p.references + {p.identity.value.unit}) else p;
            Physical(c, pid, p, ch) ==
              (c, if p.pc.TickAfterSeal? then
                    if p.output.None? then Fail(p) else p.(attempted := true, pc := SendComplete(p.output.value))
                  else if p.pc.StopUnit? then p.(pc := if p.mode.AbortMode? then Barrier(PlanAdmitted) else WaitStopped)
                  else if ch.Lost? then Fail(held) else held.(pc := StopUnit))
  {
  }

  lemma SealToSend(c: Core, pid: Pid, p: Proc)
    requires FieldsOk(c, pid, p) && At(c, p) && p.pc.TickAfterSeal?
    ensures p.output.Some? && ProcOk(c, pid, p.(attempted := true, pc := SendComplete(p.output.value)))
  {
    ToSendComplete(c, pid, p, p.output.value);
    assert p.(attempted := true, pc := SendComplete(p.output.value)) == p.(pc := SendComplete(p.output.value), attempted := true);
  }

  lemma StopToNext(c: Core, pid: Pid, p: Proc)
    requires FieldsOk(c, pid, p) && At(c, p) && p.pc.StopUnit?
    ensures ProcOk(c, pid, p.(pc := if p.mode.AbortMode? then Barrier(PlanAdmitted) else WaitStopped))
  {
    if p.mode.AbortMode? { Onward(c, pid, p, p.(pc := Barrier(PlanAdmitted))); }
    else { Onward(c, pid, p, p.(pc := WaitStopped)); }
  }

  lemma RetainToStop(c: Core, pid: Pid, p: Proc, held: Proc)
    requires FieldsOk(c, pid, p) && At(c, p) && p.pc.Retain? && held == p.(references := held.references)
    ensures ProcOk(c, pid, held.(pc := StopUnit)) && ProcOk(c, pid, Fail(held))
  {
    assert FieldsOk(c, pid, held);
    FailKeeps(c, pid, held);
    Onward(c, pid, held, held.(pc := StopUnit));
  }

  lemma StopUnitKeeps(c: Core, pid: Pid, p: Proc, ch: Choice)
    requires CoreInv(c) && FieldsOk(c, pid, p) && At(c, p)
    requires p.pc.TickAfterSeal? || p.pc.StopUnit? || p.pc.Retain?
    requires UnitAllows(c, p, ch) && !ch.Raise?
    ensures CoreInv(Physical(c, pid, p, ch).0) && ProcOk(Physical(c, pid, p, ch).0, pid, Physical(c, pid, p, ch).1)
  {
    StopUnitShape(c, pid, p, ch);
    if p.pc.TickAfterSeal? { SealToSend(c, pid, p); }
    else if p.pc.StopUnit? { StopToNext(c, pid, p); }
    else { RetainToStop(c, pid, p, p.(references := p.references + {p.identity.value.unit})); }
  }

  // ---- the server -------------------------------------------------------------------------

  lemma SendShape(c: Core, pid: Pid, p: Proc, ch: Choice)
    requires (p.pc.SendStop? || (p.pc.SendComplete? && p.ticket.Some?)) && NetworkAllows(c, p, ch) && !ch.Raise?
    ensures var e := if p.pc.SendStop? then StopSent(pid, p.run) else CompleteSent(pid, p.run, p.ticket.value.nonce, p.pc.output);
            Network(c, pid, p, ch) ==
              (Log(c, e), if ch.Lost? then Fail(p) else p.(pc := if p.pc.SendStop? then AwaitStop else AwaitComplete))
  {
  }

  /** A message or release under a sealed stop. */
  lemma LogSealed(c: Core, pid: Pid, p: Proc, e: Event)
    requires CoreInv(c) && FieldsOk(c, pid, p) && SealedHere(c, p) && EventOk(c, e) && !e.GoSent?
    ensures CoreInv(Log(c, e)) && FieldsOk(Log(c, e), pid, p) && SealedHere(Log(c, e), p)
  {
    LogKeeps(c, e);
    FieldsStable(c, Log(c, e), pid, p);
    SealedStable(c, Log(c, e), p.run);
  }

  lemma SendCompleteKeeps(c: Core, pid: Pid, p: Proc, ch: Choice)
    requires CoreInv(c) && FieldsOk(c, pid, p) && At(c, p) && p.pc.SendComplete?
    requires NetworkAllows(c, p, ch) && !ch.Raise?
    ensures CoreInv(Network(c, pid, p, ch).0) && ProcOk(Network(c, pid, p, ch).0, pid, Network(c, pid, p, ch).1)
  {
    SendShape(c, pid, p, ch);
    var e := CompleteSent(pid, p.run, p.ticket.value.nonce, p.pc.output);
    LogSealed(c, pid, p, e);
    if ch.Lost? { FailKeeps(Log(c, e), pid, p); } else { Onward(Log(c, e), pid, p, p.(pc := AwaitComplete)); }
  }

  lemma SendStopKeeps(c: Core, pid: Pid, p: Proc, ch: Choice)
    requires CoreInv(c) && FieldsOk(c, pid, p) && At(c, p) && p.pc.SendStop?
    requires NetworkAllows(c, p, ch) && !ch.Raise?
    ensures CoreInv(Network(c, pid, p, ch).0) && ProcOk(Network(c, pid, p, ch).0, pid, Network(c, pid, p, ch).1)
  {
    SendShape(c, pid, p, ch);
    var e := StopSent(pid, p.run);
    LogSealed(c, pid, p, e);
    if ch.Lost? { FailKeeps(Log(c, e), pid, p); } else { Onward(Log(c, e), pid, p, p.(pc := AwaitStop)); }
  }

  /** Moving on without touching anything but the program point and the attempt flag. */
  lemma MoveOn(c: Core, pid: Pid, p: Proc, pc: Pc, attempted: bool)
    requires FieldsOk(c, pid, p)
    ensures FieldsOk(c, pid, p.(pc := pc, attempted := attempted))
  {
  }

  lemma ReplyShape(c: Core, pid: Pid, p: Proc, ch: Choice)
    requires (p.pc.AwaitComplete? || p.pc.AwaitStop?) && NetworkAllows(c, p, ch) && !ch.Raise?
    ensures p.pc.AwaitComplete? ==> ch.Replied? && Truthful(c, ch.receipt)
    ensures p.pc.AwaitStop? ==> ch.StopReplied?
    ensures Network(c, pid, p, ch) ==
              (c, p.(pc := Barrier(PlanAcknowledged(if p.pc.AwaitComplete? then Completion(ch.receipt) else StopOnly(ch.run, ch.stopAck)))))
  {
  }

  lemma AwaitingIsSealed(c: Core, p: Proc)
    requires At(c, p) && (p.pc.AwaitComplete? || p.pc.AwaitStop?)
    ensures SealedHere(c, p)
  {
  }

  lemma ToStopOnly(c: Core, pid: Pid, p: Proc, run: Run, stopAck: bool)
    requires FieldsOk(c, pid, p) && SealedHere(c, p)
    ensures ProcOk(c, pid, p.(pc := Barrier(PlanAcknowledged(StopOnly(run, stopAck)))))
  {
    Onward(c, pid, p, p.(pc := Barrier(PlanAcknowledged(StopOnly(run, stopAck)))));
  }

  lemma ReplyKeeps(c: Core, pid: Pid, p: Proc, ch: Choice)
    requires CoreInv(c) && FieldsOk(c, pid, p) && At(c, p) && (p.pc.AwaitComplete? || p.pc.AwaitStop?)
    requires NetworkAllows(c, p, ch) && !ch.Raise?
    ensures CoreInv(Network(c, pid, p, ch).0) && ProcOk(Network(c, pid, p, ch).0, pid, Network(c, pid, p, ch).1)
  {
    ReplyShape(c, pid, p, ch);
    AwaitingIsSealed(c, p);
    if p.pc.AwaitComplete? { ToAcknowledge(c, pid, p, ch.receipt); } else { ToStopOnly(c, pid, p, ch.run, ch.stopAck); }
  }

  /** What `reconcile` decides on the server's status. */
  lemma StatusShape(c: Core, pid: Pid, p: Proc, ch: Choice)
    requires p.pc.Status? && NetworkAllows(c, p, ch) && !ch.Raise?
    ensures Network(c, pid, p, ch).0 == c
    ensures var q := Network(c, pid, p, ch).1;
            || (q == p.(pc := Barrier(PlanAcknowledged(Completion(ch.receipt)))) && Truthful(c, ch.receipt))
            || q == p.(pc := SendStop)
            || (p.sealed.value.output.Some? && q == p.(pc := SendComplete(p.sealed.value.output.value), attempted := true))
  {
  }

  lemma ToAcknowledge(c: Core, pid: Pid, p: Proc, r: Receipt)
    requires FieldsOk(c, pid, p) && SealedHere(c, p) && Truthful(c, r)
    ensures ProcOk(c, pid, p.(pc := Barrier(PlanAcknowledged(Completion(r)))))
  {
    Onward(c, pid, p, p.(pc := Barrier(PlanAcknowledged(Completion(r)))));
  }

  lemma ToSendStop(c: Core, pid: Pid, p: Proc)
    requires FieldsOk(c, pid, p) && SealedHere(c, p)
    ensures ProcOk(c, pid, p.(pc := SendStop))
  {
    Onward(c, pid, p, p.(pc := SendStop));
  }

  lemma ToSendComplete(c: Core, pid: Pid, p: Proc, output: Output)
    requires FieldsOk(c, pid, p) && SealedHere(c, p) && DirOf(c, p.run).stopped.record.output == Some(output)
    ensures ProcOk(c, pid, p.(pc := SendComplete(output), attempted := true))
  {
    var q := p.(attempted := true);
    MoveOn(c, pid, p, p.pc, true);
    assert q.(pc := SendComplete(output)) == p.(pc := SendComplete(output), attempted := true);
    Onward(c, pid, q, q.(pc := SendComplete(output)));
  }

  lemma SealedIsHere(c: Core, pid: Pid, p: Proc)
    requires FieldsOk(c, pid, p) && At(c, p) && p.pc.Status?
    ensures p.sealed.Some? && SealedHere(c, p) && DirOf(c, p.run).stopped.record == p.sealed.value
  {
  }

  lemma StatusKeeps(c: Core, pid: Pid, p: Proc, ch: Choice)
    requires CoreInv(c) && FieldsOk(c, pid, p) && At(c, p) && p.pc.Status?
    requires NetworkAllows(c, p, ch) && !ch.Raise?
    ensures CoreInv(Network(c, pid, p, ch).0) && ProcOk(Network(c, pid, p, ch).0, pid, Network(c, pid, p, ch).1)
  {
    SealedIsHere(c, pid, p);
    StatusShape(c, pid, p, ch);
    var q := Network(c, pid, p, ch).1;
    assert ProcOk(c, pid, q) by {
      if q.pc.Barrier? { ToAcknowledge(c, pid, p, ch.receipt); }
      else if q.pc.SendStop? { ToSendStop(c, pid, p); }
      else { ToSendComplete(c, pid, p, p.sealed.value.output.value); }
    }
  }

  // ---- _abort and the loading half of reconcile -------------------------------------------

  /** The admitted record can only name the invocation this process captured. */
  lemma SameIdentity(c: Core, pid: Pid, p: Proc)
    requires CoreInv(c) && FieldsOk(c, pid, p) && p.identity.Some? && c.dirs[p.run].admitted.Durable?
    ensures AdmittedDurably(c, p)
  {
    assert DirOk(c, p.run);
  }

  lemma LoadKeeps(c: Core, pid: Pid, p: Proc)
    requires CoreInv(c) && FieldsOk(c, pid, p) && p.run in c.dirs
    ensures var c1 := Put(c, p.run, SyncDir(c.dirs[p.run]));
            CoreInv(c1) && FieldsOk(c1, pid, p) && (c.dirs[p.run].stopped.Present() ==> SealedStop(c1, p.run))
  {
    var c1 := Put(c, p.run, SyncDir(c.dirs[p.run]));
    SyncKeeps(c, p.run);
    FieldsStable(c, c1, pid, p);
    if c.dirs[p.run].stopped.Present() { DurableStopIsSealed(c1, p.run); }
  }

  lemma EnterAbortKeeps(c: Core, pid: Pid, p: Proc, ch: Choice)
    requires CoreInv(c) && FieldsOk(c, pid, p) && At(c, p) && p.pc.EnterAbort? && RecoveryAllows(ch) && !ch.Raise?
    ensures CoreInv(Recovery(c, p, ch).0) && ProcOk(Recovery(c, p, ch).0, pid, Recovery(c, p, ch).1)
  {
    FailKeeps(c, pid, p);
    MoveOn(c, pid, p, AbortLoad, p.attempted);
  }

  lemma AbortLoadShape(c: Core, p: Proc, ch: Choice)
    requires p.pc.AbortLoad? && RecoveryAllows(ch) && !ch.Raise?
    ensures p.run !in c.dirs || !ChainAccepts(c.dirs[p.run]) || p.identity.None? ==> Recovery(c, p, ch) == (c, Fail(p))
    ensures p.run in c.dirs && ChainAccepts(c.dirs[p.run]) && p.identity.Some? ==>
              var d := c.dirs[p.run];
              Recovery(c, p, ch) ==
                (Put(c, p.run, SyncDir(d)),
                 p.(pc := if d.stopped.Absent? then StopUnit
                          else if p.identity.value.unit in p.references then Release else SendStop))
  {
  }

  lemma AbortToStop(c: Core, pid: Pid, p: Proc)
    requires FieldsOk(c, pid, p) && p.mode.AbortMode? && p.identity.Some?
    ensures ProcOk(c, pid, p.(pc := StopUnit))
  {
    Onward(c, pid, p, p.(pc := StopUnit));
  }

  lemma AbortingHere(c: Core, p: Proc)
    requires At(c, p) && p.pc.AbortLoad?
    ensures p.mode.AbortMode? && p.identity.Some?
  {
  }

  lemma AbortLoadKeeps(c: Core, pid: Pid, p: Proc, ch: Choice)
    requires CoreInv(c) && FieldsOk(c, pid, p) && At(c, p) && p.pc.AbortLoad? && RecoveryAllows(ch) && !ch.Raise?
    ensures CoreInv(Recovery(c, p, ch).0) && ProcOk(Recovery(c, p, ch).0, pid, Recovery(c, p, ch).1)
  {
    AbortLoadShape(c, p, ch);
    AbortingHere(c, p);
    if p.run !in c.dirs || !ChainAccepts(c.dirs[p.run]) {
      FailKeeps(c, pid, p);
    } else {
      var d := c.dirs[p.run];
      var c1 := Put(c, p.run, SyncDir(d));
      LoadKeeps(c, pid, p);
      if d.stopped.Absent? {
        AbortToStop(c1, pid, p);
      } else {
        SameIdentity(c1, pid, p);
        AbortAfterStop(c1, pid, p, if p.identity.value.unit in p.references then Release else SendStop);
      }
    }
  }

  lemma AbortAfterStop(c: Core, pid: Pid, p: Proc, pc: Pc)
    requires FieldsOk(c, pid, p) && SealedStop(c, p.run) && AdmittedDurably(c, p) && p.mode.AbortMode?
    requires pc.Release? || pc.SendStop?
    ensures ProcOk(c, pid, p.(pc := pc))
  {
    Onward(c, pid, p, p.(pc := pc));
  }

  lemma LoadedFields(c: Core, pid: Pid, p: Proc, p1: Proc)
    requires CoreInv(c) && FieldsOk(c, pid, p) && p.run in c.dirs && p1.run == p.run && p1.mode == p.mode
    requires p1.launched == p.launched && p1.observation == p.observation && p1.output == p.output
    requires var d := c.dirs[p.run];
             && d.claim.Durable? && d.launch.Durable? && d.admitted.Durable?
             && p1.ticket == Some(d.claim.record) && p1.launch == Some(d.launch.record)
             && p1.identity == Some(d.admitted.record.identity)
             && (p1.sealed.Some? ==> d.stopped == Durable(p1.sealed.value))
    ensures FieldsOk(c, pid, p1) && AdmittedDurably(c, p1)
  {
    assert DirOk(c, p.run);
    if p.launch.Some? { assert p.launch == p1.launch; }
    if p.identity.Some? { SameIdentity(c, pid, p); }
    if p1.sealed.Some? { DurableStopIsSealed(c, p.run); }
  }

  /** `reconcile` goes on only from a readable chain of its own ticket with an admission. */
  predicate OwnChain(d: RunDir, run: Run) {
    d.claim.Present() && d.claim.record.run == run && ChainAccepts(d)
  }

  predicate Reconcilable(d: RunDir, run: Run) {
    OwnChain(d, run) && d.launch.Present() && OwnedBy(d.launch.record, d.claim.record) && d.admitted.Present()
  }

  function Loaded(d: RunDir, p: Proc): Proc
    requires d.claim.Present() && d.launch.Present() && d.admitted.Present()
  {
    p.(ticket := Some(d.claim.record), launch := Some(d.launch.record), identity := Some(d.admitted.record.identity),
       sealed := if d.stopped.Present() then Some(d.stopped.record) else None,
       pc := if d.acknowledged.Present() then Finished else if d.stopped.Absent? then Retain else Status)
  }

  lemma LoadExistingShape(c: Core, p: Proc, ch: Choice)
    requires p.pc.LoadExisting? && RecoveryAllows(ch) && !ch.Raise?
    ensures p.run !in c.dirs || !OwnChain(c.dirs[p.run], p.run) ==> Recovery(c, p, ch) == (c, Fail(p))
    ensures p.run in c.dirs && OwnChain(c.dirs[p.run], p.run) && !Reconcilable(c.dirs[p.run], p.run) ==>
              Recovery(c, p, ch) == (Put(c, p.run, SyncDir(c.dirs[p.run])), Fail(p))
    ensures p.run in c.dirs && Reconcilable(c.dirs[p.run], p.run) ==>
              Recovery(c, p, ch) == (Put(c, p.run, SyncDir(c.dirs[p.run])), Loaded(c.dirs[p.run], p))
  {
  }

  lemma ToLoaded(c: Core, pid: Pid, p: Proc)
    requires CoreInv(c) && FieldsOk(c, pid, p) && p.mode.ReconcileMode? && p.run in c.dirs && Reconcilable(c.dirs[p.run], p.run)
    ensures var c1 := Put(c, p.run, SyncDir(c.dirs[p.run])); CoreInv(c1) && ProcOk(c1, pid, Loaded(c.dirs[p.run], p))
  {
    var c1, q := Put(c, p.run, SyncDir(c.dirs[p.run])), Loaded(c.dirs[p.run], p);
    LoadKeeps(c, pid, p);
    if !q.pc.Finished? {
      LoadedFields(c1, pid, p, q);
      Onward(c1, pid, q, q);
    }
  }

  lemma LoadExistingKeeps(c: Core, pid: Pid, p: Proc, ch: Choice)
    requires CoreInv(c) && FieldsOk(c, pid, p) && At(c, p) && p.pc.LoadExisting? && RecoveryAllows(ch) && !ch.Raise?
    ensures CoreInv(Recovery(c, p, ch).0) && ProcOk(Recovery(c, p, ch).0, pid, Recovery(c, p, ch).1)
  {
    LoadExistingShape(c, p, ch);
    if p.run !in c.dirs || !OwnChain(c.dirs[p.run], p.run) {
      FailKeeps(c, pid, p);
    } else if !Reconcilable(c.dirs[p.run], p.run) {
      LoadKeeps(c, pid, p);
      FailKeeps(Put(c, p.run, SyncDir(c.dirs[p.run])), pid, p);
    } else {
      ToLoaded(c, pid, p);
    }
  }

  lemma SealedField(c: Core, pid: Pid, p: Proc)
    requires FieldsOk(c, pid, p) && SealedHere(c, p)
    ensures FieldsOk(c, pid, p.(sealed := Some(c.dirs[p.run].stopped.record), pc := Status))
  {
  }

  lemma ReloadShape(c: Core, p: Proc, ch: Choice)
    requires p.pc.ReloadChain? && RecoveryAllows(ch) && !ch.Raise?
    ensures p.run !in c.dirs || !ChainAccepts(c.dirs[p.run]) ==> Recovery(c, p, ch) == (c, Fail(p))
    ensures p.run in c.dirs && ChainAccepts(c.dirs[p.run]) && c.dirs[p.run].stopped.Absent? ==>
              Recovery(c, p, ch) == (Put(c, p.run, SyncDir(c.dirs[p.run])), Fail(p))
    ensures p.run in c.dirs && ChainAccepts(c.dirs[p.run]) && c.dirs[p.run].stopped.Present() ==>
              Recovery(c, p, ch) ==
                (Put(c, p.run, SyncDir(c.dirs[p.run])), p.(sealed := Some(c.dirs[p.run].stopped.record), pc := Status))
  {
  }

  lemma ToStatus(c: Core, pid: Pid, p: Proc)
    requires FieldsOk(c, pid, p) && SealedHere(c, p) && p.mode.ReconcileMode?
    ensures ProcOk(c, pid, p.(sealed := Some(c.dirs[p.run].stopped.record), pc := Status))
  {
    SealedField(c, pid, p);
    var q := p.(sealed := Some(c.dirs[p.run].stopped.record), pc := Status);
    Onward(c, pid, q, q);
  }

  lemma ReloadKeeps(c: Core, pid: Pid, p: Proc, ch: Choice)
    requires CoreInv(c) && FieldsOk(c, pid, p) && At(c, p) && p.pc.ReloadChain? && RecoveryAllows(ch) && !ch.Raise?
    ensures CoreInv(Recovery(c, p, ch).0) && ProcOk(Recovery(c, p, ch).0, pid, Recovery(c, p, ch).1)
  {
    ReloadShape(c, p, ch);
    if p.run !in c.dirs || !ChainAccepts(c.dirs[p.run]) {
      FailKeeps(c, pid, p);
    } else {
      LoadKeeps(c, pid, p);
      FailKeeps(Put(c, p.run, SyncDir(c.dirs[p.run])), pid, p);
      if c.dirs[p.run].stopped.Present() { ToStatus(Put(c, p.run, SyncDir(c.dirs[p.run])), pid, p); }
    }
  }
}
