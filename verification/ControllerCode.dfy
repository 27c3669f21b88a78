/** The controller object: `run`, `_seal`, `_abort` and `reconcile` as its methods, over a site where
    everybody else goes on between any two effects. Every effect is one step of the transition
    system, so all that is proved of its runs holds of these methods. */
module ControllerCode {
  import opened Records
  import opened RunDirectory
  import opened ControllerState
  import opened ControllerInvariant
  import opened ControllerProof
  import opened ControllerSteps
  import opened ControllerTheorems
  import opened ControllerExposure
  import opened ControllerShapes
  import opened ControllerSite
  import opened RunJournal

  /** The completion of this Run is the server's, under its own lease, of its own sealed output. */
  ghost predicate Published(c: Core, run: Run, a: Acknowledged) {
    && a.outcome.Completion? && run in c.dirs && c.dirs[run].stopped.Durable? && c.dirs[run].claim.Durable?
    && run in c.completed && c.completed[run].lease == c.dirs[run].claim.record.nonce == a.outcome.receipt.lease
    && c.dirs[run].stopped.record.output == Some(c.completed[run].output)
  }

  /** What one call of `run` sends: GO, the release, the completion; each at most once, in this order. */
  ghost predicate Worked(w: seq<Event>, pid: Pid, run: Run) {
    && |w| <= 3
    && (|w| > 0 ==> w[0].GoSent? && w[0].pid == pid && w[0].run == run)
    && (|w| > 1 ==> w[1].Released? && w[1].pid == pid && w[1].run == run)
    && (|w| > 2 ==> w[2].CompleteSent? && w[2].pid == pid && w[2].run == run)
  }

  /** What one cleanup sends: a release, a stop message, or both in this order. */
  ghost predicate Cleaned(x: seq<Event>, pid: Pid, run: Run) {
    && |x| <= 2
    && (|x| > 0 ==> (x[0].Released? || x[0].StopSent?) && x[0].pid == pid && x[0].run == run)
    && (|x| > 1 ==> x[0].Released? && x[1] == StopSent(pid, run))
  }

  ghost predicate HadSeal(dirs: map<Run, RunDir>, run: Run) {
    run in dirs && dirs[run].stopped.Present()
  }

  ghost predicate IsRelease(r: seq<Event>, pid: Pid, run: Run) {
    |r| <= 1 && (|r| > 0 ==> r[0].Released? && r[0].pid == pid && r[0].run == run)
  }

  ghost predicate IsCompletion(m: seq<Event>, pid: Pid, run: Run) {
    |m| <= 1 && (|m| > 0 ==> m[0].CompleteSent? && m[0].pid == pid && m[0].run == run)
  }

  /** After `_seal`: the observation is all that was added, and the unit is no longer held. */
  predicate SealedFrom(p: Proc, q: Proc)
    requires p.identity.Some?
  {
    q == Dropped(p).(observation := q.observation)
  }

  class Controller {
    const site: Site
    const pid: Pid
    var used: bool
    var launch: Option<Launch>
    var identity: Option<Identity>
    var attempted: bool
    /** Of the observer: the names held, and those launched with their reply received. */
    var references: set<UnitName>
    var launched: set<UnitName>

    ghost predicate Mirrors(p: Proc)
      reads this
    {
      launch == p.launch && identity == p.identity && attempted == p.attempted && references == p.references && launched == p.launched
    }

    ghost predicate Valid()
      reads this, site
    {
      && site.Valid()
      && (if used then pid in site.Now().procs && Mirrors(site.Now().procs[pid])
          else pid !in site.Now().spawned && launch == None && identity == None && !attempted && references == {} && launched == {})
    }

    ghost function Me(): Proc
      reads this, site
      requires Valid() && used
    {
      site.Now().procs[pid]
    }

    /** Everything that ever left a controller. */
    ghost function Sent(): seq<Event>
      reads this, site
      requires Valid()
    {
      site.Now().core.history
    }

    constructor (site: Site, pid: Pid)
      requires site.Valid() && pid !in site.Now().spawned
      ensures this.site == site && this.pid == pid && Valid() && !used
    {
      this.site, this.pid := site, pid;
      used, launch, identity, attempted, references, launched := false, None, None, false, {}, {};
    }

    /** The lock, or the refusal that another controller holds it. */
    method Enter(run: Run, reconcile: bool) returns (entered: bool)
      requires Valid() && !used
      modifies this, site
      ensures Valid() && used && old(site.trace) <= site.trace
      ensures Me() == NewProc(run, reconcile).(pc := if !entered then Finished else if reconcile then LoadExisting else Scan)
      ensures Mirrors(Me())
    {
      site.Others(pid);
      site.Take(Spawn(pid, run, reconcile));
      site.Others(pid);
      entered := site.Now().lock.None?;
      site.Take(if entered then Acquire(pid) else Refused(pid));
      used := true;
    }

    /** `unresolved` as `run` uses it: one Run directory after the other, each acknowledged. */
    method ScanRuns() returns (ok: bool)
      requires Valid() && used && Me().pc.Scan? && Me().mode.RunMode? && !attempted
      modifies site
      ensures Valid() && old(site.trace) <= site.trace && Sent() == old(Sent()) && Me().run == old(Me()).run
      ensures if ok then Me().pc == CheckFresh && Me().mode.RunMode? else Me().pc.Finished?
    {
      var scanning := true;
      while scanning
        invariant Valid() && old(site.trace) <= site.trace && Sent() == old(Sent())
        invariant Me().run == old(Me()).run && Me().mode.RunMode? && !attempted
        invariant Me().pc == if scanning then Scan else ScanSync
        decreases scanning, |site.Now().core.dirs.Keys - Me().scanned|
      {
        ghost var p, dirs := Me(), site.Now().core.dirs;
        var ch;
        ghost var c;
        ch, c := site.Do(pid);
        ActIsSetup(c, pid, p, ch);
        SetupShape(c, p, ch);
        ScanShape(c, p, ch);
        FailUnwinds(p);
        if site.Raised(pid) { return false; }
        scanning := ch.Scanned?;
        if scanning { Fewer(dirs.Keys, p.scanned, ch.run); }
      }
      ok := AdmissionStep(ScanSync);
    }

    /** The Run may begin: every other Run is durably resolved, its own directory and ticket are durable
        and nothing else is there, no unit and no GO was ever its own. */
    ghost predicate MayBegin()
      reads this, site
      requires Valid() && used
    {
      var c, p := site.Now().core, Me();
      Alone(c, p.run) && NoGo(c, p.run) && NoUnit(c, p.run) && p.ticket.Some?
      && p.run in c.dirs && c.dirs[p.run].entryDurable && c.dirs[p.run].claim == Durable(p.ticket.value) && NoPhase(c.dirs[p.run])
    }

    /** The start of `run`: nothing else may be unresolved and the Run must be new; then its directory
        and ticket are made durable, the lease is claimed and its first heartbeat is live. Nothing is
        sent, and a failure has nothing to clean up. */
    method Admission() returns (ok: bool)
      requires Valid() && used && Me().pc.Scan? && Me().mode.RunMode? && !attempted
      modifies site
      ensures Valid() && old(site.trace) <= site.trace && Sent() == old(Sent()) && Me().run == old(Me()).run
      ensures if ok then Me().pc == Fetch && Me().mode.RunMode? else Me().pc.Finished?
      ensures ok ==> MayBegin()
    {
      ok := ScanRuns();
      if ok { ok := AdmissionStep(CheckFresh); }
      if ok { ok := ChildDirectory(); }
      if ok { ok := ClaimAndStart(); }
      if ok { FetchMeansAdmitted(); }
    }

    ghost method FetchMeansAdmitted()
      requires Valid() && used && Me().pc.Fetch?
      ensures MayBegin()
    {
      Reachable(site.trace, site.labels, |site.trace| - 1);
      assert ProcOk(site.Now().core, pid, Me());
      FreshAtFetch(site.Now().core, pid, Me());
    }

    /** `_child_directory` */
    method ChildDirectory() returns (ok: bool)
      requires Valid() && used && Me().pc.MakeDir? && Me().mode.RunMode? && !attempted
      modifies site
      ensures Valid() && old(site.trace) <= site.trace && Sent() == old(Sent()) && Me().run == old(Me()).run
      ensures if ok then Me().pc == LinkTicket && Me().mode.RunMode? else Me().pc.Finished?
    {
      ok := AdmissionStep(MakeDir);
      if ok { ok := AdmissionStep(SyncDirs); }
    }

    /** `claim.prepare`, the claim itself, and the first heartbeat. */

    method ClaimAndStart() returns (ok: bool)
      requires Valid() && used && Me().pc.LinkTicket? && Me().mode.RunMode? && !attempted
      modifies site
      ensures Valid() && old(site.trace) <= site.trace && Sent() == old(Sent()) && Me().run == old(Me()).run
      ensures if ok then Me().pc == Fetch && Me().mode.RunMode? else Me().pc.Finished?
    {
      ok := AdmissionStep(LinkTicket);
      if ok { ok := AdmissionStep(Me().pc); }
      if ok { ok := AdmissionStep(ClaimLease); }
      if ok { ok := AdmissionStep(FirstTick); }
    }

    /** One effect of the admission. */
    method AdmissionStep(ghost at: Pc) returns (ok: bool)
      requires Valid() && used && Me().pc == at && SetupPc(at) && !at.Scan? && Me().mode.RunMode? && !attempted
      modifies site
      ensures Valid() && old(site.trace) <= site.trace && Sent() == old(Sent()) && Me().run == old(Me()).run
      ensures ok ==> SetupOrder(at, Me().pc) && Me().mode.RunMode?
      ensures !ok ==> FailedFrom(old(Me()), Me())
    {
      ghost var p := Me();
      var ch;
      ghost var c;
      ch, c := site.Do(pid);
      ActIsSetup(c, pid, p, ch);
      SetupShape(c, p, ch);
      FailUnwinds(p);
      ok := !site.Raised(pid);
    }

    // ---- effects --------------------------------------------------------------------------------

    /** An effect that only succeeds or raises. */
    method Effect() returns (ok: bool)
      requires Valid() && used && Plain(Me())
      modifies site
      ensures Valid() && old(site.trace) <= site.trace && Sent() == old(Sent())
      ensures if ok then Me() == old(Me()).(pc := PlainNext(old(Me()))) else FailedFrom(old(Me()), Me())
    {
      ghost var p := Me();
      var ch;
      ghost var c;
      ch, c := site.Do(pid);
      PlainShape(c, pid, p, ch);
      FailUnwinds(p);
      ok := !ch.Raise?;
    }

    /** `journal.prepare` and `_advance`: chain barrier, link, directory fsync. On success the record is
        durable. */
    method Advance(ghost plan: Plan) returns (draft: Option<Draft>)
      requires Valid() && used && Me().pc == Barrier(plan)
      modifies this`launch, site
      ensures Valid() && old(site.trace) <= site.trace && Sent() == old(Sent())
      ensures draft.None? ==> FailedFrom(old(Me()), Me())
      ensures draft.Some? ==> Matches(plan, draft.value) && Me() == AfterPhase(old(Me()), draft.value)
      ensures draft.Some? ==> Me().run in site.Now().core.dirs && DurableAt(site.Now().core.dirs[Me().run], draft.value)
    {
      ghost var p := Me();
      draft := Planned();
      if draft.None? { return; }
      var ok := PublishRecord(draft.value);
      if !ok { return None; }
      AfterPhaseIgnoresPc(p, p.(pc := Link(draft.value)), draft.value);
    }

    /** `_publish` */
    method PublishRecord(draft: Draft) returns (ok: bool)
      requires Valid() && used && Me().pc == Link(draft)
      modifies this`launch, site
      ensures Valid() && old(site.trace) <= site.trace && Sent() == old(Sent())
      ensures !ok ==> FailedFrom(old(Me()), Me())
      ensures ok ==> Me() == AfterPhase(old(Me()), draft)
      ensures ok ==> Me().run in site.Now().core.dirs && DurableAt(site.Now().core.dirs[Me().run], draft)
    {
      ghost var p := Me();
      ok := LinkRecord(draft);
      if ok { ok := SyncRecord(draft); }
      AfterPhaseIgnoresPc(p, p.(pc := SyncPhase(draft)), draft);
    }

    /** The barrier: the chain is read, synced and validated, and the record built on it. */
    method Planned() returns (draft: Option<Draft>)
      requires Valid() && used && Me().pc.Barrier?
      modifies site
      ensures Valid() && old(site.trace) <= site.trace && Sent() == old(Sent())
      ensures draft.None? ==> FailedFrom(old(Me()), Me())
      ensures draft.Some? ==> Matches(old(Me()).pc.plan, draft.value) && Me() == old(Me()).(pc := Link(draft.value))
    {
      ghost var p := Me();
      var ch;
      ghost var c;
      ch, c := site.Do(pid);
      ActIsJournal(c, pid, p, ch);
      FailUnwinds(p);
      if ch.Raise? { return None; }
      BarrierShape(c, p, ch);
      if p.run in c.dirs { PlanMatches(c.dirs[p.run], p, ch); }
      if site.Raised(pid) { return None; }
      draft := Some(site.Now().procs[pid].pc.draft);
    }

    method LinkRecord(draft: Draft) returns (ok: bool)
      requires Valid() && used && Me().pc == Link(draft)
      modifies site
      ensures Valid() && old(site.trace) <= site.trace && Sent() == old(Sent())
      ensures if ok then Me() == old(Me()).(pc := SyncPhase(draft)) else FailedFrom(old(Me()), Me())
    {
      ghost var p := Me();
      var ch;
      ghost var c;
      ch, c := site.Do(pid);
      ActIsJournal(c, pid, p, ch);
      FailUnwinds(p);
      if ch.Raise? { return false; }
      LinkShape(c, p, ch);
      ok := !site.Raised(pid);
    }

    method SyncRecord(draft: Draft) returns (ok: bool)
      requires Valid() && used && Me().pc == SyncPhase(draft)
      modifies this`launch, site
      ensures Valid() && old(site.trace) <= site.trace && Sent() == old(Sent())
      ensures !ok ==> FailedFrom(old(Me()), Me())
      ensures ok ==> Me() == AfterPhase(old(Me()), draft)
      ensures ok ==> Me().run in site.Now().core.dirs && DurableAt(site.Now().core.dirs[Me().run], draft)
    {
      ghost var p := Me();
      var ch;
      ghost var c;
      ch, c := site.Do(pid);
      ActIsJournal(c, pid, p, ch);
      FailUnwinds(p);
      if ch.Raise? { return false; }
      SyncedIsDurable(c, pid, p, draft);
      SyncShape(c, p, ch);
      if draft.LaunchDraft? { launch := Some(draft.launch); }
      return true;
    }

    // ---- the unit -------------------------------------------------------------------------------

    /** `observer.launch`: the name is held before the request leaves. */
    method LaunchUnit() returns (ok: bool)
      requires Valid() && used && Me().pc.LaunchUnit? && Me().launch.Some?
      modifies this`references, this`launched, site
      ensures Valid() && old(site.trace) <= site.trace && Sent() == old(Sent())
      ensures ok ==> Me() == Confirmed(old(Me()))
      ensures !ok ==> FailedFrom(old(Me()), Me()) || FailedFrom(Held(old(Me())), Me())
    {
      ghost var p := Me();
      var ch;
      ghost var c;
      ch, c := site.Do(pid);
      ActIsPhysical(c, pid, p, ch);
      FailUnwinds(p);
      if ch.Raise? { return false; }
      LaunchShape(c, pid, p, ch);
      FailUnwinds(Held(p));
      references := references + {launch.value.unit};
      if ch.Lost? { return false; }
      launched := launched + {launch.value.unit};
      return true;
    }

    /** `observer.capture` */
    method CaptureUnit() returns (ok: bool)
      requires Valid() && used && Me().pc.Capture?
      modifies this`identity, site
      ensures Valid() && old(site.trace) <= site.trace && Sent() == old(Sent())
      ensures ok ==> Me() == old(Me()).(identity := identity, pc := Barrier(PlanAdmitted)) && identity.Some?
      ensures !ok ==> FailedFrom(old(Me()), Me())
    {
      ghost var p := Me();
      var ch;
      ghost var c;
      ch, c := site.Do(pid);
      ActIsPhysical(c, pid, p, ch);
      FailUnwinds(p);
      if ch.Raise? { return false; }
      CaptureShape(c, pid, p, ch);
      identity := site.Now().procs[pid].identity;
      return true;
    }

    /** The GO line: it may have left even when the write fails. */
    method WriteGo() returns (ok: bool)
      requires Valid() && used && Me().pc.SendGo? && Me().launch.Some?
      modifies site
      ensures Valid() && old(site.trace) <= site.trace
      ensures if ok then Me() == old(Me()).(pc := Pc.AwaitOutput) else FailedFrom(old(Me()), Me())
      ensures Sent() == old(Sent()) || Sent() == old(Sent()) + [GoSent(pid, old(Me()).run, old(Me()).launch.value.unit)]
      ensures ok ==> Sent() == old(Sent()) + [GoSent(pid, old(Me()).run, old(Me()).launch.value.unit)]
    {
      ghost var p := Me();
      var ch;
      ghost var c;
      ch, c := site.Do(pid);
      ActIsPhysical(c, pid, p, ch);
      FailUnwinds(p);
      if ch.Raise? { return false; }
      GoShape(c, pid, p, ch);
      ok := !ch.Lost?;
    }

    method ReadOutput() returns (ok: bool)
      requires Valid() && used && Me().pc.AwaitOutput?
      modifies site
      ensures Valid() && old(site.trace) <= site.trace && Sent() == old(Sent())
      ensures if ok then Me() == old(Me()).(output := Me().output, pc := Pc.WaitStopped) else FailedFrom(old(Me()), Me())
    {
      ghost var p := Me();
      var ch;
      ghost var c;
      ch, c := site.Do(pid);
      ActIsPhysical(c, pid, p, ch);
      FailUnwinds(p);
      if ch.Raise? { return false; }
      OutputShape(c, pid, p, ch);
      return true;
    }

    /** `_seal`: the stop is observed, the stopped record made durable unless one exists, and only then the
        reference dropped. Whatever fails, a release leaves only under a sealed stop. */
    method Seal() returns (ok: bool)
      requires Valid() && used && Me().pc.WaitStopped? && Me().identity.Some?
      modifies this`launch, this`references, this`launched, site
      ensures Valid() && old(site.trace) <= site.trace
      ensures ok ==> SealedFrom(old(Me()), Me()) && Sent() == old(Sent()) + [ReleaseOf(old(Me()))]
      ensures !ok ==> FailedFrom(old(Me()), Me()) && (Sent() == old(Sent()) || Sent() == old(Sent()) + [ReleaseOf(old(Me()))])
      ensures Sent() != old(Sent()) ==> SealedStop(site.Now().core, Me().run)
    {
      ok := Observe();
      if ok { ok := RecordAndRelease(); }
    }

    method RecordAndRelease() returns (ok: bool)
      requires Valid() && used && Me().pc.LoadStopped? && Me().identity.Some?
      modifies this`launch, this`references, this`launched, site
      ensures Valid() && old(site.trace) <= site.trace
      ensures if ok then Me() == Dropped(old(Me())) else FailedFrom(old(Me()), Me())
      ensures Sent() == old(Sent()) + [ReleaseOf(old(Me()))] || (!ok && Sent() == old(Sent()))
      ensures Sent() != old(Sent()) ==> SealedStop(site.Now().core, Me().run)
    {
      ghost var before, event := Sent(), ReleaseOf(Me());
      ok := RecordStop();
      if ok { ok := ReleaseUnit(); }
      if Sent() != before { ReleasedIsSealed(event); }
    }

    /** The stopped record, this one's or one that a failed attempt left behind. */
    method RecordStop() returns (ok: bool)
      requires Valid() && used && Me().pc.LoadStopped?
      modifies this`launch, site
      ensures Valid() && old(site.trace) <= site.trace && Sent() == old(Sent())
      ensures if ok then Me() == old(Me()).(pc := Pc.Release) else FailedFrom(old(Me()), Me())
    {
      var existing;
      ok, existing := LoadStopped();
      if ok && !existing {
        var draft := Advance(PlanStopped);
        ok := draft.Some?;
      }
    }

    method Observe() returns (ok: bool)
      requires Valid() && used && Me().pc.WaitStopped?
      modifies site
      ensures Valid() && old(site.trace) <= site.trace && Sent() == old(Sent())
      ensures if ok then Me() == old(Me()).(observation := Me().observation, pc := Pc.LoadStopped) else FailedFrom(old(Me()), Me())
    {
      ghost var p := Me();
      var ch;
      ghost var c;
      ch, c := site.Do(pid);
      ActIsPhysical(c, pid, p, ch);
      FailUnwinds(p);
      if ch.Raise? { return false; }
      WaitShape(c, pid, p, ch);
      return true;
    }

    method LoadStopped() returns (ok: bool, existing: bool)
      requires Valid() && used && Me().pc.LoadStopped?
      modifies site
      ensures Valid() && old(site.trace) <= site.trace && Sent() == old(Sent())
      ensures if ok then Me() == old(Me()).(pc := if existing then Pc.Release else Barrier(PlanStopped)) else FailedFrom(old(Me()), Me())
    {
      ghost var p := Me();
      existing := false;
      var ch;
      ghost var c;
      ch, c := site.Do(pid);
      ActIsPhysical(c, pid, p, ch);
      FailUnwinds(p);
      if ch.Raise? { return false, false; }
      LoadStoppedShape(c, pid, p, ch);
      if site.Raised(pid) { return false, false; }
      ok := true;
      var run := site.Now().procs[pid].run;
      existing := run in site.Now().core.dirs && site.Now().core.dirs[run].stopped.Present();
    }

    method ReleaseUnit() returns (ok: bool)
      requires Valid() && used && Me().pc.Release? && Me().identity.Some?
      modifies this`references, this`launched, site
      ensures Valid() && old(site.trace) <= site.trace
      ensures if ok then Me() == Dropped(old(Me())) else FailedFrom(old(Me()), Me())
      ensures Sent() == old(Sent()) + [ReleaseOf(old(Me()))] || (!ok && Sent() == old(Sent()))
    {
      ghost var p := Me();
      var ch;
      ghost var c;
      ch, c := site.Do(pid);
      ActIsPhysical(c, pid, p, ch);
      FailUnwinds(p);
      if ch.Raise? { return false; }
      ReleaseShape(c, pid, p, ch);
      if !ch.Lost? {
        references := references - {identity.value.unit};
        launched := launched - {identity.value.unit};
      }
      ok := !ch.Lost?;
    }

    /** The one release of this controller's unit. */
    ghost function ReleaseOf(p: Proc): Event
      requires p.identity.Some?
    {
      Released(pid, p.run, p.identity.value)
    }

    ghost method ReleasedIsSealed(e: Event)
      requires Valid() && used && |Sent()| > 0 && Sent()[|Sent()| - 1] == e && e.Released?
      ensures SealedStop(site.Now().core, e.run)
    {
      Reachable(site.trace, site.labels, |site.trace| - 1);
      assert EventOk(site.Now().core, e);
    }

    // ---- the server -----------------------------------------------------------------------------

    /** The last heartbeat before publication; from here on a failure is left to `reconcile`. */
    method Attempt() returns (ok: bool)
      requires Valid() && used && Me().pc.TickAfterSeal?
      modifies this`attempted, site
      ensures Valid() && old(site.trace) <= site.trace && Sent() == old(Sent())
      ensures ok ==> old(Me()).output.Some? && Me() == old(Me()).(attempted := true, pc := Pc.SendComplete(old(Me()).output.value))
      ensures !ok ==> FailedFrom(old(Me()), Me())
    {
      ghost var p := Me();
      var ch;
      ghost var c;
      ch, c := site.Do(pid);
      ActIsPhysical(c, pid, p, ch);
      FailUnwinds(p);
      if ch.Raise? { return false; }
      AttemptShape(c, pid, p, ch);
      attempted := true;
      return true;
    }

    /** One message of the kind that is due was added. */
    ghost predicate MessageAdded(before: seq<Event>, after: seq<Event>, p: Proc) {
      && |after| == |before| + 1 && before <= after
      && if p.pc.SendStop? then after[|before|] == StopSent(pid, p.run)
         else p.pc.SendComplete? && after[|before|].CompleteSent? && after[|before|].pid == pid
              && after[|before|].run == p.run && after[|before|].output == p.pc.output
    }

    /** The complete or stop message; it may have been received even when the call fails. */
    method SendMessage() returns (ok: bool)
      requires Valid() && used && (Me().pc.SendComplete? || Me().pc.SendStop?)
      modifies site
      ensures Valid() && old(site.trace) <= site.trace
      ensures if ok then Me() == old(Me()).(pc := if old(Me()).pc.SendStop? then Pc.AwaitStop else Pc.AwaitComplete)
              else FailedFrom(old(Me()), Me())
      ensures Sent() == old(Sent()) || MessageAdded(old(Sent()), Sent(), old(Me()))
      ensures ok ==> MessageAdded(old(Sent()), Sent(), old(Me()))
    {
      ghost var p := Me();
      var ch;
      ghost var c;
      ch, c := site.Do(pid);
      ActIsNetwork(c, pid, p, ch);
      FailUnwinds(p);
      if ch.Raise? { return false; }
      SenderHasTicket(c, pid, p);
      SendShape(c, pid, p, ch);
      ok := !ch.Lost?;
    }

    method ReadReply() returns (ok: bool)
      requires Valid() && used && (Me().pc.AwaitComplete? || Me().pc.AwaitStop?)
      modifies site
      ensures Valid() && old(site.trace) <= site.trace && Sent() == old(Sent())
      ensures !ok ==> FailedFrom(old(Me()), Me())
      ensures ok ==> Me().pc.Barrier? && Me().pc.plan.PlanAcknowledged? && Me() == old(Me()).(pc := Me().pc)
      ensures ok ==> (Me().pc.plan.outcome.Completion? <==> old(Me()).pc.AwaitComplete?)
    {
      ghost var p := Me();
      var ch;
      ghost var c;
      ch, c := site.Do(pid);
      ActIsNetwork(c, pid, p, ch);
      FailUnwinds(p);
      if ch.Raise? { return false; }
      ReplyShape(c, pid, p, ch);
      return true;
    }

    /** The Run's acknowledgement is durable, and says what the caller published. */
    ghost predicate Acked(a: Acknowledged)
      reads this, site
      requires Valid() && used
    {
      Me().pc.Finished? && Me().run in site.Now().core.dirs && site.Now().core.dirs[Me().run].acknowledged == Durable(a)
    }

    /** Message, reply and acknowledgement. */
    method Acknowledge() returns (ack: Option<Acknowledged>)
      requires Valid() && used && (Me().pc.SendComplete? || Me().pc.SendStop?)
      modifies this`launch, site
      ensures Valid() && old(site.trace) <= site.trace && Me().run == old(Me()).run
      ensures Me().mode.ReconcileMode? <==> old(Me()).mode.ReconcileMode?
      ensures ack.Some? ==> Acked(ack.value) && (ack.value.outcome.Completion? <==> old(Me()).pc.SendComplete?)
      ensures ack.None? ==> FailedFrom(old(Me()), Me())
      ensures Sent() == old(Sent()) || MessageAdded(old(Sent()), Sent(), old(Me()))
      ensures ack.Some? ==> MessageAdded(old(Sent()), Sent(), old(Me()))
    {
      var ok := Exchange();
      if !ok { return None; }
      ack := Conclude();
    }

    /** The message and its reply. */
    method Exchange() returns (ok: bool)
      requires Valid() && used && (Me().pc.SendComplete? || Me().pc.SendStop?)
      modifies site
      ensures Valid() && old(site.trace) <= site.trace
      ensures !ok ==> FailedFrom(old(Me()), Me())
      ensures ok ==> Me().pc.Barrier? && Me().pc.plan.PlanAcknowledged? && Me() == old(Me()).(pc := Me().pc)
      ensures ok ==> (Me().pc.plan.outcome.Completion? <==> old(Me()).pc.SendComplete?)
      ensures Sent() == old(Sent()) || MessageAdded(old(Sent()), Sent(), old(Me()))
      ensures ok ==> MessageAdded(old(Sent()), Sent(), old(Me()))
    {
      ok := SendMessage();
      if ok { ok := ReadReply(); }
    }

    /** `journal.acknowledge` */
    method Conclude() returns (ack: Option<Acknowledged>)
      requires Valid() && used && Me().pc.Barrier? && Me().pc.plan.PlanAcknowledged?
      modifies this`launch, site
      ensures Valid() && old(site.trace) <= site.trace && Sent() == old(Sent()) && Me().run == old(Me()).run
      ensures Me().mode.ReconcileMode? <==> old(Me()).mode.ReconcileMode?
      ensures ack.Some? ==> Acked(ack.value) && ack.value.outcome == old(Me()).pc.plan.outcome
      ensures ack.None? ==> FailedFrom(old(Me()), Me())
    {
      var draft := Advance(Me().pc.plan);
      if draft.None? { return None; }
      return Some(draft.value.acknowledged);
    }

    // ---- `run` ----------------------------------------------------------------------------------

    /** The `try` of `run` up to GO. */
    method Execute() returns (ok: bool)
      requires Valid() && used && Me().pc.Fetch? && Me().mode.RunMode? && !attempted
      modifies this`launch, this`identity, this`references, this`launched, site
      ensures Valid() && old(site.trace) <= site.trace && Sent() == old(Sent()) && Me().run == old(Me()).run
      ensures ok ==> Me().pc.TickBeforeGo? && Me().mode.RunMode? && !attempted && Me().launch.Some? && Me().identity.Some?
      ensures !ok ==> Me().pc.EnterAbort? && Me().mode.AbortMode? && !attempted
    {
      ok := AdmissionStep(Fetch);
      if !ok { return; }
      var draft := Advance(PlanLaunch);
      if draft.None? { return false; }
      ok := StartUnit();
    }

    /** Launch, READY, capture and admission. */
    method StartUnit() returns (ok: bool)
      requires Valid() && used && Me().pc.LaunchUnit? && Me().mode.RunMode? && !attempted && Me().launch.Some?
      modifies this`launch, this`identity, this`references, this`launched, site
      ensures Valid() && old(site.trace) <= site.trace && Sent() == old(Sent()) && Me().run == old(Me()).run
      ensures ok ==> Me().pc.TickBeforeGo? && Me().mode.RunMode? && !attempted && Me().launch.Some? && Me().identity.Some?
      ensures !ok ==> Me().pc.EnterAbort? && Me().mode.AbortMode? && !attempted
    {
      ok := LaunchUnit();
      if ok { ok := Effect(); }
      if ok { ok := AdmitUnit(); }
    }

    method AdmitUnit() returns (ok: bool)
      requires Valid() && used && Me().pc.Capture? && Me().mode.RunMode? && !attempted && Me().launch.Some?
      modifies this`launch, this`identity, site
      ensures Valid() && old(site.trace) <= site.trace && Sent() == old(Sent()) && Me().run == old(Me()).run
      ensures ok ==> Me().pc.TickBeforeGo? && Me().mode.RunMode? && !attempted && Me().launch.Some? && Me().identity.Some?
      ensures !ok ==> Me().pc.EnterAbort? && Me().mode.AbortMode? && !attempted
    {
      ok := CaptureUnit();
      if !ok { return; }
      var draft := Advance(PlanAdmitted);
      ok := draft.Some?;
    }

    /** The last heartbeat, GO, the output, the seal: GO goes out before the release, each at most
        once. */
    method Complete() returns (ok: bool, ghost work: seq<Event>)
      requires Valid() && used && Me().pc.TickBeforeGo? && Me().mode.RunMode? && !attempted && Me().launch.Some? && Me().identity.Some?
      modifies this`launch, this`references, this`launched, site
      ensures Valid() && old(site.trace) <= site.trace && Me().run == old(Me()).run
      ensures Sent() == old(Sent()) + work && Worked(work, pid, Me().run) && |work| <= 2
      ensures ok ==> Me().pc.TickAfterSeal? && Me().mode.RunMode? && !attempted && |work| == 2
      ensures !ok ==> Me().pc.EnterAbort? && Me().mode.AbortMode? && !attempted
    {
      work := [];
      ok := Effect();
      if !ok { return; }
      ghost var before, go := Sent(), GoSent(pid, Me().run, Me().launch.value.unit);
      ok := WriteGo();
      if Sent() != before { work := [go]; }
      if !ok { return; }
      ghost var release;
      ok, release := SealOutput();
      work := [go] + release;
      assert before + [go] + release == before + ([go] + release);
    }

    method SealOutput() returns (ok: bool, ghost release: seq<Event>)
      requires Valid() && used && Me().pc.AwaitOutput? && Me().mode.RunMode? && !attempted && Me().identity.Some?
      modifies this`launch, this`references, this`launched, site
      ensures Valid() && old(site.trace) <= site.trace && Me().run == old(Me()).run
      ensures Sent() == old(Sent()) + release && IsRelease(release, pid, Me().run) && (ok ==> |release| == 1)
      ensures ok ==> Me().pc.TickAfterSeal? && Me().mode.RunMode? && !attempted
      ensures !ok ==> Me().pc.EnterAbort? && Me().mode.AbortMode? && !attempted
    {
      ghost var before, event := Sent(), ReleaseOf(Me());
      ok := ReadOutput();
      if ok { ok := Seal(); }
      release := if Sent() == before then [] else [event];
    }

    /** `_abort`. Without an admitted identity nothing is sent and nothing dropped. Otherwise at most one
        release and then one stop message go out; without a release of its own the stop message goes out
        only for a stop that was sealed before and a unit no longer held. */
    method Abort() returns (ghost cleanup: seq<Event>)
      requires Valid() && used && Me().pc.EnterAbort? && Me().mode.AbortMode? && !attempted
      modifies this`launch, this`references, this`launched, site
      ensures Valid() && old(site.trace) <= site.trace && Me().run == old(Me()).run
      ensures Me().pc.Finished?
      ensures Sent() == old(Sent()) + cleanup && Cleaned(cleanup, pid, Me().run)
      ensures old(identity).None? ==> cleanup == [] && references == old(references)
      ensures references == old(references)
              || (|cleanup| > 0 && cleanup[0].Released? && references == old(references) - {old(identity).value.unit})
      ensures |cleanup| > 0 && cleanup[0].StopSent? ==>
                && old(identity).Some? && old(identity).value.unit !in old(references)
                && HadSeal(old(site.Now()).core.dirs, Me().run)
    {
      cleanup := [];
      var go := EnterCleanup();
      if go { cleanup := CleanUp(); }
    }

    /** The cleanup of an admitted unit. */
    method CleanUp() returns (ghost cleanup: seq<Event>)
      requires Valid() && used && Me().pc.AbortLoad? && Me().mode.AbortMode? && Me().identity.Some?
      modifies this`launch, this`references, this`launched, site
      ensures Valid() && old(site.trace) <= site.trace && Me().run == old(Me()).run
      ensures Me().pc.Finished?
      ensures Sent() == old(Sent()) + cleanup && Cleaned(cleanup, pid, Me().run)
      ensures references == old(references)
              || (|cleanup| > 0 && cleanup[0].Released? && references == old(references) - {identity.value.unit})
      ensures |cleanup| > 0 && cleanup[0].StopSent? ==>
                && identity.value.unit !in old(references)
                && HadSeal(old(site.Now()).core.dirs, Me().run)
    {
      cleanup := [];
      var ok, existing := LoadForAbort();
      if !ok { return; }
      ghost var release, report;
      ok, release := Settled(existing);
      if !ok { return release; }
      report := ReportStop();
      cleanup := release + report;
    }

    /** The stop message, its reply and the acknowledgement. */
    method ReportStop() returns (ghost report: seq<Event>)
      requires Valid() && used && Me().pc.SendStop? && Me().mode.AbortMode?
      modifies this`launch, site
      ensures Valid() && old(site.trace) <= site.trace && Me().run == old(Me()).run
      ensures Me().pc.Finished? && Sent() == old(Sent()) + report && (report == [] || report == [StopSent(pid, Me().run)])
    {
      ghost var before, event := Sent(), StopSent(pid, Me().run);
      var ack := Acknowledge();
      report := if Sent() == before then [] else [event];
      assert report != [] ==> Sent() == before + [event];
    }

    /** The middle of `_abort`: seal what was not sealed, or release what is still held. */
    method Settled(existing: bool) returns (ok: bool, ghost release: seq<Event>)
      requires Valid() && used && Me().mode.AbortMode? && Me().identity.Some?
      requires Me().pc == if !existing then Pc.StopUnit else if identity.value.unit in references then Pc.Release else Pc.SendStop
      modifies this`launch, this`references, this`launched, site
      ensures Valid() && old(site.trace) <= site.trace && Me().run == old(Me()).run
      ensures if ok then Me().pc.SendStop? && Me().mode.AbortMode? else Me().pc.Finished?
      ensures Sent() == old(Sent()) + release && IsRelease(release, pid, Me().run)
      ensures references == old(references) || (|release| == 1 && references == old(references) - {identity.value.unit})
      ensures ok && release == [] ==> existing && identity.value.unit !in references && references == old(references)
    {
      ghost var before, event := Sent(), ReleaseOf(Me());
      ok := true;
      if !existing { ok := StopAndSeal(); }
      else if identity.value.unit in references { ok := ReleaseUnit(); }
      release := if Sent() == before then [] else [event];
    }

    method EnterCleanup() returns (go: bool)
      requires Valid() && used && Me().pc.EnterAbort? && Me().mode.AbortMode?
      modifies site
      ensures Valid() && old(site.trace) <= site.trace && Sent() == old(Sent()) && Me().run == old(Me()).run
      ensures if go then Me() == old(Me()).(pc := Pc.AbortLoad) && Me().identity.Some? else Me().pc.Finished?
      ensures site.Now().core.dirs == old(site.Now()).core.dirs
    {
      ghost var p := Me();
      var ch;
      ghost var c;
      ch, c := site.Do(pid);
      ActIsRecovery(c, pid, p, ch);
      FailUnwinds(p);
      EnterAbortShape(c, p, ch);
      go := !site.Raised(pid);
    }

    method LoadForAbort() returns (ok: bool, existing: bool)
      requires Valid() && used && Me().pc.AbortLoad? && Me().mode.AbortMode? && Me().identity.Some?
      modifies site
      ensures Valid() && old(site.trace) <= site.trace && Sent() == old(Sent()) && Me().run == old(Me()).run
      ensures !ok ==> Me().pc.Finished?
      ensures ok ==> Me() == old(Me()).(pc := if !existing then Pc.StopUnit
                                              else if identity.value.unit in references then Pc.Release else Pc.SendStop)
      ensures ok && existing ==> HadSeal(old(site.Now()).core.dirs, Me().run)
    {
      ghost var p := Me();
      existing := false;
      var ch;
      ghost var c;
      ch, c := site.Do(pid);
      ActIsRecovery(c, pid, p, ch);
      FailUnwinds(p);
      if ch.Raise? { return false, false; }
      AbortLoadShape(c, p, ch);
      if site.Raised(pid) { return false, false; }
      ok := true;
      var run := site.Now().procs[pid].run;
      existing := run in site.Now().core.dirs && site.Now().core.dirs[run].stopped.Present();
    }

    /** Request the stop, retry the exact admission, and seal. */
    method StopAndSeal() returns (ok: bool)
      requires Valid() && used && Me().pc.StopUnit? && Me().mode.AbortMode? && Me().identity.Some?
      modifies this`launch, this`references, this`launched, site
      ensures Valid() && old(site.trace) <= site.trace && Me().run == old(Me()).run
      ensures if ok then Me().pc.SendStop? && Me().mode.AbortMode? else Me().pc.Finished?
      ensures Sent() == old(Sent()) + [ReleaseOf(old(Me()))] || (!ok && Sent() == old(Sent()))
      ensures references == if ok then old(references) - {identity.value.unit} else old(references)
    {
      ok := Effect();
      if !ok { return; }
      var draft := Advance(PlanAdmitted);
      if draft.None? { return false; }
      ok := Seal();
    }

    /** `run`. Whatever fails, the call ends with the lock given up, and every unit it requested either
        sealed or still held. If it returns, GO was sent, the sealed output was completed on the server
        under this lease, and the acknowledgement is durable. */
    method Run(run: Run) returns (ack: Option<Acknowledged>)
      requires Valid()
      modifies this, site
      ensures Valid() && used && old(site.trace) <= site.trace
      ensures old(used) ==> ack == None && site.trace == old(site.trace)
      ensures !old(used) ==> Me().run == run && Me().pc.Finished? && site.Now().lock != Some(pid)
      ensures !old(used) ==> NothingForgotten()
      ensures ack.Some? ==> Acked(ack.value) && Published(site.Now().core, run, ack.value)
      ensures ack.Some? ==> exists unit :: GoSent(pid, run, unit) in Sent()
    {
      if used { return None; }
      ghost var unit;
      ack, unit := RunOnce(run);
      Ended(ack);
    }

    method RunOnce(run: Run) returns (ack: Option<Acknowledged>, ghost unit: UnitName)
      requires Valid() && !used
      modifies this, site
      ensures Valid() && used && old(site.trace) <= site.trace && Me().run == run && Me().pc.Finished?
      ensures ack.Some? ==> Acked(ack.value) && ack.value.outcome.Completion? && GoSent(pid, run, unit) in Sent()
    {
      ack, unit := None, 0;
      var ok := Enter(run, false);
      if ok { ok := Admission(); }
      if !ok { return; }
      ghost var before, work, cleanup := Sent(), [], [];
      ack, work, cleanup := Try();
      if ack.Some? {
        assert Sent()[|before|] == work[0];
        unit := work[0].unit;
      }
    }

    /** What the theorems say of a call that is over. */
    ghost method Ended(ack: Option<Acknowledged>)
      requires Valid() && used && Me().pc.Finished? && (ack.Some? ==> Acked(ack.value))
      ensures site.Now().lock != Some(pid) && NothingForgotten()
      ensures ack.Some? && ack.value.outcome.Completion? ==> Published(site.Now().core, Me().run, ack.value)
    {
      Reachable(site.trace, site.labels, |site.trace| - 1);
      ExposureIsHeld(site.trace, site.labels, |site.trace| - 1);
      HoldingIsRemembering(site.Now().core, pid, Me());
      if ack.Some? && ack.value.outcome.Completion? {
        CompletionIsTrue(site.trace, site.labels, |site.trace| - 1, Me().run);
      }
    }

    /** Every unit this controller ever requested is sealed, or its name is still held. */
    ghost predicate NothingForgotten()
      reads this, site
      requires Valid() && used
    {
      forall u | u in site.Now().core.units && site.Now().core.units[u].launcher == pid ::
        SealedStop(site.Now().core, site.Now().core.units[u].run) || u in references
    }

    /** The `try` and its handler: cleanup follows exactly the failures before the publication was
        attempted, so a Run is never both published and reported stopped by one call. */
    method Try() returns (ack: Option<Acknowledged>, ghost work: seq<Event>, ghost cleanup: seq<Event>)
      requires Valid() && used && Me().pc.Fetch? && Me().mode.RunMode? && !attempted
      modifies this`launch, this`identity, this`attempted, this`references, this`launched, site
      ensures Valid() && old(site.trace) <= site.trace && Me().run == old(Me()).run && Me().pc.Finished?
      ensures Sent() == old(Sent()) + work + cleanup && Worked(work, pid, Me().run) && Cleaned(cleanup, pid, Me().run)
      ensures attempted ==> cleanup == [] && |work| >= 2
      ensures !attempted ==> ack.None? && |work| <= 2
      ensures ack.Some? ==> Acked(ack.value) && ack.value.outcome.Completion? && |work| == 3
    {
      cleanup := [];
      ack, work := Body();
      if ack.None? && !attempted { cleanup := Abort(); }
    }

    /** The `try` without its handler. */
    method Body() returns (ack: Option<Acknowledged>, ghost work: seq<Event>)
      requires Valid() && used && Me().pc.Fetch? && Me().mode.RunMode? && !attempted
      modifies this`launch, this`identity, this`attempted, this`references, this`launched, site
      ensures Valid() && old(site.trace) <= site.trace && Me().run == old(Me()).run
      ensures Sent() == old(Sent()) + work && Worked(work, pid, Me().run)
      ensures attempted ==> |work| >= 2
      ensures !attempted ==> ack.None? && |work| <= 2
      ensures ack.Some? ==> Acked(ack.value) && ack.value.outcome.Completion? && |work| == 3
      ensures ack.None? ==> if attempted then Me().pc.Finished? else Me().pc.EnterAbort? && Me().mode.AbortMode?
    {
      ack, work := None, [];
      var ok := Execute();
      if ok { ok, work := Complete(); }
      ghost var message := [];
      if ok { ack, message := Publish(); }
      work := work + message;
    }

    /** Publication, once. */
    method Publish() returns (ack: Option<Acknowledged>, ghost message: seq<Event>)
      requires Valid() && used && Me().pc.TickAfterSeal? && Me().mode.RunMode? && !attempted
      modifies this`launch, this`attempted, site
      ensures Valid() && old(site.trace) <= site.trace && Me().run == old(Me()).run
      ensures Sent() == old(Sent()) + message && IsCompletion(message, pid, Me().run)
      ensures message != [] ==> attempted
      ensures ack.Some? ==> Acked(ack.value) && ack.value.outcome.Completion? && attempted && |message| == 1
      ensures ack.None? ==> if attempted then Me().pc.Finished? else Me().pc.EnterAbort? && Me().mode.AbortMode?
    {
      message := [];
      var ok := Attempt();
      ghost var before := Sent();
      if ok { ack := Acknowledge(); } else { ack := None; }
      if Sent() != before { message := [Sent()[|before|]]; }
    }

    // ---- `reconcile` ----------------------------------------------------------------------------

    /** `reconcile` of an admitted Run: it never claims, launches or sends GO. If it returns, the Run's
        acknowledgement is durable; one that says completed is the server's completion of the sealed
        output. */
    method Reconcile(run: Run) returns (ack: Option<Acknowledged>)
      requires Valid()
      modifies this, site
      ensures Valid() && used && old(site.trace) <= site.trace
      ensures old(used) ==> ack == None && site.trace == old(site.trace)
      ensures !old(used) ==> Me().run == run && Me().pc.Finished? && site.Now().lock != Some(pid)
      ensures ack.Some? ==> Acked(ack.value) && (ack.value.outcome.Completion? ==> Published(site.Now().core, run, ack.value))
      ensures !old(used) ==> forall e | e in site.Now().core.history && e.GoSent? :: e.pid != pid
      ensures !old(used) ==> forall u | u in site.Now().core.units :: site.Now().core.units[u].launcher != pid
      ensures !old(used) ==> NothingForgotten()
    {
      if used { return None; }
      ack := ReconcileOnce(run);
      Ended(ack);
      NeverExecuted();
    }

    method ReconcileOnce(run: Run) returns (ack: Option<Acknowledged>)
      requires Valid() && !used
      modifies this, site
      ensures Valid() && used && old(site.trace) <= site.trace
      ensures Me().run == run && Me().pc.Finished? && Me().mode.ReconcileMode?
      ensures ack.Some? ==> Acked(ack.value)
    {
      ack := None;
      var ok := Enter(run, true);
      ghost var release, message;
      if ok { ack, release, message := Recover(); }
    }

    /** What one call of `reconcile` sends: the release of a unit it had to stop, and one message. */
    method Recover() returns (ack: Option<Acknowledged>, ghost release: seq<Event>, ghost message: seq<Event>)
      requires Valid() && used && Me().pc.LoadExisting? && Me().mode.ReconcileMode?
      modifies this`launch, this`identity, this`attempted, this`references, this`launched, site
      ensures Valid() && old(site.trace) <= site.trace && Me().run == old(Me()).run && Me().mode.ReconcileMode? && Me().pc.Finished?
      ensures Sent() == old(Sent()) + release + message && IsRelease(release, pid, Me().run) && |message| <= 1
      ensures ack.Some? ==> Acked(ack.value)
    {
      release, message := [], [];
      var ok;
      ok, ack := LoadAll();
      if !ok || ack.Some? { return; }
      if site.Now().core.dirs[site.Now().procs[pid].run].stopped.Absent? { ok, release := StopSurvivor(); }
      ghost var status;
      if ok { ack, status, message := Settle(); }
    }

    /** Ticket, chain and owner are checked; an existing acknowledgement is the answer. */
    method LoadAll() returns (ok: bool, ack: Option<Acknowledged>)
      requires Valid() && used && Me().pc.LoadExisting? && Me().mode.ReconcileMode?
      modifies this`launch, this`identity, site
      ensures Valid() && old(site.trace) <= site.trace && Sent() == old(Sent()) && Me().run == old(Me()).run && Me().mode.ReconcileMode?
      ensures !ok ==> Me().pc.Finished? && ack == None
      ensures ack.Some? ==> Acked(ack.value)
      ensures ok && ack.None? ==>
                && Me().identity.Some? && Me().run in site.Now().core.dirs
                && Me().pc == if site.Now().core.dirs[Me().run].stopped.Absent? then Pc.Retain else Pc.Status
    {
      ack := None;
      ok := LoadChain();
      if !ok { return; }
      var d := site.Now().core.dirs[site.Now().procs[pid].run];
      if d.acknowledged.Present() { ack := Some(d.acknowledged.record); }
    }

    method LoadChain() returns (ok: bool)
      requires Valid() && used && Me().pc.LoadExisting? && Me().mode.ReconcileMode?
      modifies this`launch, this`identity, site
      ensures Valid() && old(site.trace) <= site.trace && Sent() == old(Sent()) && Me().run == old(Me()).run && Me().mode.ReconcileMode?
      ensures !ok ==> Me().pc.Finished?
      ensures ok ==> Me().run in site.Now().core.dirs && Reconcilable(site.Now().core.dirs[Me().run], Me().run)
      ensures ok ==> Me() == Loaded(site.Now().core.dirs[Me().run], old(Me()))
      ensures ok ==> !site.Now().core.dirs[Me().run].acknowledged.Visible?
    {
      ghost var p := Me();
      var ch;
      ghost var c;
      ch, c := site.Do(pid);
      ActIsRecovery(c, pid, p, ch);
      FailUnwinds(p);
      if ch.Raise? { return false; }
      LoadResult(c, p, ch);
      var run := site.Now().procs[pid].run;
      if run !in site.Now().core.dirs || !Reconcilable(site.Now().core.dirs[run], run) { return false; }
      launch, identity := site.Now().procs[pid].launch, site.Now().procs[pid].identity;
      return true;
    }

    /** The unit is reattached, stopped, and its stop sealed without output. */
    method StopSurvivor() returns (ok: bool, ghost release: seq<Event>)
      requires Valid() && used && Me().pc.Retain? && Me().mode.ReconcileMode? && Me().identity.Some?
      modifies this`launch, this`references, this`launched, site
      ensures Valid() && old(site.trace) <= site.trace && Me().run == old(Me()).run && Me().mode.ReconcileMode?
      ensures Sent() == old(Sent()) + release && IsRelease(release, pid, Me().run)
      ensures if ok then Me().pc.Status? && |release| == 1 else Me().pc.Finished?
    {
      ghost var before, event := Sent(), ReleaseOf(Me());
      ok := Reattach();
      if ok { ok := Seal(); }
      release := if Sent() == before then [] else [event];
      if ok { ok := Reload(); }
    }

    method Reattach() returns (ok: bool)
      requires Valid() && used && Me().pc.Retain? && Me().mode.ReconcileMode? && Me().identity.Some?
      modifies this`references, site
      ensures Valid() && old(site.trace) <= site.trace && Sent() == old(Sent()) && Me().run == old(Me()).run && Me().mode.ReconcileMode?
      ensures if ok then Me().pc.WaitStopped? && Me().identity == old(Me()).identity else Me().pc.Finished?
    {
      ok := RetainUnit();
      if ok { ok := Effect(); }
    }

    method RetainUnit() returns (ok: bool)
      requires Valid() && used && Me().pc.Retain? && Me().mode.ReconcileMode? && Me().identity.Some?
      modifies this`references, site
      ensures Valid() && old(site.trace) <= site.trace && Sent() == old(Sent()) && Me().run == old(Me()).run && Me().mode.ReconcileMode?
      ensures if ok then Me().pc.StopUnit? && Me().identity == old(Me()).identity else Me().pc.Finished?
    {
      ghost var p := Me();
      var ch;
      ghost var c;
      ch, c := site.Do(pid);
      ActIsPhysical(c, pid, p, ch);
      FailUnwinds(p);
      if ch.Raise? { return false; }
      StopUnitShape(c, pid, p, ch);
      references := references + {identity.value.unit};
      ok := !ch.Lost?;
    }

    method Reload() returns (ok: bool)
      requires Valid() && used && Me().pc.ReloadChain? && Me().mode.ReconcileMode?
      modifies site
      ensures Valid() && old(site.trace) <= site.trace && Sent() == old(Sent()) && Me().run == old(Me()).run && Me().mode.ReconcileMode?
      ensures if ok then Me().pc.Status? else Me().pc.Finished?
    {
      ghost var p := Me();
      var ch;
      ghost var c;
      ch, c := site.Do(pid);
      ActIsRecovery(c, pid, p, ch);
      FailUnwinds(p);
      if ch.Raise? { return false; }
      ReloadShape(c, p, ch);
      ok := !site.Raised(pid);
    }

    /** By the server's status: take its completion over without another message, republish the sealed
        output while the lease is untouched, or else report the stop. */
    method Settle() returns (ack: Option<Acknowledged>, ghost status: Option<Receipt>, ghost message: seq<Event>)
      requires Valid() && used && Me().pc.Status? && Me().mode.ReconcileMode?
      modifies this`launch, this`attempted, site
      ensures Valid() && old(site.trace) <= site.trace && Me().run == old(Me()).run && Me().mode.ReconcileMode? && Me().pc.Finished?
      ensures Sent() == old(Sent()) + message && |message| <= 1
      ensures status.None? ==> ack.None? && message == []
      ensures status.Some? && status.value.state == ServerCompleted ==>
                message == [] && (ack.Some? ==> Acked(ack.value) && ack.value.outcome == Completion(status.value))
      ensures status.Some? && Republishes(status.value, old(Me()).sealed) ==>
                IsCompletion(message, pid, Me().run) && (message != [] ==> message[0].output == old(Me()).sealed.value.output.value)
                && (ack.Some? ==> Acked(ack.value) && ack.value.outcome.Completion? && message != [])
      ensures status.Some? && status.value.state != ServerCompleted && !Republishes(status.value, old(Me()).sealed) ==>
                (message != [] ==> message == [StopSent(pid, Me().run)])
                && (ack.Some? ==> Acked(ack.value) && ack.value.outcome.StopOnly? && message != [])
    {
      message := [];
      var ok, completed;
      ok, completed, status := AskStatus();
      if !ok { return None, None, []; }
      if completed {
        ack := Conclude();
      } else {
        ghost var before := Sent();
        ack := Acknowledge();
        if Sent() != before { message := [Sent()[|before|]]; }
      }
    }

    /** One heartbeat, and what it means for the sealed output. */
    method AskStatus() returns (ok: bool, completed: bool, ghost status: Option<Receipt>)
      requires Valid() && used && Me().pc.Status? && Me().mode.ReconcileMode?
      modifies this`attempted, site
      ensures Valid() && old(site.trace) <= site.trace && Sent() == old(Sent()) && Me().run == old(Me()).run && Me().mode.ReconcileMode?
      ensures !ok ==> Me().pc.Finished? && status.None?
      ensures ok ==> status.Some? && (completed <==> status.value.state == ServerCompleted)
      ensures ok && completed ==> Me().pc == Barrier(PlanAcknowledged(Completion(status.value)))
      ensures ok && !completed ==>
                if Republishes(status.value, old(Me()).sealed) then Me().pc == Pc.SendComplete(old(Me()).sealed.value.output.value) else Me().pc.SendStop?
    {
      ghost var p := Me();
      completed, status := false, None;
      var ch;
      ghost var c;
      ch, c := site.Do(pid);
      ActIsNetwork(c, pid, p, ch);
      FailUnwinds(p);
      if ch.Raise? { return false, false, None; }
      StatusBranch(c, pid, p, ch);
      ok, status := true, Some(ch.receipt);
      completed := ch.receipt.state == ServerCompleted;
      if Republishes(ch.receipt, site.Now().procs[pid].sealed) { attempted := true; }
    }

    ghost method NeverExecuted()
      requires Valid() && used && Me().mode.ReconcileMode?
      ensures forall e | e in site.Now().core.history && e.GoSent? :: e.pid != pid
      ensures forall u | u in site.Now().core.units :: site.Now().core.units[u].launcher != pid
    {
      ReachableKinds(site.trace, site.labels, |site.trace| - 1);
      ReconcileNeverExecutes(site.trace, site.labels, |site.trace| - 1, pid);
    }

    /** `close`: refused while anything is held. When it is not, every unit this controller ever asked
        for belongs to a Run with a sealed stop. */
    method Close() returns (ok: bool)
      requires Valid() && used
      ensures ok <==> references == {}
      ensures ok ==> forall u | u in site.Now().core.units && site.Now().core.units[u].launcher == pid ::
                       SealedStop(site.Now().core, site.Now().core.units[u].run)
    {
      ok := references == {};
      if ok {
        forall u | u in site.Now().core.units && site.Now().core.units[u].launcher == pid
          ensures SealedStop(site.Now().core, site.Now().core.units[u].run)
        {
          CloseMeansSealed(site.trace, site.labels, |site.trace| - 1, pid, u);
        }
      }
    }
  }
}
