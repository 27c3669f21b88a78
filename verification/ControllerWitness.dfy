/** A run that goes all the way: the statements of `ControllerTheorems` are about more than failures. */
module ControllerWitness {
  import opened Records
  import opened RunDirectory
  import opened ControllerState

  ghost predicate Reached(w: World) {
    exists t, labels :: Behaviour(t, labels) && t[|labels|] == w
  }

  lemma Extend(w: World, l: Label)
    requires Reached(w) && Enabled(w, l)
    ensures Reached(Next(w, l))
  {
    var t, labels :| Behaviour(t, labels) && t[|labels|] == w;
    var more, longer := labels + [l], t + [Next(w, l)];
    forall i | 0 <= i < |more| ensures Enabled(longer[i], more[i]) && longer[i + 1] == Next(longer[i], more[i]) {
      if i < |labels| { assert longer[i] == t[i] && longer[i + 1] == t[i + 1] && more[i] == labels[i]; }
    }
    assert Behaviour(longer, more) && longer[|more|] == Next(w, l);
  }

  const TICKET := Ticket(1, 2, 3)
  const LAUNCH := Launch(1, 2, 5)
  const IDENTITY := Identity(5, 6)
  const ADMITTED := Admitted(LaunchDigest(LAUNCH), IDENTITY)
  const OUTPUT := Output(0, 9)
  const RECEIPT := Receipt(1, 2, ServerCompleted, false, true)

  /** The records of a unit whose final result is `good`, read as success in either case. */
  function SealOf(good: bool): Stopped { Stopped(AdmittedDigest(ADMITTED), Observation(IDENTITY, !good, true), Some(OUTPUT), Some(OutputDigest(OUTPUT))) }
  function AckOf(good: bool): Acknowledged { Acknowledged(StoppedDigest(SealOf(good)), Completion(RECEIPT)) }

  /** The one controller, number 0, inside its critical section, with the directory of Run 1. */
  function Inside(d: RunDir, units: map<UnitName, Unit>, completed: map<Run, Acceptance>, h: seq<Event>, p: Proc): World {
    World(Core(map[1 := d], units, completed, h), Some(0), map[0 := p], map[0 := false])
  }

  lemma Moves(w: World, ch: Choice, p: Proc, w1: World)
    requires Reached(w) && w.lock == Some(0) && w.procs == map[0 := p] && Critical(p.pc) && Allows(w.core, p, ch)
    requires w1.lock == Some(0) && w1.procs.Keys == {0} && Critical(w1.procs[0].pc) && w1.spawned == w.spawned
    requires Act(w.core, 0, p, ch) == (w1.core, w1.procs[0])
    ensures Reached(w1)
  {
    Extend(w, Move(0, ch));
    assert w.procs[0 := w1.procs[0]] == w1.procs;
    assert Next(w, Move(0, ch)) == w1;
  }

  lemma SetupMoves(w: World, ch: Choice, p: Proc, w1: World)
    requires Reached(w) && w.lock == Some(0) && w.procs == map[0 := p] && SetupPc(p.pc) && SetupAllows(w.core, p, ch)
    requires w1.lock == Some(0) && w1.procs.Keys == {0} && Critical(w1.procs[0].pc) && w1.spawned == w.spawned
    requires Setup(w.core, p, ch) == (w1.core, w1.procs[0])
    ensures Reached(w1)
  {
    Moves(w, ch, p, w1);
  }

  lemma JournalMoves(w: World, ch: Choice, p: Proc, w1: World)
    requires Reached(w) && w.lock == Some(0) && w.procs == map[0 := p] && JournalPc(p.pc) && JournalAllows(w.core, p, ch)
    requires w1.lock == Some(0) && w1.procs.Keys == {0} && Critical(w1.procs[0].pc) && w1.spawned == w.spawned
    requires Journal(w.core, p, ch) == (w1.core, w1.procs[0])
    ensures Reached(w1)
  {
    Moves(w, ch, p, w1);
  }

  lemma UnitMoves(w: World, ch: Choice, p: Proc, w1: World)
    requires Reached(w) && w.lock == Some(0) && w.procs == map[0 := p] && UnitPc(p.pc) && UnitAllows(w.core, p, ch)
    requires w1.lock == Some(0) && w1.procs.Keys == {0} && Critical(w1.procs[0].pc) && w1.spawned == w.spawned
    requires Physical(w.core, 0, p, ch) == (w1.core, w1.procs[0])
    ensures Reached(w1)
  {
    Moves(w, ch, p, w1);
  }

  lemma NetworkMoves(w: World, ch: Choice, p: Proc, w1: World)
    requires Reached(w) && w.lock == Some(0) && w.procs == map[0 := p] && NetworkPc(p.pc) && NetworkAllows(w.core, p, ch)
    requires w1.lock == Some(0) && w1.procs.Keys == {0} && Critical(w1.procs[0].pc) && w1.spawned == w.spawned
    requires Network(w.core, 0, p, ch) == (w1.core, w1.procs[0])
    ensures Reached(w1)
  {
    Moves(w, ch, p, w1);
  }

  const STARTED := NewProc(1, false)
  const NEW_DIR := FRESH_DIR.(entryDurable := true)
  const CLAIMED_DIR := NEW_DIR.(claim := Durable(TICKET))
  const LAUNCHED_DIR := CLAIMED_DIR.(launch := Durable(LAUNCH))
  const ADMITTED_DIR := LAUNCHED_DIR.(admitted := Durable(ADMITTED))
  const TICKETED := STARTED.(ticket := Some(TICKET))
  const RECORDED := TICKETED.(launch := Some(LAUNCH))
  const HOLDING := RECORDED.(references := {5}, launched := {5})
  const CAPTURED := HOLDING.(identity := Some(IDENTITY))

  function SealedDir(good: bool): RunDir { ADMITTED_DIR.(stopped := Durable(SealOf(good))) }
  function AckedDir(good: bool): RunDir { SealedDir(good).(acknowledged := Durable(AckOf(good))) }
  function Observing(good: bool): Proc { CAPTURED.(output := Some(OUTPUT), observation := Some(Observation(IDENTITY, !good, true))) }
  function Attempting(good: bool): Proc { Observing(good).(references := {}, launched := {}, attempted := true) }

  function UnitAt(status: UnitStatus): map<UnitName, Unit> { map[5 := Unit(1, 0, IDENTITY, status)] }

  const GO_SENT := GoSent(0, 1, 5)
  const ALL_SENT := [GO_SENT, Released(0, 1, IDENTITY), CompleteSent(0, 1, 2, OUTPUT)]

  const SCANNING := World(EMPTY_CORE, Some(0), map[0 := STARTED.(pc := Scan)], map[0 := false])

  lemma TakesTheLock()
    ensures Reached(SCANNING)
  {
    var none: seq<Label> := [];
    assert Behaviour([EMPTY_WORLD], none) && [EMPTY_WORLD][|none|] == EMPTY_WORLD;
    assert [EMPTY_WORLD][0] == EMPTY_WORLD;
    assert Reached(EMPTY_WORLD);
    var w1 := World(EMPTY_CORE, None, map[0 := STARTED], map[0 := false]);
    Extend(EMPTY_WORLD, Spawn(0, 1, false));
    assert Next(EMPTY_WORLD, Spawn(0, 1, false)) == w1;
    Extend(w1, Acquire(0));
    assert w1.procs[0 := STARTED.(pc := Scan)] == SCANNING.procs;
    assert Next(w1, Acquire(0)) == SCANNING;
  }

  lemma ScansNothing()
    ensures Reached(SCANNING.(procs := map[0 := STARTED.(pc := CheckFresh)]))
  {
    TakesTheLock();
    var w2 := SCANNING;
    var w3 := w2.(procs := map[0 := STARTED.(pc := ScanSync)]);
    SetupMoves(w2, Go, STARTED.(pc := Scan), w3);
    var w4 := w2.(procs := map[0 := STARTED.(pc := CheckFresh)]);
    assert SyncRuns(EMPTY_CORE) == EMPTY_CORE;
    SetupMoves(w3, Go, STARTED.(pc := ScanSync), w4);
  }

  lemma AdmitsTheRun()
    ensures Reached(Inside(FRESH_DIR, map[], map[], [], STARTED.(pc := SyncDirs)))
  {
    ScansNothing();
    var w4 := SCANNING.(procs := map[0 := STARTED.(pc := CheckFresh)]);
    var w5 := SCANNING.(procs := map[0 := STARTED.(pc := MakeDir)]);
    SetupMoves(w4, Go, STARTED.(pc := CheckFresh), w5);
    assert Put(EMPTY_CORE, 1, FRESH_DIR) == Core(map[1 := FRESH_DIR], map[], map[], []);
    SetupMoves(w5, Go, STARTED.(pc := MakeDir), Inside(FRESH_DIR, map[], map[], [], STARTED.(pc := SyncDirs)));
  }

  lemma LinksTheTicket()
    ensures Reached(Inside(NEW_DIR.(claim := Visible(TICKET)), map[], map[], [], STARTED.(pc := SyncTicket(TICKET))))
  {
    AdmitsTheRun();
    var c := Core(map[1 := FRESH_DIR], map[], map[], []);
    var c1 := Core(map[1 := NEW_DIR], map[], map[], []);
    assert SyncRuns(Put(c, 1, SyncDir(FRESH_DIR))) == c1;
    SetupMoves(Inside(FRESH_DIR, map[], map[], [], STARTED.(pc := SyncDirs)), Go, STARTED.(pc := SyncDirs), Inside(NEW_DIR, map[], map[], [], STARTED.(pc := LinkTicket)));
    var d := NEW_DIR.(claim := Visible(TICKET));
    assert Put(c1, 1, d) == Core(map[1 := d], map[], map[], []);
    SetupMoves(Inside(NEW_DIR, map[], map[], [], STARTED.(pc := LinkTicket)), FreshTicket(TICKET), STARTED.(pc := LinkTicket), Inside(d, map[], map[], [], STARTED.(pc := SyncTicket(TICKET))));
  }

  lemma SyncsTheTicket()
    ensures Reached(Inside(CLAIMED_DIR, map[], map[], [], TICKETED.(pc := ClaimLease)))
  {
    LinksTheTicket();
    var d := NEW_DIR.(claim := Visible(TICKET));
    assert Put(Core(map[1 := d], map[], map[], []), 1, CLAIMED_DIR) == Core(map[1 := CLAIMED_DIR], map[], map[], []);
    SetupMoves(Inside(d, map[], map[], [], STARTED.(pc := SyncTicket(TICKET))), Go, STARTED.(pc := SyncTicket(TICKET)), Inside(CLAIMED_DIR, map[], map[], [], TICKETED.(pc := ClaimLease)));
  }

  lemma HoldsTheTicket()
    ensures Reached(Inside(CLAIMED_DIR, map[], map[], [], TICKETED.(pc := Barrier(PlanLaunch))))
  {
    SyncsTheTicket();
    SetupMoves(Inside(CLAIMED_DIR, map[], map[], [], TICKETED.(pc := ClaimLease)), Go, TICKETED.(pc := ClaimLease), Inside(CLAIMED_DIR, map[], map[], [], TICKETED.(pc := FirstTick)));
    SetupMoves(Inside(CLAIMED_DIR, map[], map[], [], TICKETED.(pc := FirstTick)), Go, TICKETED.(pc := FirstTick), Inside(CLAIMED_DIR, map[], map[], [], TICKETED.(pc := Fetch)));
    SetupMoves(Inside(CLAIMED_DIR, map[], map[], [], TICKETED.(pc := Fetch)), Go, TICKETED.(pc := Fetch), Inside(CLAIMED_DIR, map[], map[], [], TICKETED.(pc := Barrier(PlanLaunch))));
  }

  /** Barrier and link of one phase. */
  lemma PassesTheBarrier(d: RunDir, units: map<UnitName, Unit>, done: map<Run, Acceptance>, h: seq<Event>,
                         p: Proc, plan: Plan, ch: Choice, draft: Draft)
    requires p.pc == Barrier(plan) && p.run == 1 && !ch.Raise?
    requires Reached(Inside(d, units, done, h, p)) && JournalAllows(Inside(d, units, done, h, p).core, p, ch)
    requires SyncDir(d) == d && ChainAccepts(d) && DraftOf(d, p, plan, ch) == Some(draft)
    ensures Reached(Inside(d, units, done, h, p.(pc := Link(draft))))
  {
    var w := Inside(d, units, done, h, p);
    assert Put(w.core, 1, d) == w.core;
    JournalMoves(w, ch, p, Inside(d, units, done, h, p.(pc := Link(draft))));
  }

  lemma Links(d: RunDir, e: RunDir, units: map<UnitName, Unit>, done: map<Run, Acceptance>, h: seq<Event>, p: Proc, draft: Draft)
    requires p.pc == Link(draft) && p.run == 1 && Reached(Inside(d, units, done, h, p)) && LinkDraft(d, draft) == Some(e)
    ensures Reached(Inside(e, units, done, h, p.(pc := SyncPhase(draft))))
  {
    var w := Inside(d, units, done, h, p);
    var w2 := Inside(e, units, done, h, p.(pc := SyncPhase(draft)));
    assert Put(w.core, 1, e) == w2.core;
    JournalMoves(w, Go, p, w2);
  }

  lemma Publishes(d: RunDir, e: RunDir, units: map<UnitName, Unit>, done: map<Run, Acceptance>, h: seq<Event>,
                  p: Proc, plan: Plan, ch: Choice, draft: Draft)
    requires p.pc == Barrier(plan) && p.run == 1 && !ch.Raise?
    requires Reached(Inside(d, units, done, h, p)) && JournalAllows(Inside(d, units, done, h, p).core, p, ch)
    requires SyncDir(d) == d && ChainAccepts(d) && DraftOf(d, p, plan, ch) == Some(draft) && LinkDraft(d, draft) == Some(e)
    ensures Reached(Inside(e, units, done, h, p.(pc := SyncPhase(draft))))
  {
    PassesTheBarrier(d, units, done, h, p, plan, ch, draft);
    var q := p.(pc := Link(draft));
    Links(d, e, units, done, h, q, draft);
    assert q.(pc := SyncPhase(draft)) == p.(pc := SyncPhase(draft));
  }

  lemma Settles(e: RunDir, units: map<UnitName, Unit>, done: map<Run, Acceptance>, h: seq<Event>, p: Proc, draft: Draft)
    requires p.pc == SyncPhase(draft) && p.run == 1 && Reached(Inside(e, units, done, h, p))
    requires !draft.AcknowledgedDraft?
    ensures Reached(Inside(SyncDir(e), units, done, h, AfterPhase(p, draft)))
  {
    var w := Inside(e, units, done, h, p);
    var w1 := Inside(SyncDir(e), units, done, h, AfterPhase(p, draft));
    assert Put(w.core, 1, SyncDir(e)) == w1.core;
    JournalMoves(w, Go, p, w1);
  }

  lemma RecordsTheLaunch()
    ensures Reached(Inside(LAUNCHED_DIR, map[], map[], [], RECORDED.(pc := LaunchUnit)))
  {
    HoldsTheTicket();
    var draft := LaunchDraft(LAUNCH);
    Publishes(CLAIMED_DIR, CLAIMED_DIR.(launch := Visible(LAUNCH)), map[], map[], [], TICKETED.(pc := Barrier(PlanLaunch)), PlanLaunch, FreshUnit(5), draft);
    Settles(CLAIMED_DIR.(launch := Visible(LAUNCH)), map[], map[], [], TICKETED.(pc := SyncPhase(draft)), draft);
    assert AfterPhase(TICKETED.(pc := SyncPhase(draft)), draft) == RECORDED.(pc := LaunchUnit);
  }

  lemma RequestsTheUnit()
    ensures Reached(Inside(LAUNCHED_DIR, UnitAt(UnitRequested), map[], [], HOLDING.(pc := AwaitReady)))
  {
    RecordsTheLaunch();
    var w := Inside(LAUNCHED_DIR, map[], map[], [], RECORDED.(pc := LaunchUnit));
    var requested := Inside(LAUNCHED_DIR, UnitAt(UnitRequested), map[], [], HOLDING.(pc := AwaitReady));
    var nothing: map<UnitName, Unit> := map[];
    assert nothing[5 := Unit(1, 0, IDENTITY, UnitRequested)] == UnitAt(UnitRequested);
    assert {} + {5} == {5};
    UnitMoves(w, Invocation(6), RECORDED.(pc := LaunchUnit), requested);
  }

  lemma LaunchesTheUnit()
    ensures Reached(Inside(LAUNCHED_DIR, UnitAt(UnitRunning), map[], [], HOLDING.(pc := Capture)))
  {
    RequestsTheUnit();
    var requested := Inside(LAUNCHED_DIR, UnitAt(UnitRequested), map[], [], HOLDING.(pc := AwaitReady));
    Extend(requested, UnitStarts(5));
    var running := Inside(LAUNCHED_DIR, UnitAt(UnitRunning), map[], [], HOLDING.(pc := AwaitReady));
    assert UnitAt(UnitRequested)[5 := Unit(1, 0, IDENTITY, UnitRunning)] == UnitAt(UnitRunning);
    assert Next(requested, UnitStarts(5)) == running;
    UnitMoves(running, Go, HOLDING.(pc := AwaitReady), Inside(LAUNCHED_DIR, UnitAt(UnitRunning), map[], [], HOLDING.(pc := Capture)));
  }

  lemma CapturesTheUnit()
    ensures Reached(Inside(LAUNCHED_DIR, UnitAt(UnitRunning), map[], [], CAPTURED.(pc := Barrier(PlanAdmitted))))
  {
    LaunchesTheUnit();
    var u := UnitAt(UnitRunning);
    UnitMoves(Inside(LAUNCHED_DIR, u, map[], [], HOLDING.(pc := Capture)), Go, HOLDING.(pc := Capture), Inside(LAUNCHED_DIR, u, map[], [], CAPTURED.(pc := Barrier(PlanAdmitted))));
  }

  lemma AdmitsTheUnit()
    ensures Reached(Inside(ADMITTED_DIR, UnitAt(UnitRunning), map[], [], CAPTURED.(pc := TickBeforeGo)))
  {
    CapturesTheUnit();
    var u := UnitAt(UnitRunning);
    var draft := AdmittedDraft(ADMITTED);
    var p := CAPTURED.(pc := Barrier(PlanAdmitted));
    assert DraftOf(LAUNCHED_DIR, p, PlanAdmitted, Go) == Some(draft);
    Publishes(LAUNCHED_DIR, LAUNCHED_DIR.(admitted := Visible(ADMITTED)), u, map[], [], p, PlanAdmitted, Go, draft);
    Settles(LAUNCHED_DIR.(admitted := Visible(ADMITTED)), u, map[], [], CAPTURED.(pc := SyncPhase(draft)), draft);
    assert AfterPhase(CAPTURED.(pc := SyncPhase(draft)), draft) == CAPTURED.(pc := TickBeforeGo);
  }

  lemma SendsGo()
    ensures Reached(Inside(ADMITTED_DIR, UnitAt(UnitRunning), map[], [GO_SENT], CAPTURED.(pc := AwaitOutput)))
  {
    AdmitsTheUnit();
    var u := UnitAt(UnitRunning);
    UnitMoves(Inside(ADMITTED_DIR, u, map[], [], CAPTURED.(pc := TickBeforeGo)), Go, CAPTURED.(pc := TickBeforeGo), Inside(ADMITTED_DIR, u, map[], [], CAPTURED.(pc := SendGo)));
    assert [] + [GO_SENT] == [GO_SENT];
    UnitMoves(Inside(ADMITTED_DIR, u, map[], [], CAPTURED.(pc := SendGo)), Go, CAPTURED.(pc := SendGo), Inside(ADMITTED_DIR, u, map[], [GO_SENT], CAPTURED.(pc := AwaitOutput)));
  }

  lemma ProducesOutput(good: bool)
    ensures Reached(Inside(ADMITTED_DIR, UnitAt(UnitStopped(good)), map[], [GO_SENT], CAPTURED.(output := Some(OUTPUT), pc := WaitStopped)))
  {
    SendsGo();
    var p := CAPTURED.(output := Some(OUTPUT), pc := WaitStopped);
    var running := Inside(ADMITTED_DIR, UnitAt(UnitRunning), map[], [GO_SENT], p);
    UnitMoves(Inside(ADMITTED_DIR, UnitAt(UnitRunning), map[], [GO_SENT], CAPTURED.(pc := AwaitOutput)), Produced(OUTPUT), CAPTURED.(pc := AwaitOutput), running);
    Extend(running, UnitStops(5, good));
    assert UnitAt(UnitRunning)[5 := Unit(1, 0, IDENTITY, UnitStopped(good))] == UnitAt(UnitStopped(good));
    assert Next(running, UnitStops(5, good)) == Inside(ADMITTED_DIR, UnitAt(UnitStopped(good)), map[], [GO_SENT], p);
  }

  lemma SeesTheStop(good: bool)
    ensures Reached(Inside(ADMITTED_DIR, UnitAt(UnitStopped(good)), map[], [GO_SENT], Observing(good).(pc := LoadStopped)))
  {
    ProducesOutput(good);
    var u := UnitAt(UnitStopped(good));
    var p := CAPTURED.(output := Some(OUTPUT), pc := WaitStopped);
    UnitMoves(Inside(ADMITTED_DIR, u, map[], [GO_SENT], p), Observed(true), p, Inside(ADMITTED_DIR, u, map[], [GO_SENT], Observing(good).(pc := LoadStopped)));
  }

  lemma ObservesTheStop(good: bool)
    ensures Reached(Inside(ADMITTED_DIR, UnitAt(UnitStopped(good)), map[], [GO_SENT], Observing(good).(pc := Barrier(PlanStopped))))
  {
    SeesTheStop(good);
    var u := UnitAt(UnitStopped(good));
    assert Put(Core(map[1 := ADMITTED_DIR], u, map[], [GO_SENT]), 1, SyncDir(ADMITTED_DIR)) == Core(map[1 := ADMITTED_DIR], u, map[], [GO_SENT]);
    UnitMoves(Inside(ADMITTED_DIR, u, map[], [GO_SENT], Observing(good).(pc := LoadStopped)), Go, Observing(good).(pc := LoadStopped), Inside(ADMITTED_DIR, u, map[], [GO_SENT], Observing(good).(pc := Barrier(PlanStopped))));
  }

  lemma SealsTheStop(good: bool)
    ensures Reached(Inside(SealedDir(good), UnitAt(UnitStopped(good)), map[], [GO_SENT], Observing(good).(pc := Release)))
  {
    ObservesTheStop(good);
    var u := UnitAt(UnitStopped(good));
    var draft := StoppedDraft(SealOf(good));
    var p := Observing(good).(pc := Barrier(PlanStopped));
    assert DraftOf(ADMITTED_DIR, p, PlanStopped, Go) == Some(draft);
    Publishes(ADMITTED_DIR, ADMITTED_DIR.(stopped := Visible(SealOf(good))), u, map[], [GO_SENT], p, PlanStopped, Go, draft);
    Settles(ADMITTED_DIR.(stopped := Visible(SealOf(good))), u, map[], [GO_SENT], Observing(good).(pc := SyncPhase(draft)), draft);
    assert AfterPhase(Observing(good).(pc := SyncPhase(draft)), draft) == Observing(good).(pc := Release);
  }

  lemma ReleasesTheUnit(good: bool)
    ensures Reached(Inside(SealedDir(good), UnitAt(UnitStopped(good)), map[], [GO_SENT, Released(0, 1, IDENTITY)], Observing(good).(references := {}, launched := {}, pc := TickAfterSeal)))
  {
    SealsTheStop(good);
    var u := UnitAt(UnitStopped(good));
    var h := [GO_SENT, Released(0, 1, IDENTITY)];
    var free := Observing(good).(references := {}, launched := {});
    assert [GO_SENT] + [Released(0, 1, IDENTITY)] == h;
    var empty: set<UnitName> := {5} - {5};
    assert empty == {};
    UnitMoves(Inside(SealedDir(good), u, map[], [GO_SENT], Observing(good).(pc := Release)), Go, Observing(good).(pc := Release), Inside(SealedDir(good), u, map[], h, free.(pc := TickAfterSeal)));
  }

  lemma SendsTheOutput(good: bool)
    ensures Reached(Inside(SealedDir(good), UnitAt(UnitStopped(good)), map[], ALL_SENT, Attempting(good).(pc := AwaitComplete)))
  {
    ReleasesTheUnit(good);
    var u := UnitAt(UnitStopped(good));
    var h := [GO_SENT, Released(0, 1, IDENTITY)];
    var free := Observing(good).(references := {}, launched := {});
    assert h + [CompleteSent(0, 1, 2, OUTPUT)] == ALL_SENT;
    UnitMoves(Inside(SealedDir(good), u, map[], h, free.(pc := TickAfterSeal)), Go, free.(pc := TickAfterSeal), Inside(SealedDir(good), u, map[], h, Attempting(good).(pc := SendComplete(OUTPUT))));
    NetworkMoves(Inside(SealedDir(good), u, map[], h, Attempting(good).(pc := SendComplete(OUTPUT))), Go, Attempting(good).(pc := SendComplete(OUTPUT)), Inside(SealedDir(good), u, map[], ALL_SENT, Attempting(good).(pc := AwaitComplete)));
  }

  lemma CompletesOnTheServer(good: bool)
    ensures Reached(Inside(SealedDir(good), UnitAt(UnitStopped(good)), map[1 := Accepted(2, OUTPUT)], ALL_SENT, Attempting(good).(pc := Barrier(PlanAcknowledged(Completion(RECEIPT))))))
  {
    SendsTheOutput(good);
    var u := UnitAt(UnitStopped(good));
    var waiting := Inside(SealedDir(good), u, map[], ALL_SENT, Attempting(good).(pc := AwaitComplete));
    assert ALL_SENT[2] == CompleteSent(0, 1, 2, OUTPUT);
    Extend(waiting, ServerCompletes(0, 1, 2, OUTPUT));
    var nobody: map<Run, Acceptance> := map[];
    var done := map[1 := Accepted(2, OUTPUT)];
    assert nobody[1 := Accepted(2, OUTPUT)] == done;
    assert Next(waiting, ServerCompletes(0, 1, 2, OUTPUT)) == Inside(SealedDir(good), u, done, ALL_SENT, Attempting(good).(pc := AwaitComplete));
    NetworkMoves(Inside(SealedDir(good), u, done, ALL_SENT, Attempting(good).(pc := AwaitComplete)), Replied(RECEIPT), Attempting(good).(pc := AwaitComplete),
          Inside(SealedDir(good), u, done, ALL_SENT, Attempting(good).(pc := Barrier(PlanAcknowledged(Completion(RECEIPT))))));
  }

  lemma AcknowledgesVisibly(good: bool) returns (w: World)
    ensures w == Inside(SealedDir(good).(acknowledged := Visible(AckOf(good))), UnitAt(UnitStopped(good)), map[1 := Accepted(2, OUTPUT)], ALL_SENT, Attempting(good).(pc := SyncPhase(AcknowledgedDraft(AckOf(good)))))
    ensures Reached(w)
  {
    CompletesOnTheServer(good);
    var u, done := UnitAt(UnitStopped(good)), map[1 := Accepted(2, OUTPUT)];
    var plan := PlanAcknowledged(Completion(RECEIPT));
    var p := Attempting(good).(pc := Barrier(plan));
    var draft := AcknowledgedDraft(AckOf(good));
    assert DraftOf(SealedDir(good), p, plan, Go) == Some(draft);
    Publishes(SealedDir(good), SealedDir(good).(acknowledged := Visible(AckOf(good))), u, done, ALL_SENT, p, plan, Go, draft);
    w := Inside(SealedDir(good).(acknowledged := Visible(AckOf(good))), u, done, ALL_SENT, p.(pc := SyncPhase(draft)));
  }

  /** From an empty state root a Run can be launched, sent GO, sealed, completed on the server and
      acknowledged durably, and the lock is free again. */
  lemma ARunCanComplete()
    ensures exists w :: Reached(w) && w.lock.None? && GO_SENT in w.core.history && 1 in w.core.dirs && w.core.dirs[1] == AckedDir(true)
  {
    var w := AcknowledgesVisibly(true);
    Extend(w, Move(0, Go));
    var last := Next(w, Move(0, Go));
    assert last.core.dirs[1] == AckedDir(true);
    assert last.core.history == ALL_SENT && ALL_SENT[0] == GO_SENT;
  }

  /** A result that was read too early is published: the unit failed, and yet the server completes the
      Run with exit code 0. */
  lemma AStaleSuccessCanBePublished()
    ensures exists w, u :: Reached(w) && u in w.core.units && w.core.units[u].status == UnitStopped(false)
                           && 1 in w.core.completed && w.core.completed[1].output.exitCode == 0 && w.core.units[u].run == 1
  {
    CompletesOnTheServer(false);
    var w := Inside(SealedDir(false), UnitAt(UnitStopped(false)), map[1 := Accepted(2, OUTPUT)], ALL_SENT, Attempting(false).(pc := Barrier(PlanAcknowledged(Completion(RECEIPT)))));
    assert Reached(w) && 5 in w.core.units;
  }
}
