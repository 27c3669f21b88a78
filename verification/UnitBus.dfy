/** Retained observation of execution units over one private bus connection.

    The manager changes units whenever a synchronous call or a wait gives it time. Each change posts
    one signal; signals are dispatched in order, some time later: reentrantly during a synchronous
    call, or by the main loop. */
module UnitObserver {
  import opened Records

  // ---- references: the three sets, as a run of effects --------------------------------------------

  datatype Refs = Refs(references: set<UnitName>, confirmed: set<UnitName>, launched: set<UnitName>)

  const NO_REFS := Refs({}, {}, {})

  /** What an operation came to. A lost reply may or may not have started or referenced the unit. */
  datatype Effect =
    | Refused
    | LaunchLost(name: UnitName) | Launched(name: UnitName)
    | ReferenceLost(name: UnitName) | Reattached(name: UnitName)
    | Captured(name: UnitName)
    | Released(name: UnitName)

  predicate CanHappen(r: Refs, e: Effect) {
    match e
    case Refused => true
    case LaunchLost(n) => n !in r.references
    case Launched(n) => n !in r.references
    case ReferenceLost(n) => n !in r.references
    case Reattached(n) => n in r.references ==> n in r.confirmed
    case Captured(n) => n in r.launched && n in r.confirmed
    case Released(n) => n in r.references && n in r.confirmed
  }

  function After(r: Refs, e: Effect): Refs {
    match e
    case Refused => r
    case LaunchLost(n) => r.(references := r.references + {n})
    case Launched(n) => Refs(r.references + {n}, r.confirmed + {n}, r.launched + {n})
    case ReferenceLost(n) => r.(references := r.references + {n})
    case Reattached(n) => r.(references := r.references + {n}, confirmed := r.confirmed + {n})
    case Captured(_) => r
    case Released(n) => Refs(r.references - {n}, r.confirmed - {n}, r.launched - {n})
  }

  function AfterAll(es: seq<Effect>): Refs {
    if |es| == 0 then NO_REFS else After(AfterAll(es[..|es| - 1]), es[|es| - 1])
  }

  ghost predicate Possible(es: seq<Effect>) {
    forall i | 0 <= i < |es| :: CanHappen(AfterAll(es[..i]), es[i])
  }

  /** What the effects so far say about one name, without looking at any set. */
  datatype Standing = Unclaimed | Ambiguous | Ours | Adopted

  function StandingOf(es: seq<Effect>, n: UnitName): Standing {
    if |es| == 0 then Unclaimed
    else
      var before := StandingOf(es[..|es| - 1], n);
      match es[|es| - 1]
      case LaunchLost(m) => if m == n then Ambiguous else before
      case ReferenceLost(m) => if m == n then Ambiguous else before
      case Launched(m) => if m == n then Ours else before
      case Reattached(m) => if m == n && before == Unclaimed then Adopted else before
      case Released(m) => if m == n then Unclaimed else before
      case Captured(_) => before
      case Refused => before
  }

  /** launched is a subset of confirmed, confirmed of references; and each set says exactly what the
      history says. */
  lemma {:induction false} SetsTellTheHistory(es: seq<Effect>)
    requires Possible(es)
    ensures AfterAll(es).launched <= AfterAll(es).confirmed <= AfterAll(es).references
    ensures forall n: UnitName ::
              && (n in AfterAll(es).launched <==> StandingOf(es, n) == Ours)
              && (n in AfterAll(es).confirmed <==> StandingOf(es, n) == Ours || StandingOf(es, n) == Adopted)
              && (n in AfterAll(es).references <==> StandingOf(es, n) != Unclaimed)
  {
    if |es| > 0 {
      var before := es[..|es| - 1];
      assert forall i | 0 <= i < |before| :: before[..i] == es[..i];
      SetsTellTheHistory(before);
      assert CanHappen(AfterAll(before), es[|before|]);
    }
  }

  lemma PrefixIsPossible(es: seq<Effect>, k: nat)
    requires Possible(es) && k <= |es|
    ensures Possible(es[..k])
  {
    forall i | 0 <= i < k ensures CanHappen(AfterAll(es[..k][..i]), es[..k][i]) {
      assert es[..k][..i] == es[..i];
    }
  }

  /** Nothing can happen to an ambiguous name. */
  lemma StaysAmbiguous(es: seq<Effect>, n: UnitName)
    requires Possible(es) && |es| > 0 && StandingOf(es[..|es| - 1], n) == Ambiguous
    ensures StandingOf(es, n) == Ambiguous && !Concerns(es[|es| - 1], n)
  {
    var k := |es| - 1;
    PrefixIsPossible(es, k);
    SetsTellTheHistory(es[..k]);
    assert CanHappen(AfterAll(es[..k]), es[k]);
  }

  predicate Concerns(e: Effect, n: UnitName) {
    e == Captured(n) || e == Released(n) || e == Launched(n) || e == Reattached(n)
  }

  lemma {:induction false} StaysLost(es: seq<Effect>, n: UnitName, i: nat)
    requires Possible(es) && i < |es| && (es[i] == LaunchLost(n) || es[i] == ReferenceLost(n))
    ensures StandingOf(es, n) == Ambiguous && forall j | i < j < |es| :: !Concerns(es[j], n)
  {
    var k := |es| - 1;
    if i < k {
      PrefixIsPossible(es, k);
      StaysLost(es[..k], n, i);
      assert forall j | i < j < k :: es[..k][j] == es[j];
      StaysAmbiguous(es, n);
    }
  }

  /** A name whose launch or reference reply was lost stays ambiguous for the observer's life: it is
      never captured, released, launched or adopted again, and the observer never closes. */
  lemma LostForever(es: seq<Effect>, n: UnitName, i: nat)
    requires Possible(es) && i < |es| && (es[i] == LaunchLost(n) || es[i] == ReferenceLost(n))
    ensures StandingOf(es, n) == Ambiguous && n in AfterAll(es).references && n !in AfterAll(es).confirmed
    ensures forall j | i < j < |es| :: !Concerns(es[j], n)
  {
    StaysLost(es, n, i);
    SetsTellTheHistory(es);
  }

  /** A captured name was launched by this very connection with its reply received, was not released
      since, and no reply about it was ever lost: reattached names are never captured. */
  lemma CaptureNeedsOwnLaunch(es: seq<Effect>, n: UnitName, i: nat) returns (j: nat)
    requires Possible(es) && i < |es| && es[i] == Captured(n)
    ensures j < i && es[j] == Launched(n)
    ensures forall k | j < k < i :: es[k] != Released(n)
    ensures forall k | 0 <= k < |es| :: es[k] != LaunchLost(n) || k > i
    ensures forall k | 0 <= k < i :: es[k] != ReferenceLost(n)
  {
    PrefixIsPossible(es, i);
    SetsTellTheHistory(es[..i]);
    assert CanHappen(AfterAll(es[..i]), es[i]);
    j := LaunchOf(es[..i], n);
    assert forall k | 0 <= k < i :: es[..i][k] == es[k];
    forall k | 0 <= k < i ensures es[k] != LaunchLost(n) && es[k] != ReferenceLost(n) {
      if es[..i][k] == LaunchLost(n) || es[..i][k] == ReferenceLost(n) {
        LostForever(es[..i], n, k);
      }
    }
  }

  lemma {:induction false} LaunchOf(es: seq<Effect>, n: UnitName) returns (j: nat)
    requires StandingOf(es, n) == Ours
    ensures j < |es| && es[j] == Launched(n)
    ensures forall k | j < k < |es| :: es[k] != Released(n)
  {
    var last := |es| - 1;
    if es[last] == Launched(n) {
      j := last;
    } else {
      j := LaunchOf(es[..last], n);
      assert forall k | j < k < last :: es[..last][k] == es[k];
    }
  }

  // ---- the manager ----------------------------------------------------------------------------------

  datatype ActiveState = Active | Inactive | Failed | Changing

  datatype UnitState = UnitState(loaded: bool, invocation: nat, state: ActiveState, job: nat, mainPid: nat,
                                 cgroupEmpty: bool, success: bool)
  {
    predicate Terminal() { state.Inactive? || state.Failed? }

    /** A unit that has stopped is `failed` exactly when its final result is not success. */
    predicate Coherent() { Terminal() ==> (state.Failed? <==> !success) }
  }

  const NOTHING := UnitState(false, 0, Changing, 0, 0, false, false)

  /** A unit never returns to an earlier invocation, and an invocation that has ended stays ended. */
  predicate MayBecome(u: UnitState, v: UnitState) {
    && v.Coherent() && u.invocation <= v.invocation
    && (u.invocation == v.invocation && u.Terminal() ==>
          v.state == u.state && v.success == u.success && (u.cgroupEmpty ==> v.cgroupEmpty))
  }

  predicate AllCoherent(m: map<UnitName, UnitState>) {
    forall n | n in m :: m[n].Coherent()
  }

  predicate MayEvolve(m: map<UnitName, UnitState>, k: map<UnitName, UnitState>) {
    AllCoherent(k) && Each(m, k)
  }

  predicate Each(m: map<UnitName, UnitState>, k: map<UnitName, UnitState>) {
    forall n | n in m :: n in k && MayBecome(m[n], k[n])
  }

  lemma StaysPut(m: map<UnitName, UnitState>)
    requires AllCoherent(m)
    ensures MayEvolve(m, m)
  {
  }

  /** The invocation is over for good: stopped and empty, or already replaced. */
  predicate Over(m: map<UnitName, UnitState>, id: Identity) {
    id.unit in m && (m[id.unit].invocation > id.invocation
                     || (m[id.unit].invocation == id.invocation && m[id.unit].Terminal() && m[id.unit].cgroupEmpty))
  }

  lemma OverForever(m: map<UnitName, UnitState>, k: map<UnitName, UnitState>, id: Identity)
    requires MayEvolve(m, k) && Over(m, id)
    ensures Over(k, id)
  {
    assert MayBecome(m[id.unit], k[id.unit]);
  }

  /** One state of a unit that was shown to the observer. */
  datatype Shown = Shown(name: UnitName, state: UnitState)

  /** The outside: units, time in milliseconds, what went wrong so far, and all that was shown. */
  class Manager {
    var units: map<UnitName, UnitState>
    /** Changes made so far, and how many of their signals were dispatched. */
    var changes: nat
    var dispatched: nat
    var clock: nat
    /** Bus calls that failed, and service callbacks that raised. */
    var failures: nat
    var alarms: nat
    ghost var shown: seq<Shown>

    ghost predicate Valid()
      reads this
    {
      dispatched <= changes && AllCoherent(units)
    }

    /** Everything goes forward. */
    twostate predicate Later()
      reads this
    {
      && MayEvolve(old(units), units) && old(changes) <= changes && old(dispatched) <= dispatched
      && old(clock) <= clock && old(failures) <= failures && old(alarms) <= alarms
      && old(shown) <= shown
    }

    constructor (units: map<UnitName, UnitState>)
      requires AllCoherent(units)
      ensures this.units == units && Valid() && dispatched == changes
    {
      this.units, changes, dispatched, clock, failures, alarms := units, 0, 0, 0, 0, 0;
      shown := [];
    }

    /** Time passes; a due timer or the service callback may fire. */
    method Sleep(timer: nat, serviced: bool) returns (expired: bool, failed: bool)
      requires Valid()
      modifies this`units, this`changes, this`clock, this`alarms
      ensures Valid() && Later()
      ensures expired ==> clock >= timer
      ensures failed ==> serviced && alarms > old(alarms)
    {
      Evolve();
      var fires: bool := *;
      expired := fires && clock >= timer;
      failed := *;
      failed := failed && serviced;
      if failed { alarms := alarms + 1; }
    }

    /** The only way to see a unit. */
    method Show(name: UnitName) returns (u: UnitState)
      requires name in units
      modifies this`shown
      ensures u == units[name] && shown == old(shown) + [Shown(name, u)]
    {
      u := units[name];
      shown := shown + [Shown(name, u)];
    }

    /** Time passes: any number of changes, and no change without its signal. */
    method Evolve()
      requires Valid()
      modifies this`units, this`changes, this`clock
      ensures Valid() && Later() && (changes == old(changes) ==> units == old(units))
    {
      var some: nat :| true;
      var passed: nat :| true;
      StaysPut(units);
      var later :| MayEvolve(units, later);
      clock := clock + passed;
      assert MayEvolve(units, later);
      if some > 0 { units, changes := later, changes + some; }
    }
  }

  /** What the main loop was entered with: after which look, the changes made before that look, and
      those made and dispatched by then. */
  datatype Block = Block(look: nat, seen: nat, changes: nat, dispatched: nat)

  /** The states one look reads, in this order. */
  datatype Look = Look(before: UnitState, service: UnitState, unit: UnitState)

  /** Read one after the other, of one invocation. */
  predicate InOrder(l: Look) {
    && l.before.Coherent() && MayBecome(l.before, l.service) && MayBecome(l.service, l.unit)
    && l.before.invocation == l.unit.invocation
  }

  function LookShown(name: UnitName, l: Look): seq<Shown> {
    [Shown(name, l.before), Shown(name, l.service), Shown(name, l.unit)]
  }

  predicate EndsWith(all: seq<Shown>, last: seq<Shown>) {
    |last| <= |all| && all[|all| - |last|..] == last
  }

  /** Why an observation is not a stop. */
  datatype Reason = Invalid | BusFailed | NotHeld | Replaced | Reopened | Deadline | ServiceFailed

  datatype Reading = Read(look: Look) | Trouble(why: Reason)

  datatype StopResult = Stopped(observation: Observation) | Unknown(why: Reason)

  /** The states behind an attempt to observe a stop, in the order they were read: a look, the group,
      and the look that confirms. */
  datatype Evidence = Evidence(look: Look, group: UnitState, again: Look)

  /** A first look and its group. */
  function RoundShown(name: UnitName, e: Evidence): seq<Shown> {
    LookShown(name, e.look) + [Shown(name, e.group)]
  }

  function RoundsShown(name: UnitName, es: seq<Evidence>): seq<Shown> {
    if |es| == 0 then [] else RoundsShown(name, es[..|es| - 1]) + RoundShown(name, es[|es| - 1])
  }

  /** A look at the exact invocation that did not show a stop. */
  predicate StillThere(e: Evidence, id: Identity) {
    InOrder(e.look) && e.look.unit.invocation == id.invocation && MayBecome(e.look.unit, e.group) && !LooksStopped(e)
  }

  predicate LooksStopped(e: Evidence) {
    e.look.unit.Terminal() && e.look.unit.job == 0 && e.look.service.mainPid == 0 && e.group.cgroupEmpty
  }

  /** The decision of `wait_stopped` on what it read: the state recorded is the last one read, the
      result comes from the first look. */
  function Decide(e: Evidence, id: Identity): Option<Observation> {
    if LooksStopped(e) && e.again.unit.Terminal() && e.again.unit.job == 0
    then Some(Observation(id, e.again.unit.state.Failed?, e.look.service.success)) else None
  }

  /** The reads of the exact invocation, in order, along a possible evolution. */
  predicate ReadInOrder(e: Evidence, id: Identity) {
    && InOrder(e.look) && MayBecome(e.look.unit, e.group) && MayBecome(e.group, e.again.before) && InOrder(e.again)
    && e.look.unit.invocation == e.again.unit.invocation == id.invocation
  }

  /** The result is read before the state that shows the unit stopped, so a success can be recorded of
      a unit that failed. */
  lemma ASuccessCanBeStale(id: Identity) returns (e: Evidence)
    ensures ReadInOrder(e, id) && Decide(e, id) == Some(Observation(id, true, true)) && !e.again.unit.success
  {
    var stopping := UnitState(true, id.invocation, Changing, 0, 0, true, true);
    var stopped := stopping.(state := Failed, success := false);
    e := Evidence(Look(stopping, stopping, stopped), stopped, Look(stopped, stopped, stopped));
  }

  /** Completeness: whatever was shown in rounds that showed no stop, no round in between showed one. So
      a wait that ends without a stop has overlooked none. */
  lemma {:induction false} NoStopOverlooked(name: UnitName, id: Identity, es: seq<Evidence>, k: nat, e: Evidence)
    requires forall i | 0 <= i < |es| :: StillThere(es[i], id)
    requires 4 * k + 4 <= |RoundsShown(name, es)| && RoundsShown(name, es)[4 * k..4 * k + 4] == RoundShown(name, e)
    ensures !LooksStopped(e) && k < |es| && e.look == es[k].look && e.group == es[k].group
    decreases |es|
  {
    RoundsLength(name, es);
    var last := |es| - 1;
    var before := RoundsShown(name, es[..last]);
    RoundsLength(name, es[..last]);
    if k == last {
      assert RoundsShown(name, es)[4 * k..4 * k + 4] == RoundShown(name, es[last]);
      SameRound(name, e, es[last]);
    } else {
      assert RoundsShown(name, es)[4 * k..4 * k + 4] == before[4 * k..4 * k + 4];
      NoStopOverlooked(name, id, es[..last], k, e);
    }
  }

  lemma SameRound(name: UnitName, a: Evidence, b: Evidence)
    requires RoundShown(name, a) == RoundShown(name, b)
    ensures a.look == b.look && a.group == b.group
  {
    assert RoundShown(name, a)[0] == RoundShown(name, b)[0] && RoundShown(name, a)[1] == RoundShown(name, b)[1];
    assert RoundShown(name, a)[2] == RoundShown(name, b)[2] && RoundShown(name, a)[3] == RoundShown(name, b)[3];
  }

  lemma {:induction false} RoundsLength(name: UnitName, es: seq<Evidence>)
    ensures |RoundsShown(name, es)| == 4 * |es|
  {
    if |es| > 0 { RoundsLength(name, es[..|es| - 1]); }
  }

  /** The recorded result is the unit's result in every continuation exactly when the recorded state
      agrees with it: anyone can see it on the record. */
  lemma ResultIsFinalIff(e: Evidence, id: Identity)
    requires ReadInOrder(e, id) && Decide(e, id).Some?
    ensures var o := Decide(e, id).value;
            (o.failed <==> !o.success) <==>
              forall later | MayBecome(e.again.unit, later) && later.invocation == id.invocation :: later.success == o.success
  {
    assert MayBecome(e.again.unit, e.again.unit);
  }

  class UnitBus {
    const manager: Manager
    var references: set<UnitName>
    var confirmed: set<UnitName>
    var launched: set<UnitName>
    var generation: nat
    var unknown: bool
    ghost var effects: seq<Effect>
    ghost var blocks: seq<Block>
    ghost var looked: nat

    ghost predicate Valid()
      reads this, manager
    {
      && Possible(effects) && AfterAll(effects) == Refs(references, confirmed, launched)
      && manager.Valid()
      && forall i | 0 <= i < |blocks| :: blocks[i].dispatched <= blocks[i].seen <= blocks[i].changes
    }

    constructor (manager: Manager)
      requires manager.Valid()
      ensures Valid() && this.manager == manager && effects == [] && references == {}
    {
      this.manager := manager;
      references, confirmed, launched, generation, unknown := {}, {}, {}, 0, false;
      effects, blocks, looked := [], [], 0;
    }

    /** The sets were changed by `e`; now the history says so. */
    ghost method Record(before: Refs, e: Effect)
      requires Possible(effects) && AfterAll(effects) == before && CanHappen(before, e)
      requires Refs(references, confirmed, launched) == After(before, e) && manager.Valid()
      requires forall i | 0 <= i < |blocks| :: blocks[i].dispatched <= blocks[i].seen <= blocks[i].changes
      modifies this`effects
      ensures Valid() && effects == old(effects) + [e]
    {
      Append(effects, e);
      effects := effects + [e];
    }

    /** `_wake`: quitting a loop that is not running changes nothing. */
    method Wake()
      modifies this`generation
      ensures generation == old(generation) + 1
    {
      generation := generation + 1;
    }

    /** Nothing is dispatched without a wake. */
    twostate predicate Woken()
      reads this, manager
    {
      old(generation) <= generation && (generation == old(generation) ==> manager.dispatched == old(manager.dispatched))
    }

    /** A synchronous call: the manager goes on, and wakes may be dispatched reentrantly. It fails with
        the bus, and always once the manager's owner is unknown. */
    method Call() returns (ok: bool)
      requires Valid()
      modifies this`generation, this`unknown, manager
      ensures Valid() && manager.Later() && Woken()
      ensures old(unknown) ==> unknown && !ok
      ensures manager.alarms == old(manager.alarms) && manager.shown == old(manager.shown)
      ensures !ok ==> old(unknown) || manager.failures > old(manager.failures)
    {
      var was := unknown;
      manager.Evolve();
      var reentrant: bool := *;
      if reentrant {
        var more: nat :| more <= manager.changes - manager.dispatched;
        manager.dispatched := manager.dispatched + more;
        generation := generation + more;
        var lost: bool := *;
        if lost { unknown := true; Wake(); }
      }
      ok := *;
      if !ok { manager.failures := manager.failures + 1; }
      ok := ok && !was;
    }

    /** `_properties`: three reads, of the unit, of its service, and of the unit again. */
    method Properties(name: UnitName) returns (r: Reading, ghost look: Look)
      requires Valid()
      modifies this`generation, this`unknown, manager
      ensures Valid() && manager.Later() && Woken() && manager.alarms == old(manager.alarms)
      ensures old(unknown) ==> unknown && r.Trouble?
      ensures r.Read? ==> r.look == look && name in confirmed && name in manager.units
      ensures r.Read? ==> InOrder(look) && MayBecome(look.unit, manager.units[name])
      ensures r.Read? && name in old(manager.units) ==> MayBecome(old(manager.units)[name], look.before)
      ensures r.Trouble? ==> r.why == BusFailed || r.why == NotHeld || r.why == Replaced
      ensures r == Trouble(BusFailed) ==> old(unknown) || unknown || manager.failures > old(manager.failures)
      ensures r == Trouble(NotHeld) ==> name !in confirmed
      ensures r.Read? ==> manager.shown == old(manager.shown) + LookShown(name, look)
      ensures r == Trouble(Replaced) ==>
                || name !in manager.units
                || (EndsWith(manager.shown, [Shown(name, look.before)]) && !look.before.loaded)
                || (EndsWith(manager.shown, LookShown(name, look)) && look.before.invocation != look.unit.invocation)
    {
      look := Look(NOTHING, NOTHING, NOTHING);
      var ok := Call();
      if !ok { return Trouble(BusFailed), look; }
      if name !in confirmed { return Trouble(NotHeld), look; }
      if name !in manager.units { return Trouble(Replaced), look; }
      var before := manager.Show(name);
      look := Look(before, before, before);
      if !before.loaded { return Trouble(Replaced), look; }
      ghost var past := manager.units;
      var now;
      ok, now := ReadAfter(name, before);
      look := now;
      Evolves(old(manager.units), past, manager.units);
      if !ok { return Trouble(BusFailed), look; }
      if before.invocation != now.unit.invocation { return Trouble(Replaced), look; }
      r := Read(now);
    }

    /** The reads of the service and of the unit again, and the closing check. */
    method ReadAfter(name: UnitName, before: UnitState) returns (ok: bool, look: Look)
      requires Valid() && name in manager.units && manager.units[name] == before
      modifies this`generation, this`unknown, manager
      ensures Valid() && manager.Later() && Woken() && manager.alarms == old(manager.alarms) && (old(unknown) ==> unknown)
      ensures !ok ==> old(unknown) || unknown || manager.failures > old(manager.failures)
      ensures ok ==> name in manager.units && look.before == before
      ensures ok ==> MayBecome(before, look.service) && MayBecome(look.service, look.unit) && MayBecome(look.unit, manager.units[name])
      ensures ok ==> manager.shown == old(manager.shown) + [Shown(name, look.service), Shown(name, look.unit)]
    {
      look := Look(before, before, before);
      ok := Call();
      if !ok { return; }
      var service := manager.Show(name);
      ghost var past := manager.units;
      ok := Call();
      Evolves(old(manager.units), past, manager.units);
      if !ok { return; }
      var after := manager.Show(name);
      look := Look(before, service, after);
      past := manager.units;
      ok := Call();
      Evolves(old(manager.units), past, manager.units);
    }

    /** `_snapshot`: the properties, only if they belong to the exact invocation. */
    method Snapshot(id: Identity) returns (r: Reading, ghost look: Look)
      requires Valid()
      modifies this`generation, this`unknown, manager
      ensures Valid() && manager.Later() && Woken() && manager.alarms == old(manager.alarms)
      ensures old(unknown) ==> unknown && r.Trouble?
      ensures r.Read? ==> r.look == look && id.unit in confirmed && id.unit in manager.units
      ensures r.Read? ==> InOrder(look) && MayBecome(look.unit, manager.units[id.unit]) && look.unit.invocation == id.invocation
      ensures r.Read? && id.unit in old(manager.units) ==> MayBecome(old(manager.units)[id.unit], look.before)
      ensures r.Trouble? ==> r.why == BusFailed || r.why == NotHeld || r.why == Replaced
      ensures r == Trouble(BusFailed) ==> old(unknown) || unknown || manager.failures > old(manager.failures)
      ensures r == Trouble(NotHeld) ==> id.unit !in confirmed
      ensures r.Read? ==> manager.shown == old(manager.shown) + LookShown(id.unit, look)
      ensures r == Trouble(Replaced) ==> NotShown(id, look)
    {
      r, look := Properties(id.unit);
      if r.Read? && r.look.unit.invocation != id.invocation { r := Trouble(Replaced); }
    }

    /** What was shown last under the name is not the exact invocation. */
    ghost predicate NotShown(id: Identity, look: Look)
      reads manager
    {
      || id.unit !in manager.units
      || (EndsWith(manager.shown, [Shown(id.unit, look.before)]) && !look.before.loaded)
      || (EndsWith(manager.shown, LookShown(id.unit, look))
          && (look.before.invocation != look.unit.invocation || look.unit.invocation != id.invocation))
    }

    /** The exact invocation was shown last under its name. */
    ghost predicate ShownLast(id: Identity, look: Look)
      reads manager
    {
      EndsWith(manager.shown, LookShown(id.unit, look)) && InOrder(look) && look.unit.invocation == id.invocation
    }

    /** `launch`. The name is held before the request leaves, so that a lost reply leaves it
        ambiguous. */
    method Launch(name: UnitName) returns (ok: bool)
      requires Valid()
      modifies this`references, this`confirmed, this`launched, this`generation, this`unknown, this`effects, manager
      ensures Valid()
      ensures name in old(references) || old(unknown) ==> !ok && effects == old(effects)
      ensures ok ==> effects == old(effects) + [Launched(name)] && name in manager.units
      ensures !ok ==> effects == old(effects) || effects == old(effects) + [LaunchLost(name)]
    {
      if name in references { return false; }
      ok := Call();
      if !ok { return false; }
      ghost var before := Refs(references, confirmed, launched);
      references := references + {name};
      ok := StartUnit(name);
      if ok {
        confirmed := confirmed + {name};
        launched := launched + {name};
      }
      Record(before, if ok then Launched(name) else LaunchLost(name));
    }

    /** StartTransientUnit: the unit may have been started whether or not the reply arrives. */
    method StartUnit(name: UnitName) returns (ok: bool)
      requires manager.Valid()
      modifies manager
      ensures manager.Valid() && manager.Later()
      ensures ok ==> name in manager.units
    {
      manager.Evolve();
      var started: bool := *;
      if started && name !in manager.units {
        var invocation: nat := *;
        manager.units := manager.units[name := UnitState(true, invocation, Changing, 1, 0, false, true)];
        manager.changes := manager.changes + 1;
      }
      ok := *;
      ok := ok && name in manager.units;
    }

    /** `retain`: an ambiguous name needs a fresh observer. */
    method Retain(id: Identity) returns (ok: bool, ghost look: Look)
      requires Valid()
      modifies this`references, this`confirmed, this`generation, this`unknown, this`effects, manager
      ensures Valid()
      ensures old(unknown) || (id.unit in old(references) && id.unit !in old(confirmed)) ==> !ok && effects == old(effects)
      ensures ok ==> id.unit in confirmed && ShownLast(id, look)
      ensures ok ==> effects == old(effects) + [Reattached(id.unit)] || (effects == old(effects) && id.unit in old(confirmed))
      ensures !ok ==> effects == old(effects) || effects == old(effects) + [ReferenceLost(id.unit)] || effects == old(effects) + [Reattached(id.unit)]
    {
      look := Look(NOTHING, NOTHING, NOTHING);
      ok := Call();
      if !ok || (id.unit in references && id.unit !in confirmed) { return false, look; }
      if id.unit !in references {
        ghost var before := Refs(references, confirmed, launched);
        references := references + {id.unit};
        manager.Evolve();
        ok := *;
        if ok { confirmed := confirmed + {id.unit}; }
        Record(before, if ok then Reattached(id.unit) else ReferenceLost(id.unit));
        if !ok { return; }
      }
      var snapshot;
      snapshot, look := Snapshot(id);
      ok := snapshot.Read?;
    }

    /** `capture`: only of an own launch whose reply arrived, and only while it runs. */
    method Capture(name: UnitName) returns (r: Option<Identity>, ghost look: Look)
      requires Valid()
      modifies this`generation, this`unknown, this`effects, manager
      ensures Valid()
      ensures name !in launched || old(unknown) ==> r.None?
      ensures r.Some? ==> r.value.unit == name && effects == old(effects) + [Captured(name)]
      ensures r.Some? ==> look.unit.invocation == look.service.invocation == r.value.invocation
      ensures r.Some? ==> look.unit.state.Active? && look.unit.job == 0 && look.service.mainPid > 0
      ensures r.Some? ==>
                exists again ::
                  ShownLast(r.value, again)
                  && manager.shown == old(manager.shown) + LookShown(name, look) + LookShown(name, again)
      ensures r.Some? ==> name in manager.units && MayBecome(look.service, look.unit) && MayBecome(look.unit, manager.units[name])
      ensures r.None? ==> effects == old(effects)
    {
      r, look := None, Look(NOTHING, NOTHING, NOTHING);
      if name !in launched { return; }
      var read;
      read, look := Properties(name);
      if read.Trouble? { return; }
      var unit, service := read.look.unit, read.look.service;
      var id := Identity(name, unit.invocation);
      if !unit.state.Active? || unit.job != 0 || service.mainPid == 0 { return; }
      var boundsDiffer: bool := *;
      if boundsDiffer { return; }
      ghost var past := manager.units;
      var again;
      ghost var later;
      again, later := Snapshot(id);
      if again.Trouble? { return; }
      assert ShownLast(id, later);
      assert MayBecome(past[name], manager.units[name]);
      SetsTellTheHistory(effects);
      Record(Refs(references, confirmed, launched), Captured(name));
      r := Some(id);
    }

    /** `stop` only requests a stop of the exact invocation: it returns no observation and drops no
        name. */
    method Stop(id: Identity) returns (requested: bool, ghost look: Look)
      requires Valid()
      modifies this`generation, this`unknown, manager
      ensures Valid() && (requested ==> id.unit in confirmed && !old(unknown) && ShownLast(id, look))
    {
      var snapshot;
      snapshot, look := Snapshot(id);
      if snapshot.Trouble? { return false, look; }
      requested := Call();
    }

    /** `abort_launch` only requests the stop of an own launch. */
    method AbortLaunch(name: UnitName) returns (requested: bool)
      requires Valid()
      modifies this`generation, this`unknown, manager
      ensures Valid() && (requested ==> name in launched && !old(unknown))
    {
      if name !in launched { return false; }
      var properties, _ := Properties(name);
      if properties.Trouble? { return false; }
      requested := Call();
    }

    /** `close` succeeds exactly when every name this connection ever launched or referenced was
        released again; one lost reply refuses it for good. */
    method Close() returns (ok: bool)
      requires Valid()
      ensures ok <==> forall n :: StandingOf(effects, n) == Unclaimed
    {
      SetsTellTheHistory(effects);
      ok := references == {};
      if !ok {
        ghost var n :| n in references;
        assert StandingOf(effects, n) != Unclaimed;
      }
    }

    /** The main loop. It may be entered only while every change since the last look still has its
        signal to come; then the first such signal ends it, and otherwise a timer or the service. */
    method RunLoop(ghost seen: nat, timer: nat, serviced: bool) returns (expired: bool, failed: bool)
      requires Valid() && manager.dispatched <= seen <= manager.changes
      modifies this`generation, this`unknown, this`blocks, manager
      ensures Valid() && manager.Later() && manager.failures == old(manager.failures) && (old(unknown) ==> unknown)
      ensures manager.shown == old(manager.shown)
      ensures blocks == old(blocks) + [Block(looked, seen, old(manager.changes), old(manager.dispatched))]
      ensures seen < manager.changes ==> generation == old(generation) + 1
      ensures generation == old(generation) ==> expired || failed
      ensures expired ==> manager.clock >= timer
      ensures failed ==> serviced && manager.alarms > old(manager.alarms)
    {
      blocks := blocks + [Block(looked, seen, manager.changes, manager.dispatched)];
      expired, failed := manager.Sleep(timer, serviced);
      if manager.dispatched < manager.changes {
        manager.dispatched := manager.dispatched + 1;
        Wake();
        var lost: bool := *;
        unknown := unknown || lost;
      } else if !failed && !expired {
        manager.clock := if manager.clock < timer then timer else manager.clock;
        expired := true;
      }
    }

    /** One look of `wait_stopped`, and the second one that confirms a stop. None: what was shown is not
        a stop. */
    method LookOnce(id: Identity) returns (r: Option<StopResult>, ghost evidence: Evidence)
      requires Valid()
      modifies this`generation, this`unknown, manager
      ensures Valid() && manager.Later() && Woken() && manager.alarms == old(manager.alarms) && (old(unknown) ==> unknown)
      ensures r.None? ==> StillThere(evidence, id) && manager.shown == old(manager.shown) + RoundShown(id.unit, evidence)
      ensures r.Some? ==> Concludes(id, r.value, evidence, old(manager.shown))
      ensures r == Some(StopResult.Unknown(BusFailed)) ==> unknown || manager.failures > old(manager.failures)
    {
      var first, group;
      ghost var look;
      first, group, look := FirstLook(id);
      evidence := Evidence(look, group, look);
      if first.Trouble? { return Some(StopResult.Unknown(first.why)), evidence; }
      var unit, service := first.look.unit, first.look.service;
      if !(unit.Terminal() && unit.job == 0 && service.mainPid == 0 && group.cgroupEmpty) { return None, evidence; }
      ghost var past, seen := manager.units, manager.shown;
      var result;
      result, evidence := Confirm(id, first.look, group);
      Evolves(old(manager.units), past, manager.units);
      return Some(result), evidence;
    }

    /** The snapshot, and then the group. */
    method FirstLook(id: Identity) returns (r: Reading, group: UnitState, ghost look: Look)
      requires Valid()
      modifies this`generation, this`unknown, manager
      ensures Valid() && manager.Later() && Woken() && manager.alarms == old(manager.alarms) && (old(unknown) ==> unknown)
      ensures r.Read? ==>
                && r.look == look && id.unit in confirmed && id.unit in manager.units && manager.units[id.unit] == group
                && InOrder(look) && MayBecome(look.unit, group) && look.unit.invocation == id.invocation
      ensures r.Read? ==> manager.shown == old(manager.shown) + RoundShown(id.unit, Evidence(look, group, look))
      ensures r.Trouble? ==> r.why in {BusFailed, NotHeld, Replaced} && IsTrue(id, r.why, look)
      ensures r == Trouble(BusFailed) ==> unknown || manager.failures > old(manager.failures)
    {
      group := NOTHING;
      r, look := Snapshot(id);
      if r.Trouble? { return; }
      ghost var past := manager.units;
      manager.Evolve();
      Evolves(old(manager.units), past, manager.units);
      assert MayBecome(past[id.unit], manager.units[id.unit]);
      group := manager.Show(id.unit);
    }

    /** The second look at a unit that seems to have stopped. */
    method Confirm(id: Identity, look: Look, group: UnitState) returns (r: StopResult, ghost evidence: Evidence)
      requires Valid() && id.unit in confirmed && id.unit in manager.units && manager.units[id.unit] == group
      requires InOrder(look) && MayBecome(look.unit, group) && look.unit.invocation == id.invocation
      requires LooksStopped(Evidence(look, group, look))
      modifies this`generation, this`unknown, manager
      ensures Valid() && manager.Later() && Woken() && manager.alarms == old(manager.alarms) && (old(unknown) ==> unknown)
      ensures evidence.look == look && evidence.group == group
      ensures r.Stopped? || r == StopResult.Unknown(Reopened) ==> manager.shown == old(manager.shown) + LookShown(id.unit, evidence.again)
      ensures if r.Stopped? then IsStop(id, r.observation, evidence)
              else if r.why.Reopened? then !(evidence.again.unit.Terminal() && evidence.again.unit.job == 0)
              else r.why in {BusFailed, NotHeld, Replaced} && IsTrue(id, r.why, evidence.again)
      ensures r == StopResult.Unknown(BusFailed) ==> unknown || manager.failures > old(manager.failures)
    {
      var second;
      ghost var again;
      second, again := Snapshot(id);
      evidence := Evidence(look, group, again);
      if second.Trouble? { return StopResult.Unknown(second.why), evidence; }
      var final := second.look.unit;
      if !final.Terminal() || final.job != 0 { return StopResult.Unknown(Reopened), evidence; }
      return StopResult.Stopped(Observation(id, final.state.Failed?, look.service.success)), evidence;
    }

    /** A stop is the decision on reads of this very invocation, which is over for good. */
    ghost predicate IsStop(id: Identity, o: Observation, e: Evidence)
      reads this, manager
    {
      && ReadInOrder(e, id) && Decide(e, id) == Some(o)
      && id.unit in confirmed && id.unit in manager.units
      && MayBecome(e.again.unit, manager.units[id.unit]) && Over(manager.units, id)
    }

    /** What a look that failed shows. */
    ghost predicate IsTrue(id: Identity, why: Reason, look: Look)
      reads this, manager
    {
      (why.NotHeld? ==> id.unit !in confirmed) && (why.Replaced? ==> NotShown(id, look))
    }

    /** How one round ends a wait: with a stop that was shown twice, with a second look that took it
        back, or with a look that failed. */
    ghost predicate Concludes(id: Identity, r: StopResult, e: Evidence, before: seq<Shown>)
      reads this, manager
    {
      match r
      case Stopped(o) => IsStop(id, o, e) && manager.shown == before + RoundShown(id.unit, e) + LookShown(id.unit, e.again)
      case Unknown(why) =>
        if why.Reopened? then
          LooksStopped(e) && !(e.again.unit.Terminal() && e.again.unit.job == 0)
          && manager.shown == before + RoundShown(id.unit, e) + LookShown(id.unit, e.again)
        else why in {BusFailed, NotHeld, Replaced} && (IsTrue(id, why, e.look) || IsTrue(id, why, e.again))
    }

    /** `wait_stopped`: the observation of a stop, or a true reason why there is none. `looks` bounds
        the looks that fit before the deadline, `serviced` says whether a service callback was given.
        `rounds` is all that was shown before the last round, and showed no stop. */
    method WaitStopped(id: Identity, timeout: nat, serviced: bool, looks: nat)
      returns (r: StopResult, ghost evidence: Evidence, ghost rounds: seq<Evidence>)
      requires Valid()
      modifies this`generation, this`unknown, this`blocks, this`looked, manager
      ensures Valid() && old(blocks) <= blocks && manager.Later()
      ensures forall i | 0 <= i < |rounds| :: StillThere(rounds[i], id)
      ensures r.Stopped? || (r.Unknown? && r.why in {Reopened, BusFailed, NotHeld, Replaced}) ==>
                Concludes(id, r, evidence, old(manager.shown) + RoundsShown(id.unit, rounds))
      ensures r.Unknown? && r.why in {Invalid, Deadline, ServiceFailed} ==>
                manager.shown == old(manager.shown) + RoundsShown(id.unit, rounds)
      ensures r.Stopped? ==> ShowsStop(id, r.observation, evidence)
      ensures r == StopResult.Unknown(Invalid) <==> !(0 < timeout <= 660000)
      ensures r == StopResult.Unknown(BusFailed) ==> unknown || manager.failures > old(manager.failures)
      ensures r == StopResult.Unknown(Deadline) ==> manager.clock >= old(manager.clock) + timeout && |rounds| > 0
      ensures r == StopResult.Unknown(ServiceFailed) ==> serviced && manager.alarms > old(manager.alarms)
      // every block of this call is followed by another look, unless the service raised
      ensures r != StopResult.Unknown(ServiceFailed) ==> forall i | |old(blocks)| <= i < |blocks| :: blocks[i].look < looked
    {
      evidence := Evidence(Look(NOTHING, NOTHING, NOTHING), NOTHING, Look(NOTHING, NOTHING, NOTHING));
      rounds := [];
      StaysPut(manager.units);
      if !(0 < timeout <= 660000) { return StopResult.Unknown(Invalid), evidence, rounds; }
      var deadline := manager.clock + timeout;
      if serviced {
        var raises: bool := *;
        if raises {
          manager.alarms := manager.alarms + 1;
          return StopResult.Unknown(ServiceFailed), evidence, rounds;
        }
      }
      r, evidence, rounds := WaitRounds(id, deadline, serviced, looks);
      if r.Stopped? { DecideIff(id, r.observation, evidence); }
    }

    /** The loop of `wait_stopped`. */
    method WaitRounds(id: Identity, deadline: nat, serviced: bool, looks: nat)
      returns (r: StopResult, ghost evidence: Evidence, ghost rounds: seq<Evidence>)
      requires Valid()
      modifies this`generation, this`unknown, this`blocks, this`looked, manager
      ensures Valid() && old(blocks) <= blocks && manager.Later()
      ensures forall i | 0 <= i < |rounds| :: StillThere(rounds[i], id)
      ensures if r.Unknown? && r.why in {Deadline, ServiceFailed}
              then manager.shown == old(manager.shown) + RoundsShown(id.unit, rounds)
              else Concludes(id, r, evidence, old(manager.shown) + RoundsShown(id.unit, rounds))
      ensures r == StopResult.Unknown(BusFailed) ==> unknown || manager.failures > old(manager.failures)
      ensures r == StopResult.Unknown(Deadline) ==> manager.clock >= deadline && |rounds| > 0
      ensures r == StopResult.Unknown(ServiceFailed) ==> serviced && manager.alarms > old(manager.alarms)
      ensures r != StopResult.Unknown(ServiceFailed) ==> forall i | |old(blocks)| <= i < |blocks| :: blocks[i].look < looked
    {
      evidence := Evidence(Look(NOTHING, NOTHING, NOTHING), NOTHING, Look(NOTHING, NOTHING, NOTHING));
      rounds := [];
      StaysPut(manager.units);
      var expired, failed, left := false, false, looks;
      while true
        invariant Valid() && old(blocks) <= blocks && manager.Later()
        invariant manager.shown == old(manager.shown) + RoundsShown(id.unit, rounds)
        invariant forall i | 0 <= i < |rounds| :: StillThere(rounds[i], id)
        invariant expired ==> manager.clock >= deadline
        invariant failed ==> serviced && manager.alarms > old(manager.alarms)
        invariant forall i | |old(blocks)| <= i < |blocks| :: blocks[i].look <= looked
        decreases left
      {
        if failed { return StopResult.Unknown(ServiceFailed), evidence, rounds; }
        ghost var past := manager.units;
        var found;
        found, expired, failed, evidence := Round(id, deadline, expired, serviced, left == 0);
        Evolves(old(manager.units), past, manager.units);
        if found.Some? && found.value != StopResult.Unknown(Deadline) { return found.value, evidence, rounds; }
        MoreShown(id.unit, old(manager.shown), rounds, evidence);
        rounds := rounds + [evidence];
        if found.Some? { return found.value, evidence, rounds; }
        left := left - 1;
      }
    }

    /** One round of `wait_stopped`: a look, the deadline, and a wait for the next wake unless one came
        meanwhile. */
    method Round(id: Identity, deadline: nat, expiring: bool, serviced: bool, last: bool)
      returns (r: Option<StopResult>, expired: bool, failed: bool, ghost evidence: Evidence)
      requires Valid() && (expiring ==> manager.clock >= deadline)
      modifies this`generation, this`unknown, this`blocks, this`looked, manager
      ensures Valid() && manager.Later() && looked == old(looked) + 1
      ensures last ==> r.Some?
      ensures r.Some? ==> blocks == old(blocks)
      ensures r.Some? && r.value != StopResult.Unknown(Deadline) ==> Concludes(id, r.value, evidence, old(manager.shown))
      ensures r.None? || r.value == StopResult.Unknown(Deadline) ==>
                StillThere(evidence, id) && manager.shown == old(manager.shown) + RoundShown(id.unit, evidence)
      ensures r == Some(StopResult.Unknown(BusFailed)) ==> unknown || manager.failures > old(manager.failures)
      ensures r == Some(StopResult.Unknown(Deadline)) ==> manager.clock >= deadline
      ensures r.None? ==> old(blocks) <= blocks && forall i | |old(blocks)| <= i < |blocks| :: blocks[i].look == looked
      ensures r.None? && expired ==> manager.clock >= deadline
      ensures r.None? && failed ==> serviced && manager.alarms > old(manager.alarms)
    {
      looked := looked + 1;
      expired, failed := expiring, false;
      var before := generation;
      ghost var seen := manager.changes;
      r, evidence := LookOnce(id);
      if r.Some? { return; }
      if last && manager.clock < deadline { manager.clock := deadline; }
      if expired || manager.clock >= deadline { return Some(StopResult.Unknown(Deadline)), expired, false, evidence; }
      if before == generation {
        ghost var past := manager.units;
        expired, failed := RunLoop(seen, deadline, serviced);
        Evolves(old(manager.units), past, manager.units);
      }
    }

    /** `release`: only after the stop was observed once more; a lost reply keeps the reference. */
    method Release(id: Identity, looks: nat) returns (ok: bool)
      requires Valid()
      modifies this, manager
      ensures Valid()
      ensures ok ==> effects == old(effects) + [Released(id.unit)] && Over(manager.units, id) && id.unit in old(confirmed)
      ensures !ok ==> effects == old(effects)
    {
      var observed, evidence, rounds := WaitStopped(id, 1000, false, looks);
      if observed.Unknown? { return false; }
      ghost var before := manager.units;
      manager.Evolve();
      OverForever(before, manager.units, id);
      ok := *;
      if !ok { return false; }
      SetsTellTheHistory(effects);
      ghost var refs := Refs(references, confirmed, launched);
      references := references - {id.unit};
      confirmed := confirmed - {id.unit};
      launched := launched - {id.unit};
      Record(refs, Released(id.unit));
    }
  }

  /** A stop, field by field. */
  predicate ShowsStop(id: Identity, o: Observation, e: Evidence) {
    && (e.look.unit.state == Inactive || e.look.unit.state == Failed)
    && (e.again.unit.state == Inactive || e.again.unit.state == Failed)
    && e.look.unit.job == 0 && e.again.unit.job == 0 && e.look.service.mainPid == 0 && e.group.cgroupEmpty
    && o.identity == id
    && (o.failed <==> e.again.unit.state == Failed) && (o.success <==> e.look.service.success)
  }

  /** The decision says `stopped` exactly on what shows one. */
  lemma DecideIff(id: Identity, o: Observation, e: Evidence)
    ensures Decide(e, id) == Some(o) <==> ShowsStop(id, o, e)
  {
  }

  lemma MoreShown(name: UnitName, before: seq<Shown>, es: seq<Evidence>, e: Evidence)
    ensures before + RoundsShown(name, es + [e]) == before + RoundsShown(name, es) + RoundShown(name, e)
  {
    assert (es + [e])[..|es|] == es;
  }

  lemma Evolves(a: map<UnitName, UnitState>, b: map<UnitName, UnitState>, c: map<UnitName, UnitState>)
    requires MayEvolve(a, b) && MayEvolve(b, c)
    ensures MayEvolve(a, c)
  {
    forall n | n in a ensures n in c && MayBecome(a[n], c[n]) { assert MayBecome(a[n], b[n]) && MayBecome(b[n], c[n]); }
  }

  lemma Append(es: seq<Effect>, e: Effect)
    requires Possible(es) && CanHappen(AfterAll(es), e)
    ensures Possible(es + [e]) && AfterAll(es + [e]) == After(AfterAll(es), e)
  {
    var more := es + [e];
    assert more[..|es|] == es;
    forall i | 0 <= i < |more| ensures CanHappen(AfterAll(more[..i]), more[i]) {
      if i < |es| { assert more[..i] == es[..i]; }
    }
  }
}
