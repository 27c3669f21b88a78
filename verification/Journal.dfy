/** The journal of one Run and the scan over all Runs, as the sequential code that holds the worker
    lock executes them. Every fsync may fail; `PublishMachine` treats concurrent publishers and
    crashes between the steps of one publication. */
module RunJournal {
  import opened Records
  import opened RunDirectory
  import opened ControllerState

  const PHASES: nat := 4

  /** The record at a phase, if its name is linked. */
  function RecordAt(d: RunDir, phase: nat): Option<Draft> {
    if phase == 0 then (if d.launch.Present() then Some(LaunchDraft(d.launch.record)) else None)
    else if phase == 1 then (if d.admitted.Present() then Some(AdmittedDraft(d.admitted.record)) else None)
    else if phase == 2 then (if d.stopped.Present() then Some(StoppedDraft(d.stopped.record)) else None)
    else if d.acknowledged.Present() then Some(AcknowledgedDraft(d.acknowledged.record)) else None
  }

  /** One phase's validator: the record follows `prior` in the chain that began with `launch`. */
  predicate Follows(value: Draft, launch: Option<Draft>, prior: Option<Draft>) {
    match value
    case LaunchDraft(_) => prior.None?
    case AdmittedDraft(a) => prior.Some? && prior.value.LaunchDraft? && ValidAdmitted(a, prior.value.launch)
    case StoppedDraft(s) => prior.Some? && prior.value.AdmittedDraft? && ValidStopped(s, prior.value.admitted)
    case AcknowledgedDraft(a) =>
      && prior.Some? && prior.value.StoppedDraft? && launch.Some? && launch.value.LaunchDraft?
      && ValidAcknowledged(a, launch.value.launch, prior.value.stopped)
  }

  predicate Good(d: RunDir, phase: nat) {
    && RecordAt(d, phase).Some?
    && Follows(RecordAt(d, phase).value, RecordAt(d, 0), if phase == 0 then None else RecordAt(d, phase - 1))
  }

  /** The loop of `_chain` against the predicate it decides: accepted prefixes, gaps, bad links. */
  lemma GoodPrefixIsAccepted(d: RunDir, n: nat)
    requires n <= PHASES && (forall k: nat | k < n :: Good(d, k)) && forall k: nat | n <= k < PHASES :: RecordAt(d, k).None?
    ensures ChainAccepts(d)
  {
    assert n > 1 ==> Good(d, 1);
    assert n > 2 ==> Good(d, 2);
    assert n > 3 ==> Good(d, 3);
    assert n <= 3 ==> RecordAt(d, 3).None?;
    assert n <= 2 ==> RecordAt(d, 2).None?;
    assert n <= 1 ==> RecordAt(d, 1).None?;
  }

  lemma AcceptedIsGood(d: RunDir, k: nat)
    requires ChainAccepts(d) && k < PHASES
    ensures RecordAt(d, k).Some? ==> Good(d, k) && forall j: nat | j < k :: RecordAt(d, j).Some?
  {
    if k == 0 {
    } else if k == 1 {
    } else if k == 2 {
    } else {
    }
  }

  /** What the values must be for the record to follow, field by field. */
  predicate Warranted(d: RunDir, values: Values) {
    match values
    case LaunchValues(_, _, _) => true
    case AdmitValues(id) => d.launch.Present() && id.unit == d.launch.record.unit
    case StopValues(o, output) =>
      d.admitted.Present() && o.identity == d.admitted.record.identity
      && (output.Some? && !o.success ==> output.value.exitCode != 0)
    case AckValues(StopOnly(run, stopAck)) =>
      d.launch.Present() && d.stopped.Present() && stopAck && run == d.launch.record.run
    case AckValues(Completion(r)) =>
      && d.launch.Present() && d.stopped.Present() && d.stopped.record.output.Some?
      && r.run == d.launch.record.run && r.lease == d.launch.record.nonce && r.state == ServerCompleted && r.stopAck
  }

  /** A record is admitted exactly for warranted values, and it holds them with the digest of its
      predecessor. */
  lemma CandidateIff(d: RunDir, values: Values)
    ensures Candidate(d, values).Some? <==> Warranted(d, values)
    ensures Candidate(d, values).Some? ==>
              match Candidate(d, values).value
              case LaunchDraft(l) =>
                values.LaunchValues? && l.run == values.run && l.nonce == values.nonce
                && (d.launch.Present() ==> l.unit == d.launch.record.unit) && (d.launch.Absent? ==> l.unit == values.freshUnit)
              case AdmittedDraft(a) => values.AdmitValues? && a.previous.of == d.launch.record && a.identity == values.identity
              case StoppedDraft(s) =>
                values.StopValues? && s.previous.of == d.admitted.record && s.observation == values.observation
                && s.output == values.output && (s.output.Some? ==> s.outputDigest == Some(OutputDigest(s.output.value)))
              case AcknowledgedDraft(a) => values.AckValues? && a.previous.of == d.stopped.record && a.outcome == values.outcome
  {
  }

  function PhaseOf(draft: Draft): nat {
    match draft
    case LaunchDraft(_) => 0
    case AdmittedDraft(_) => 1
    case StoppedDraft(_) => 2
    case AcknowledgedDraft(_) => 3
  }

  predicate DurableAt(d: RunDir, draft: Draft) {
    match draft
    case LaunchDraft(l) => d.launch == Durable(l)
    case AdmittedDraft(a) => d.admitted == Durable(a)
    case StoppedDraft(s) => d.stopped == Durable(s)
    case AcknowledgedDraft(a) => d.acknowledged == Durable(a)
  }

  ghost predicate Publishes(d: RunDir, draft: Draft) {
    LinkDraft(SyncDir(d), draft).Some? ==>
      var e := SyncDir(LinkDraft(SyncDir(d), draft).value);
      && ChainAccepts(LinkDraft(SyncDir(d), draft).value) && ChainAccepts(e)
      && DurableAt(e, draft) && Improves(d, LinkDraft(SyncDir(d), draft).value) && Improves(d, e)
      && forall k: nat | k < PHASES && k != PhaseOf(draft) :: RecordAt(e, k) == RecordAt(d, k)
  }

  /** Publishing the candidate of a valid chain leaves a valid chain with the candidate durable and
      every other phase as it was. */
  lemma PublishingKeepsTheChain(d: RunDir, values: Values)
    requires ChainAccepts(d) && Candidate(d, values).Some?
    ensures Publishes(d, Candidate(d, values).value)
  {
    match values
    case LaunchValues(_, _, _) => LaunchKeepsTheChain(d, Candidate(d, values).value.launch);
    case AdmitValues(_) => AdmitKeepsTheChain(d, Candidate(d, values).value.admitted);
    case StopValues(_, _) => StopKeepsTheChain(d, Candidate(d, values).value.stopped);
    case AckValues(_) => AckKeepsTheChain(d, Candidate(d, values).value.acknowledged);
  }

  lemma LaunchKeepsTheChain(d: RunDir, l: Launch)
    requires ChainAccepts(d)
    ensures Publishes(d, LaunchDraft(l))
  {
  }

  lemma AdmitKeepsTheChain(d: RunDir, a: Admitted)
    requires ChainAccepts(d) && d.launch.Present() && ValidAdmitted(a, d.launch.record)
    ensures Publishes(d, AdmittedDraft(a))
  {
  }

  lemma StopKeepsTheChain(d: RunDir, s: Stopped)
    requires ChainAccepts(d) && d.admitted.Present() && ValidStopped(s, d.admitted.record)
    ensures Publishes(d, StoppedDraft(s))
  {
  }

  lemma AckKeepsTheChain(d: RunDir, a: Acknowledged)
    requires ChainAccepts(d) && d.launch.Present() && d.stopped.Present() && ValidAcknowledged(a, d.launch.record, d.stopped.record)
    ensures Publishes(d, AcknowledgedDraft(a))
  {
  }

  /** A published phase is immutable: other values are refused, the same values change nothing. */
  lemma PublishingAgain(d: RunDir, values: Values, other: Values)
    requires ChainAccepts(d) && Candidate(d, values).Some? && DurableAt(d, Candidate(d, values).value) && SyncDir(d) == d
    requires Candidate(d, other).Some? && PhaseOf(Candidate(d, other).value) == PhaseOf(Candidate(d, values).value)
    ensures LinkDraft(d, Candidate(d, other).value).Some? <==> Candidate(d, other) == Candidate(d, values)
    ensures LinkDraft(d, Candidate(d, values).value) == Some(d)
  {
  }

  class RunFolder {
    var dir: RunDir

    constructor (dir: RunDir)
      ensures this.dir == dir
    {
      this.dir := dir;
    }

    /** `_chain`: validates in phase order and is a durability barrier when it returns. */
    method Chain(synced: bool) returns (records: Option<seq<Option<Draft>>>)
      modifies this
      ensures records.Some? <==> ChainAccepts(old(dir)) && synced
      ensures records.Some? ==> |records.value| == PHASES && forall k | 0 <= k < PHASES :: records.value[k] == RecordAt(old(dir), k)
      ensures dir == if records.Some? then SyncDir(old(dir)) else old(dir)
    {
      var read := [RecordAt(dir, 0), RecordAt(dir, 1), RecordAt(dir, 2), RecordAt(dir, 3)];
      var prior: Option<Draft> := None;
      var i := 0;
      while i < PHASES
        invariant 0 <= i <= PHASES && dir == old(dir)
        invariant prior == if i == 0 then None else RecordAt(dir, i - 1)
        invariant forall k: nat | k < i :: Good(dir, k)
      {
        var value := read[i];
        assert value == RecordAt(dir, i);
        if ChainAccepts(dir) { AcceptedIsGood(dir, i); AcceptedIsGood(dir, 1); AcceptedIsGood(dir, 2); AcceptedIsGood(dir, 3); }
        if value.None? {
          if read[i + 1..] != seq(PHASES - i - 1, _ => None) { return None; }
          assert forall k: nat | i < k < PHASES :: read[i + 1..][k - i - 1] == RecordAt(dir, k);
          break;
        }
        if !Follows(value.value, read[0], prior) { return None; }
        prior := value;
        i := i + 1;
      }
      GoodPrefixIsAccepted(dir, i);
      if !synced { return None; }
      dir := SyncDir(dir);
      return Some(read);
    }

    /** `_publish` of a single writer: link without overwrite, then fsync the directory. */
    method Publish(draft: Draft, linked: bool, synced: bool) returns (ok: bool)
      modifies this
      ensures ok <==> linked && synced && LinkDraft(old(dir), draft).Some?
      ensures ok ==> dir == SyncDir(LinkDraft(old(dir), draft).value)
      ensures !ok ==> dir == old(dir) || (LinkDraft(old(dir), draft).Some? && dir == LinkDraft(old(dir), draft).value)
    {
      if !linked { return false; }
      var e := LinkDraft(dir, draft);
      if e.None? { return false; }
      dir := e.value;
      if !synced { return false; }
      dir := SyncDir(dir);
      return true;
    }

    /** `prepare` and `_advance`. On success the record built from the values and from its durable
        predecessor is durable at its phase; on failure the chain is as good as it was. Nothing
        published is ever changed. */
    method Advance(values: Values, read: bool, linked: bool, synced: bool) returns (record: Option<Draft>)
      modifies this
      ensures Improves(old(dir), dir) && (ChainAccepts(old(dir)) ==> ChainAccepts(dir))
      ensures record.Some? ==>
                && ChainAccepts(old(dir)) && record == Candidate(old(dir), values) && DurableAt(dir, record.value)
                && LinkDraft(SyncDir(old(dir)), record.value).Some?
                && dir == SyncDir(LinkDraft(SyncDir(old(dir)), record.value).value)
      ensures read && linked && synced ==>
                (record.Some? <==> ChainAccepts(old(dir)) && Candidate(old(dir), values).Some?
                                   && LinkDraft(SyncDir(old(dir)), Candidate(old(dir), values).value).Some?)
      ensures !ChainAccepts(old(dir)) ==> dir == old(dir)
      ensures record.Some? ==> Warranted(old(dir), values)
    {
      CandidateIff(dir, values);
      var chain := Chain(read);
      if chain.None? { return None; }
      var draft := Candidate(dir, values);
      assert draft == Candidate(old(dir), values);
      if draft.None? { return None; }
      if LinkDraft(dir, draft.value).Some? { PublishingKeepsTheChain(old(dir), values); }
      var ok := Publish(draft.value, linked, synced);
      return if ok then draft else None;
    }

    /** The body of `unresolved` for one directory: ticket, chain and owner, then the last phase. */
    method Inspect(run: Run, synced: bool) returns (reached: Option<nat>)
      modifies this
      ensures reached.Some? <==> synced && ScanAccepts(old(dir), run)
      ensures reached.Some? ==> dir == SyncDir(old(dir)) && reached.value == Reached(old(dir))
    {
      if !dir.claim.Present() || dir.claim.record.run != run { return None; }
      var chain := Chain(synced);
      if chain.None? { return None; }
      if dir.launch.Present() && !OwnedBy(dir.launch.record, dir.claim.record) { return None; }
      var i := PHASES;
      while i > 0 && chain.value[i - 1].None?
        invariant 0 <= i <= PHASES && forall k | i <= k < PHASES :: chain.value[k].None?
      {
        i := i - 1;
      }
      assert chain.value[0] == RecordAt(old(dir), 0) && chain.value[1] == RecordAt(old(dir), 1);
      assert chain.value[2] == RecordAt(old(dir), 2) && chain.value[3] == RecordAt(old(dir), 3);
      return Some(i);
    }
  }

  // ---- one entry of the scan ---------------------------------------------------------------------

  /** The last phase a Run reached; 0 stands for a claim alone. */
  function Reached(d: RunDir): nat {
    if d.acknowledged.Present() then 4 else if d.stopped.Present() then 3
    else if d.admitted.Present() then 2 else if d.launch.Present() then 1 else 0
  }

  /** The controller's chain barrier, link and directory fsync, taken one after the other without a
      failure, are `Advance`. */
  lemma ThreeStepsAdvance(c: Core, p: Proc, ch: Choice, values: Values)
    requires p.pc.Barrier? && JournalAllows(c, p, ch) && !ch.Raise? && p.run in c.dirs
    requires ValuesOf(p, p.pc.plan, ch) == Some(values)
    requires ChainAccepts(c.dirs[p.run])
    ensures Candidate(c.dirs[p.run], values).Some? && LinkDraft(SyncDir(c.dirs[p.run]), Candidate(c.dirs[p.run], values).value).Some? ==>
              var draft := Candidate(c.dirs[p.run], values).value;
              var (c1, p1) := Journal(c, p, ch);
              var (c2, p2) := Journal(c1, p1, Go);
              Journal(c2, p2, Go) ==
                (Put(c, p.run, SyncDir(LinkDraft(SyncDir(c.dirs[p.run]), draft).value)), AfterPhase(p, draft))
  {
    var d := c.dirs[p.run];
    var draft := Candidate(d, values);
    if draft.Some? && LinkDraft(SyncDir(d), draft.value).Some? {
      var (c1, p1) := Journal(c, p, ch);
      var (c2, p2) := Journal(c1, p1, Go);
      assert c1 == Put(c, p.run, SyncDir(d)) && p1 == p.(pc := Link(draft.value));
      var e := LinkDraft(SyncDir(d), draft.value).value;
      assert c2 == Put(c1, p.run, e) && p2 == p1.(pc := SyncPhase(draft.value));
      assert c2.dirs == c.dirs[p.run := e];
      assert c2.dirs[p.run := SyncDir(e)] == c.dirs[p.run := SyncDir(e)];
      AfterPhaseIgnoresPc(p, p2, draft.value);
    }
  }

  lemma AfterPhaseIgnoresPc(p: Proc, q: Proc, draft: Draft)
    requires q == p.(pc := q.pc)
    ensures AfterPhase(q, draft) == AfterPhase(p, draft)
  {
  }

  // ---- the scan over every Run ------------------------------------------------------------------

  /** How far a scan has come: `left` is still to be visited, `found` is pending. */
  ghost predicate ScannedSoFar(before: map<Run, RunDir>, now: map<Run, RunDir>, left: set<Run>, found: map<Run, nat>, broken: set<Run>) {
    && left <= now.Keys == before.Keys
    && (forall r | r in left :: now[r] == before[r])
    && (forall r | r in before && r !in left :: ScanAccepts(before[r], r) && r !in broken && now[r] == SyncDir(before[r]))
    && (forall r :: r in found <==> r in before && r !in left && before[r].acknowledged.Absent?)
    && (forall r | r in found :: found[r] == Reached(before[r]))
  }

  lemma ScansOne(before: map<Run, RunDir>, now: map<Run, RunDir>, left: set<Run>, found: map<Run, nat>, broken: set<Run>, run: Run)
    requires ScannedSoFar(before, now, left, found, broken) && run in left
    requires ScanAccepts(now[run], run) && run !in broken
    ensures ScannedSoFar(before, now[run := SyncDir(now[run])], left - {run},
                    if now[run].acknowledged.Absent? then found[run := Reached(now[run])] else found, broken)
  {
  }

  lemma ScanImproves(before: map<Run, RunDir>, now: map<Run, RunDir>, left: set<Run>, found: map<Run, nat>, broken: set<Run>)
    requires ScannedSoFar(before, now, left, found, broken)
    ensures forall r | r in now :: Improves(before[r], now[r])
  {
    forall r | r in now ensures Improves(before[r], now[r]) {
      if r in left { assert now[r] == before[r]; } else { assert now[r] == SyncDir(before[r]); }
    }
  }

  /** What a scan that returns has found out and made durable. */
  ghost predicate ScanResult(before: map<Run, RunDir>, now: map<Run, RunDir>, pending: map<Run, nat>) {
    && now.Keys == before.Keys
    && (forall r :: r in pending <==> r in before && before[r].acknowledged.Absent?)
    && (forall r | r in pending :: pending[r] == Reached(before[r]))
    && (forall r | r in now :: now[r] == SyncDir(before[r]).(entryDurable := true))
  }

  lemma ScanEnds(before: map<Run, RunDir>, now: map<Run, RunDir>, found: map<Run, nat>, broken: set<Run>)
    requires ScannedSoFar(before, now, {}, found, broken)
    ensures ScanResult(before, SyncEntries(now), found)
    ensures forall r | r in before :: ScanAccepts(before[r], r) && r !in broken
  {
  }

  /** The ticket names its directory, and the launch record names the ticket's lease. */
  predicate OwnedAs(d: RunDir, run: Run) {
    d.claim.Present() && d.claim.record.run == run
    && (d.launch.Present() ==> d.launch.record.run == run && d.launch.record.nonce == d.claim.record.nonce)
  }

  class StateRoot {
    var runs: map<Run, RunDir>

    constructor (runs: map<Run, RunDir>)
      ensures this.runs == runs
    {
      this.runs := runs;
    }

    /** `unresolved`: the Runs that still block admission, with the phase they reached. Every entry
        must be readable; a returned scan has made all it saw durable, so that an acknowledgement
        that was merely visible counts only once it is durable. `broken` names the entries whose
        fsync fails, `synced` says whether the final fsync succeeds. */
    method Unresolved(broken: set<Run>, synced: bool) returns (pending: Option<map<Run, nat>>)
      modifies this
      ensures pending.Some? <==> synced && forall r | r in old(runs) :: ScanAccepts(old(runs)[r], r) && r !in broken
      ensures pending.Some? ==> ScanResult(old(runs), runs, pending.value)
      ensures pending.Some? ==> forall r | r in old(runs) :: OwnedAs(old(runs)[r], r)
      ensures runs.Keys == old(runs).Keys && forall r | r in runs :: Improves(old(runs)[r], runs[r])
    {
      var left := runs.Keys;
      var found: map<Run, nat> := map[];
      ghost var before := runs;
      while left != {}
        invariant ScannedSoFar(before, runs, left, found, broken)
        decreases |left|
      {
        ScanImproves(before, runs, left, found, broken);
        var r :| r in left;
        assert runs[r] == before[r];
        var folder := new RunFolder(runs[r]);
        var reached := folder.Inspect(r, r !in broken);
        if reached.None? { return None; }
        ScansOne(before, runs, left, found, broken, r);
        if reached.value < PHASES { found := found[r := reached.value]; }
        runs := runs[r := folder.dir];
        left := left - {r};
      }
      ScanImproves(before, runs, left, found, broken);
      if !synced { return None; }
      ScanEnds(before, runs, found, broken);
      runs := SyncEntries(runs);
      return Some(found);
    }

    /** Admission rests on this: when nothing is pending, every Run is resolved for good. */
    method NothingPending(broken: set<Run>, synced: bool) returns (free: bool)
      modifies this
      ensures free ==> forall r | r in runs :: Resolved(runs[r])
      ensures runs.Keys == old(runs).Keys && forall r | r in runs :: Improves(old(runs)[r], runs[r])
    {
      var pending := Unresolved(broken, synced);
      free := pending == Some(map[]);
      if free {
        assert forall r | r in runs :: r !in pending.value;
      }
    }
  }
}
