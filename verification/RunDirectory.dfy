/** One Run directory as its controller sees it: five names, each absent, linked, or durable.

    `PublishMachine` proves that the staged-file protocol underneath, with inodes, pending
    directory changes and torn writes, behaves exactly like these cells. */
module RunDirectory {
  import opened Records

  /** A published name: not linked; linked, but a machine crash may still lose the entry;
      or durable. Whatever is linked holds a complete, synced record. */
  datatype Cell<+T> = Absent | Visible(record: T) | Durable(record: T) {
    predicate Present() { !Absent? }

    /** A directory fsync. */
    function Sync(): Cell<T> {
      if Visible? then Durable(record) else this
    }

    /** A machine crash: an entry that was not synced either survives or is gone. */
    function Crash(survives: bool): Cell<T> {
      if !Visible? then this else if survives then Durable(record) else Absent
    }
  }

  datatype RunDir = RunDir(
    entryDurable: bool,
    claim: Cell<Ticket>,
    launch: Cell<Launch>,
    admitted: Cell<Admitted>,
    stopped: Cell<Stopped>,
    acknowledged: Cell<Acknowledged>)

  datatype Name = ClaimName | LaunchName | AdmittedName | StoppedName | AcknowledgedName

  const FRESH_DIR := RunDir(false, Absent, Absent, Absent, Absent, Absent)

  function SyncDir(d: RunDir): RunDir {
    RunDir(d.entryDurable, d.claim.Sync(), d.launch.Sync(), d.admitted.Sync(),
           d.stopped.Sync(), d.acknowledged.Sync())
  }

  /** A machine crash of a surviving directory keeps the synced names and any of the others. */
  function CrashDir(d: RunDir, survivors: set<Name>): RunDir {
    RunDir(true, d.claim.Crash(ClaimName in survivors), d.launch.Crash(LaunchName in survivors),
           d.admitted.Crash(AdmittedName in survivors), d.stopped.Crash(StoppedName in survivors),
           d.acknowledged.Crash(AcknowledgedName in survivors))
  }

  /** What `_chain` accepts: the present phases are a prefix, each valid after its predecessor. */
  predicate ChainAccepts(d: RunDir) {
    && (d.admitted.Present() ==> d.launch.Present() && ValidAdmitted(d.admitted.record, d.launch.record))
    && (d.stopped.Present() ==> d.admitted.Present() && ValidStopped(d.stopped.record, d.admitted.record))
    && (d.acknowledged.Present() ==>
          && d.stopped.Present() && d.launch.Present()
          && ValidAcknowledged(d.acknowledged.record, d.launch.record, d.stopped.record))
  }

  /** Field by field: no gap, every digest is of the record before, one unit and one identity all the
      way, no success for a failed result, and an acknowledgement of this very Run by the server. */
  lemma AcceptedIff(d: RunDir)
    ensures ChainAccepts(d) <==>
      && (d.admitted.Present() ==>
            && d.launch.Present()
            && d.admitted.record.previous.of == d.launch.record
            && d.admitted.record.identity.unit == d.launch.record.unit)
      && (d.stopped.Present() ==>
            && d.admitted.Present()
            && var s := d.stopped.record;
               && s.previous.of == d.admitted.record && s.observation.identity == d.admitted.record.identity
               && (s.output.Some? ==> s.outputDigest == Some(OutputDigest(s.output.value)))
               && (s.output.None? ==> s.outputDigest.None?)
               && (s.output.Some? && !s.observation.success ==> s.output.value.exitCode != 0))
      && (d.acknowledged.Present() ==>
            && d.launch.Present() && d.stopped.Present()
            && d.acknowledged.record.previous.of == d.stopped.record
            && match d.acknowledged.record.outcome
               case StopOnly(run, stopAck) => stopAck && run == d.launch.record.run
               case Completion(r) =>
                 && r.state == ServerCompleted && r.stopAck && r.run == d.launch.record.run
                 && r.lease == d.launch.record.nonce && d.stopped.record.output.Some?)
  {
  }

  /** No journal phase has been published yet. */
  predicate NoPhase(d: RunDir) {
    d.launch.Absent? && d.admitted.Absent? && d.stopped.Absent? && d.acknowledged.Absent?
  }

  /** A Run that blocks nothing any more. */
  predicate Resolved(d: RunDir) {
    d.entryDurable && d.acknowledged.Durable?
  }

  /** Everything durable in `d` is durable, with the same record, in `e`. */
  predicate KeepsDurable(d: RunDir, e: RunDir) {
    && (d.entryDurable ==> e.entryDurable)
    && (d.claim.Durable? ==> e.claim == d.claim)
    && (d.launch.Durable? ==> e.launch == d.launch)
    && (d.admitted.Durable? ==> e.admitted == d.admitted)
    && (d.stopped.Durable? ==> e.stopped == d.stopped)
    && (d.acknowledged.Durable? ==> e.acknowledged == d.acknowledged)
  }

  /** Published records are never overwritten, and durable ones stay durable. */
  predicate CellImproves<T(==)>(a: Cell<T>, b: Cell<T>) {
    && (a.Present() ==> b.Present() && b.record == a.record)
    && (a.Durable? ==> b == a)
  }

  predicate Improves(d: RunDir, e: RunDir) {
    && (d.entryDurable ==> e.entryDurable)
    && CellImproves(d.claim, e.claim) && CellImproves(d.launch, e.launch)
    && CellImproves(d.admitted, e.admitted) && CellImproves(d.stopped, e.stopped)
    && CellImproves(d.acknowledged, e.acknowledged)
  }
}
