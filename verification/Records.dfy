/** The private records of one Run: the claim ticket and the four journal phases.

    Every record is a plain value. A phase names its predecessor through a digest; a digest
    is an injective wrapper around the record, so two equal digests name the same record. */
module Records {
  datatype Option<+T> = None | Some(value: T)

  type Run = nat
  type Nonce = nat
  type UnitName = nat
  type Pid = nat

  type Byte = b: int | 0 <= b < 256
  type Data = seq<Byte>

  const GO_LINE: Data := [71, 79, 10]

  /** The claim ticket: the nonce is the lease identity, the proof its bearer secret. */
  datatype Ticket = Ticket(run: Run, nonce: Nonce, proof: nat)

  datatype Launch = Launch(run: Run, nonce: Nonce, unit: UnitName)
  datatype LaunchDigest = LaunchDigest(of: Launch)

  /** One invocation of one execution unit. */
  datatype Identity = Identity(unit: UnitName, invocation: nat)

  datatype Admitted = Admitted(previous: LaunchDigest, identity: Identity)
  datatype AdmittedDigest = AdmittedDigest(of: Admitted)

  /** What the observer saw after the unit had stopped: `failed` is state == "failed" as against
      "inactive", `success` is result == "success". The two were read at different moments. */
  datatype Observation = Observation(identity: Identity, failed: bool, success: bool)

  datatype Output = Output(exitCode: nat, content: nat)
  datatype OutputDigest = OutputDigest(of: Output)

  datatype Stopped = Stopped(previous: AdmittedDigest, observation: Observation,
                             output: Option<Output>, outputDigest: Option<OutputDigest>)
  datatype StoppedDigest = StoppedDigest(of: Stopped)

  datatype ServerState = ServerClaimed | ServerQuarantined | ServerStopped | ServerCompleted

  datatype Receipt = Receipt(run: Run, lease: Nonce, state: ServerState,
                             cancelRequested: bool, stopAck: bool)

  /** The two outcomes a server acknowledgement can record; they are never conflated. */
  datatype Outcome = Completion(receipt: Receipt) | StopOnly(run: Run, stopAck: bool)

  datatype Acknowledged = Acknowledged(previous: StoppedDigest, outcome: Outcome)

  function DigestOf(output: Option<Output>): Option<OutputDigest> {
    match output
    case None => None
    case Some(o) => Some(OutputDigest(o))
  }

  predicate OwnedBy(launch: Launch, ticket: Ticket) {
    launch.run == ticket.run && launch.nonce == ticket.nonce
  }

  predicate ValidAdmitted(admitted: Admitted, launch: Launch) {
    && admitted.previous == LaunchDigest(launch)
    && admitted.identity.unit == launch.unit
  }

  predicate ValidStopped(stopped: Stopped, admitted: Admitted) {
    && stopped.previous == AdmittedDigest(admitted)
    && stopped.observation.identity == admitted.identity
    && (stopped.output.Some? && stopped.output.value.exitCode == 0 ==> stopped.observation.success)
    && stopped.outputDigest == DigestOf(stopped.output)
  }

  predicate ValidOutcome(outcome: Outcome, launch: Launch, stopped: Stopped) {
    match outcome
    case StopOnly(run, stopAck) => run == launch.run && stopAck
    case Completion(receipt) =>
      && stopped.output.Some?
      && receipt.lease == launch.nonce
      && receipt.state == ServerCompleted
      && receipt.run == launch.run
      && receipt.stopAck
  }

  predicate ValidAcknowledged(acknowledged: Acknowledged, launch: Launch, stopped: Stopped) {
    && acknowledged.previous == StoppedDigest(stopped)
    && ValidOutcome(acknowledged.outcome, launch, stopped)
  }
}
