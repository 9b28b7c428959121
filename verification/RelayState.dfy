/**
 The state that `netbox_proxbox/websocket_client.py` keeps in module variables, and what one
 critical section of `websocket_lock` does to it.

 Every function below is one critical section (or a helper that runs inside one). The buffer of
 recent messages is represented here by the whole log of messages ever appended; module
 `RelayObject` shows that the bounded deque of the program refines it.
 */
module RelayState {
  import opened Basics

  /** A `secrets.token_hex` value, or any string a backend puts in its place. */
  type Token = string

  datatype Kind = FullUpdate | Devices | VirtualMachines

  const LATCH_IDLE_MS := 600_000
  const CAPABILITY_TTL_MS := 30_000
  const BUFFER_CAPACITY := 500
  const QUEUE_CAPACITY := 1000
  const INVALID_COMMAND := "Invalid sync command"

  // ---- Frames sent by the backend

  datatype RunIdField = NoRunId | MalformedRunId | RunId(id: Token)

  datatype Subject = DeviceSubject | VirtualMachineSubject | FullUpdateSubject | OtherSubject

  datatype Status = Completed | Failed | OtherStatus

  /** The fields of one JSON object that the relay looks at. `end` means the value is exactly true. */
  datatype Payload = Payload(subject: Subject, end: bool, status: Status, run: RunIdField, message: string)

  /** One frame: its text, and its payload when the text is a JSON object. */
  datatype Frame = Frame(text: string, payload: Option<Payload>)

  // ---- Entities of the relay

  datatype Worker = Worker(endpoint: int, identity: string)

  datatype Connection = Connection(worker: Worker, id: Token)

  /** A queued command; `ticket` stands for the identity of the Python object. */
  datatype Command = Command(worker: Worker, kind: Kind, run: Option<Token>, connection: Option<Token>, ticket: nat)

  /** A cached capability decision; a rejection has an infinite expiry. */
  datatype CacheEntry = Rejected | Decision(expires: int, supported: bool)

  datatype Message =
    | FromBackend(frame: Frame)
    | TrustFailure(kind: Kind, run: Option<Token>)
    | Downgraded(oldRun: Token)

  datatype Entry = Entry(sequence: nat, endpoint: int, message: Message)

  datatype Shared = Shared(
    syncing: set<Kind>,
    runs: map<Kind, Token>,
    queue: seq<Command>,
    log: seq<Entry>,
    lastActivity: int,
    worker: Option<Worker>,
    connection: Option<Connection>,
    cache: map<Connection, CacheEntry>)

  function RunOf(runs: map<Kind, Token>, kind: Kind): Option<Token> {
    if kind in runs then Some(runs[kind]) else None
  }

  // ---- Payload classifiers

  function PayloadRun(payload: Option<Payload>): RunIdField {
    if payload.None? then NoRunId else payload.value.run
  }

  /** A field that breaks the protocol, so that the frame may touch neither latch nor activity. */
  predicate ProtocolMalformed(payload: Option<Payload>) {
    || PayloadRun(payload).MalformedRunId?
    || (&& payload.Some?
        && payload.value.subject == FullUpdateSubject
        && payload.value.end
        && payload.value.status == OtherStatus)
  }

  function CandidateKinds(payload: Payload): seq<Kind> {
    match payload.subject
    case DeviceSubject => [Devices]
    case VirtualMachineSubject => [VirtualMachines, FullUpdate]
    case FullUpdateSubject => [FullUpdate]
    case OtherSubject => []
  }

  predicate RunMatches(runs: map<Kind, Token>, payload: Payload, kind: Kind) {
    if payload.run.MalformedRunId? then false
    else if kind !in runs then payload.run.NoRunId?
    else if payload.run != RunId(runs[kind]) then false
    else if kind != FullUpdate then true
    else payload.subject == FullUpdateSubject && payload.status != OtherStatus
  }

  /** Some latch is held by a correlated run. */
  predicate AnyCorrelated(syncing: set<Kind>, runs: map<Kind, Token>) {
    exists kind :: kind in syncing && kind in runs
  }

  predicate MarksActivity(syncing: set<Kind>, runs: map<Kind, Token>, payload: Option<Payload>) {
    if !AnyCorrelated(syncing, runs) then true
    else
      var observed := PayloadRun(payload);
      observed.RunId? && exists kind :: kind in syncing && kind in runs && runs[kind] == observed.id
  }

  function ReleasedBy(syncing: set<Kind>, runs: map<Kind, Token>, payload: Option<Payload>): set<Kind> {
    if payload.None? || !payload.value.end then {}
    else set kind | kind in CandidateKinds(payload.value) && kind in syncing && RunMatches(runs, payload.value, kind)
  }

  // ---- Log

  function Append(sh: Shared, endpoint: int, message: Message, now: int, mark: bool): Shared {
    sh.(log := sh.log + [Entry(|sh.log| + 1, endpoint, message)],
        lastActivity := if mark then now else sh.lastActivity)
  }

  /** `publish_backend_message`: release the finished latches and append, in one section. */
  function Publish(sh: Shared, frame: Frame, endpoint: int, now: int): Shared {
    var malformed := ProtocolMalformed(frame.payload);
    var mark := !malformed && MarksActivity(sh.syncing, sh.runs, frame.payload);
    var released := if malformed then {} else ReleasedBy(sh.syncing, sh.runs, frame.payload);
    Append(sh.(syncing := sh.syncing - released, runs := sh.runs - released), endpoint, FromBackend(frame), now, mark)
  }

  function FailKind(sh: Shared, kind: Kind, endpoint: int, now: int): Shared {
    if kind !in sh.syncing then sh
    else
      Append(sh.(syncing := sh.syncing - {kind}, runs := sh.runs - {kind}), endpoint,
             TrustFailure(kind, RunOf(sh.runs, kind)), now, true)
  }

  /** `_fail_active_syncs_for_trust_loss`. */
  function FailSyncs(sh: Shared, endpoint: int, now: int): Shared {
    FailKind(FailKind(FailKind(sh, FullUpdate, endpoint, now), Devices, endpoint, now), VirtualMachines, endpoint, now)
  }

  // ---- Commands

  /** The exact run of `command` still owns its latch. */
  predicate OwnsLatch(sh: Shared, command: Command) {
    command.run.Some? && command.kind in sh.syncing && RunOf(sh.runs, command.kind) == command.run
  }

  /** `_downgrade_queued_run`: drop the correlation of a run that still owns its latch. */
  function Downgrade(sh: Shared, command: Command, endpoint: int, now: int): Shared {
    if OwnsLatch(sh, command) then
      Append(sh.(runs := sh.runs - {command.kind}), endpoint, Downgraded(command.run.value), now, true)
    else sh
  }

  /** `_release_command_locked`: free the latch of a command that will never be sent. */
  function Release(sh: Shared, command: Command): Shared {
    if RunOf(sh.runs, command.kind) == command.run then
      sh.(syncing := sh.syncing - {command.kind}, runs := sh.runs - {command.kind})
    else sh
  }

  /** One turn of the loop in `_discard_pending_commands_locked`. */
  function DrainOne(sh: Shared): Shared
    requires sh.queue != []
  {
    Release(sh.(queue := sh.queue[1..]), sh.queue[0])
  }

  function DrainAll(sh: Shared): Shared
    decreases |sh.queue|
  {
    if sh.queue == [] then sh else DrainAll(DrainOne(sh))
  }

  /** `_expire_idle_sync_latch_locked`. */
  function ExpireIdle(sh: Shared, now: int): Shared {
    if sh.syncing == {} || now - sh.lastActivity < LATCH_IDLE_MS then sh
    else sh.(syncing := {}, runs := map[])
  }

  datatype Reply =
    | WorkerChanged
    | ConnectionChanged
    | Busy(cursor: nat, run: Option<Token>)
    | Accepted(cursor: nat, run: Option<Token>)

  datatype Context = Context(worker: Worker, connection: Option<Connection>, useRunId: bool)

  /** The command that an accepted request enqueues. */
  function NewCommand(kind: Kind, context: Context, token: Token, ticket: nat): Command {
    Command(context.worker, kind,
            if context.useRunId then Some(token) else None,
            if context.connection.Some? then Some(context.connection.value.id) else None,
            ticket)
  }

  /** Latch `kind` and enqueue its command, unless the queue is full. */
  function Latch(sh: Shared, kind: Kind, command: Command, now: int): Shared {
    var latched := sh.(syncing := sh.syncing + {kind}, lastActivity := now);
    if |sh.queue| >= QUEUE_CAPACITY then latched.(runs := sh.runs - {kind})
    else if command.run.Some? then latched.(queue := sh.queue + [command], runs := sh.runs[kind := command.run.value])
    else latched.(queue := sh.queue + [command], runs := sh.runs - {kind})
  }

  /** Why a request is refused before the latches are looked at. */
  predicate StaleContext(sh: Shared, context: Context) {
    || sh.worker != Some(context.worker)
    || (context.connection.Some? && sh.connection != context.connection)
  }

  /** `_queue_sync_command`: the state it leaves. */
  function QueueSync(sh: Shared, kind: Kind, context: Context, command: Command, now: int): Shared {
    if StaleContext(sh, context) then sh
    else
      var expired := ExpireIdle(sh, now);
      if expired.syncing == {} then Latch(expired, kind, command, now) else expired
  }

  /** `_queue_sync_command`: the answer it gives. */
  function QueueReply(sh: Shared, kind: Kind, context: Context, command: Command, now: int): Reply {
    if sh.worker != Some(context.worker) then WorkerChanged
    else if StaleContext(sh, context) then ConnectionChanged
    else
      var expired := ExpireIdle(sh, now);
      if expired.syncing == {} then Accepted(|sh.log|, if |sh.queue| >= QUEUE_CAPACITY then None else command.run)
      else Busy(|sh.log|, if kind in expired.syncing then RunOf(expired.runs, kind) else None)
  }

  // ---- Capability cache and connection sessions

  /** First section of `_backend_supports_ws_run_id`: an answer, or None to probe the backend. */
  function CapabilityCached(sh: Shared, key: Connection, refresh: bool, startedAt: int): Option<bool> {
    if sh.connection != Some(key) then Some(false)
    else if key !in sh.cache then None
    else match sh.cache[key]
      case Rejected => Some(false)
      case Decision(expires, supported) => if !refresh && expires > startedAt then Some(supported) else None
  }

  /** The second section accepts the probe only for a current connection that was not rejected. */
  predicate ProbeAccepted(sh: Shared, key: Connection) {
    sh.connection == Some(key) && !(key in sh.cache && sh.cache[key].Rejected?)
  }

  function Expired(cache: map<Connection, CacheEntry>, startedAt: int): set<Connection> {
    set key | key in cache && cache[key].Decision? && cache[key].expires <= startedAt
  }

  /** Second section of `_backend_supports_ws_run_id`; the answer is `ProbeAccepted && supported`. */
  function CapabilityProbed(sh: Shared, key: Connection, startedAt: int, supported: bool, now: int): Shared {
    if ProbeAccepted(sh, key) then
      sh.(cache := (sh.cache - Expired(sh.cache, startedAt))[key := Decision(now + CAPABILITY_TTL_MS, supported)])
    else sh
  }

  function Positive(cache: map<Connection, CacheEntry>, worker: Worker): set<Connection> {
    set key | key in cache && key.worker == worker && cache[key].Decision? && cache[key].supported
  }

  function OpenConnection(sh: Shared, key: Connection): Shared {
    sh.(cache := sh.cache - Positive(sh.cache, key.worker), connection := Some(key))
  }

  function CloseConnection(sh: Shared, key: Connection): Shared {
    sh.(cache := sh.cache - Positive(sh.cache, key.worker) - {key},
        connection := if sh.connection == Some(key) then None else sh.connection)
  }

  function MarkRejected(sh: Shared, key: Connection): Shared {
    sh.(cache := sh.cache[key := Rejected])
  }

  // ---- Worker lifecycle

  /** `start_websocket` keeps a live worker of the same identity. */
  predicate KeepsWorker(sh: Shared, worker: Worker, alive: bool) {
    alive && sh.worker == Some(worker)
  }

  /** `stop_websocket` applies to the current worker only. */
  predicate StopApplies(sh: Shared, endpoint: Option<int>) {
    sh.worker.Some? && (endpoint.None? || sh.worker.value.endpoint == endpoint.value)
  }

  /** `stop_websocket` up to the loop that discards the queue. */
  function StopWorker(sh: Shared): Shared
    requires sh.worker.Some?
  {
    var stopped := sh.(worker := None);
    if sh.connection.Some? && sh.connection.value.worker.endpoint == sh.worker.value.endpoint then
      var key := sh.connection.value;
      stopped.(cache := sh.cache - Positive(sh.cache, key.worker) - {key}, connection := None)
    else stopped
  }
}
