/**
 The relay as a state machine: any number of browser requests and connection sessions, in any
 interleaving. One step is one critical section of `websocket_lock`, one access to the command
 queue, or one send or receive on a socket. A session that was told to stop may still take steps
 until it is cancelled, so sessions of several workers can be alive at once.

 The loop that discards the queue holds the lock but competes with a session taking a command,
 which does not need the lock; it is therefore split into one step per command.
 */
module RelayProtocol {
  import opened Basics
  import opened RelayState

  datatype Form = Envelope | Plain

  /** Where a session stands in `_run_connected_session` and the functions it calls. */
  datatype Pc =
    | Top
    | Polled
    | Asking(asked: Command)
    | Probing(probed: Command, startedAt: int)
    | Decided(decided: Command, supports: bool)
    | Sending(sending: Command, form: Form)
    | Receiving
    | Publishing(frame: Frame)
    | Rejecting(rejecting: Command)
    | Marked(marked: Command)
    | Resending(resending: Command)
    | Closing

  datatype Session = Session(worker: Worker, pc: Pc, pending: Option<Command>)

  /** Where a POST stands: before the cache lookup, while probing, or ready to queue. */
  datatype Request =
    | Looking(kind: Kind, key: Connection)
    | ProbingRequest(kind: Kind, key: Connection, startedAt: int)
    | Ready(kind: Kind, context: Context)

  datatype Lock = Free | Draining(next: Option<Worker>)

  /** What has become of a command that left the queue. */
  datatype Fate = Taken(session: Token) | Enveloped(session: Token) | Done | Dropped

  datatype Transmission = Transmission(connection: Connection, command: Command, form: Form)

  /** What the run has done so far; no step of the relay reads it, except to choose fresh tokens. */
  datatype History = History(
    commands: seq<Command>,
    departed: nat,
    fates: map<nat, Fate>,
    tickets: map<Token, nat>,
    sends: seq<Transmission>,
    downgraded: set<nat>,
    openedIds: set<Token>,
    rejected: set<Connection>,
    latchedAt: int)

  datatype System = System(
    shared: Shared,
    now: int,
    lock: Lock,
    sessions: map<Token, Session>,
    requests: map<nat, Request>,
    history: History)

  /** Steps of the process around the relay: time, the worker and its connections. */
  datatype Management =
    | Tick(elapsed: nat)
    | Start(worker: Worker, alive: bool)
    | Stop(only: Option<int>)
    | Drain
    | Unlock
    | Record(endpoint: int, frame: Frame)
    | Connect(worker: Worker, id: Token)
    | Close(id: Token)

  /** Steps of one POST. */
  datatype Posting =
    | Begin(kind: Kind, endpoint: int)
    | LookUp(startedAt: int)
    | Probe(supported: bool)
    | Queue(token: Token)

  /** Steps of a session that forwards a command. */
  datatype Dispatching =
    | Loop
    | Take
    | SessionLookUp(startedAt: int)
    | SessionProbe(supported: bool)
    | Format
    | Send

  /** Steps of a session that handles what arrives, or fails. */
  datatype Responding =
    | Timeout
    | Receive(frame: Frame)
    | PublishFrame
    | Reject
    | DowngradePending
    | Resend
    | LoseTrust

  datatype Step =
    | Manage(m: Management)
    | Post(request: nat, p: Posting)
    | Dispatch(id: Token, d: Dispatching)
    | Respond(id: Token, r: Responding)

  function Initial(now: int, lastActivity: int): System {
    System(Shared({}, map[], [], [], lastActivity, None, None, map[]), now, Free, map[], map[],
           History([], 0, map[], map[], [], {}, {}, {}, now))
  }

  // ---- Helpers of the session steps

  function Key(session: Session, id: Token): Connection {
    Connection(session.worker, id)
  }

  /** `_active_pending_envelope`. */
  function ActivePending(sh: Shared, pending: Option<Command>): Option<Command> {
    if pending.Some? && OwnsLatch(sh, pending.value) then pending else None
  }

  /** `_is_invalid_command_frame`. */
  predicate RejectsEnvelope(frame: Frame, pending: Command) {
    || frame.text == INVALID_COMMAND
    || (&& frame.payload.Some?
        && frame.payload.value.message == INVALID_COMMAND
        && pending.run.Some?
        && frame.payload.value.run == RunId(pending.run.value))
  }

  /** The trust recheck happens at these points of a session. */
  predicate ChecksTrust(pc: Pc) {
    pc.Top? || pc.Polled? || pc.Decided? || pc.Receiving? || pc.Rejecting?
  }

  function Move(s: System, id: Token, session: Session): System {
    s.(sessions := s.sessions[id := session])
  }

  function AfterTake(session: Session, command: Command): Session {
    if command.worker == session.worker && command.run.Some? then session.(pc := Asking(command))
    else session.(pc := Decided(command, false))
  }

  // ---- When a step can happen

  predicate CanManage(s: System, m: Management) {
    match m
    case Tick(_) => true
    case Start(_, _) => s.lock.Free?
    case Stop(_) => s.lock.Free?
    case Drain => s.lock.Draining? && s.shared.queue != []
    case Unlock => s.lock.Draining? && s.shared.queue == []
    case Record(_, _) => s.lock.Free?
    case Connect(_, id) => s.lock.Free? && id !in s.history.openedIds
    case Close(id) => s.lock.Free? && id in s.sessions
  }

  predicate CanPost(s: System, request: nat, p: Posting) {
    match p
    case Begin(_, _) => s.lock.Free? && request !in s.requests
    case LookUp(startedAt) =>
      s.lock.Free? && request in s.requests && s.requests[request].Looking? && startedAt <= s.now
    case Probe(_) => s.lock.Free? && request in s.requests && s.requests[request].ProbingRequest?
    case Queue(token) =>
      s.lock.Free? && request in s.requests && s.requests[request].Ready? && token !in s.history.tickets
  }

  predicate CanDispatch(s: System, session: Session, d: Dispatching) {
    match d
    case Loop => session.pc.Top? && (session.pending.Some? ==> s.lock.Free?)
    case Take => session.pc.Polled?
    case SessionLookUp(startedAt) => s.lock.Free? && session.pc.Asking? && startedAt <= s.now
    case SessionProbe(_) => s.lock.Free? && session.pc.Probing?
    case Format => s.lock.Free? && session.pc.Decided?
    case Send => session.pc.Sending?
  }

  predicate CanRespond(s: System, session: Session, r: Responding) {
    match r
    case Timeout => session.pc.Receiving?
    case Receive(_) => session.pc.Receiving? && (session.pending.Some? ==> s.lock.Free?)
    case PublishFrame => s.lock.Free? && session.pc.Publishing?
    case Reject => s.lock.Free? && session.pc.Rejecting?
    case DowngradePending => s.lock.Free? && session.pc.Marked?
    case Resend => session.pc.Resending?
    case LoseTrust => s.lock.Free? && ChecksTrust(session.pc)
  }

  predicate Enabled(s: System, step: Step) {
    match step
    case Manage(m) => CanManage(s, m)
    case Post(request, p) => CanPost(s, request, p)
    case Dispatch(id, d) => id in s.sessions && CanDispatch(s, s.sessions[id], d)
    case Respond(id, r) => id in s.sessions && CanRespond(s, s.sessions[id], r)
  }

  // ---- What a step does

  function DoStart(s: System, worker: Worker, alive: bool): System {
    if KeepsWorker(s.shared, worker, alive) then s
    else if s.shared.worker.Some? then s.(lock := Draining(Some(worker)))
    else s.(shared := s.shared.(worker := Some(worker)))
  }

  function DoStop(s: System, endpoint: Option<int>): System {
    if StopApplies(s.shared, endpoint) then s.(shared := StopWorker(s.shared), lock := Draining(None)) else s
  }

  function DoDrain(s: System): System
    requires s.shared.queue != []
  {
    var ticket := s.history.departed;
    s.(shared := DrainOne(s.shared),
       history := s.history.(departed := ticket + 1, fates := s.history.fates[ticket := Dropped]))
  }

  function DoUnlock(s: System): System
    requires s.lock.Draining?
  {
    s.(lock := Free, shared := s.shared.(worker := s.lock.next))
  }

  function DoBegin(s: System, request: nat, kind: Kind, endpoint: int): System {
    if s.shared.worker.None? || s.shared.worker.value.endpoint != endpoint then s
    else
      var worker := s.shared.worker.value;
      if s.shared.connection.Some? && s.shared.connection.value.worker == worker then
        s.(requests := s.requests[request := Looking(kind, s.shared.connection.value)])
      else
        s.(requests := s.requests[request := Ready(kind, Context(worker, None, false))])
  }

  function Answered(kind: Kind, key: Connection, answer: bool): Request {
    Ready(kind, Context(key.worker, Some(key), answer))
  }

  function DoLookUp(s: System, request: nat, startedAt: int): System
    requires request in s.requests && s.requests[request].Looking?
  {
    var Looking(kind, key) := s.requests[request];
    var answer := CapabilityCached(s.shared, key, false, startedAt);
    var next := if answer.Some? then Answered(kind, key, answer.value) else ProbingRequest(kind, key, startedAt);
    s.(requests := s.requests[request := next])
  }

  function DoProbe(s: System, request: nat, supported: bool): System
    requires request in s.requests && s.requests[request].ProbingRequest?
  {
    var ProbingRequest(kind, key, startedAt) := s.requests[request];
    s.(shared := CapabilityProbed(s.shared, key, startedAt, supported, s.now),
       requests := s.requests[request := Answered(kind, key, ProbeAccepted(s.shared, key) && supported)])
  }

  /** The command a `Queue` step would enqueue. */
  function QueuedCommand(s: System, request: nat, token: Token): Command
    requires request in s.requests && s.requests[request].Ready?
  {
    NewCommand(s.requests[request].kind, s.requests[request].context, token, |s.history.commands|)
  }

  function QueueAnswer(s: System, request: nat, token: Token): Reply
    requires request in s.requests && s.requests[request].Ready?
  {
    var Ready(kind, context) := s.requests[request];
    QueueReply(s.shared, kind, context, QueuedCommand(s, request, token), s.now)
  }

  function Enqueued(h: History, command: Command): History {
    h.(commands := h.commands + [command],
       tickets := if command.run.Some? then h.tickets[command.run.value := command.ticket] else h.tickets)
  }

  function DoQueue(s: System, request: nat, token: Token): System
    requires request in s.requests && s.requests[request].Ready?
  {
    var Ready(kind, context) := s.requests[request];
    var command := QueuedCommand(s, request, token);
    var reply := QueueAnswer(s, request, token);
    var latched := if reply.Accepted? then s.history.(latchedAt := s.now) else s.history;
    s.(shared := QueueSync(s.shared, kind, context, command, s.now),
       requests := s.requests - {request},
       history := if reply.Accepted? && |s.shared.queue| < QUEUE_CAPACITY then Enqueued(latched, command) else latched)
  }

  function DoConnect(s: System, worker: Worker, id: Token): System {
    s.(shared := OpenConnection(s.shared, Connection(worker, id)),
       sessions := s.sessions[id := Session(worker, Top, None)],
       history := s.history.(openedIds := s.history.openedIds + {id}))
  }

  function DoClose(s: System, id: Token): System
    requires id in s.sessions
  {
    s.(shared := CloseConnection(s.shared, Key(s.sessions[id], id)), sessions := s.sessions - {id})
  }

  function DoLoop(s: System, id: Token): System
    requires id in s.sessions
  {
    var pending := ActivePending(s.shared, s.sessions[id].pending);
    var pc := if pending.None? && s.shared.queue != [] then Polled else Receiving;
    Move(s, id, s.sessions[id].(pc := pc, pending := pending))
  }

  function DoTake(s: System, id: Token): System
    requires id in s.sessions
  {
    if s.shared.queue == [] then Move(s, id, s.sessions[id].(pc := Receiving))
    else
      var ticket := s.history.departed;
      Move(s, id, AfterTake(s.sessions[id], s.shared.queue[0]))
        .(shared := s.shared.(queue := s.shared.queue[1..]),
          history := s.history.(departed := ticket + 1, fates := s.history.fates[ticket := Taken(id)]))
  }

  function DoSessionLookUp(s: System, id: Token, startedAt: int): System
    requires id in s.sessions && s.sessions[id].pc.Asking?
  {
    var session := s.sessions[id];
    var answer := CapabilityCached(s.shared, Key(session, id), true, startedAt);
    var pc := if answer.Some? then Decided(session.pc.asked, answer.value) else Probing(session.pc.asked, startedAt);
    Move(s, id, session.(pc := pc))
  }

  function DoSessionProbe(s: System, id: Token, supported: bool): System
    requires id in s.sessions && s.sessions[id].pc.Probing?
  {
    var session := s.sessions[id];
    var key := Key(session, id);
    Move(s, id, session.(pc := Decided(session.pc.probed, ProbeAccepted(s.shared, key) && supported)))
      .(shared := CapabilityProbed(s.shared, key, session.pc.startedAt, supported, s.now))
  }

  /** `_command_for_worker`, and the pending envelope `_dispatch_queued_command` returns with it. */
  function DoFormat(s: System, id: Token): System
    requires id in s.sessions && s.sessions[id].pc.Decided?
  {
    var session := s.sessions[id];
    var command := session.pc.decided;
    if command.worker != session.worker then
      Move(s, id, session.(pc := Receiving, pending := None))
        .(shared := Release(s.shared, command),
          history := s.history.(fates := s.history.fates[command.ticket := Dropped]))
    else if command.run.None? then
      Move(s, id, session.(pc := Sending(command, Plain), pending := None))
    else if session.pc.supports then
      Move(s, id, session.(pc := Sending(command, Envelope), pending := Some(command)))
    else
      Move(s, id, session.(pc := Sending(command, Plain), pending := None))
        .(shared := Downgrade(s.shared, command, session.worker.endpoint, s.now))
  }

  function Sent(h: History, key: Connection, command: Command, form: Form): History {
    h.(sends := h.sends + [Transmission(key, command, form)],
       fates := h.fates[command.ticket := if form.Envelope? then Enveloped(key.id) else Done])
  }

  function DoSend(s: System, id: Token): System
    requires id in s.sessions && s.sessions[id].pc.Sending?
  {
    var session := s.sessions[id];
    Move(s, id, session.(pc := Receiving))
      .(history := Sent(s.history, Key(session, id), session.pc.sending, session.pc.form))
  }

  function DoReceive(s: System, id: Token, frame: Frame): System
    requires id in s.sessions
  {
    var session := s.sessions[id];
    var pending := ActivePending(s.shared, session.pending);
    if pending.Some? && RejectsEnvelope(frame, pending.value) then
      Move(s, id, session.(pc := Rejecting(pending.value), pending := None))
    else if pending.Some? && PayloadRun(frame.payload) == RunId(pending.value.run.value) then
      Move(s, id, session.(pc := Publishing(frame), pending := None))
    else
      Move(s, id, session.(pc := Publishing(frame), pending := pending))
  }

  function DoPublishFrame(s: System, id: Token): System
    requires id in s.sessions && s.sessions[id].pc.Publishing?
  {
    var session := s.sessions[id];
    Move(s, id, session.(pc := Top))
      .(shared := Publish(s.shared, session.pc.frame, session.worker.endpoint, s.now))
  }

  function DoReject(s: System, id: Token): System
    requires id in s.sessions && s.sessions[id].pc.Rejecting?
  {
    var session := s.sessions[id];
    var key := Key(session, id);
    Move(s, id, session.(pc := Marked(session.pc.rejecting)))
      .(shared := MarkRejected(s.shared, key),
        history := s.history.(rejected := s.history.rejected + {key}))
  }

  function DoDowngradePending(s: System, id: Token): System
    requires id in s.sessions && s.sessions[id].pc.Marked?
  {
    var session := s.sessions[id];
    var command := session.pc.marked;
    if OwnsLatch(s.shared, command) then
      Move(s, id, session.(pc := Resending(command)))
        .(shared := Downgrade(s.shared, command, session.worker.endpoint, s.now),
          history := s.history.(downgraded := s.history.downgraded + {command.ticket}))
    else Move(s, id, session.(pc := Top))
  }

  function DoResend(s: System, id: Token): System
    requires id in s.sessions && s.sessions[id].pc.Resending?
  {
    var session := s.sessions[id];
    Move(s, id, session.(pc := Top))
      .(history := Sent(s.history, Key(session, id), session.pc.resending, Plain))
  }

  function DoLoseTrust(s: System, id: Token): System
    requires id in s.sessions
  {
    var session := s.sessions[id];
    Move(s, id, session.(pc := Closing, pending := None))
      .(shared := FailSyncs(s.shared, session.worker.endpoint, s.now))
  }

  function DoManage(s: System, m: Management): System
    requires CanManage(s, m)
  {
    match m
    case Tick(elapsed) => s.(now := s.now + elapsed)
    case Start(worker, alive) => DoStart(s, worker, alive)
    case Stop(only) => DoStop(s, only)
    case Drain => DoDrain(s)
    case Unlock => DoUnlock(s)
    case Record(endpoint, frame) => s.(shared := Append(s.shared, endpoint, FromBackend(frame), s.now, true))
    case Connect(worker, id) => DoConnect(s, worker, id)
    case Close(id) => DoClose(s, id)
  }

  function DoPost(s: System, request: nat, p: Posting): System
    requires CanPost(s, request, p)
  {
    match p
    case Begin(kind, endpoint) => DoBegin(s, request, kind, endpoint)
    case LookUp(startedAt) => DoLookUp(s, request, startedAt)
    case Probe(supported) => DoProbe(s, request, supported)
    case Queue(token) => DoQueue(s, request, token)
  }

  function DoDispatch(s: System, id: Token, d: Dispatching): System
    requires id in s.sessions && CanDispatch(s, s.sessions[id], d)
  {
    match d
    case Loop => DoLoop(s, id)
    case Take => DoTake(s, id)
    case SessionLookUp(startedAt) => DoSessionLookUp(s, id, startedAt)
    case SessionProbe(supported) => DoSessionProbe(s, id, supported)
    case Format => DoFormat(s, id)
    case Send => DoSend(s, id)
  }

  function DoRespond(s: System, id: Token, r: Responding): System
    requires id in s.sessions && CanRespond(s, s.sessions[id], r)
  {
    match r
    case Timeout => Move(s, id, s.sessions[id].(pc := Top))
    case Receive(frame) => DoReceive(s, id, frame)
    case PublishFrame => DoPublishFrame(s, id)
    case Reject => DoReject(s, id)
    case DowngradePending => DoDowngradePending(s, id)
    case Resend => DoResend(s, id)
    case LoseTrust => DoLoseTrust(s, id)
  }

  function Apply(s: System, step: Step): System
    requires Enabled(s, step)
  {
    match step
    case Manage(m) => DoManage(s, m)
    case Post(request, p) => DoPost(s, request, p)
    case Dispatch(id, d) => DoDispatch(s, id, d)
    case Respond(id, r) => DoRespond(s, id, r)
  }

  // ---- Runs

  /** `states` is a run: it begins in an initial state and each step leads to the next state. */
  ghost predicate IsRun(states: seq<System>, steps: seq<Step>) {
    && |states| == |steps| + 1
    && (exists now: int, lastActivity: int :: lastActivity <= now && states[0] == Initial(now, lastActivity))
    && forall i :: 0 <= i < |steps| ==> Enabled(states[i], steps[i]) && states[i + 1] == Apply(states[i], steps[i])
  }
}
