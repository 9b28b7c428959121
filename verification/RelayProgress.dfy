/** What becomes of a queued command, of a frame and of a request when nothing interferes. */
module RelayProgress {
  import opened Basics
  import opened RelayState
  import opened RelayProtocol
  import RelayInvariant
  import RelayObject
  import RelayTheorems

  ghost predicate Goes(s: System, step: Step, s': System) {
    Enabled(s, step) && s' == Apply(s, step)
  }

  /** A session that is about to look at the queue, waits for no envelope, and finds `command` in front. */
  predicate Picks(s: System, id: Token, command: Command) {
    && s.lock.Free? && id in s.sessions && s.sessions[id].pc.Top?
    && (s.sessions[id].pending.Some? ==> !OwnsLatch(s.shared, s.sessions[id].pending.value))
    && s.shared.queue != [] && s.shared.queue[0] == command
  }

  /** The command was authorised for the endpoint and the identity of this session. */
  predicate Bound(s: System, id: Token, command: Command)
    requires id in s.sessions
  {
    command.worker.endpoint == s.sessions[id].worker.endpoint && command.worker.identity == s.sessions[id].worker.identity
  }

  /** The command has left the queue and was sent in this form, and the session listens. */
  ghost predicate SentAs(s: System, s': System, id: Token, command: Command, form: Form)
    requires id in s.sessions && s.shared.queue != []
  {
    && s'.shared.queue == s.shared.queue[1..]
    && s'.history.sends == s.history.sends + [Transmission(Connection(s.sessions[id].worker, id), command, form)]
    && id in s'.sessions && s'.sessions[id].pc.Receiving?
    && s'.sessions[id].pending == if form.Envelope? then Some(command) else None
  }

  // ---- Dispatch

  /** A command of another endpoint or identity is taken out, never sent, and gives back the latch of its own run. */
  lemma ForeignCommandIsDropped(s: System, id: Token, command: Command) returns (s1: System, s2: System, s3: System)
    requires Picks(s, id, command) && !Bound(s, id, command)
    ensures Goes(s, Dispatch(id, Loop), s1) && Goes(s1, Dispatch(id, Take), s2) && Goes(s2, Dispatch(id, Format), s3)
    ensures s3.shared.queue == s.shared.queue[1..] && s3.history.sends == s.history.sends
    ensures s3.sessions[id].pc.Receiving? && s3.sessions[id].pending.None? && s3.shared.log == s.shared.log
    ensures OwnsLatch(s.shared, command) ==> command.kind !in s3.shared.syncing && command.kind !in s3.shared.runs
    ensures command.run.Some? && !OwnsLatch(s.shared, command) && command.kind in s.shared.syncing ==> s3.shared.syncing == s.shared.syncing
  {
    s1 := Apply(s, Dispatch(id, Loop));
    s2 := Apply(s1, Dispatch(id, Take));
    s3 := Apply(s2, Dispatch(id, Format));
  }

  /** A command without a run id is sent as it is. */
  lemma LegacyCommandIsSent(s: System, id: Token, command: Command) returns (s1: System, s2: System, s3: System, s4: System)
    requires Picks(s, id, command) && Bound(s, id, command) && command.run.None?
    ensures Goes(s, Dispatch(id, Loop), s1) && Goes(s1, Dispatch(id, Take), s2)
    ensures Goes(s2, Dispatch(id, Format), s3) && Goes(s3, Dispatch(id, Send), s4)
    ensures SentAs(s, s4, id, command, Plain) && s4.shared == s.shared.(queue := s.shared.queue[1..])
  {
    s1 := Apply(s, Dispatch(id, Loop));
    s2 := Apply(s1, Dispatch(id, Take));
    s3 := Apply(s2, Dispatch(id, Format));
    s4 := Apply(s3, Dispatch(id, Send));
  }

  /** A command with a run id, taken by the session it is bound to: the backend is asked first. */
  lemma CorrelatedCommandIsTaken(s: System, id: Token, command: Command) returns (s1: System, s2: System)
    requires Picks(s, id, command) && Bound(s, id, command) && command.run.Some?
    ensures Goes(s, Dispatch(id, Loop), s1) && Goes(s1, Dispatch(id, Take), s2)
    ensures s2.lock == s.lock && s2.now == s.now && s2.shared == s.shared.(queue := s.shared.queue[1..])
    ensures s2.sessions == s.sessions[id := Session(s.sessions[id].worker, Asking(command), None)]
    ensures s2.history.sends == s.history.sends
  {
    s1 := Apply(s, Dispatch(id, Loop));
    s2 := Apply(s1, Dispatch(id, Take));
  }

  /** The session has taken a command with a run id and is about to ask whether the connection takes envelopes. */
  predicate Asks(s: System, id: Token, command: Command) {
    && s.lock.Free? && id in s.sessions && s.sessions[id].pc == Asking(command) && s.sessions[id].pending.None?
    && command.run.Some? && command.worker == s.sessions[id].worker
  }

  /** The connection is current and has not rejected an envelope. */
  predicate Usable(s: System, key: Connection) {
    s.shared.connection == Some(key) && !(key in s.shared.cache && s.shared.cache[key].Rejected?)
  }

  /**
   On a usable connection the backend is asked again, whatever is cached: if it says yes the command goes out with
   its run id; if not, it goes out plain, and its run no longer owns the latch.
   */
  lemma CorrelatedCommandIsSent(s: System, id: Token, command: Command, startedAt: int, supported: bool)
    returns (s1: System, s2: System, s3: System, s4: System)
    requires Asks(s, id, command) && Usable(s, Connection(s.sessions[id].worker, id)) && startedAt <= s.now
    ensures Goes(s, Dispatch(id, SessionLookUp(startedAt)), s1) && Goes(s1, Dispatch(id, SessionProbe(supported)), s2)
    ensures Goes(s2, Dispatch(id, Format), s3) && Goes(s3, Dispatch(id, Send), s4)
    ensures
      var key, form := Connection(s.sessions[id].worker, id), if supported then Envelope else Plain;
      && s4.history.sends == s.history.sends + [Transmission(key, command, form)]
      && s4.sessions[id].pc.Receiving? && s4.sessions[id].pending == (if supported then Some(command) else None)
      && s4.shared.syncing == s.shared.syncing
      && (supported ==> s4.shared.runs == s.shared.runs && s4.shared.log == s.shared.log)
      && (!supported ==> !OwnsLatch(s4.shared, command))
  {
    s1 := Apply(s, Dispatch(id, SessionLookUp(startedAt)));
    s2 := Apply(s1, Dispatch(id, SessionProbe(supported)));
    s3 := Apply(s2, Dispatch(id, Format));
    s4 := Apply(s3, Dispatch(id, Send));
  }

  /** On any other connection nothing is asked: the command goes out plain, and its run no longer owns the latch. */
  lemma UnusableConnectionSendsPlain(s: System, id: Token, command: Command, startedAt: int)
    returns (s1: System, s2: System, s3: System)
    requires Asks(s, id, command) && !Usable(s, Connection(s.sessions[id].worker, id)) && startedAt <= s.now
    ensures Goes(s, Dispatch(id, SessionLookUp(startedAt)), s1)
    ensures Goes(s1, Dispatch(id, Format), s2) && Goes(s2, Dispatch(id, Send), s3)
    ensures s3.history.sends == s.history.sends + [Transmission(Connection(s.sessions[id].worker, id), command, Plain)]
    ensures s3.sessions[id].pc.Receiving? && s3.sessions[id].pending.None? && !OwnsLatch(s3.shared, command)
    ensures s3.shared.syncing == s.shared.syncing
  {
    s1 := Apply(s, Dispatch(id, SessionLookUp(startedAt)));
    s2 := Apply(s1, Dispatch(id, Format));
    s3 := Apply(s2, Dispatch(id, Send));
  }

  // ---- Frames

  predicate Listens(s: System, id: Token) {
    s.lock.Free? && id in s.sessions && s.sessions[id].pc.Receiving?
  }

  /** The session waits for this envelope, whose run owns the latch. */
  predicate WaitsFor(s: System, id: Token, command: Command)
    requires id in s.sessions
  {
    s.sessions[id].pending == Some(command) && command.run.Some?
    && command.kind in s.shared.syncing && command.kind in s.shared.runs && s.shared.runs[command.kind] == command.run.value
  }

  /** The frame says that a command is invalid: the bare text, or a payload that says so and names this run. */
  predicate SaysInvalid(frame: Frame, run: Token) {
    || frame.text == "Invalid sync command"
    || (frame.payload.Some? && frame.payload.value.message == "Invalid sync command" && frame.payload.value.run == RunId(run))
  }

  /**
   A rejected envelope is sent again in plain form on the same connection, which is marked for good; the run keeps
   its latch without its run id, a message names it, and the rejection itself is not shown.
   */
  lemma RejectedEnvelopeIsResent(s: System, id: Token, command: Command, frame: Frame)
    returns (s1: System, s2: System, s3: System, s4: System)
    requires Listens(s, id) && WaitsFor(s, id, command) && SaysInvalid(frame, command.run.value)
    ensures Goes(s, Respond(id, Receive(frame)), s1) && Goes(s1, Respond(id, Reject), s2)
    ensures Goes(s2, Respond(id, DowngradePending), s3) && Goes(s3, Respond(id, Resend), s4)
    ensures
      var worker := s.sessions[id].worker;
      var key := Connection(worker, id);
      && s4.history.sends == s.history.sends + [Transmission(key, command, Plain)]
      && key in s4.shared.cache && s4.shared.cache[key] == Rejected
      && s4.shared.syncing == s.shared.syncing && s4.shared.runs == s.shared.runs - {command.kind}
      && s4.shared.log == s.shared.log + [Entry(|s.shared.log| + 1, worker.endpoint, Downgraded(command.run.value))]
      && s4.shared.queue == s.shared.queue && s4.shared.lastActivity == s.now
      && s4.sessions[id] == Session(worker, Top, None)
  {
    s1 := Apply(s, Respond(id, Receive(frame)));
    s2 := Apply(s1, Respond(id, Reject));
    s3 := Apply(s2, Respond(id, DowngradePending));
    s4 := Apply(s3, Respond(id, Resend));
  }

  /**
   Every other frame is published, and the session stops waiting for an envelope exactly when the frame names its
   run or its run no longer owns the latch.
   */
  lemma OtherFrameIsPublished(s: System, id: Token, frame: Frame) returns (s1: System, s2: System)
    requires Listens(s, id)
    requires forall command :: WaitsFor(s, id, command) ==> !SaysInvalid(frame, command.run.value)
    ensures Goes(s, Respond(id, Receive(frame)), s1) && Goes(s1, Respond(id, PublishFrame), s2)
    ensures
      var worker, pending := s.sessions[id].worker, s.sessions[id].pending;
      && s2.shared.log == s.shared.log + [Entry(|s.shared.log| + 1, worker.endpoint, FromBackend(frame))]
      && s2.history.sends == s.history.sends && s2.shared.queue == s.shared.queue
      && s2.sessions[id].pc.Top?
      && s2.sessions[id].pending ==
           if pending.Some? && WaitsFor(s, id, pending.value)
              && !(frame.payload.Some? && frame.payload.value.run == RunId(pending.value.run.value))
           then pending else None
  {
    var pending := s.sessions[id].pending;
    assert pending.Some? ==> (OwnsLatch(s.shared, pending.value) <==> WaitsFor(s, id, pending.value));
    s1 := Apply(s, Respond(id, Receive(frame)));
    s2 := Apply(s1, Respond(id, PublishFrame));
  }

  // ---- Requests

  /**
   A request that meets a live worker with a usable connection and no fresh answer in the cache asks the backend,
   caches what it says, and goes on with exactly that answer.
   */
  lemma RequestAsks(s: System, request: nat, kind: Kind, key: Connection, startedAt: int, supported: bool)
    returns (s1: System, s2: System, s3: System)
    requires s.lock.Free? && request !in s.requests && s.shared.worker == Some(key.worker) && Usable(s, key)
    requires startedAt <= s.now && (key in s.shared.cache ==> s.shared.cache[key].expires <= startedAt)
    ensures Goes(s, Post(request, Begin(kind, key.worker.endpoint)), s1) && Goes(s1, Post(request, LookUp(startedAt)), s2)
    ensures Goes(s2, Post(request, Probe(supported)), s3)
    ensures s3.requests == s.requests[request := Ready(kind, Context(key.worker, Some(key), supported))]
    ensures key in s3.shared.cache && s3.shared.cache[key] == Decision(s.now + CAPABILITY_TTL_MS, supported)
    ensures s3.shared == s.shared.(cache := s3.shared.cache) && s3.lock == s.lock && s3.now == s.now && s3.history == s.history
  {
    s1 := Apply(s, Post(request, Begin(kind, key.worker.endpoint)));
    s2 := Apply(s1, Post(request, LookUp(startedAt)));
    s3 := Apply(s2, Post(request, Probe(supported)));
  }

  /** With a fresh answer in the cache, the request goes on with that answer and nothing is asked. */
  lemma RequestReusesAnswer(s: System, request: nat, kind: Kind, key: Connection, startedAt: int) returns (s1: System, s2: System)
    requires s.lock.Free? && request !in s.requests && s.shared.worker == Some(key.worker) && Usable(s, key)
    requires startedAt <= s.now && key in s.shared.cache && s.shared.cache[key].expires > startedAt
    ensures Goes(s, Post(request, Begin(kind, key.worker.endpoint)), s1) && Goes(s1, Post(request, LookUp(startedAt)), s2)
    ensures s2.requests == s.requests[request := Ready(kind, Context(key.worker, Some(key), s.shared.cache[key].supported))]
    ensures s2.shared == s.shared
  {
    s1 := Apply(s, Post(request, Begin(kind, key.worker.endpoint)));
    s2 := Apply(s1, Post(request, LookUp(startedAt)));
  }

  /**
   A request whose worker and connection are current and which finds no latch held is accepted: with its run id if
   and only if the backend said yes.
   */
  lemma RequestIsAccepted(s: System, request: nat, kind: Kind, key: Connection, supported: bool, token: Token) returns (s1: System)
    requires s.lock.Free? && request in s.requests && s.requests[request] == Ready(kind, Context(key.worker, Some(key), supported))
    requires s.shared.worker == Some(key.worker) && s.shared.connection == Some(key)
    requires s.shared.syncing == {} && |s.shared.queue| < QUEUE_CAPACITY && token !in s.history.tickets
    ensures Goes(s, Post(request, Queue(token)), s1)
    ensures
      var run := if supported then Some(token) else None;
      && QueueAnswer(s, request, token) == Accepted(|s.shared.log|, run)
      && s1.shared.syncing == {kind} && RunOf(s1.shared.runs, kind) == run && s1.shared.lastActivity == s.now
      && s1.shared.queue == s.shared.queue + [Command(key.worker, kind, run, Some(key.id), |s.history.commands|)]
      && request !in s1.requests
  {
    s1 := Apply(s, Post(request, Queue(token)));
  }

  /** Without a connection of the worker, the request is accepted as a legacy run and nothing is asked. */
  lemma RequestWithoutConnection(s: System, request: nat, kind: Kind, worker: Worker, token: Token) returns (s1: System, s2: System)
    requires s.lock.Free? && request !in s.requests && s.shared.worker == Some(worker)
    requires s.shared.connection.None? || s.shared.connection.value.worker != worker
    requires s.shared.syncing == {} && |s.shared.queue| < QUEUE_CAPACITY && token !in s.history.tickets
    ensures Goes(s, Post(request, Begin(kind, worker.endpoint)), s1) && Goes(s1, Post(request, Queue(token)), s2)
    ensures QueueAnswer(s1, request, token) == Accepted(|s.shared.log|, None)
    ensures s2.shared.syncing == {kind} && kind !in s2.shared.runs
    ensures s2.shared.queue == s.shared.queue + [Command(worker, kind, None, None, |s.history.commands|)]
  {
    s1 := Apply(s, Post(request, Begin(kind, worker.endpoint)));
    s2 := Apply(s1, Post(request, Queue(token)));
  }

  /** A request is refused for exactly one of three reasons, and a busy answer names the run that holds the same latch. */
  lemma RefusedExactly(s: System, request: nat, token: Token)
    requires request in s.requests && s.requests[request].Ready?
    ensures
      var Ready(kind, context) := s.requests[request];
      var reply := QueueAnswer(s, request, token);
      var idle := s.now - s.shared.lastActivity >= LATCH_IDLE_MS;
      && (reply == WorkerChanged <==> s.shared.worker != Some(context.worker))
      && (reply == ConnectionChanged <==>
            s.shared.worker == Some(context.worker) && context.connection.Some? && s.shared.connection != context.connection)
      && (reply.Busy? <==>
            && s.shared.worker == Some(context.worker)
            && (context.connection.Some? ==> s.shared.connection == context.connection)
            && s.shared.syncing != {} && !idle)
      && (reply.Busy? || reply.Accepted? ==> reply.cursor == |s.shared.log|)
      && (reply.Busy? ==> reply.run == if kind in s.shared.syncing && kind in s.shared.runs then Some(s.shared.runs[kind]) else None)
  {
  }

  // ---- Activity

  /** A frame that breaks the protocol: a run id that is none, or the end of a full update without a final status. */
  predicate Breaks(frame: Frame) {
    && frame.payload.Some?
    && var payload := frame.payload.value;
       payload.run.MalformedRunId? || (payload.subject.FullUpdateSubject? && payload.end && payload.status.OtherStatus?)
  }

  /** While no correlated run holds a latch, every frame refreshes the idle timer unless it breaks the protocol. */
  lemma LegacyActivity(sh: Shared, frame: Frame, endpoint: int, now: int)
    requires forall kind :: kind in sh.syncing ==> kind !in sh.runs
    ensures Publish(sh, frame, endpoint, now).lastActivity == if Breaks(frame) then sh.lastActivity else now
  {
  }

  // ---- Workers

  /** The same live worker is kept; any other is put in its place, once the commands of the old one are gone. */
  lemma WorkerIsStarted(s: System, worker: Worker, alive: bool) returns (s1: System)
    requires s.lock.Free?
    ensures Goes(s, Manage(Start(worker, alive)), s1)
    ensures
      if alive && s.shared.worker == Some(worker) then s1 == s
      else if s.shared.worker.None? then
        s1.lock.Free? && s1.shared == s.shared.(worker := Some(worker))
      else
        && s1.lock.Draining? && s1.shared == s.shared
        && var after := RelayTheorems.Drained(s1);
        && after.lock.Free? && after.shared.worker == Some(worker) && after.shared.queue == []
        && after.shared.log == s.shared.log && after.shared.connection == s.shared.connection
        && after.shared.lastActivity == s.shared.lastActivity
  {
    s1 := Apply(s, Manage(Start(worker, alive)));
    if s1.lock.Draining? {
      RelayTheorems.DrainedIsDrainAll(s1);
      RelayObject.DrainAllEmpties(s1.shared);
    }
  }

  /** A stop that names another endpoint does nothing; any other leaves no worker, no command and no connection of it. */
  lemma WorkerIsStopped(s: System, worker: Worker, only: Option<int>) returns (s1: System)
    requires s.lock.Free? && s.shared.worker == Some(worker)
    ensures Goes(s, Manage(Stop(only)), s1)
    ensures
      if only.Some? && only.value != worker.endpoint then s1 == s
      else
        && s1.lock.Draining? && s1.shared.worker.None?
        && (s1.shared.connection.Some? ==>
              s1.shared.connection == s.shared.connection && s1.shared.connection.value.worker.endpoint != worker.endpoint)
        && var after := RelayTheorems.Drained(s1);
        && after.lock.Free? && after.shared.worker.None? && after.shared.queue == []
        && after.shared.connection == s1.shared.connection && after.shared.log == s.shared.log
  {
    s1 := Apply(s, Manage(Stop(only)));
    if s1.lock.Draining? {
      RelayTheorems.DrainedIsDrainAll(s1);
      RelayObject.DrainAllEmpties(s1.shared);
    }
  }

  /** The latch still stands for this command: for its run, or for no run if it has none. */
  predicate StandsFor(sh: Shared, command: Command) {
    if command.run.Some? then OwnsLatch(sh, command) else command.kind !in sh.runs
  }

  /** A discarded command frees the latch that stands for it, and no other. */
  lemma DroppedCommandFreesLatch(s: System, command: Command) returns (s1: System)
    requires s.lock.Draining? && s.shared.queue != [] && s.shared.queue[0] == command
    ensures Goes(s, Manage(Drain), s1)
    ensures s1.shared.queue == s.shared.queue[1..]
    ensures s1.shared.syncing == if StandsFor(s.shared, command) then s.shared.syncing - {command.kind} else s.shared.syncing
    ensures forall kind :: kind in s1.shared.syncing ==> RunOf(s1.shared.runs, kind) == RunOf(s.shared.runs, kind)
  {
    s1 := Apply(s, Manage(Drain));
  }

  /** A session that loses trust closes, and a latch that was held is freed with a message that names its run. */
  lemma LostTrustFreesLatch(s: System, id: Token, kind: Kind) returns (s1: System)
    requires RelayInvariant.LatchInv(s) && kind in s.shared.syncing
    requires s.lock.Free? && id in s.sessions && ChecksTrust(s.sessions[id].pc)
    ensures Goes(s, Respond(id, LoseTrust), s1)
    ensures id in s1.sessions && s1.sessions[id].pc.Closing? && s1.sessions[id].pending.None?
    ensures s1.shared.syncing == {} && s1.shared.runs == map[]
    ensures |s1.shared.log| == |s.shared.log| + 1
    ensures s1.shared.log[|s.shared.log|].message == TrustFailure(kind, RunOf(s.shared.runs, kind))
  {
    s1 := Apply(s, Respond(id, LoseTrust));
    RelayTheorems.TrustLossFreesLatch(s, s.sessions[id].worker.endpoint, kind);
  }
}
