/** What every reachable state of the relay satisfies. */
module RelayInvariant {
  import opened Basics
  import opened RelayState
  import opened RelayProtocol

  // ---- The latches

  /** At most one latch is held, a run id is recorded only on a held latch, and time moves forward. */
  ghost predicate LatchOk(sh: Shared, now: int, latchedAt: int) {
    && (forall a, b :: a in sh.syncing && b in sh.syncing ==> a == b)
    && sh.runs.Keys <= sh.syncing
    && sh.lastActivity <= now
    && (sh.syncing != {} ==> latchedAt <= sh.lastActivity)
  }

  ghost predicate LatchInv(s: System) {
    LatchOk(s.shared, s.now, s.history.latchedAt)
  }

  // ---- Commands: issued once, queued in order

  ghost predicate IssuedInv(h: History) {
    && h.departed <= |h.commands|
    && (forall t :: 0 <= t < |h.commands| ==> h.commands[t].ticket == t)
    && (forall r :: r in h.tickets ==> h.tickets[r] < |h.commands| && h.commands[h.tickets[r]].run == Some(r))
    && (forall t :: 0 <= t < |h.commands| && h.commands[t].run.Some? ==>
          h.commands[t].run.value in h.tickets && h.tickets[h.commands[t].run.value] == t)
    && (forall t: nat :: t in h.fates <==> t < h.departed)
  }

  /** The queue is exactly the part of the issued commands that has not departed. */
  ghost predicate QueueInv(s: System) {
    && IssuedInv(s.history)
    && s.shared.queue == s.history.commands[s.history.departed..]
  }

  /** A recorded run id names the command that was issued for that very latch, and none was issued since. */
  ghost predicate RunInv(s: System) {
    && IssuedInv(s.history)
    && forall k :: k in s.shared.runs ==>
         && s.shared.runs[k] in s.history.tickets
         && s.history.tickets[s.shared.runs[k]] == |s.history.commands| - 1
         && s.history.commands[s.history.tickets[s.shared.runs[k]]].kind == k
  }

  // ---- Sessions

  ghost predicate Known(h: History, command: Command) {
    command.ticket < h.departed <= |h.commands| && h.commands[command.ticket] == command && command.ticket in h.fates
  }

  ghost predicate HasFate(h: History, command: Command, fate: Fate) {
    Known(h, command) && h.fates[command.ticket] == fate
  }

  /** A session holds a command nobody else holds, and knows whether it was sent. */
  ghost predicate SessionInv(h: History, id: Token, session: Session) {
    && (session.pending.Some? && !session.pc.Sending? ==>
          HasFate(h, session.pending.value, Enveloped(id)) && session.pending.value.worker == session.worker
          && session.pending.value.run.Some?)
    && match session.pc
       case Polled => session.pending.None?
       case Asking(c) => session.pending.None? && HasFate(h, c, Taken(id)) && c.worker == session.worker && c.run.Some?
       case Probing(c, _) => session.pending.None? && HasFate(h, c, Taken(id)) && c.worker == session.worker && c.run.Some?
       case Decided(c, supports) =>
         session.pending.None? && HasFate(h, c, Taken(id)) && (supports ==> c.worker == session.worker && c.run.Some?)
       case Sending(c, form) =>
         && HasFate(h, c, Taken(id)) && c.worker == session.worker
         && (if form.Envelope? then c.run.Some? && session.pending == Some(c) else session.pending.None?)
       case Rejecting(c) =>
         session.pending.None? && HasFate(h, c, Enveloped(id)) && c.worker == session.worker && c.run.Some?
       case Marked(c) =>
         session.pending.None? && HasFate(h, c, Enveloped(id)) && c.worker == session.worker && c.run.Some?
       case Resending(c) =>
         && session.pending.None? && HasFate(h, c, Enveloped(id)) && c.worker == session.worker
         && c.ticket in h.downgraded
       case _ => true
  }

  ghost predicate SessionsInv(s: System) {
    && s.sessions.Keys <= s.history.openedIds
    && forall id :: id in s.sessions ==> SessionInv(s.history, id, s.sessions[id])
  }

  // ---- Transmissions

  ghost predicate SendInv(h: History, send: Transmission) {
    && Known(h, send.command)
    && send.connection.worker == send.command.worker
    && match send.form
       case Envelope => h.fates[send.command.ticket] in {Enveloped(send.connection.id), Done}
       case Plain => h.fates[send.command.ticket] == Done
  }

  /** Two transmissions of one command: an envelope, then its plain form on the same connection. */
  ghost predicate Resent(h: History, first: Transmission, second: Transmission) {
    && first.form == Envelope
    && second.form == Plain
    && first.connection == second.connection
    && second.command.ticket in h.downgraded
  }

  ghost predicate SendsInv(h: History) {
    && (forall i :: 0 <= i < |h.sends| ==> SendInv(h, h.sends[i]))
    && (forall i, j :: 0 <= i < j < |h.sends| && h.sends[i].command.ticket == h.sends[j].command.ticket ==>
          Resent(h, h.sends[i], h.sends[j]))
  }

  // ---- Capability

  /** A rejected connection is either still marked as rejected or will never be current again. */
  ghost predicate CapabilityInv(s: System) {
    && (s.shared.connection.Some? ==> s.shared.connection.value.id in s.history.openedIds)
    && (forall key :: key in s.history.rejected ==>
          && key.id in s.history.openedIds
          && (key in s.shared.cache ==> s.shared.cache[key] == Rejected)
          && (s.shared.connection == Some(key) ==> key in s.shared.cache))
  }

  /** This session has decided that its connection accepts envelopes. */
  predicate Correlating(session: Session) {
    (session.pc.Decided? && session.pc.supports) || (session.pc.Sending? && session.pc.form.Envelope?)
  }

  ghost predicate CorrelatingInv(s: System) {
    && s.sessions.Keys <= s.history.openedIds
    && forall id :: id in s.sessions && Correlating(s.sessions[id]) ==> Key(s.sessions[id], id) !in s.history.rejected
  }

  // ---- The log

  ghost predicate LogInv(sh: Shared) {
    forall i :: 0 <= i < |sh.log| ==> sh.log[i].sequence == i + 1
  }

  ghost predicate Inv(s: System) {
    && LatchInv(s)
    && QueueInv(s)
    && RunInv(s)
    && SessionsInv(s)
    && SendsInv(s.history)
    && CapabilityInv(s)
    && CorrelatingInv(s)
    && LogInv(s.shared)
  }

  // ---- Every step keeps the latch invariant

  lemma PublishLatch(sh: Shared, frame: Frame, endpoint: int, now: int, at: int)
    requires LatchOk(sh, now, at)
    ensures LatchOk(Publish(sh, frame, endpoint, now), now, at)
  {
  }

  lemma FailLatch(sh: Shared, kind: Kind, endpoint: int, now: int, at: int)
    requires LatchOk(sh, now, at)
    ensures LatchOk(FailKind(sh, kind, endpoint, now), now, at)
  {
  }

  lemma FailAllLatch(sh: Shared, endpoint: int, now: int, at: int)
    requires LatchOk(sh, now, at)
    ensures LatchOk(FailSyncs(sh, endpoint, now), now, at)
  {
    FailLatch(sh, FullUpdate, endpoint, now, at);
    var sh1 := FailKind(sh, FullUpdate, endpoint, now);
    FailLatch(sh1, Devices, endpoint, now, at);
    FailLatch(FailKind(sh1, Devices, endpoint, now), VirtualMachines, endpoint, now, at);
  }

  lemma ReleaseLatch(sh: Shared, command: Command, now: int, at: int)
    requires LatchOk(sh, now, at)
    ensures LatchOk(Release(sh, command), now, at)
  {
  }

  lemma DowngradeLatch(sh: Shared, command: Command, endpoint: int, now: int, at: int)
    requires LatchOk(sh, now, at)
    ensures LatchOk(Downgrade(sh, command, endpoint, now), now, at)
  {
  }

  lemma QueueLatch(sh: Shared, kind: Kind, context: Context, command: Command, now: int, at: int)
    requires LatchOk(sh, now, at) && command.kind == kind
    ensures
      var at' := if QueueReply(sh, kind, context, command, now).Accepted? then now else at;
      LatchOk(QueueSync(sh, kind, context, command, now), now, at')
  {
  }

  lemma LatchManage(s: System, m: Management)
    requires LatchInv(s) && CanManage(s, m)
    ensures LatchInv(DoManage(s, m))
  {
    if m.Drain? {
      ReleaseLatch(s.shared.(queue := s.shared.queue[1..]), s.shared.queue[0], s.now, s.history.latchedAt);
    }
  }

  lemma LatchPost(s: System, request: nat, p: Posting)
    requires LatchInv(s) && CanPost(s, request, p)
    ensures LatchInv(DoPost(s, request, p))
  {
    if p.Queue? {
      var r := s.requests[request];
      QueueLatch(s.shared, r.kind, r.context, QueuedCommand(s, request, p.token), s.now, s.history.latchedAt);
    }
  }

  lemma LatchDispatch(s: System, id: Token, d: Dispatching)
    requires LatchInv(s) && id in s.sessions && CanDispatch(s, s.sessions[id], d)
    ensures LatchInv(DoDispatch(s, id, d))
  {
    if d.Format? {
      var session := s.sessions[id];
      ReleaseLatch(s.shared, session.pc.decided, s.now, s.history.latchedAt);
      DowngradeLatch(s.shared, session.pc.decided, session.worker.endpoint, s.now, s.history.latchedAt);
    }
  }

  lemma LatchRespond(s: System, id: Token, r: Responding)
    requires LatchInv(s) && id in s.sessions && CanRespond(s, s.sessions[id], r)
    ensures LatchInv(DoRespond(s, id, r))
  {
    var session := s.sessions[id];
    var sh, now, at, endpoint := s.shared, s.now, s.history.latchedAt, session.worker.endpoint;
    match r
    case PublishFrame => PublishLatch(sh, session.pc.frame, endpoint, now, at);
    case DowngradePending => DowngradeLatch(sh, session.pc.marked, endpoint, now, at);
    case LoseTrust => FailAllLatch(sh, endpoint, now, at);
    case _ =>
  }

  // ---- Every step keeps the queue invariant

  lemma QueueManage(s: System, m: Management)
    requires QueueInv(s) && CanManage(s, m)
    ensures QueueInv(DoManage(s, m))
  {
  }

  lemma EnqueuedIssued(h: History, command: Command)
    requires IssuedInv(h)
    requires command.ticket == |h.commands| && (command.run.Some? ==> command.run.value !in h.tickets)
    ensures IssuedInv(Enqueued(h, command))
    ensures Enqueued(h, command).commands[h.departed..] == h.commands[h.departed..] + [command]
  {
  }

  /** A request was accepted and its command fitted in the queue. */
  predicate Enqueues(s: System, request: nat, token: Token)
    requires request in s.requests && s.requests[request].Ready?
  {
    QueueAnswer(s, request, token).Accepted? && |s.shared.queue| < QUEUE_CAPACITY
  }

  /** What a request leaves in the queue and in the recorded run ids. */
  lemma QueueEffect(s: System, request: nat, token: Token)
    requires request in s.requests && s.requests[request].Ready?
    ensures
      var sh' := DoQueue(s, request, token).shared;
      var command := QueuedCommand(s, request, token);
      && sh'.queue == (if Enqueues(s, request, token) then s.shared.queue + [command] else s.shared.queue)
      && forall k :: k in sh'.runs ==>
           || (k in s.shared.runs && sh'.runs[k] == s.shared.runs[k])
           || (Enqueues(s, request, token) && k == command.kind && command.run == Some(sh'.runs[k]))
  {
  }

  /** A command is issued only when no other run id is left on record. */
  lemma QueueReplaces(s: System, request: nat, token: Token)
    requires LatchInv(s) && request in s.requests && s.requests[request].Ready? && Enqueues(s, request, token)
    ensures
      var runs, command := DoQueue(s, request, token).shared.runs, QueuedCommand(s, request, token);
      forall k :: k in runs ==> k == command.kind && command.run == Some(runs[k])
  {
  }

  lemma QueuePost(s: System, request: nat, p: Posting)
    requires QueueInv(s) && CanPost(s, request, p)
    ensures QueueInv(DoPost(s, request, p))
  {
    if p.Queue? {
      QueueEffect(s, request, p.token);
      EnqueuedIssued(s.history.(latchedAt := s.now), QueuedCommand(s, request, p.token));
    }
  }

  lemma QueueDispatch(s: System, id: Token, d: Dispatching)
    requires QueueInv(s) && SessionsInv(s) && id in s.sessions && CanDispatch(s, s.sessions[id], d)
    ensures QueueInv(DoDispatch(s, id, d))
  {
  }

  lemma QueueRespond(s: System, id: Token, r: Responding)
    requires QueueInv(s) && SessionsInv(s) && id in s.sessions && CanRespond(s, s.sessions[id], r)
    ensures QueueInv(DoRespond(s, id, r))
  {
  }

  // ---- Every step keeps the run invariant

  /** No run id is recorded that was not recorded before on the same latch. */
  ghost predicate NoNewRun(sh: Shared, sh': Shared) {
    forall k :: k in sh'.runs ==> k in sh.runs && sh'.runs[k] == sh.runs[k]
  }

  lemma OnlyOldRuns(sh: Shared, command: Command, frame: Frame, endpoint: int, now: int)
    ensures NoNewRun(sh, Publish(sh, frame, endpoint, now))
    ensures NoNewRun(sh, Downgrade(sh, command, endpoint, now))
    ensures NoNewRun(sh, Release(sh, command))
  {
  }

  lemma FailRuns(sh: Shared, endpoint: int, now: int)
    ensures NoNewRun(sh, FailSyncs(sh, endpoint, now))
  {
    assert NoNewRun(sh, FailKind(sh, FullUpdate, endpoint, now));
  }

  lemma RunFrame(s: System, s': System)
    requires RunInv(s) && IssuedInv(s'.history) && NoNewRun(s.shared, s'.shared)
    requires s'.history.commands == s.history.commands && s'.history.tickets == s.history.tickets
    ensures RunInv(s')
  {
  }

  lemma RunManage(s: System, m: Management)
    requires QueueInv(s) && RunInv(s) && CanManage(s, m)
    ensures RunInv(DoManage(s, m))
  {
    QueueManage(s, m);
    ManageRuns(s, m);
    RunFrame(s, DoManage(s, m));
  }

  lemma ReleaseRuns(sh: Shared, command: Command)
    ensures NoNewRun(sh, Release(sh, command))
  {
  }

  lemma ManageRuns(s: System, m: Management)
    requires CanManage(s, m)
    ensures
      var s' := DoManage(s, m);
      NoNewRun(s.shared, s'.shared) && s'.history.commands == s.history.commands && s'.history.tickets == s.history.tickets
  {
    if m.Drain? {
      ReleaseRuns(s.shared.(queue := s.shared.queue[1..]), s.shared.queue[0]);
    }
  }

  lemma RunPost(s: System, request: nat, p: Posting)
    requires LatchInv(s) && QueueInv(s) && RunInv(s) && CanPost(s, request, p)
    ensures RunInv(DoPost(s, request, p))
  {
    QueuePost(s, request, p);
    if p.Queue? {
      RunQueue(s, request, p.token, DoPost(s, request, p));
    }
  }

  lemma RunQueue(s: System, request: nat, token: Token, s': System)
    requires LatchInv(s) && RunInv(s) && IssuedInv(s'.history) && request in s.requests && s.requests[request].Ready?
    requires s' == DoQueue(s, request, token)
    ensures RunInv(s')
  {
    QueueEffect(s, request, token);
    if Enqueues(s, request, token) {
      QueueReplaces(s, request, token);
      var command := QueuedCommand(s, request, token);
      assert s'.history.commands == s.history.commands + [command];
      assert forall k :: k in s'.shared.runs ==> s'.history.tickets[s'.shared.runs[k]] == command.ticket;
    }
  }

  lemma DispatchRuns(s: System, id: Token, d: Dispatching)
    requires id in s.sessions && CanDispatch(s, s.sessions[id], d)
    ensures
      var s' := DoDispatch(s, id, d);
      NoNewRun(s.shared, s'.shared) && s'.history.commands == s.history.commands && s'.history.tickets == s.history.tickets
  {
    if d.Format? {
      var session := s.sessions[id];
      OnlyOldRuns(s.shared, session.pc.decided, Frame("", None), session.worker.endpoint, s.now);
    }
  }

  lemma RespondRuns(s: System, id: Token, r: Responding)
    requires id in s.sessions && CanRespond(s, s.sessions[id], r)
    ensures
      var s' := DoRespond(s, id, r);
      NoNewRun(s.shared, s'.shared) && s'.history.commands == s.history.commands && s'.history.tickets == s.history.tickets
  {
    var session := s.sessions[id];
    match r
    case PublishFrame =>
      var any := Command(session.worker, Devices, None, None, 0);
      OnlyOldRuns(s.shared, any, session.pc.frame, session.worker.endpoint, s.now);
    case DowngradePending =>
      OnlyOldRuns(s.shared, session.pc.marked, Frame("", None), session.worker.endpoint, s.now);
    case LoseTrust => FailRuns(s.shared, session.worker.endpoint, s.now);
    case _ =>
  }

  lemma RunDispatch(s: System, id: Token, d: Dispatching)
    requires QueueInv(s) && RunInv(s) && SessionsInv(s) && id in s.sessions && CanDispatch(s, s.sessions[id], d)
    ensures RunInv(DoDispatch(s, id, d))
  {
    QueueDispatch(s, id, d);
    DispatchRuns(s, id, d);
    RunFrame(s, DoDispatch(s, id, d));
  }

  lemma RunRespond(s: System, id: Token, r: Responding)
    requires QueueInv(s) && RunInv(s) && SessionsInv(s) && id in s.sessions && CanRespond(s, s.sessions[id], r)
    ensures RunInv(DoRespond(s, id, r))
  {
    QueueRespond(s, id, r);
    RespondRuns(s, id, r);
    RunFrame(s, DoRespond(s, id, r));
  }

  // ---- Every step keeps the session invariant

  /** The history moved on without touching the commands that session `id` holds. */
  ghost predicate Extends(h: History, h': History, id: Token) {
    && h.departed <= h'.departed <= |h'.commands|
    && |h.commands| <= |h'.commands|
    && (forall t :: 0 <= t < |h.commands| ==> h'.commands[t] == h.commands[t])
    && h.downgraded <= h'.downgraded
    && (forall t :: t in h.fates && h.fates[t] in {Taken(id), Enveloped(id)} ==> t in h'.fates && h'.fates[t] == h.fates[t])
  }

  lemma SessionFrame(h: History, h': History, id: Token, session: Session)
    requires SessionInv(h, id, session) && Extends(h, h', id)
    ensures SessionInv(h', id, session)
  {
  }

  /** Only the session `id` itself need be looked at after one of its steps. */
  lemma SessionsFrame(s: System, s': System, id: Token)
    requires SessionsInv(s) && s.history.openedIds <= s'.history.openedIds
    requires s'.sessions.Keys <= s'.history.openedIds
    requires forall other :: other in s'.sessions && other != id ==>
               other in s.sessions && s'.sessions[other] == s.sessions[other] && Extends(s.history, s'.history, other)
    requires id in s'.sessions ==> SessionInv(s'.history, id, s'.sessions[id])
    ensures SessionsInv(s')
  {
    forall other | other in s'.sessions && other != id
      ensures SessionInv(s'.history, other, s'.sessions[other])
    {
      SessionFrame(s.history, s'.history, other, s.sessions[other]);
    }
  }

  lemma ManageExtends(s: System, m: Management, id: Token)
    requires QueueInv(s) && CanManage(s, m)
    ensures Extends(s.history, DoManage(s, m).history, id)
  {
  }

  lemma SessionsManage(s: System, m: Management)
    requires QueueInv(s) && SessionsInv(s) && CanManage(s, m)
    ensures SessionsInv(DoManage(s, m))
  {
    var s' := DoManage(s, m);
    forall id | id in s.sessions && id in s'.sessions
      ensures SessionInv(s'.history, id, s'.sessions[id])
    {
      ManageExtends(s, m, id);
      SessionFrame(s.history, s'.history, id, s.sessions[id]);
    }
  }

  lemma SessionsPost(s: System, request: nat, p: Posting)
    requires QueueInv(s) && SessionsInv(s) && CanPost(s, request, p)
    ensures SessionsInv(DoPost(s, request, p))
  {
    var s' := DoPost(s, request, p);
    forall id | id in s.sessions
      ensures SessionInv(s'.history, id, s'.sessions[id])
    {
      SessionFrame(s.history, s'.history, id, s.sessions[id]);
    }
  }

  lemma TakeSelf(s: System, id: Token)
    requires QueueInv(s) && id in s.sessions && s.sessions[id].pc.Polled? && SessionInv(s.history, id, s.sessions[id])
    ensures SessionInv(DoTake(s, id).history, id, DoTake(s, id).sessions[id])
  {
  }

  lemma DispatchSelf(s: System, id: Token, d: Dispatching)
    requires id in s.sessions && SessionInv(s.history, id, s.sessions[id]) && CanDispatch(s, s.sessions[id], d)
    requires !d.Take?
    ensures SessionInv(DoDispatch(s, id, d).history, id, DoDispatch(s, id, d).sessions[id])
  {
  }

  lemma DispatchOthers(s: System, id: Token, d: Dispatching, other: Token)
    requires QueueInv(s) && id in s.sessions && SessionInv(s.history, id, s.sessions[id]) && CanDispatch(s, s.sessions[id], d)
    requires other != id
    ensures Extends(s.history, DoDispatch(s, id, d).history, other)
  {
  }

  lemma SessionsDispatch(s: System, id: Token, d: Dispatching)
    requires QueueInv(s) && SessionsInv(s) && id in s.sessions && CanDispatch(s, s.sessions[id], d)
    ensures SessionsInv(DoDispatch(s, id, d))
  {
    var s' := DoDispatch(s, id, d);
    if d.Take? { TakeSelf(s, id); } else { DispatchSelf(s, id, d); }
    forall other | other != id ensures Extends(s.history, s'.history, other) { DispatchOthers(s, id, d, other); }
    SessionsFrame(s, s', id);
  }

  lemma RespondSelf(s: System, id: Token, r: Responding)
    requires id in s.sessions && SessionInv(s.history, id, s.sessions[id]) && CanRespond(s, s.sessions[id], r)
    ensures SessionInv(DoRespond(s, id, r).history, id, DoRespond(s, id, r).sessions[id])
  {
  }

  lemma RespondOthers(s: System, id: Token, r: Responding, other: Token)
    requires id in s.sessions && SessionInv(s.history, id, s.sessions[id]) && CanRespond(s, s.sessions[id], r)
    requires s.history.departed <= |s.history.commands| && other != id
    ensures Extends(s.history, DoRespond(s, id, r).history, other)
  {
  }

  lemma SessionsRespond(s: System, id: Token, r: Responding)
    requires QueueInv(s) && SessionsInv(s) && id in s.sessions && CanRespond(s, s.sessions[id], r)
    ensures SessionsInv(DoRespond(s, id, r))
  {
    var s' := DoRespond(s, id, r);
    RespondSelf(s, id, r);
    forall other | other != id ensures Extends(s.history, s'.history, other) { RespondOthers(s, id, r, other); }
    SessionsFrame(s, s', id);
  }

  // ---- Every step keeps the transmission invariant

  lemma SendsFrame(h: History, h': History)
    requires SendsInv(h)
    requires h'.sends == h.sends && h.downgraded <= h'.downgraded
    requires h.departed <= h'.departed <= |h'.commands| && |h.commands| <= |h'.commands|
    requires forall t :: 0 <= t < |h.commands| ==> h'.commands[t] == h.commands[t]
    requires forall t :: t in h.fates && (h.fates[t].Enveloped? || h.fates[t].Done?) ==> t in h'.fates && h'.fates[t] == h.fates[t]
    ensures SendsInv(h')
  {
  }

  /** A first transmission, or the plain form that follows a downgraded envelope. */
  lemma SendsSent(h: History, key: Connection, command: Command, form: Form)
    requires SendsInv(h) && key.worker == command.worker
    requires
      || HasFate(h, command, Taken(key.id))
      || (form.Plain? && HasFate(h, command, Enveloped(key.id)) && command.ticket in h.downgraded)
    ensures SendsInv(Sent(h, key, command, form))
  {
  }

  lemma SendsManage(s: System, m: Management)
    requires QueueInv(s) && SendsInv(s.history) && CanManage(s, m)
    ensures SendsInv(DoManage(s, m).history)
  {
  }

  lemma SendsPost(s: System, request: nat, p: Posting)
    requires QueueInv(s) && SendsInv(s.history) && CanPost(s, request, p)
    ensures SendsInv(DoPost(s, request, p).history)
  {
    SendsFrame(s.history, DoPost(s, request, p).history);
  }

  lemma SendsDispatch(s: System, id: Token, d: Dispatching)
    requires QueueInv(s) && SendsInv(s.history)
    requires id in s.sessions && SessionInv(s.history, id, s.sessions[id]) && CanDispatch(s, s.sessions[id], d)
    ensures SendsInv(DoDispatch(s, id, d).history)
  {
    if d.Send? {
      var session := s.sessions[id];
      SendsSent(s.history, Key(session, id), session.pc.sending, session.pc.form);
    } else {
      SendsFrame(s.history, DoDispatch(s, id, d).history);
    }
  }

  lemma SendsRespond(s: System, id: Token, r: Responding)
    requires QueueInv(s) && SendsInv(s.history)
    requires id in s.sessions && SessionInv(s.history, id, s.sessions[id]) && CanRespond(s, s.sessions[id], r)
    ensures SendsInv(DoRespond(s, id, r).history)
  {
    if r.Resend? {
      var session := s.sessions[id];
      SendsSent(s.history, Key(session, id), session.pc.resending, Plain);
    } else {
      SendsFrame(s.history, DoRespond(s, id, r).history);
    }
  }

  // ---- Every step keeps the capability invariants

  lemma CapabilityManage(s: System, m: Management)
    requires CapabilityInv(s) && CorrelatingInv(s) && CanManage(s, m)
    ensures CapabilityInv(DoManage(s, m)) && CorrelatingInv(DoManage(s, m))
  {
  }

  lemma CapabilityPost(s: System, request: nat, p: Posting)
    requires CapabilityInv(s) && CorrelatingInv(s) && CanPost(s, request, p)
    ensures CapabilityInv(DoPost(s, request, p))
  {
  }

  lemma CorrelatingPost(s: System, request: nat, p: Posting)
    requires CapabilityInv(s) && CorrelatingInv(s) && CanPost(s, request, p)
    ensures CorrelatingInv(DoPost(s, request, p))
  {
  }

  lemma CapabilityDispatch(s: System, id: Token, d: Dispatching)
    requires CapabilityInv(s) && CorrelatingInv(s) && id in s.sessions && CanDispatch(s, s.sessions[id], d)
    ensures CapabilityInv(DoDispatch(s, id, d))
  {
  }

  lemma CorrelatingDispatch(s: System, id: Token, d: Dispatching)
    requires CapabilityInv(s) && CorrelatingInv(s) && id in s.sessions && CanDispatch(s, s.sessions[id], d)
    ensures CorrelatingInv(DoDispatch(s, id, d))
  {
  }

  lemma CapabilityRespond(s: System, id: Token, r: Responding)
    requires CapabilityInv(s) && CorrelatingInv(s) && id in s.sessions && CanRespond(s, s.sessions[id], r)
    ensures CapabilityInv(DoRespond(s, id, r))
  {
  }

  lemma CorrelatingRespond(s: System, id: Token, r: Responding)
    requires CapabilityInv(s) && CorrelatingInv(s) && id in s.sessions && CanRespond(s, s.sessions[id], r)
    ensures CorrelatingInv(DoRespond(s, id, r))
  {
  }

  // ---- The log only grows, and its entries are numbered in order

  ghost predicate Grows(sh: Shared, sh': Shared) {
    sh.log <= sh'.log
  }

  lemma LogManage(s: System, m: Management)
    requires LogInv(s.shared) && CanManage(s, m)
    ensures LogInv(DoManage(s, m).shared) && Grows(s.shared, DoManage(s, m).shared)
  {
  }

  lemma LogPost(s: System, request: nat, p: Posting)
    requires LogInv(s.shared) && CanPost(s, request, p)
    ensures LogInv(DoPost(s, request, p).shared) && Grows(s.shared, DoPost(s, request, p).shared)
  {
  }

  lemma LogDispatch(s: System, id: Token, d: Dispatching)
    requires LogInv(s.shared) && id in s.sessions && CanDispatch(s, s.sessions[id], d)
    ensures LogInv(DoDispatch(s, id, d).shared) && Grows(s.shared, DoDispatch(s, id, d).shared)
  {
  }

  lemma LogRespond(s: System, id: Token, r: Responding)
    requires LogInv(s.shared) && id in s.sessions && CanRespond(s, s.sessions[id], r)
    ensures LogInv(DoRespond(s, id, r).shared) && Grows(s.shared, DoRespond(s, id, r).shared)
  {
  }

  lemma InvManage(s: System, m: Management)
    requires Inv(s) && CanManage(s, m)
    ensures Inv(DoManage(s, m))
  {
    LatchManage(s, m); QueueManage(s, m); RunManage(s, m); SessionsManage(s, m); SendsManage(s, m);
    CapabilityManage(s, m); LogManage(s, m);
  }

  lemma InvPost(s: System, request: nat, p: Posting)
    requires Inv(s) && CanPost(s, request, p)
    ensures Inv(DoPost(s, request, p))
  {
    LatchPost(s, request, p); QueuePost(s, request, p); RunPost(s, request, p); SessionsPost(s, request, p);
    SendsPost(s, request, p); CapabilityPost(s, request, p); CorrelatingPost(s, request, p); LogPost(s, request, p);
  }

  lemma InvDispatch(s: System, id: Token, d: Dispatching)
    requires Inv(s) && id in s.sessions && CanDispatch(s, s.sessions[id], d)
    ensures Inv(DoDispatch(s, id, d))
  {
    LatchDispatch(s, id, d); QueueDispatch(s, id, d); RunDispatch(s, id, d); SessionsDispatch(s, id, d);
    SendsDispatch(s, id, d); CapabilityDispatch(s, id, d); CorrelatingDispatch(s, id, d); LogDispatch(s, id, d);
  }

  lemma InvRespond(s: System, id: Token, r: Responding)
    requires Inv(s) && id in s.sessions && CanRespond(s, s.sessions[id], r)
    ensures Inv(DoRespond(s, id, r))
  {
    LatchRespond(s, id, r); QueueRespond(s, id, r); RunRespond(s, id, r); SessionsRespond(s, id, r);
    SendsRespond(s, id, r); CapabilityRespond(s, id, r); CorrelatingRespond(s, id, r); LogRespond(s, id, r);
  }

  /** The invariant is inductive. */
  lemma InvStep(s: System, step: Step)
    requires Inv(s) && Enabled(s, step)
    ensures Inv(Apply(s, step))
  {
    match step
    case Manage(m) => InvManage(s, m);
    case Post(request, p) => InvPost(s, request, p);
    case Dispatch(id, d) => InvDispatch(s, id, d);
    case Respond(id, r) => InvRespond(s, id, r);
  }
}
