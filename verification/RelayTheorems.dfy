/** What every run of the relay guarantees, in every interleaving. */
module RelayTheorems {
  import opened Basics
  import opened RelayState
  import opened RelayProtocol
  import opened RelayInvariant

  /** Every state of every run satisfies the invariant. */
  lemma {:induction false} ReachableInv(states: seq<System>, steps: seq<Step>, i: nat)
    requires IsRun(states, steps) && i < |states|
    ensures Inv(states[i])
  {
    if i == 0 {
      var now: int, lastActivity: int :| lastActivity <= now && states[0] == Initial(now, lastActivity);
    } else {
      ReachableInv(states, steps, i - 1);
      InvStep(states[i - 1], steps[i - 1]);
    }
  }

  // ---- Latches

  /** At most one latch is held, and a run id is recorded only on a held latch. */
  lemma AtMostOneLatch(states: seq<System>, steps: seq<Step>, i: nat)
    requires IsRun(states, steps) && i < |states|
    ensures |states[i].shared.syncing| <= 1
    ensures states[i].shared.runs.Keys <= states[i].shared.syncing
  {
    ReachableInv(states, steps, i);
    var held := states[i].shared.syncing;
    if held != {} {
      var kind :| kind in held;
      assert held == {kind};
    }
  }

  predicate AcceptsPost(s: System, step: Step) {
    && step.Post? && step.p.Queue? && Enabled(s, step)
    && QueueAnswer(s, step.request, step.p.token).Accepted?
  }

  /** A step that frees a held latch because the backend has been silent. */
  predicate ExpiresLatch(s: System, step: Step) {
    AcceptsPost(s, step) && s.shared.syncing != {}
  }

  lemma LatchedAtStep(s: System, step: Step)
    requires Enabled(s, step)
    ensures Apply(s, step).history.latchedAt == if AcceptsPost(s, step) then s.now else s.history.latchedAt
  {
  }

  lemma LatchedAtNext(states: seq<System>, steps: seq<Step>, i: nat)
    requires IsRun(states, steps) && i < |steps|
    ensures states[i + 1].history.latchedAt ==
            if AcceptsPost(states[i], steps[i]) then states[i].now else states[i].history.latchedAt
  {
    LatchedAtStep(states[i], steps[i]);
  }

  lemma {:induction false} LatchedAtStays(states: seq<System>, i: nat, j: nat)
    requires i <= j < |states|
    requires forall m :: i <= m < j ==> states[m + 1].history.latchedAt == states[m].history.latchedAt
    ensures states[j].history.latchedAt == states[i].history.latchedAt
  {
    if i < j {
      LatchedAtStays(states, i, j - 1);
      assert states[j - 1 + 1].history.latchedAt == states[j - 1].history.latchedAt;
    }
  }

  lemma LatchedAtIs(states: seq<System>, steps: seq<Step>, i: nat, j: nat)
    requires IsRun(states, steps) && i < j <= |steps|
    requires AcceptsPost(states[i], steps[i])
    requires forall m :: i < m < j ==> !AcceptsPost(states[m], steps[m])
    ensures states[j].history.latchedAt == states[i].now
  {
    LatchedAtNext(states, steps, i);
    forall m | i + 1 <= m < j ensures states[m + 1].history.latchedAt == states[m].history.latchedAt {
      LatchedAtNext(states, steps, m);
    }
    LatchedAtStays(states, i + 1, j);
  }

  /** Silence frees a latch no sooner than 600 seconds after the request that took it. */
  lemma IdleExpiryWaits(states: seq<System>, steps: seq<Step>, i: nat, j: nat)
    requires IsRun(states, steps) && i < j < |steps|
    requires AcceptsPost(states[i], steps[i]) && ExpiresLatch(states[j], steps[j])
    requires forall m :: i < m < j ==> !AcceptsPost(states[m], steps[m])
    ensures states[j].now - states[i].now >= LATCH_IDLE_MS
  {
    LatchedAtIs(states, steps, i, j);
    ReachableInv(states, steps, j);
  }

  // ---- Run isolation

  /** The run `run` owns the latch of `kind` and is correlated. */
  predicate Holds(s: System, kind: Kind, run: Token) {
    kind in s.shared.syncing && kind in s.shared.runs && s.shared.runs[kind] == run
  }

  /** A terminal frame of exactly this run; for a full update, its aggregate with a final status. */
  predicate EndsRun(frame: Frame, kind: Kind, run: Token) {
    && frame.payload.Some?
    && frame.payload.value.end
    && frame.payload.value.run == RunId(run)
    && match kind
       case FullUpdate => frame.payload.value.subject == FullUpdateSubject && frame.payload.value.status != OtherStatus
       case Devices => frame.payload.value.subject == DeviceSubject
       case VirtualMachines => frame.payload.value.subject == VirtualMachineSubject
  }

  /** `command` was issued for `run` and has never been sent. */
  ghost predicate OwnUnsent(h: History, command: Command, run: Token) {
    && command.run == Some(run)
    && run in h.tickets && h.tickets[run] == command.ticket
    && forall i :: 0 <= i < |h.sends| ==> h.sends[i].command.ticket != command.ticket
  }

  /** The events that may free the latch of a correlated run. */
  ghost predicate MayRelease(s: System, step: Step, kind: Kind, run: Token)
    requires Enabled(s, step)
  {
    match step
    case Manage(m) => m.Drain? && OwnUnsent(s.history, s.shared.queue[0], run)
    case Post(_, p) => p.Queue? && s.now - s.shared.lastActivity >= LATCH_IDLE_MS
    case Dispatch(id, d) =>
      && d.Format?
      && s.sessions[id].pc.decided.worker != s.sessions[id].worker
      && OwnUnsent(s.history, s.sessions[id].pc.decided, run)
    case Respond(id, r) =>
      || r.LoseTrust?
      || (r.PublishFrame? && EndsRun(s.sessions[id].pc.frame, kind, run))
  }

  /** The events that may turn a correlated run into a legacy one, keeping its latch. */
  ghost predicate MayDowngrade(s: System, step: Step, run: Token)
    requires Enabled(s, step)
  {
    match step
    case Dispatch(id, d) => d.Format? && !s.sessions[id].pc.supports && s.sessions[id].pc.decided.run == Some(run)
    case Respond(id, r) => r.DowngradePending? && s.sessions[id].pc.marked.run == Some(run)
    case _ => false
  }

  /** Either the latch of the run is freed by a legitimate event, or the run is downgraded. */
  ghost predicate LosesLatch(s: System, step: Step, kind: Kind, run: Token)
    requires Enabled(s, step)
  {
    || MayRelease(s, step, kind, run)
    || (kind in Apply(s, step).shared.syncing && MayDowngrade(s, step, run))
  }

  lemma ManageIsolates(s: System, m: Management, kind: Kind, run: Token)
    requires QueueInv(s) && SendsInv(s.history) && CanManage(s, m)
    requires Holds(s, kind, run) && !Holds(DoManage(s, m), kind, run)
    ensures LosesLatch(s, Manage(m), kind, run)
  {
    if m.Drain? {
      var command := s.shared.queue[0];
      assert command == s.history.commands[s.history.departed];
      assert command.run == Some(run);
    }
  }

  lemma PostIsolates(s: System, request: nat, p: Posting, kind: Kind, run: Token)
    requires LatchInv(s) && CanPost(s, request, p) && Holds(s, kind, run) && !Holds(DoPost(s, request, p), kind, run)
    ensures LosesLatch(s, Post(request, p), kind, run)
  {
  }

  lemma DispatchIsolates(s: System, id: Token, d: Dispatching, kind: Kind, run: Token)
    requires QueueInv(s) && SessionsInv(s) && SendsInv(s.history) && id in s.sessions && CanDispatch(s, s.sessions[id], d)
    requires Holds(s, kind, run) && !Holds(DoDispatch(s, id, d), kind, run)
    ensures LosesLatch(s, Dispatch(id, d), kind, run)
  {
  }

  lemma PublishIsolates(sh: Shared, frame: Frame, endpoint: int, now: int, kind: Kind, run: Token)
    requires kind in sh.syncing && kind in sh.runs && sh.runs[kind] == run
    requires kind !in Publish(sh, frame, endpoint, now).syncing || kind !in Publish(sh, frame, endpoint, now).runs
    ensures EndsRun(frame, kind, run)
  {
  }

  lemma RespondIsolates(s: System, id: Token, r: Responding, kind: Kind, run: Token)
    requires id in s.sessions && CanRespond(s, s.sessions[id], r)
    requires Holds(s, kind, run) && !Holds(DoRespond(s, id, r), kind, run)
    ensures LosesLatch(s, Respond(id, r), kind, run)
  {
    if r.PublishFrame? {
      OnlyOldRuns(s.shared, Command(s.sessions[id].worker, kind, None, None, 0), s.sessions[id].pc.frame,
                  s.sessions[id].worker.endpoint, s.now);
      PublishIsolates(s.shared, s.sessions[id].pc.frame, s.sessions[id].worker.endpoint, s.now, kind, run);
    }
  }

  lemma StepIsolates(s: System, step: Step, kind: Kind, run: Token)
    requires Inv(s) && Enabled(s, step) && Holds(s, kind, run) && !Holds(Apply(s, step), kind, run)
    ensures LosesLatch(s, step, kind, run)
  {
    match step
    case Manage(m) => ManageIsolates(s, m, kind, run);
    case Post(request, p) => PostIsolates(s, request, p, kind, run);
    case Dispatch(id, d) => DispatchIsolates(s, id, d, kind, run);
    case Respond(id, r) => RespondIsolates(s, id, r, kind, run);
  }

  lemma LossIsLegitimate(states: seq<System>, steps: seq<Step>, m: nat, kind: Kind, run: Token)
    requires IsRun(states, steps) && m < |steps| && Holds(states[m], kind, run) && !Holds(states[m + 1], kind, run)
    ensures LosesLatch(states[m], steps[m], kind, run)
  {
    ReachableInv(states, steps, m);
    StepIsolates(states[m], steps[m], kind, run);
  }

  lemma {:induction false} LossHappens(states: seq<System>, i: nat, j: nat, kind: Kind, run: Token) returns (m: nat)
    requires i < j < |states| && Holds(states[i], kind, run) && !Holds(states[j], kind, run)
    ensures i <= m < j && Holds(states[m], kind, run) && !Holds(states[m + 1], kind, run)
  {
    if Holds(states[j - 1], kind, run) {
      m := j - 1;
    } else {
      m := LossHappens(states, i, j - 1, kind, run);
    }
  }

  /**
   Run isolation. Between a state where a correlated run owns its latch and a later state where it
   does not, some step took the latch away, and that step was a terminal frame with exactly its run
   id, a loss of trust, an idle expiry, the drop of its own unsent command, or its own downgrade.
   */
  lemma RunIsolation(states: seq<System>, steps: seq<Step>, i: nat, j: nat, kind: Kind, run: Token)
    returns (m: nat)
    requires IsRun(states, steps) && i < j < |states|
    requires Holds(states[i], kind, run) && !Holds(states[j], kind, run)
    ensures i <= m < j && Holds(states[m], kind, run) && !Holds(states[m + 1], kind, run)
    ensures LosesLatch(states[m], steps[m], kind, run)
  {
    m := LossHappens(states, i, j, kind, run);
    LossIsLegitimate(states, steps, m, kind, run);
  }

  // ---- What each release does

  /** A terminal frame that may end a legacy run: no run id, and the object of the kind (or of a VM stage). */
  predicate EndsLegacyRun(frame: Frame, kind: Kind) {
    && frame.payload.Some?
    && frame.payload.value.end
    && frame.payload.value.run == NoRunId
    && match kind
       case FullUpdate =>
         || frame.payload.value.subject == VirtualMachineSubject
         || (frame.payload.value.subject == FullUpdateSubject && frame.payload.value.status != OtherStatus)
       case Devices => frame.payload.value.subject == DeviceSubject
       case VirtualMachines => frame.payload.value.subject == VirtualMachineSubject
  }

  /** A published frame frees exactly the held latches whose run it ends, and records itself. */
  lemma PublishFreesExactly(sh: Shared, frame: Frame, endpoint: int, now: int, kind: Kind)
    requires kind in sh.syncing
    ensures
      var sh' := Publish(sh, frame, endpoint, now);
      && (kind !in sh'.syncing <==> if kind in sh.runs then EndsRun(frame, kind, sh.runs[kind]) else EndsLegacyRun(frame, kind))
      && (kind in sh'.syncing ==> RunOf(sh'.runs, kind) == RunOf(sh.runs, kind))
      && (kind !in sh'.syncing ==> kind !in sh'.runs)
      && sh'.log == sh.log + [Entry(|sh.log| + 1, endpoint, FromBackend(frame))]
  {
    if kind !in sh.runs && EndsLegacyRun(frame, kind) {
      assert kind in CandidateKinds(frame.payload.value);
      assert !ProtocolMalformed(frame.payload);
    }
    if kind in sh.runs && EndsRun(frame, kind, sh.runs[kind]) {
      assert kind in CandidateKinds(frame.payload.value);
      assert !ProtocolMalformed(frame.payload);
    }
  }

  /** The idle timer of a correlated run is refreshed by well-formed frames of that run and by nothing else. */
  lemma OnlyOwnFramesKeepAlive(s: System, frame: Frame, endpoint: int, kind: Kind, run: Token)
    requires LatchInv(s) && Holds(s, kind, run) && s.shared.lastActivity < s.now
    ensures
      var sh' := Publish(s.shared, frame, endpoint, s.now);
      sh'.lastActivity == s.now <==> PayloadRun(frame.payload) == RunId(run) && !ProtocolMalformed(frame.payload)
  {
  }

  /** Losing trust frees the held latch and reports it, with its run id, in one visible message. */
  lemma TrustLossFreesLatch(s: System, endpoint: int, kind: Kind)
    requires LatchInv(s) && kind in s.shared.syncing
    ensures
      var sh' := FailSyncs(s.shared, endpoint, s.now);
      && sh'.syncing == {} && sh'.runs == map[]
      && sh'.log == s.shared.log + [Entry(|s.shared.log| + 1, endpoint, TrustFailure(kind, RunOf(s.shared.runs, kind)))]
  {
    assert s.shared.syncing == {kind};
    assert s.shared.runs - {kind} == map[];
  }

  /** A request is accepted exactly when its context is current and no latch is held or the held one is idle. */
  lemma AcceptedExactly(s: System, request: nat, token: Token)
    requires LatchInv(s) && request in s.requests && s.requests[request].Ready?
    ensures
      var Ready(kind, context) := s.requests[request];
      var reply, s' := QueueAnswer(s, request, token), DoQueue(s, request, token);
      && (reply.Accepted? <==>
            && s.shared.worker == Some(context.worker)
            && (context.connection.Some? ==> s.shared.connection == context.connection)
            && (s.shared.syncing == {} || s.now - s.shared.lastActivity >= LATCH_IDLE_MS))
      && (reply.Accepted? ==>
            && s'.shared.syncing == {kind}
            && RunOf(s'.shared.runs, kind) == reply.run
            && (reply.run.Some? <==> context.useRunId && |s.shared.queue| < QUEUE_CAPACITY)
            && s'.shared.lastActivity == s.now
            && reply.cursor == |s.shared.log|)
      && (!reply.Accepted? ==> s'.shared.queue == s.shared.queue && s'.shared.syncing == s.shared.syncing)
  {
  }

  // ---- Discarding the queue

  /** The drain steps of the protocol, taken one after another until the lock is free again. */
  function Drained(s: System): System
    requires s.lock.Draining?
    decreases |s.shared.queue|
  {
    if CanManage(s, Drain) then Drained(DoManage(s, Drain)) else DoManage(s, Unlock)
  }

  /** Without interference, the drain steps do what the loop of `_discard_pending_commands_locked` does. */
  lemma {:induction false} DrainedIsDrainAll(s: System)
    requires s.lock.Draining?
    ensures Drained(s).shared == DrainAll(s.shared).(worker := s.lock.next) && Drained(s).lock == Free
    decreases |s.shared.queue|
  {
    if s.shared.queue != [] {
      DrainedIsDrainAll(DoManage(s, Drain));
    }
  }
}
