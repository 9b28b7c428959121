/** What every run guarantees about transmitted commands, negotiated capabilities and cursors. */
module RelayDelivery {
  import opened Basics
  import opened RelayState
  import opened RelayProtocol
  import opened RelayInvariant
  import opened RelayTheorems

  // ---- What never goes back

  /** Facts that, once true of the history, stay true. */
  ghost predicate Later(s: System, s': System) {
    && s.history.rejected <= s'.history.rejected
    && s.history.openedIds <= s'.history.openedIds
    && (forall id :: id in s.history.openedIds && id !in s.sessions ==> id !in s'.sessions)
    && s.history.commands <= s'.history.commands
    && s.history.departed <= s'.history.departed
    && s.shared.log <= s'.shared.log
  }

  lemma LaterManage(s: System, m: Management)
    requires CanManage(s, m)
    ensures Later(s, DoManage(s, m))
  {
  }

  lemma LaterPost(s: System, request: nat, p: Posting)
    requires CanPost(s, request, p)
    ensures Later(s, DoPost(s, request, p))
  {
  }

  lemma LaterDispatch(s: System, id: Token, d: Dispatching)
    requires id in s.sessions && CanDispatch(s, s.sessions[id], d)
    ensures Later(s, DoDispatch(s, id, d))
  {
  }

  lemma LaterRespond(s: System, id: Token, r: Responding)
    requires LogInv(s.shared) && id in s.sessions && CanRespond(s, s.sessions[id], r)
    ensures Later(s, DoRespond(s, id, r))
  {
    LogRespond(s, id, r);
  }

  lemma LaterStep(s: System, step: Step)
    requires LogInv(s.shared) && Enabled(s, step)
    ensures Later(s, Apply(s, step))
  {
    match step
    case Manage(m) => LaterManage(s, m);
    case Post(request, p) => LaterPost(s, request, p);
    case Dispatch(id, d) => LaterDispatch(s, id, d);
    case Respond(id, r) => LaterRespond(s, id, r);
  }

  lemma LaterStill(s: System, s': System, s'': System)
    requires Later(s, s') && Later(s', s'')
    ensures Later(s, s'')
  {
  }

  lemma ReachableLog(states: seq<System>, steps: seq<Step>, i: nat)
    requires IsRun(states, steps) && i < |states|
    ensures LogInv(states[i].shared)
  {
    ReachableInv(states, steps, i);
  }

  lemma LaterNext(states: seq<System>, steps: seq<Step>, i: nat)
    requires IsRun(states, steps) && i < |steps|
    ensures Later(states[i], states[i + 1])
  {
    ReachableLog(states, steps, i);
    LaterStep(states[i], steps[i]);
  }

  lemma {:induction false} LaterChain(states: seq<System>, i: nat, j: nat)
    requires i <= j < |states| && forall k :: i <= k < j ==> Later(states[k], states[k + 1])
    ensures Later(states[i], states[j])
  {
    if i < j {
      LaterChain(states, i, j - 1);
      assert Later(states[j - 1], states[j - 1 + 1]);
      LaterStill(states[i], states[j - 1], states[j]);
    }
  }

  lemma LaterRun(states: seq<System>, steps: seq<Step>, i: nat, j: nat)
    requires IsRun(states, steps) && i <= j < |states|
    ensures Later(states[i], states[j])
  {
    forall k | i <= k < j ensures Later(states[k], states[k + 1]) {
      LaterNext(states, steps, k);
    }
    LaterChain(states, i, j);
  }

  // ---- Capability

  /** The step ends a capability call for `key` with the answer true. */
  predicate AnswersTrue(s: System, step: Step, key: Connection)
    requires Enabled(s, step)
  {
    match step
    case Post(q, LookUp(at)) => s.requests[q].key == key && CapabilityCached(s.shared, key, false, at) == Some(true)
    case Post(q, Probe(supported)) => s.requests[q].key == key && ProbeAccepted(s.shared, key) && supported
    case Dispatch(id, SessionLookUp(at)) =>
      Key(s.sessions[id], id) == key && CapabilityCached(s.shared, key, true, at) == Some(true)
    case Dispatch(id, SessionProbe(supported)) =>
      Key(s.sessions[id], id) == key && ProbeAccepted(s.shared, key) && supported
    case _ => false
  }

  /** A true answer is about a connection that is current and unrejected when it is given. */
  lemma TrueAnswerIsCurrent(states: seq<System>, steps: seq<Step>, j: nat, key: Connection)
    requires IsRun(states, steps) && j < |steps| && AnswersTrue(states[j], steps[j], key)
    ensures states[j].shared.connection == Some(key) && key !in states[j].history.rejected
  {
    ReachableInv(states, steps, j);
  }

  /**
   Once an envelope was rejected on a connection, no later call answers true for it, not even a probe
   that was already in flight, and no later cache entry says true for it.
   */
  lemma RejectionIsPermanent(states: seq<System>, steps: seq<Step>, i: nat, j: nat, key: Connection)
    requires IsRun(states, steps) && i <= j < |states| && key in states[i].history.rejected
    ensures j < |steps| ==> !AnswersTrue(states[j], steps[j], key)
    ensures key in states[j].shared.cache ==> states[j].shared.cache[key] == Rejected
  {
    LaterRun(states, steps, i, j);
    ReachableInv(states, steps, j);
    if j < |steps| && AnswersTrue(states[j], steps[j], key) {
      TrueAnswerIsCurrent(states, steps, j, key);
    }
  }

  /** No envelope is sent on a connection that has rejected one. */
  lemma NoEnvelopeAfterRejection(states: seq<System>, steps: seq<Step>, i: nat, j: nat, id: Token)
    requires IsRun(states, steps) && i <= j < |steps|
    requires steps[j] == Dispatch(id, Send) && states[j].sessions[id].pc.form == Envelope
    ensures Key(states[j].sessions[id], id) !in states[i].history.rejected
  {
    LaterRun(states, steps, i, j);
    ReachableInv(states, steps, j);
  }

  // ---- Transmission

  /** The command that a step takes out of the queue. */
  function Departing(s: System, step: Step): Option<Command>
    requires Enabled(s, step)
  {
    match step
    case Manage(Drain) => Some(s.shared.queue[0])
    case Dispatch(_, Take) => if s.shared.queue == [] then None else Some(s.shared.queue[0])
    case _ => None
  }

  lemma DepartedStep(s: System, step: Step)
    requires Enabled(s, step)
    ensures Apply(s, step).history.departed == s.history.departed + (if Departing(s, step).Some? then 1 else 0)
  {
  }

  /** Commands leave the queue in the order in which they were issued, and none is skipped. */
  lemma DepartInOrder(states: seq<System>, steps: seq<Step>, i: nat)
    requires IsRun(states, steps) && i < |steps|
    ensures
      var h, h' := states[i].history, states[i + 1].history;
      match Departing(states[i], steps[i])
      case Some(command) =>
        h.departed < |h.commands| && command == h.commands[h.departed] && h'.departed == h.departed + 1
      case None => h'.departed == h.departed
  {
    DepartedStep(states[i], steps[i]);
    ReachableInv(states, steps, i);
  }

  /** A command that leaves later was issued later. */
  lemma FirstInFirstOut(states: seq<System>, steps: seq<Step>, i: nat, j: nat)
    requires IsRun(states, steps) && i < j < |steps|
    requires Departing(states[i], steps[i]).Some? && Departing(states[j], steps[j]).Some?
    ensures Departing(states[i], steps[i]).value.ticket < Departing(states[j], steps[j]).value.ticket
  {
    DepartInOrder(states, steps, i);
    DepartInOrder(states, steps, j);
    LaterRun(states, steps, i + 1, j);
    ReachableInv(states, steps, i);
    ReachableInv(states, steps, j);
  }

  /**
   Every command is sent only by a session of the endpoint and identity that authorised it, at most
   once as an envelope and at most once in plain form, the envelope first and both on one connection.
   */
  lemma SentAtMostOnce(states: seq<System>, steps: seq<Step>, n: nat, i: nat, j: nat)
    requires IsRun(states, steps) && n < |states| && i <= j < |states[n].history.sends|
    requires
      var sends := states[n].history.sends;
      sends[i].command.ticket == sends[j].command.ticket
    ensures
      var sends := states[n].history.sends;
      && sends[i].command == sends[j].command
      && sends[i].connection.worker == sends[i].command.worker
      && (i < j ==> sends[i].form == Envelope && sends[j].form == Plain && sends[i].connection == sends[j].connection)
  {
    ReachableInv(states, steps, n);
    var h := states[n].history;
    assert SendInv(h, h.sends[i]) && SendInv(h, h.sends[j]);
    if i < j {
      assert Resent(h, h.sends[i], h.sends[j]);
    }
  }

  predicate DowngradesOwner(s: System, step: Step, command: Command)
    requires Enabled(s, step)
  {
    step.Respond? && step.r.DowngradePending? && s.sessions[step.id].pc.marked == command && OwnsLatch(s.shared, command)
  }

  lemma DowngradedStep(s: System, step: Step, ticket: nat)
    requires Enabled(s, step) && ticket in Apply(s, step).history.downgraded && ticket !in s.history.downgraded
    ensures step.Respond? && step.r.DowngradePending? && OwnsLatch(s.shared, s.sessions[step.id].pc.marked)
    ensures s.sessions[step.id].pc.marked.ticket == ticket
  {
  }

  lemma {:induction false} DowngradeHappened(states: seq<System>, steps: seq<Step>, n: nat, ticket: nat) returns (m: nat)
    requires IsRun(states, steps) && n < |states| && ticket in states[n].history.downgraded
    ensures m < n && steps[m].Respond? && steps[m].r.DowngradePending?
    ensures
      var marked := states[m].sessions[steps[m].id].pc.marked;
      marked.ticket == ticket && OwnsLatch(states[m].shared, marked)
  {
    if n > 0 && ticket !in states[n - 1].history.downgraded {
      m := n - 1;
      DowngradedStep(states[m], steps[m], ticket);
    } else {
      m := DowngradeHappened(states, steps, n - 1, ticket);
    }
  }

  /** A command is sent again in plain form only if its run owned the latch when it was downgraded. */
  lemma ResentOnlyByOwner(states: seq<System>, steps: seq<Step>, n: nat, i: nat, j: nat) returns (m: nat)
    requires IsRun(states, steps) && n < |states| && i < j < |states[n].history.sends|
    requires states[n].history.sends[i].command.ticket == states[n].history.sends[j].command.ticket
    ensures m < n && DowngradesOwner(states[m], steps[m], states[n].history.sends[j].command)
  {
    ReachableInv(states, steps, n);
    var h := states[n].history;
    assert SendInv(h, h.sends[j]) && Resent(h, h.sends[i], h.sends[j]);
    m := DowngradeHappened(states, steps, n, h.sends[j].command.ticket);
    ReachableInv(states, steps, m);
    LaterRun(states, steps, m, n);
    assert SessionInv(states[m].history, steps[m].id, states[m].sessions[steps[m].id]);
  }

  // ---- A pending envelope blocks the queue

  /**
   While a session waits for an envelope whose run owns the latch, the queue is empty: no command can
   leave it, whichever session or control thread looks.
   */
  lemma ActiveEnvelopeEmptiesQueue(states: seq<System>, steps: seq<Step>, i: nat, id: Token, command: Command)
    requires IsRun(states, steps) && i < |states|
    requires id in states[i].sessions && states[i].sessions[id].pending == Some(command) && OwnsLatch(states[i].shared, command)
    ensures states[i].shared.queue == []
    ensures i < |steps| ==> Departing(states[i], steps[i]).None?
  {
    ReachableInv(states, steps, i);
    var s := states[i];
    assert SessionInv(s.history, id, s.sessions[id]);
    assert Known(s.history, command);
    assert s.history.tickets[command.run.value] == command.ticket;
  }

  /** The session learns that it need not wait for `command` any more. */
  predicate StopsWaiting(s: System, step: Step, id: Token, command: Command)
    requires Enabled(s, step)
  {
    match step
    case Dispatch(other, Loop) => other == id && !OwnsLatch(s.shared, command)
    case Respond(other, Receive(frame)) =>
      && other == id
      && (|| !OwnsLatch(s.shared, command)
          || RejectsEnvelope(frame, command)
          || (command.run.Some? && PayloadRun(frame.payload) == RunId(command.run.value)))
    case _ => false
  }

  /** The session waits for `command`, or will take no further command at all. */
  predicate Waits(s: System, id: Token, command: Command) {
    id !in s.sessions || s.sessions[id].pending == Some(command) || s.sessions[id].pc.Closing?
  }

  lemma WaitsDispatch(s: System, id: Token, d: Dispatching, command: Command)
    requires id in s.sessions && SessionInv(s.history, id, s.sessions[id]) && CanDispatch(s, s.sessions[id], d)
    requires Waits(s, id, command)
    ensures Waits(DoDispatch(s, id, d), id, command) || StopsWaiting(s, Dispatch(id, d), id, command)
  {
  }

  lemma WaitsRespond(s: System, id: Token, r: Responding, command: Command)
    requires id in s.sessions && SessionInv(s.history, id, s.sessions[id]) && CanRespond(s, s.sessions[id], r)
    requires Waits(s, id, command)
    ensures Waits(DoRespond(s, id, r), id, command) || StopsWaiting(s, Respond(id, r), id, command)
  {
  }

  /** Steps of anybody else leave the session alone. */
  lemma WaitsOthers(s: System, step: Step, id: Token, command: Command)
    requires Enabled(s, step) && id in s.history.openedIds && Waits(s, id, command)
    requires (step.Dispatch? || step.Respond?) ==> step.id != id
    ensures Waits(Apply(s, step), id, command)
  {
  }

  lemma WaitsStep(s: System, step: Step, id: Token, command: Command)
    requires Inv(s) && Enabled(s, step) && id in s.history.openedIds && Waits(s, id, command)
    ensures Waits(Apply(s, step), id, command) || StopsWaiting(s, step, id, command)
  {
    if step.Dispatch? && step.id == id {
      WaitsDispatch(s, id, step.d, command);
    } else if step.Respond? && step.id == id {
      WaitsRespond(s, id, step.r, command);
    } else {
      WaitsOthers(s, step, id, command);
    }
  }

  /**
   A session whose envelope is pending takes another command only after a step at which the run of
   the envelope no longer owned the latch, or a frame with its run id or its rejection arrived.
   */
  lemma {:induction false} PendingEnvelopeBlocksQueue(
    states: seq<System>, steps: seq<Step>, i: nat, j: nat, id: Token, command: Command) returns (m: nat)
    requires IsRun(states, steps) && i <= j < |steps|
    requires id in states[i].sessions && states[i].sessions[id].pending == Some(command)
    requires steps[j] == Dispatch(id, Take)
    ensures i <= m < j && StopsWaiting(states[m], steps[m], id, command)
  {
    if forall n :: i <= n < j ==> !StopsWaiting(states[n], steps[n], id, command) {
      WaitsThrough(states, steps, i, j, id, command);
      ReachableInv(states, steps, j);
      assert false;
    } else {
      m :| i <= m < j && StopsWaiting(states[m], steps[m], id, command);
    }
  }

  lemma WaitsNext(states: seq<System>, steps: seq<Step>, i: nat, id: Token, command: Command)
    requires IsRun(states, steps) && i < |steps| && id in states[i].history.openedIds
    requires Waits(states[i], id, command) && !StopsWaiting(states[i], steps[i], id, command)
    ensures Waits(states[i + 1], id, command)
  {
    ReachableInv(states, steps, i);
    WaitsStep(states[i], steps[i], id, command);
  }

  lemma OpenedStays(states: seq<System>, steps: seq<Step>, i: nat, j: nat, id: Token)
    requires IsRun(states, steps) && i <= j < |states| && id in states[i].sessions
    ensures id in states[j].history.openedIds
  {
    ReachableInv(states, steps, i);
    LaterRun(states, steps, i, j);
  }

  lemma {:induction false} WaitsThrough(states: seq<System>, steps: seq<Step>, i: nat, j: nat, id: Token, command: Command)
    requires IsRun(states, steps) && i <= j < |states|
    requires id in states[i].sessions && states[i].sessions[id].pending == Some(command)
    requires forall n :: i <= n < j ==> !StopsWaiting(states[n], steps[n], id, command)
    ensures Waits(states[j], id, command)
  {
    if i < j {
      WaitsThrough(states, steps, i, j - 1, id, command);
      OpenedStays(states, steps, i, j - 1, id);
      WaitsNext(states, steps, j - 1, id, command);
    }
  }

  // ---- Cursors

  /** A step that publishes a frame which frees a latch. */
  predicate ReleasesByMessage(s: System, step: Step) {
    && step.Respond? && Enabled(s, step) && (step.r.PublishFrame? || step.r.LoseTrust?)
    && Apply(s, step).shared.syncing != s.shared.syncing
  }

  lemma ReleaseAppends(s: System, step: Step)
    requires Inv(s) && ReleasesByMessage(s, step)
    ensures |s.shared.log| < |Apply(s, step).shared.log|
  {
  }

  /** The cursor that an accepted request is given. */
  function CursorOf(s: System, step: Step): nat
    requires AcceptsPost(s, step)
  {
    QueueAnswer(s, step.request, step.p.token).cursor
  }

  /** Everything published before an accepted request has a sequence at or below its cursor. */
  lemma CursorCoversPast(states: seq<System>, steps: seq<Step>, p: nat)
    requires IsRun(states, steps) && p < |steps| && AcceptsPost(states[p], steps[p])
    ensures
      var log, cursor := states[p].shared.log, CursorOf(states[p], steps[p]);
      cursor == |log| && forall k :: 0 <= k < |log| ==> log[k].sequence <= cursor
  {
    ReachableInv(states, steps, p);
  }

  /** Nothing published before it changes, and everything published after it has a sequence above its cursor. */
  lemma CursorPrecedesFuture(states: seq<System>, steps: seq<Step>, p: nat, j: nat)
    requires IsRun(states, steps) && p < |steps| && p < j < |states| && AcceptsPost(states[p], steps[p])
    ensures
      var after, cursor := states[j].shared.log, CursorOf(states[p], steps[p]);
      && cursor <= |after| && after[..cursor] == states[p].shared.log
      && forall k :: cursor <= k < |after| ==> after[k].sequence > cursor
  {
    CursorCoversPast(states, steps, p);
    LaterRun(states, steps, p, j);
    ReachableInv(states, steps, j);
  }

  /** The message that freed an earlier latch is at or below the cursor of every request accepted later. */
  lemma EarlierReleaseIsPast(states: seq<System>, steps: seq<Step>, i: nat, p: nat)
    requires IsRun(states, steps) && i < p < |steps|
    requires ReleasesByMessage(states[i], steps[i]) && AcceptsPost(states[p], steps[p])
    ensures
      var before := states[i + 1].shared.log;
      && before != [] && before <= states[p].shared.log
      && before[|before| - 1].sequence <= CursorOf(states[p], steps[p])
  {
    ReachableInv(states, steps, i);
    ReleaseAppends(states[i], steps[i]);
    LaterRun(states, steps, i + 1, p);
    CursorCoversPast(states, steps, p);
  }

  /** The message that frees a latch after an accepted request is above the cursor of that request. */
  lemma LaterReleaseIsFuture(states: seq<System>, steps: seq<Step>, p: nat, j: nat)
    requires IsRun(states, steps) && p < j < |steps|
    requires AcceptsPost(states[p], steps[p]) && ReleasesByMessage(states[j], steps[j])
    ensures
      var after := states[j + 1].shared.log;
      after != [] && after[|after| - 1].sequence > CursorOf(states[p], steps[p])
  {
    ReachableInv(states, steps, j);
    ReleaseAppends(states[j], steps[j]);
    CursorPrecedesFuture(states, steps, p, j);
    CursorPrecedesFuture(states, steps, p, j + 1);
  }
}
