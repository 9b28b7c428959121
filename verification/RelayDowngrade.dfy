/** A command with a run id goes out in plain form only after its run has given up its correlation, visibly. */
module RelayDowngrade {
  import opened Basics
  import opened RelayState
  import opened RelayProtocol
  import opened RelayInvariant
  import opened RelayTheorems
  import opened RelayDelivery

  /** The session is about to send this command, which has a run id, in plain form. */
  predicate GoesPlain(session: Session, command: Command) {
    && command.run.Some?
    && (session.pc == Sending(command, Plain) || session.pc == Resending(command))
  }

  ghost predicate PlainAt(s: System, id: Token, command: Command) {
    id in s.sessions && GoesPlain(s.sessions[id], command)
  }

  /** The step is the decision of session `id` to send `command` in plain form. */
  predicate DecidesPlain(s: System, step: Step, id: Token, command: Command)
    requires Enabled(s, step)
  {
    match step
    case Dispatch(other, Format) =>
      other == id && s.sessions[id].pc.decided == command && !s.sessions[id].pc.supports && command.worker == s.sessions[id].worker
    case Respond(other, DowngradePending) => other == id && s.sessions[id].pc.marked == command && OwnsLatch(s.shared, command)
    case _ => false
  }

  // ---- How a session gets there

  lemma PlainManage(s: System, m: Management, id: Token, command: Command)
    requires CanManage(s, m) && PlainAt(DoManage(s, m), id, command)
    ensures PlainAt(s, id, command)
  {
  }

  lemma PlainPost(s: System, request: nat, p: Posting, id: Token, command: Command)
    requires CanPost(s, request, p) && PlainAt(DoPost(s, request, p), id, command)
    ensures PlainAt(s, id, command)
  {
  }

  lemma PlainDispatch(s: System, other: Token, d: Dispatching, id: Token, command: Command)
    requires other in s.sessions && CanDispatch(s, s.sessions[other], d) && PlainAt(DoDispatch(s, other, d), id, command)
    ensures PlainAt(s, id, command) || DecidesPlain(s, Dispatch(other, d), id, command)
  {
  }

  lemma PlainRespond(s: System, other: Token, r: Responding, id: Token, command: Command)
    requires other in s.sessions && CanRespond(s, s.sessions[other], r) && PlainAt(DoRespond(s, other, r), id, command)
    ensures PlainAt(s, id, command) || DecidesPlain(s, Respond(other, r), id, command)
  {
  }

  lemma PlainStep(s: System, step: Step, id: Token, command: Command)
    requires Enabled(s, step) && PlainAt(Apply(s, step), id, command)
    ensures PlainAt(s, id, command) || DecidesPlain(s, step, id, command)
  {
    match step
    case Manage(m) => PlainManage(s, m, id, command);
    case Post(request, p) => PlainPost(s, request, p, id, command);
    case Dispatch(other, d) => PlainDispatch(s, other, d, id, command);
    case Respond(other, r) => PlainRespond(s, other, r, id, command);
  }

  // ---- What the decision does

  /**
   The decision takes the latch's run id away if the run still owned it, keeps the latch, and says so in a
   message that names the run; otherwise it changes nothing.
   */
  ghost predicate GivesUp(sh: Shared, sh': Shared, command: Command, endpoint: int) {
    && !OwnsLatch(sh', command)
    && sh'.syncing == sh.syncing
    && if OwnsLatch(sh, command)
       then command.run.Some? && sh'.log == sh.log + [Entry(|sh.log| + 1, endpoint, Downgraded(command.run.value))]
       else sh' == sh
  }

  lemma DowngradeGivesUp(sh: Shared, command: Command, endpoint: int, now: int)
    ensures GivesUp(sh, Downgrade(sh, command, endpoint, now), command, endpoint)
  {
  }

  lemma DecisionGivesUp(s: System, step: Step, id: Token, command: Command)
    requires Enabled(s, step) && DecidesPlain(s, step, id, command) && command.run.Some?
    ensures GivesUp(s.shared, Apply(s, step).shared, command, s.sessions[id].worker.endpoint)
  {
    DowngradeGivesUp(s.shared, command, s.sessions[id].worker.endpoint, s.now);
  }

  // ---- Ownership never comes back

  /** No run id is recorded by a step, except a fresh one by a request. */
  lemma NoIssuedRun(s: System, step: Step, command: Command)
    requires QueueInv(s) && Enabled(s, step) && command.run.Some? && command.run.value in s.history.tickets
    requires RunOf(Apply(s, step).shared.runs, command.kind) == command.run
    ensures RunOf(s.shared.runs, command.kind) == command.run
  {
    match step
    case Manage(m) => ManageRuns(s, m);
    case Post(request, p) =>
      if p.Queue? {
        QueueEffect(s, request, p.token);
      }
    case Dispatch(id, d) => DispatchRuns(s, id, d);
    case Respond(id, r) => RespondRuns(s, id, r);
  }

  /** An issued run does not get a latch it does not own. */
  lemma NoComeback(s: System, step: Step, command: Command)
    requires LatchInv(s) && QueueInv(s) && Enabled(s, step) && !OwnsLatch(s.shared, command)
    requires command.run.Some? && command.run.value in s.history.tickets
    ensures !OwnsLatch(Apply(s, step).shared, command)
  {
    if OwnsLatch(Apply(s, step).shared, command) {
      NoIssuedRun(s, step, command);
    }
  }

  /** A command a session is about to send was issued under its run id. */
  lemma PlainIsIssued(s: System, id: Token, command: Command)
    requires QueueInv(s) && SessionsInv(s) && PlainAt(s, id, command)
    ensures command.run.value in s.history.tickets
  {
    assert SessionInv(s.history, id, s.sessions[id]);
  }

  // ---- Over runs

  /** A session about to send a command with a run id in plain form decided so before, and the run has not owned the latch since. */
  lemma {:induction false} PlainWasDecided(states: seq<System>, steps: seq<Step>, j: nat, id: Token, command: Command) returns (m: nat)
    requires IsRun(states, steps) && j < |states| && PlainAt(states[j], id, command)
    ensures m < j && DecidesPlain(states[m], steps[m], id, command)
    ensures GivesUp(states[m].shared, states[m + 1].shared, command, states[m].sessions[id].worker.endpoint)
    ensures !OwnsLatch(states[j].shared, command)
  {
    assert j > 0;
    PlainStep(states[j - 1], steps[j - 1], id, command);
    ReachableInv(states, steps, j - 1);
    if PlainAt(states[j - 1], id, command) {
      m := PlainWasDecided(states, steps, j - 1, id, command);
      PlainIsIssued(states[j - 1], id, command);
      NoComeback(states[j - 1], steps[j - 1], command);
    } else {
      m := j - 1;
      DecisionGivesUp(states[m], steps[m], id, command);
    }
  }

  /** The step sends a command in plain form. */
  predicate SendsPlain(s: System, step: Step, command: Command)
    requires Enabled(s, step)
  {
    match step
    case Dispatch(id, Send) => s.sessions[id].pc == Sending(command, Plain)
    case Respond(id, Resend) => s.sessions[id].pc == Resending(command)
    case _ => false
  }

  /**
   In every run, when a command with a run id is sent in plain form its run does not own the latch, so that
   frames without a run id can end it; and if the run owned the latch when the session decided to send it so, the
   log has a message that names the run since that decision.
   */
  lemma PlainSendIsAnnounced(states: seq<System>, steps: seq<Step>, j: nat, command: Command) returns (m: nat)
    requires IsRun(states, steps) && j < |steps| && command.run.Some? && SendsPlain(states[j], steps[j], command)
    ensures m < j && DecidesPlain(states[m], steps[m], steps[j].id, command)
    ensures !OwnsLatch(states[j].shared, command)
    ensures
      var at := |states[m].shared.log|;
      OwnsLatch(states[m].shared, command) ==>
        at < |states[j].shared.log| && states[j].shared.log[at].message == Downgraded(command.run.value)
  {
    m := PlainWasDecided(states, steps, j, steps[j].id, command);
    LaterRun(states, steps, m + 1, j);
  }
}
