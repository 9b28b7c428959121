/** How far the queue and the capability cache can grow or age, and what discarding commands frees. */
module RelayBounds {
  import opened Basics
  import opened RelayState
  import opened RelayProtocol
  import opened RelayInvariant
  import opened RelayTheorems
  import RelayObject

  // ---- Bounds

  /** The queue is never over its capacity, and no cached decision outlives its time to live. */
  ghost predicate Bounded(sh: Shared, now: int) {
    && |sh.queue| <= QUEUE_CAPACITY
    && forall key :: key in sh.cache && sh.cache[key].Decision? ==> sh.cache[key].expires <= now + CAPABILITY_TTL_MS
  }

  /** A section that adds nothing to the queue or the cache. */
  ghost predicate AddsNothing(sh: Shared, sh': Shared) {
    && |sh'.queue| <= |sh.queue|
    && forall key :: key in sh'.cache && sh'.cache[key].Decision? ==> key in sh.cache && sh'.cache[key] == sh.cache[key]
  }

  lemma AddsNothingBounded(sh: Shared, sh': Shared, now: int, now': int)
    requires Bounded(sh, now) && AddsNothing(sh, sh') && now <= now'
    ensures Bounded(sh', now')
  {
  }

  lemma ProbeBounded(sh: Shared, key: Connection, startedAt: int, supported: bool, now: int)
    requires Bounded(sh, now)
    ensures Bounded(CapabilityProbed(sh, key, startedAt, supported, now), now)
  {
  }

  lemma BoundedManage(s: System, m: Management)
    requires Bounded(s.shared, s.now) && CanManage(s, m)
    ensures Bounded(DoManage(s, m).shared, DoManage(s, m).now)
  {
    AddsNothingBounded(s.shared, DoManage(s, m).shared, s.now, DoManage(s, m).now);
  }

  lemma BoundedPost(s: System, request: nat, p: Posting)
    requires Bounded(s.shared, s.now) && CanPost(s, request, p)
    ensures Bounded(DoPost(s, request, p).shared, DoPost(s, request, p).now)
  {
    match p
    case Probe(supported) =>
      var ProbingRequest(_, key, startedAt) := s.requests[request];
      ProbeBounded(s.shared, key, startedAt, supported, s.now);
    case Queue(token) => QueueEffect(s, request, token);
    case _ =>
  }

  lemma BoundedDispatch(s: System, id: Token, d: Dispatching)
    requires Bounded(s.shared, s.now) && id in s.sessions && CanDispatch(s, s.sessions[id], d)
    ensures Bounded(DoDispatch(s, id, d).shared, DoDispatch(s, id, d).now)
  {
    if d.SessionProbe? {
      ProbeBounded(s.shared, Key(s.sessions[id], id), s.sessions[id].pc.startedAt, d.supported, s.now);
    } else {
      AddsNothingBounded(s.shared, DoDispatch(s, id, d).shared, s.now, s.now);
    }
  }

  lemma BoundedRespond(s: System, id: Token, r: Responding)
    requires Bounded(s.shared, s.now) && id in s.sessions && CanRespond(s, s.sessions[id], r)
    ensures Bounded(DoRespond(s, id, r).shared, DoRespond(s, id, r).now)
  {
    AddsNothingBounded(s.shared, DoRespond(s, id, r).shared, s.now, s.now);
  }

  lemma BoundedStep(s: System, step: Step)
    requires Bounded(s.shared, s.now) && Enabled(s, step)
    ensures Bounded(Apply(s, step).shared, Apply(s, step).now)
  {
    match step
    case Manage(m) => BoundedManage(s, m);
    case Post(request, p) => BoundedPost(s, request, p);
    case Dispatch(id, d) => BoundedDispatch(s, id, d);
    case Respond(id, r) => BoundedRespond(s, id, r);
  }

  /**
   In every reachable state the queue holds at most 1000 commands, and a cached decision, which may be
   used without asking the backend, expires within 30 seconds.
   */
  lemma {:induction false} QueueAndCacheAreBounded(states: seq<System>, steps: seq<Step>, i: nat)
    requires IsRun(states, steps) && i < |states|
    ensures Bounded(states[i].shared, states[i].now)
  {
    if i == 0 {
      var now: int, lastActivity: int :| lastActivity <= now && states[0] == Initial(now, lastActivity);
    } else {
      QueueAndCacheAreBounded(states, steps, i - 1);
      BoundedStep(states[i - 1], steps[i - 1]);
    }
  }

  // ---- What dropping commands frees

  /**
   Dropping an issued command frees the latch of a correlated run if and only if it is the command that
   was issued last, which is the one issued for that run.
   */
  lemma DropFreesOnlyNewest(states: seq<System>, steps: seq<Step>, i: nat, kind: Kind, command: Command)
    requires IsRun(states, steps) && i < |states| && kind in states[i].shared.runs
    requires command.ticket < |states[i].history.commands| && states[i].history.commands[command.ticket] == command
    ensures kind !in Release(states[i].shared, command).syncing <==> command.ticket == |states[i].history.commands| - 1
  {
    ReachableInv(states, steps, i);
    NewestOwns(states[i], kind, command);
  }

  lemma NewestOwns(s: System, kind: Kind, command: Command)
    requires LatchInv(s) && RunInv(s) && kind in s.shared.runs
    requires command.ticket < |s.history.commands| && s.history.commands[command.ticket] == command
    ensures kind !in Release(s.shared, command).syncing <==> command.ticket == |s.history.commands| - 1
    ensures command.ticket == |s.history.commands| - 1 ==> command.kind == kind && command.run == Some(s.shared.runs[kind])
  {
    var h, run := s.history, s.shared.runs[kind];
    assert h.commands[h.tickets[run]].run == Some(run);
  }

  /** Draining a queue whose last command owns the latch frees it. */
  lemma {:induction false} DrainFreesOwner(sh: Shared, kind: Kind)
    requires kind in sh.runs && sh.queue != []
    requires var last := sh.queue[|sh.queue| - 1]; last.kind == kind && last.run == Some(sh.runs[kind])
    ensures kind !in DrainAll(sh).syncing
    decreases |sh.queue|
  {
    var next := DrainOne(sh);
    RelayObject.DrainAllEmpties(next);
    if kind in next.syncing && next.queue != [] {
      assert next.queue[|next.queue| - 1] == sh.queue[|sh.queue| - 1];
      DrainFreesOwner(next, kind);
    }
  }

  /** Discarding the queue frees the latch of a correlated run if and only if the queue is not empty. */
  lemma DrainFreesExactly(states: seq<System>, steps: seq<Step>, i: nat, kind: Kind)
    requires IsRun(states, steps) && i < |states| && kind in states[i].shared.runs
    ensures kind !in DrainAll(states[i].shared).syncing <==> states[i].shared.queue != []
  {
    ReachableInv(states, steps, i);
    DrainFrees(states[i], kind);
  }

  lemma DrainFrees(s: System, kind: Kind)
    requires LatchInv(s) && QueueInv(s) && RunInv(s) && kind in s.shared.runs
    ensures kind !in DrainAll(s.shared).syncing <==> s.shared.queue != []
  {
    var queue, commands := s.shared.queue, s.history.commands;
    if queue != [] {
      var last := queue[|queue| - 1];
      assert last == commands[|commands| - 1];
      NewestOwns(s, kind, last);
      DrainFreesOwner(s.shared, kind);
    }
  }
}
