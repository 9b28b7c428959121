/** What is answered from the capability cache is what the backend last said, and not for long. */
module RelayCapability {
  import opened Basics
  import opened RelayState
  import opened RelayProtocol
  import opened RelayBounds

  // ---- One section

  /**
   After an accepted probe, and until it expires, the first section answers what the probe said; entries of
   other connections are kept unless they had expired, and rejections are kept in any case.
   */
  lemma ProbeIsCached(sh: Shared, key: Connection, startedAt: int, supported: bool, now: int, later: int)
    requires ProbeAccepted(sh, key)
    ensures
      var sh' := CapabilityProbed(sh, key, startedAt, supported, now);
      && (later < now + CAPABILITY_TTL_MS ==> CapabilityCached(sh', key, false, later) == Some(supported))
      && (later >= now + CAPABILITY_TTL_MS ==> CapabilityCached(sh', key, false, later) == None)
      && CapabilityCached(sh', key, true, later) == None
      && forall other :: other != key ==>
           (other in sh'.cache <==> other in sh.cache && (sh.cache[other].Decision? ==> sh.cache[other].expires > startedAt))
           && (other in sh'.cache ==> sh'.cache[other] == sh.cache[other])
  {
  }

  /** A probe of a connection that is outdated or was rejected leaves no trace. */
  lemma RefusedProbeChangesNothing(sh: Shared, key: Connection, startedAt: int, supported: bool, now: int)
    requires sh.connection != Some(key) || (key in sh.cache && sh.cache[key] == Rejected)
    ensures CapabilityProbed(sh, key, startedAt, supported, now) == sh
  {
  }

  /** No entry says true for a connection of this worker. */
  ghost predicate NonePositive(cache: map<Connection, CacheEntry>, worker: Worker) {
    forall key :: key in cache && key.worker == worker ==> cache[key].Decision? ==> !cache[key].supported
  }

  /** What else is cached is kept: rejections, negative answers, and everything about other workers. */
  ghost predicate KeepsOthers(before: map<Connection, CacheEntry>, after: map<Connection, CacheEntry>, worker: Worker, except: set<Connection>) {
    forall key :: key !in except && key in before && (key.worker != worker || (before[key].Decision? ==> !before[key].supported)) ==>
      key in after && after[key] == before[key]
  }

  /** A worker that connects or disconnects takes its positive answers with it, and nothing else but a closed connection's own entry. */
  lemma ReconnectForgetsPositive(sh: Shared, key: Connection)
    ensures
      var after, gone := OpenConnection(sh, key), CloseConnection(sh, key);
      && after.connection == Some(key)
      && NonePositive(after.cache, key.worker) && KeepsOthers(sh.cache, after.cache, key.worker, {})
      && after.cache.Keys <= sh.cache.Keys
      && gone.connection != Some(key) && key !in gone.cache
      && (sh.connection != Some(key) ==> gone.connection == sh.connection)
      && NonePositive(gone.cache, key.worker) && KeepsOthers(sh.cache, gone.cache, key.worker, {key})
      && gone.cache.Keys <= sh.cache.Keys
  {
  }

  // ---- Runs

  /** The step records an accepted probe of `key` that said `supported`. */
  predicate Probes(s: System, step: Step, key: Connection, supported: bool)
    requires Enabled(s, step)
  {
    match step
    case Post(q, Probe(said)) => s.requests[q].key == key && ProbeAccepted(s.shared, key) && said == supported
    case Dispatch(id, SessionProbe(said)) => Key(s.sessions[id], id) == key && ProbeAccepted(s.shared, key) && said == supported
    case _ => false
  }

  predicate ProbesAny(s: System, step: Step, key: Connection)
    requires Enabled(s, step)
  {
    Probes(s, step, key, true) || Probes(s, step, key, false)
  }

  /** Where the entry of `key` comes from: this step's probe, or the state before. */
  ghost predicate Explained(s: System, step: Step, key: Connection)
    requires Enabled(s, step)
  {
    var cache := Apply(s, step).shared.cache;
    key in cache && cache[key].Decision? ==>
      if ProbesAny(s, step, key)
      then Probes(s, step, key, cache[key].supported) && cache[key].expires == s.now + CAPABILITY_TTL_MS
      else key in s.shared.cache && s.shared.cache[key] == cache[key]
  }

  lemma ExplainedManage(s: System, m: Management, key: Connection)
    requires CanManage(s, m)
    ensures Explained(s, Manage(m), key)
  {
    assert AddsNothing(s.shared, DoManage(s, m).shared);
  }

  lemma ExplainedPost(s: System, request: nat, p: Posting, key: Connection)
    requires CanPost(s, request, p)
    ensures Explained(s, Post(request, p), key)
  {
  }

  lemma ExplainedDispatch(s: System, id: Token, d: Dispatching, key: Connection)
    requires id in s.sessions && CanDispatch(s, s.sessions[id], d)
    ensures Explained(s, Dispatch(id, d), key)
  {
  }

  lemma ExplainedRespond(s: System, id: Token, r: Responding, key: Connection)
    requires id in s.sessions && CanRespond(s, s.sessions[id], r)
    ensures Explained(s, Respond(id, r), key)
  {
    assert AddsNothing(s.shared, DoRespond(s, id, r).shared);
  }

  lemma ExplainedStep(s: System, step: Step, key: Connection)
    requires Enabled(s, step)
    ensures Explained(s, step, key)
  {
    match step
    case Manage(m) => ExplainedManage(s, m, key);
    case Post(request, p) => ExplainedPost(s, request, p, key);
    case Dispatch(id, d) => ExplainedDispatch(s, id, d, key);
    case Respond(id, r) => ExplainedRespond(s, id, r, key);
  }

  /** Every cached decision is that of the last accepted probe of its connection. */
  lemma {:induction false} CachedIsLastProbe(states: seq<System>, steps: seq<Step>, i: nat, key: Connection) returns (m: nat)
    requires IsRun(states, steps) && i < |states| && key in states[i].shared.cache && states[i].shared.cache[key].Decision?
    ensures m < i && Probes(states[m], steps[m], key, states[i].shared.cache[key].supported)
    ensures states[i].shared.cache[key].expires == states[m].now + CAPABILITY_TTL_MS
    ensures forall k :: m < k < i ==> !ProbesAny(states[k], steps[k], key)
  {
    assert i > 0;
    ExplainedStep(states[i - 1], steps[i - 1], key);
    if ProbesAny(states[i - 1], steps[i - 1], key) {
      m := i - 1;
    } else {
      m := CachedIsLastProbe(states, steps, i - 1, key);
    }
  }

  /** The step answers a capability call for `key` from the cache. */
  predicate AnswersFromCache(s: System, step: Step, key: Connection, answer: bool)
    requires Enabled(s, step)
  {
    && step.Post? && step.p.LookUp? && s.requests[step.request].key == key
    && s.shared.connection == Some(key) && !(key in s.shared.cache && s.shared.cache[key].Rejected?)
    && CapabilityCached(s.shared, key, false, step.p.startedAt) == Some(answer)
  }

  /**
   In every run, an answer about a current and unrejected connection that is given without asking the backend
   is what the last accepted probe of that connection said, less than 30 seconds before the call began.
   */
  lemma CacheAnswersLastProbe(states: seq<System>, steps: seq<Step>, j: nat, key: Connection, answer: bool) returns (m: nat)
    requires IsRun(states, steps) && j < |steps| && AnswersFromCache(states[j], steps[j], key, answer)
    ensures m < j && Probes(states[m], steps[m], key, answer)
    ensures steps[j].p.startedAt < states[m].now + CAPABILITY_TTL_MS
    ensures forall k :: m < k < j ==> !ProbesAny(states[k], steps[k], key)
  {
    m := CachedIsLastProbe(states, steps, j, key);
  }
}
