/**
 The module-level variables of `netbox_proxbox/websocket_client.py` as one object, with a method for
 every critical section. Each method is proved to do to the object what the function of the same
 section in `RelayState` does to the abstract state; the bounded buffer stands for the whole log.
 */
module RelayObject {
  import opened Basics
  import opened RelayState
  import opened MessageLog

  const KINDS: seq<Kind> := [FullUpdate, Devices, VirtualMachines]

  class Relay {
    var syncing: set<Kind>
    var runs: map<Kind, Token>
    var queue: seq<Command>
    var buffer: seq<Entry>
    var lastSequence: nat
    var lastActivity: int
    var worker: Option<Worker>
    var connection: Option<Connection>
    var cache: map<Connection, CacheEntry>
    ghost var log: seq<Entry>

    ghost predicate Valid()
      reads this
    {
      buffer == Recent(log) && lastSequence == |log| && Numbered(log)
    }

    ghost function State(): Shared
      reads this
    {
      Shared(syncing, runs, queue, log, lastActivity, worker, connection, cache)
    }

    constructor ()
      ensures Valid() && State() == Shared({}, map[], [], [], 0, None, None, map[])
    {
      syncing, runs, queue, buffer := {}, map[], [], [];
      lastSequence, lastActivity := 0, 0;
      worker, connection, cache := None, None, map[];
      log := [];
    }

    method AppendMessage(endpoint: int, message: Message, now: int, mark: bool) returns (sequence: nat)
      requires Valid()
      modifies this
      ensures Valid() && State() == Append(old(State()), endpoint, message, now, mark)
      ensures sequence == lastSequence == old(lastSequence) + 1
    {
      sequence := lastSequence + 1;
      var entry := Entry(sequence, endpoint, message);
      PushRefinesAppend(log, entry);
      lastActivity := if mark then now else lastActivity;
      lastSequence, buffer, log := sequence, Push(buffer, entry), log + [entry];
    }

    method PublishBackendMessage(frame: Frame, endpoint: int, now: int) returns (sequence: nat)
      requires Valid()
      modifies this
      ensures Valid() && State() == Publish(old(State()), frame, endpoint, now)
      ensures sequence == |log|
    {
      var malformed := ProtocolMalformed(frame.payload);
      var mark := !malformed && MarksActivity(syncing, runs, frame.payload);
      var released := if malformed then {} else ReleasedBy(syncing, runs, frame.payload);
      ClearLatches(released);
      sequence := AppendMessage(endpoint, FromBackend(frame), now, mark);
    }

    /** Discards every latch of a set together with its run id. */
    method ClearLatches(released: set<Kind>)
      modifies this`syncing, this`runs
      ensures syncing == old(syncing) - released && runs == old(runs) - released
    {
      var todo := released;
      while todo != {}
        invariant todo <= released
        invariant syncing == old(syncing) - (released - todo) && runs == old(runs) - (released - todo)
        decreases |todo|
      {
        var kind :| kind in todo;
        syncing, runs, todo := syncing - {kind}, runs - {kind}, todo - {kind};
      }
    }

    method FailActiveSyncs(endpoint: int, now: int)
      requires Valid()
      modifies this
      ensures Valid() && State() == FailSyncs(old(State()), endpoint, now)
    {
      ghost var start := State();
      for i := 0 to |KINDS|
        invariant Valid()
        invariant State() == FailFirst(start, i, endpoint, now)
      {
        var kind := KINDS[i];
        if kind in syncing {
          var run := RunOf(runs, kind);
          syncing, runs := syncing - {kind}, runs - {kind};
          var _ := AppendMessage(endpoint, TrustFailure(kind, run), now, true);
        }
      }
      assert FailFirst(start, 2, endpoint, now) ==
        FailKind(FailKind(start, FullUpdate, endpoint, now), Devices, endpoint, now);
    }

    method DowngradeQueuedRun(command: Command, endpoint: int, now: int) returns (downgraded: bool)
      requires Valid()
      modifies this
      ensures Valid() && State() == Downgrade(old(State()), command, endpoint, now)
      ensures downgraded == OwnsLatch(old(State()), command)
      ensures syncing == old(syncing) && !OwnsLatch(State(), command)
      ensures downgraded ==> log == old(log) + [Entry(|old(log)| + 1, endpoint, Downgraded(command.run.value))]
      ensures !downgraded ==> State() == old(State())
    {
      if command.run.None? || command.kind !in syncing || RunOf(runs, command.kind) != command.run {
        return false;
      }
      runs := runs - {command.kind};
      var _ := AppendMessage(endpoint, Downgraded(command.run.value), now, true);
      return true;
    }

    method ReleaseCommand(command: Command)
      requires Valid()
      modifies this
      ensures Valid() && State() == Release(old(State()), command)
    {
      if RunOf(runs, command.kind) == command.run {
        syncing, runs := syncing - {command.kind}, runs - {command.kind};
      }
    }

    method DiscardPendingCommands()
      requires Valid()
      modifies this
      ensures Valid() && State() == DrainAll(old(State()))
      ensures queue == [] && syncing <= old(syncing)
      ensures forall k :: k in old(runs) && k !in runs ==> exists i :: 0 <= i < |old(queue)| && old(queue)[i].run == Some(old(runs)[k])
    {
      DrainAllEmpties(State());
      while queue != []
        invariant Valid() && DrainAll(State()) == DrainAll(old(State()))
        decreases |queue|
      {
        var dropped := queue[0];
        queue := queue[1..];
        ReleaseCommand(dropped);
      }
    }

    method ExpireIdleLatch(now: int)
      requires Valid()
      modifies this
      ensures Valid() && State() == ExpireIdle(old(State()), now)
    {
      if syncing != {} && now - lastActivity >= LATCH_IDLE_MS {
        syncing, runs := {}, map[];
      }
    }

    /** `send_message`: enqueue unless the queue is full; the run id that was put on the queue. */
    method SendMessage(command: Command) returns (run: Option<Token>)
      modifies this
      requires Valid()
      ensures Valid()
      ensures State() == old(State()).(queue := if |old(queue)| < QUEUE_CAPACITY then old(queue) + [command] else old(queue))
      ensures run == if |old(queue)| < QUEUE_CAPACITY then command.run else None
    {
      if |queue| >= QUEUE_CAPACITY {
        return None;
      }
      queue := queue + [command];
      return command.run;
    }

    method QueueSyncCommand(kind: Kind, context: Context, command: Command, now: int) returns (reply: Reply)
      requires Valid()
      modifies this
      ensures Valid() && State() == QueueSync(old(State()), kind, context, command, now)
      ensures reply == QueueReply(old(State()), kind, context, command, now)
    {
      if worker != Some(context.worker) {
        return WorkerChanged;
      }
      if context.connection.Some? && connection != context.connection {
        return ConnectionChanged;
      }
      var cursor := lastSequence;
      ExpireIdleLatch(now);
      if syncing == {} {
        syncing, lastActivity := syncing + {kind}, now;
        var run := SendMessage(command);
        runs := if run.Some? then runs[kind := run.value] else runs - {kind};
        return Accepted(cursor, run);
      }
      return Busy(cursor, if kind in syncing then RunOf(runs, kind) else None);
    }

    /** First section of the capability call; it changes nothing. */
    method CachedCapability(key: Connection, refresh: bool, startedAt: int) returns (answer: Option<bool>)
      ensures answer == CapabilityCached(State(), key, refresh, startedAt)
      ensures answer != Some(false) ==> ProbeAccepted(State(), key)
      ensures refresh ==> answer != Some(true)
    {
      if connection != Some(key) {
        return Some(false);
      }
      if key in cache {
        if cache[key].Rejected? {
          return Some(false);
        }
        if !refresh && cache[key].expires > startedAt {
          return Some(cache[key].supported);
        }
      }
      return None;
    }

    method RemoveCached(stale: set<Connection>)
      requires Valid()
      modifies this`cache
      ensures Valid() && cache == old(cache) - stale
    {
      var todo := stale;
      while todo != {}
        invariant todo <= stale && cache == old(cache) - (stale - todo)
        decreases |todo|
      {
        var key :| key in todo;
        cache, todo := cache - {key}, todo - {key};
      }
    }

    /** Second section of the capability call. */
    method RecordProbe(key: Connection, startedAt: int, supported: bool, now: int) returns (answer: bool)
      requires Valid()
      modifies this
      ensures Valid() && State() == CapabilityProbed(old(State()), key, startedAt, supported, now)
      ensures answer == (ProbeAccepted(old(State()), key) && supported)
      ensures ProbeAccepted(old(State()), key) ==>
        forall later :: later < now + CAPABILITY_TTL_MS ==> CapabilityCached(State(), key, false, later) == Some(supported)
      ensures !ProbeAccepted(old(State()), key) ==> State() == old(State())
    {
      if key in cache && cache[key].Rejected? {
        return false;
      }
      if connection != Some(key) {
        return false;
      }
      RemoveCached(Expired(cache, startedAt));
      cache := cache[key := Decision(now + CAPABILITY_TTL_MS, supported)];
      return supported;
    }

    method OpenConnectionSession(key: Connection)
      requires Valid()
      modifies this
      ensures Valid() && State() == OpenConnection(old(State()), key)
      ensures connection == Some(key)
      ensures forall k :: k in cache && k.worker == key.worker ==> cache[k].Rejected? || !cache[k].supported
      ensures forall k :: k in old(cache) && (k.worker != key.worker || old(cache)[k].Rejected?) ==> k in cache && cache[k] == old(cache)[k]
    {
      RemoveCached(Positive(cache, key.worker));
      connection := Some(key);
    }

    method CloseConnectionSession(key: Connection)
      requires Valid()
      modifies this
      ensures Valid() && State() == CloseConnection(old(State()), key)
      ensures connection == (if old(connection) == Some(key) then None else old(connection)) && key !in cache
      ensures forall refresh, startedAt :: CapabilityCached(State(), key, refresh, startedAt) == Some(false)
      ensures forall k :: k in cache && k.worker == key.worker ==> cache[k].Rejected? || !cache[k].supported
    {
      RemoveCached(Positive(cache, key.worker));
      cache := cache - {key};
      if connection == Some(key) {
        connection := None;
      }
    }

    method MarkCapabilityNegative(key: Connection)
      requires Valid()
      modifies this
      ensures Valid() && State() == MarkRejected(old(State()), key)
      ensures forall refresh, startedAt :: CapabilityCached(State(), key, refresh, startedAt) == Some(false)
      ensures !ProbeAccepted(State(), key)
      ensures forall other :: other != key ==> ProbeAccepted(State(), other) == ProbeAccepted(old(State()), other)
    {
      cache := cache[key := Rejected];
    }

    /** `start_websocket` once the credentials were loaded. */
    method StartWebsocket(next: Worker, alive: bool)
      requires Valid()
      modifies this
      ensures Valid()
      ensures State() ==
        if KeepsWorker(old(State()), next, alive) then old(State())
        else if old(worker).Some? then DrainAll(old(State())).(worker := Some(next))
        else old(State()).(worker := Some(next))
      ensures worker == Some(next)
      ensures alive && old(worker) == Some(next) ==> State() == old(State())
      ensures old(worker).Some? && (!alive || old(worker) != Some(next)) ==> queue == []
      ensures log == old(log) && connection == old(connection) && cache == old(cache)
    {
      if alive && worker == Some(next) {
        return;
      }
      if worker.Some? {
        DrainAllEmpties(State());
        DiscardPendingCommands();
      }
      worker := Some(next);
    }

    method StopWebsocket(endpoint: Option<int>) returns (stopped: bool)
      requires Valid()
      modifies this
      ensures Valid() && stopped == StopApplies(old(State()), endpoint)
      ensures State() == if stopped then DrainAll(StopWorker(old(State()))) else old(State())
      ensures stopped <==> old(worker).Some? && (endpoint.None? || old(worker).value.endpoint == endpoint.value)
      ensures stopped ==> worker.None? && queue == []
      ensures stopped ==> connection.None? || connection.value.worker.endpoint != old(worker).value.endpoint
      ensures connection == old(connection) || (connection.None? && forall refresh, startedAt ::
                CapabilityCached(State(), old(connection).value, refresh, startedAt) == Some(false))
    {
      if worker.None? || (endpoint.Some? && worker.value.endpoint != endpoint.value) {
        return false;
      }
      var current := worker.value;
      worker := None;
      if connection.Some? && connection.value.worker.endpoint == current.endpoint {
        RemoveCached(Positive(cache, connection.value.worker));
        cache := cache - {connection.value};
        connection := None;
      }
      DrainAllEmpties(State());
      DiscardPendingCommands();
      return true;
    }

    /** `read_messages_after`: the page read from the buffer is the page of the whole log. */
    method ReadMessagesAfter(endpoint: int, after: Option<int>, limit: int) returns (page: Page)
      requires Valid()
      ensures page == ReadLog(log, endpoint, after, limit)
    {
      var entries, last := buffer, lastSequence;
      page := Read(entries, last, endpoint, after, limit);
    }
  }

  /** `FailSyncs` after the first `n` kinds. */
  function FailFirst(sh: Shared, n: nat, endpoint: int, now: int): Shared
    requires n <= |KINDS|
  {
    if n == 0 then sh else FailKind(FailFirst(sh, n - 1, endpoint, now), KINDS[n - 1], endpoint, now)
  }

  /** Discarding the queue empties it, and frees a correlated latch only by dropping its own command. */
  lemma {:induction false} DrainAllEmpties(sh: Shared)
    ensures DrainAll(sh).queue == []
    ensures DrainAll(sh).log == sh.log && DrainAll(sh).cache == sh.cache && DrainAll(sh).connection == sh.connection
    ensures DrainAll(sh).worker == sh.worker && DrainAll(sh).lastActivity == sh.lastActivity
    ensures DrainAll(sh).syncing <= sh.syncing
    ensures forall k :: k in sh.runs && k !in DrainAll(sh).runs ==> exists i :: 0 <= i < |sh.queue| && sh.queue[i].run == Some(sh.runs[k])
    decreases |sh.queue|
  {
    if sh.queue != [] {
      var next := DrainOne(sh);
      DrainAllEmpties(next);
      forall k | k in sh.runs && k !in DrainAll(sh).runs
        ensures exists i :: 0 <= i < |sh.queue| && sh.queue[i].run == Some(sh.runs[k])
      {
        if k in next.runs {
          var i :| 0 <= i < |next.queue| && next.queue[i].run == Some(next.runs[k]);
          assert sh.queue[i + 1] == next.queue[i];
        } else {
          assert sh.queue[0].run == Some(sh.runs[k]);
        }
      }
    }
  }
}
