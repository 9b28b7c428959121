/** What a staged run does for every endpoint, stage, path and request, in terms of the configuration and the answers. */
module StageTheorems {
  import opened Basics
  import opened Picking
  import opened StagePlan
  import opened SyncModes
  import opened StageRun
  import Text

  // ---- Every endpoint is heard of

  /** A path always leaves a request or a record. */
  lemma PathIsHeard(plan: RunPlan, endpoint: Endpoint, world: ScopeWorld, j: nat, p: nat)
    requires endpoint.wire.Some? && j < |plan.stages| && p < |StreamPaths(plan.stages[j], plan.vms)|
    ensures PathTrace(plan, endpoint, world, j, p).events != []
  {
    var call := world.calls(j, p);
    if Execute(call, plan.deadline, 0).0 == 0 {
      NothingSentIsLate(call, plan.deadline);
    }
  }

  lemma NothingSentIsLate(call: Call, deadline: bool)
    requires Execute(call, deadline, 0).0 == 0
    ensures Execute(call, deadline, 0).1 == Failed(true)
  {
  }

  lemma {:induction false} FoldIsHeard(ts: seq<Trace>, n: nat)
    requires 0 < n <= |ts| && ts[0].events != []
    ensures Fold(ts, n).events != []
  {
    if n > 1 {
      FoldIsHeard(ts, n - 1);
    } else {
      assert Fold(ts, 1) == Then(Fold(ts, 0), ts[0]);
    }
  }

  lemma StageIsHeard(plan: RunPlan, endpoint: Endpoint, world: ScopeWorld, j: nat)
    requires endpoint.wire.Some? && j < |plan.stages|
    ensures StageTrace(plan, endpoint, world, j).events != []
  {
    if SkipReason(endpoint.active, plan.stages[j]).None? {
      PathIsHeard(plan, endpoint, world, j, 0);
      var ts := PathTraces(plan, endpoint, world, j);
      FoldIsHeard(ts, |ts|);
    }
  }

  lemma ScopeIsHeard(plan: RunPlan, endpoint: Endpoint, world: ScopeWorld)
    requires plan.stages != []
    ensures ScopeTrace(plan, endpoint, world).events != []
  {
    if endpoint.wire.Some? {
      StageIsHeard(plan, endpoint, world, 0);
      var ts := StageTraces(plan, endpoint, world);
      FoldIsHeard(ts, |ts|);
    } else {
      KeysMeaning(plan.stages);
      assert plan.stages[0] in Keys(plan.stages);
    }
  }

  lemma {:induction false} FlatHas(ts: seq<Trace>, n: nat, i: nat, event: Event)
    requires i < n <= |ts| && event in ts[i].events
    ensures event in Flat(ts, n)
  {
    if i < n - 1 {
      FlatHas(ts, n - 1, i, event);
    }
  }

  /**
   In a run with a stage, every endpoint that is enabled and was asked for (every enabled one, if no usable
   endpoint was) is heard of: it has a request or a record, and no other endpoint has.
   */
  lemma EveryEndpointIsHeard(
    plan: RunPlan, raw: seq<string>, enabled: seq<string>, wire: map<string, string>, modesOf: string -> Modes, world: World, pk: string)
    requires plan.stages != []
    ensures
      (exists event :: event in RunEvents(plan, Endpoints(Scopes(raw, enabled), wire, modesOf), world) && About(event) == Some(pk))
      <==>
      && pk in enabled
      && ((forall i :: 0 <= i < |raw| ==> !IsUsable(raw[i]))
          || exists i :: 0 <= i < |raw| && IsUsable(raw[i]) && Text.Strip(raw[i]) == pk)
  {
    var scopes := Scopes(raw, enabled);
    ScopesHas(raw, enabled, pk);
    ScopedIsHeard(plan, Endpoints(scopes, wire, modesOf), world, pk);
    var endpoints := Endpoints(scopes, wire, modesOf);
    if pk in scopes {
      var i :| 0 <= i < |scopes| && scopes[i] == pk;
      assert endpoints[i].pk == pk;
    }
    if i: nat :| i < |endpoints| && endpoints[i].pk == pk {
      assert scopes[i] == pk;
    }
  }

  lemma ScopedIsHeard(plan: RunPlan, endpoints: seq<Endpoint>, world: World, pk: string)
    requires plan.stages != []
    ensures (exists event :: event in RunEvents(plan, endpoints, world) && About(event) == Some(pk)) <==>
            exists i: nat :: i < |endpoints| && endpoints[i].pk == pk
  {
    var ts := Traces(plan, endpoints, world);
    forall i: nat | i < |endpoints| && endpoints[i].pk == pk
      ensures exists event :: event in RunEvents(plan, endpoints, world) && About(event) == Some(pk)
    {
      ScopeIsHeard(plan, endpoints[i], world(i));
      var event := ts[i].events[0];
      OwnAbout(plan, endpoints, world, i, event);
      FlatHas(ts, |ts|, i, event);
    }
    forall event | event in RunEvents(plan, endpoints, world) && About(event) == Some(pk)
      ensures exists i: nat :: i < |endpoints| && endpoints[i].pk == pk
    {
      var i := FlatSource(ts, |ts|, event);
      OwnAbout(plan, endpoints, world, i, event);
    }
  }

  lemma OwnAbout(plan: RunPlan, endpoints: seq<Endpoint>, world: World, i: nat, event: Event)
    requires i < |endpoints| && event in TraceOf(plan, endpoints, world, i).events
    ensures About(event) == Some(endpoints[i].pk)
  {
    EveryScopeSettles(plan, endpoints, world, i);
    var t := TraceOf(plan, endpoints, world, i);
    var k :| 0 <= k < |t.events| && t.events[k] == event;
    assert OwnEvent(endpoints[i], t.events[k]);
  }

  // ---- Every result was asked for

  /** Every result directly follows a request of the same endpoint and path. */
  ghost predicate Backed(events: seq<Event>) {
    forall k :: 0 <= k < |events| && events[k].Recorded? && events[k].record.Result? ==> BackedAt(events, k)
  }

  ghost predicate BackedAt(events: seq<Event>, k: nat)
    requires k < |events| && events[k].Recorded? && events[k].record.Result?
  {
    && k > 0 && events[k - 1].Requested?
    && events[k - 1].request.endpoint == events[k].record.endpoint
    && events[k - 1].request.path == events[k].record.path
  }

  lemma BackedConcat(a: seq<Event>, b: seq<Event>)
    requires Backed(a) && Backed(b)
    ensures Backed(a + b)
  {
    var all := a + b;
    forall k | 0 <= k < |all| && all[k].Recorded? && all[k].record.Result? ensures BackedAt(all, k) {
      if k < |a| {
        assert BackedAt(a, k);
      } else {
        assert BackedAt(b, k - |a|);
      }
    }
  }

  lemma {:induction false} BackedFold(ts: seq<Trace>, n: nat)
    requires n <= |ts| && forall i :: 0 <= i < n ==> Backed(ts[i].events)
    ensures Backed(Fold(ts, n).events)
  {
    if n > 0 {
      BackedFold(ts, n - 1);
      BackedConcat(Fold(ts, n - 1).events, ts[n - 1].events);
    }
  }

  lemma {:induction false} BackedFlat(ts: seq<Trace>, n: nat)
    requires n <= |ts| && forall i :: 0 <= i < n ==> Backed(ts[i].events)
    ensures Backed(Flat(ts, n))
  {
    if n > 0 {
      BackedFlat(ts, n - 1);
      BackedConcat(Flat(ts, n - 1), ts[n - 1].events);
    }
  }

  lemma BackedPath(plan: RunPlan, endpoint: Endpoint, world: ScopeWorld, j: nat, p: nat)
    requires endpoint.wire.Some? && j < |plan.stages| && p < |StreamPaths(plan.stages[j], plan.vms)|
    ensures Backed(PathTrace(plan, endpoint, world, j, p).events)
  {
  }

  lemma BackedStage(plan: RunPlan, endpoint: Endpoint, world: ScopeWorld, j: nat)
    requires endpoint.wire.Some? && j < |plan.stages|
    ensures Backed(StageTrace(plan, endpoint, world, j).events)
  {
    var ts := PathTraces(plan, endpoint, world, j);
    forall p | 0 <= p < |ts| ensures Backed(ts[p].events) {
      BackedPath(plan, endpoint, world, j, p);
    }
    BackedFold(ts, |ts|);
  }

  lemma BackedScope(plan: RunPlan, endpoint: Endpoint, world: ScopeWorld)
    ensures Backed(ScopeTrace(plan, endpoint, world).events)
  {
    if endpoint.wire.Some? {
      var ts := StageTraces(plan, endpoint, world);
      forall j | 0 <= j < |ts| ensures Backed(ts[j].events) {
        BackedStage(plan, endpoint, world, j);
      }
      BackedFold(ts, |ts|);
    }
  }

  /** In every run, a result is recorded only directly after a request of the same endpoint and path. */
  lemma ResultsWereRequested(plan: RunPlan, endpoints: seq<Endpoint>, world: World)
    ensures Backed(RunEvents(plan, endpoints, world))
  {
    var ts := Traces(plan, endpoints, world);
    forall i | 0 <= i < |ts| ensures Backed(ts[i].events) {
      BackedScope(plan, endpoints[i], world(i));
    }
    BackedFlat(ts, |ts|);
  }

  // ---- One call

  /** A failure worth another try: a server error, too many requests, or a bad request that hides a transport failure. */
  predicate WorthRetrying(a: Attempt) {
    || a.status >= 500
    || a.status == 429
    || (a.status == 400 && a.transport)
  }

  /** There is time for the wait after attempt `i`: the hint, else 8 s doubled each time, never over a minute. */
  predicate CanWait(a: Attempt, i: nat) {
    var wait := if a.hint.Some? then Min(Max(a.hint.value, 0), 60_000) else if i == 0 then 8_000 else 16_000;
    wait > 0 && a.leftToWait > 0
  }

  /**
   The requests of a call: the first goes out unless time is up; another follows if and only if the previous
   failed in a way worth retrying, it was not the third, and, with a deadline, there is time to wait and time left then.
   */
  lemma RequestsExactly(call: Call, deadline: bool, i: nat)
    ensures
      var n := Execute(call, deadline, 0).0;
      && (n > 0 <==> (deadline ==> call.attempts(0).left > 0))
      && (i + 1 < n <==>
            && i < n && i < 2
            && call.attempts(i).status >= 400 && WorthRetrying(call.attempts(i))
            && (deadline ==> CanWait(call.attempts(i), i) && call.attempts(i + 1).left > 0))
  {
    var a, b, c := Execute(call, deadline, 0), Execute(call, deadline, 1), Execute(call, deadline, 2);
  }

  /** How a call ends: with the answer of its last request, or failed; the failure is the deadline's exactly if time ran out or the error says so. */
  lemma OutcomeExactly(call: Call, deadline: bool)
    ensures
      var (n, outcome) := Execute(call, deadline, 0);
      if n > 0 && call.attempts(n - 1).status < 400 then outcome == Succeeded(call.attempts(n - 1).ok)
      else
        && outcome.Failed?
        && (outcome.deadline <==>
              || n == 0
              || (n < 3 && WorthRetrying(call.attempts(n - 1)))
              || call.mentionsDeadline)
  {
    var a, b, c := Execute(call, deadline, 0), Execute(call, deadline, 1), Execute(call, deadline, 2);
  }

  // ---- Stages

  /** A path fails its scope if and only if its call failed and the stage is not one of the four that may fail, or time ran out. */
  lemma PathFailsExactly(plan: RunPlan, endpoint: Endpoint, world: ScopeWorld, j: nat, p: nat)
    requires endpoint.wire.Some? && j < |plan.stages| && p < |StreamPaths(plan.stages[j], plan.vms)|
    ensures
      var outcome := Execute(world.calls(j, p), plan.deadline, 0).1;
      PathTrace(plan, endpoint, world, j, p).failed <==>
        outcome.Failed? && (plan.stages[j] !in {VmBackups, VmSnapshots, TaskHistory, Stage.Sdn} || outcome.deadline)
  {
  }

  lemma EachMachine(stage: Stage, vms: seq<string>, targets: seq<string>)
    requires stage.VirtualMachines? || stage.VmDisks? || stage.VmBackups? || stage.VmSnapshots?
    requires targets == Text.NonEmpty(vms) && targets != []
    ensures |StreamPaths(stage, vms)| == |targets|
    ensures forall k :: 0 <= k < |targets| ==> StreamPaths(stage, vms)[k] == Path(stage, Some(targets[k]))
  {
  }

  /** The paths of one of the four machine stages, when machines were selected: one for each of them, in order. */
  lemma MachinePaths(stage: Stage, vms: seq<string>, path: string -> Path)
    requires stage.VirtualMachines? || stage.VmDisks? || stage.VmBackups? || stage.VmSnapshots?
    requires (exists i :: 0 <= i < |vms| && vms[i] != "") && forall vm :: path(vm) == Path(stage, Some(vm))
    ensures Picked(vms, StreamPaths(stage, vms), Text.IsNonEmpty, path)
  {
    var targets, paths := Text.NonEmpty(vms), StreamPaths(stage, vms);
    SelectedMachines(vms);
    EachMachine(stage, vms, targets);
    PathsPicked(vms, targets, paths, path);
  }

  lemma PathsPicked(vms: seq<string>, targets: seq<string>, paths: seq<Path>, path: string -> Path)
    requires targets == Text.NonEmpty(vms) && |paths| == |targets| && forall k :: 0 <= k < |paths| ==> paths[k] == path(targets[k])
    ensures Picked(vms, paths, Text.IsNonEmpty, path)
  {
    Text.NonEmptyPicked(vms);
    PickedValues(vms, targets, paths, Text.IsNonEmpty, path);
  }

  /** In all other cases a stage has one path, which is about no machine. */
  lemma SinglePath(stage: Stage, vms: seq<string>)
    requires !(stage.VirtualMachines? || stage.VmDisks? || stage.VmBackups? || stage.VmSnapshots?)
          || forall i :: 0 <= i < |vms| ==> vms[i] == ""
    ensures StreamPaths(stage, vms) == [Path(stage, None)]
  {
    SelectedMachines(vms);
  }

  lemma SelectedMachines(vms: seq<string>)
    ensures Text.NonEmpty(vms) != [] <==> exists i :: 0 <= i < |vms| && vms[i] != ""
  {
    Text.NonEmptyPicked(vms);
    PickedSome(vms, Text.NonEmpty(vms), Text.IsNonEmpty, Itself);
  }

  predicate IsOff(configured: Modes, resource: Resource) {
    ResourceMode(configured, resource) == Disabled
  }

  /** Which configured modes keep a stage from running, through the cascade and the stored variables. */
  predicate KeptOff(configured: Modes, stage: Stage) {
    var machines := IsOff(configured, Vm) && IsOff(configured, VmTemplate);
    match stage
    case Devices => IsOff(configured, Node) || IsOff(configured, Cluster)
    case NetworkInterfaces => IsOff(configured, Node) || IsOff(configured, Cluster)
    case Storage => IsOff(configured, Resource.Storage)
    case VmInterfaces => IsOff(configured, VmInterface) || machines
    case IpAddresses => IsOff(configured, IpAddress) || IsOff(configured, VmInterface) || machines
    case Sdn => IsOff(configured, Resource.Sdn)
    case VirtualMachines => machines
    case VmDisks => machines
    case VmBackups => machines
    case VmSnapshots => machines
    case _ => false
  }

  lemma StoredMode(configured: Modes, resource: Resource)
    requires resource in FIELDS
    ensures ResourceMode(Stored(configured), resource) == ResourceMode(configured, resource)
  {
  }

  lemma ActiveOff(configured: Modes, resource: Resource)
    requires resource in FIELDS
    ensures
      var machines := IsOff(configured, Vm) && IsOff(configured, VmTemplate);
      Off(Active(configured), resource) <==>
        || IsOff(configured, resource)
        || (resource.Node? && IsOff(configured, Cluster))
        || (resource.SdnBgp? && IsOff(configured, Resource.Sdn))
        || (resource.VmInterface? && machines)
        || ((resource.Mac? || resource.IpAddress?) && (IsOff(configured, VmInterface) || machines))
  {
    ProgramCascade(Stored(configured), resource);
    forall r | r in FIELDS ensures ResourceMode(Stored(configured), r) == ResourceMode(configured, r) {
      StoredMode(configured, r);
    }
    assert {Vm, VmTemplate, VmInterface, Cluster, Resource.Sdn} <= FIELDS;
  }

  /** A stage is skipped for an endpoint if and only if the endpoint's configured modes keep it off. */
  lemma SkippedExactly(configured: Modes, stage: Stage)
    ensures SkipReason(Active(configured), stage).Some? <==> KeptOff(configured, stage)
  {
    ActiveOff(configured, Vm);
    ActiveOff(configured, VmTemplate);
    if StageResource(stage).Some? {
      ActiveOff(configured, StageResource(stage).value);
    }
  }

  /**
   An endpoint the backend does not know sends nothing; its scope fails, with one record, if and only if its configured
   modes leave a stage of the plan on.
   */
  lemma UnresolvedExactly(plan: RunPlan, endpoint: Endpoint, world: ScopeWorld, configured: Modes)
    requires endpoint.wire.None? && endpoint.active == Active(configured)
    ensures
      var trace := ScopeTrace(plan, endpoint, world);
      && (trace.failed <==> exists j :: 0 <= j < |plan.stages| && !KeptOff(configured, plan.stages[j]))
      && (trace.failed ==> trace.events == [Recorded(ScopeFailed(Some(endpoint.pk), None))])
      && (!trace.failed ==> forall k :: 0 <= k < |trace.events| ==> trace.events[k].Recorded? && trace.events[k].record.Skipped?)
  {
    var keys := Keys(plan.stages);
    KeysMeaning(plan.stages);
    forall stage ensures SkipReason(endpoint.active, stage).Some? <==> KeptOff(configured, stage) {
      SkippedExactly(configured, stage);
    }
    if AllSkipped(keys, endpoint.active) {
      forall j | 0 <= j < |plan.stages| ensures KeptOff(configured, plan.stages[j]) {
        assert plan.stages[j] in keys;
      }
    } else {
      var i :| 0 <= i < |keys| && SkipReason(endpoint.active, keys[i]).None?;
      assert keys[i] in plan.stages;
    }
  }

  // ---- Stages run in the order of the plan

  /** The stage an event is about. */
  function StageOf(event: Event): Option<Stage> {
    match event
    case Requested(request) => Some(request.path.stage)
    case Recorded(Skipped(_, stage, _)) => Some(stage)
    case Recorded(Result(_, stage, _, _)) => Some(stage)
    case Recorded(ScopeFailed(_, cause)) => cause
  }

  ghost predicate AllAbout(events: seq<Event>, stage: Stage) {
    forall k :: 0 <= k < |events| ==> StageOf(events[k]) == Some(stage)
  }

  /** Every event is about a stage at or below position `high`, and no stage comes after a later one. */
  ghost predicate InOrder(events: seq<Event>, high: nat) {
    && (forall k :: 0 <= k < |events| ==> StageOf(events[k]).Some? && Position(StageOf(events[k]).value) <= high)
    && (forall k, l :: 0 <= k < l < |events| ==>
          Position(StageOf(events[k]).value) <= Position(StageOf(events[l]).value))
  }

  lemma {:induction false} FoldAbout(ts: seq<Trace>, n: nat, stage: Stage)
    requires n <= |ts| && forall i :: 0 <= i < n ==> AllAbout(ts[i].events, stage)
    ensures AllAbout(Fold(ts, n).events, stage)
  {
    if n > 0 {
      FoldAbout(ts, n - 1, stage);
      assert AllAbout(ts[n - 1].events, stage);
    }
  }

  lemma PathAbout(plan: RunPlan, endpoint: Endpoint, world: ScopeWorld, j: nat, p: nat)
    requires endpoint.wire.Some? && j < |plan.stages| && p < |StreamPaths(plan.stages[j], plan.vms)|
    ensures AllAbout(PathTrace(plan, endpoint, world, j, p).events, plan.stages[j])
  {
  }

  lemma StageAbout(plan: RunPlan, endpoint: Endpoint, world: ScopeWorld, j: nat)
    requires endpoint.wire.Some? && j < |plan.stages|
    ensures AllAbout(StageTrace(plan, endpoint, world, j).events, plan.stages[j])
  {
    var ts := PathTraces(plan, endpoint, world, j);
    forall p | 0 <= p < |ts| ensures AllAbout(ts[p].events, plan.stages[j]) {
      PathAbout(plan, endpoint, world, j, p);
    }
    FoldAbout(ts, |ts|, plan.stages[j]);
  }

  lemma OneMoreStage(events: seq<Event>, more: seq<Event>, high: nat, stage: Stage)
    requires InOrder(events, high) && AllAbout(more, stage) && high <= Position(stage)
    ensures InOrder(events + more, Position(stage))
  {
  }

  ghost predicate PlanOrdered(stages: seq<Stage>) {
    forall i, j :: 0 <= i < j < |stages| ==> Position(stages[i]) < Position(stages[j])
  }

  lemma {:induction false} FoldInOrder(ts: seq<Trace>, stages: seq<Stage>, n: nat)
    requires |ts| == |stages| && n <= |ts| && PlanOrdered(stages)
    requires forall j :: 0 <= j < n ==> AllAbout(ts[j].events, stages[j])
    ensures InOrder(Fold(ts, n).events, if n == 0 then 0 else Position(stages[n - 1]))
  {
    if n > 0 {
      FoldInOrder(ts, stages, n - 1);
      var high := if n == 1 then 0 else Position(stages[n - 2]);
      assert high <= Position(stages[n - 1]);
      OneMoreStage(Fold(ts, n - 1).events, ts[n - 1].events, high, stages[n - 1]);
      if Fold(ts, n - 1).failed {
        OneMoreStage(Fold(ts, n - 1).events, [], high, stages[n - 1]);
        assert Fold(ts, n - 1).events + [] == Fold(ts, n - 1).events;
      }
    }
  }

  /** With an expanded plan, whatever a scope requests and records comes in the order of the stages. */
  lemma ScopeIsInOrder(plan: RunPlan, endpoint: Endpoint, world: ScopeWorld)
    requires endpoint.wire.Some? && PlanOrdered(plan.stages)
    ensures
      var events := ScopeTrace(plan, endpoint, world).events;
      forall k, l :: 0 <= k < l < |events| ==>
        && StageOf(events[k]).Some? && StageOf(events[l]).Some?
        && Position(StageOf(events[k]).value) <= Position(StageOf(events[l]).value)
  {
    var ts := StageTraces(plan, endpoint, world);
    forall j | 0 <= j < |ts| ensures AllAbout(ts[j].events, plan.stages[j]) {
      StageAbout(plan, endpoint, world, j);
    }
    FoldInOrder(ts, plan.stages, |ts|);
  }
}
