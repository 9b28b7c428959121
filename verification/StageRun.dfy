/**
 A staged run: one scope per enabled Proxmox endpoint, every stage of the plan in each scope, with
 bounded retries, per-endpoint sync modes and a job deadline. What the backend, the clock and the
 configuration answer is arbitrary; times are in milliseconds.
 */
module StageRun {
  import opened Basics
  import opened StagePlan
  import opened SyncModes
  import opened Picking
  import Text

  const RETRIES := 2
  const RETRY_INITIAL_MS := 8_000
  const RETRY_MAX_MS := 60_000

  // ---- What the run is given

  /** Attempt of one stream call: the time left before it, its answer, and the time left for a retry. */
  datatype Attempt = Attempt(left: nat, status: int, transport: bool, hint: Option<int>, leftToWait: nat, ok: Option<bool>)

  /** One stream call: its attempts, and whether its final error text speaks of the job deadline. */
  datatype Call = Call(attempts: nat -> Attempt, mentionsDeadline: bool)

  /** What one scope meets: the time left when it starts, and a call for every stage and path. */
  datatype ScopeWorld = ScopeWorld(left: nat, calls: (nat, nat) -> Call)

  datatype Path = Path(stage: Stage, vm: Option<string>)

  /** The parameters that are the same for all scopes. */
  datatype RunPlan = RunPlan(stages: seq<Stage>, vms: seq<string>, deadline: bool)

  /** An endpoint: its key, its id on the backend if known there, and its cascaded sync modes. */
  datatype Endpoint = Endpoint(pk: string, wire: Option<string>, active: Modes)

  // ---- What the run does

  datatype Request = Request(endpoint: string, scope: seq<string>, modes: Modes, path: Path)

  datatype Record =
    | Skipped(endpoint: string, stage: Stage, reason: Reason)
    | Result(endpoint: string, stage: Stage, path: Path, ok: Option<bool>)
    | ScopeFailed(failed: Option<string>, cause: Option<Stage>)

  datatype Event = Requested(request: Request) | Recorded(record: Record)

  // ---- Endpoint scopes

  /** Texts that Python's `int` accepts, restricted to ASCII. */
  predicate IsIntText(s: string) {
    var digits := if s != "" && (s[0] == '+' || s[0] == '-') then s[1..] else s;
    && digits != ""
    && '0' <= digits[0] <= '9' && '0' <= digits[|digits| - 1] <= '9'
    && (forall i :: 0 <= i < |digits| ==> '0' <= digits[i] <= '9' || digits[i] == '_')
    && (forall i :: 0 <= i < |digits| - 1 ==> !(digits[i] == '_' && digits[i + 1] == '_'))
  }

  /** A requested text that is a whole number once stripped. */
  predicate IsUsable(raw: string) {
    Text.Strip(raw) != "" && IsIntText(Text.Strip(raw))
  }

  /** The requested texts that are whole numbers. */
  function UsableIds(raw: seq<string>): seq<string> {
    if raw == [] then []
    else
      var text := Text.Strip(raw[0]);
      if text != "" && IsIntText(text) then [text] + UsableIds(raw[1..]) else UsableIds(raw[1..])
  }

  function Restrict(ids: seq<string>, enabled: seq<string>): seq<string> {
    if ids == [] then []
    else if ids[0] in enabled then [ids[0]] + Restrict(ids[1..], enabled)
    else Restrict(ids[1..], enabled)
  }

  /** `_proxmox_endpoint_scopes`: the usable requested endpoints that are enabled, or all enabled ones. */
  function Scopes(raw: seq<string>, enabled: seq<string>): seq<string> {
    var requested := UsableIds(raw);
    if requested != [] then Restrict(requested, enabled) else enabled
  }

  lemma {:induction false} UsableIdsPicked(raw: seq<string>)
    ensures Picked(raw, UsableIds(raw), IsUsable, Text.Strip)
  {
    if raw == [] {
      PickedNothing(IsUsable, Text.Strip);
    } else {
      UsableIdsPicked(raw[1..]);
      PickedCons(raw, UsableIds(raw), IsUsable, Text.Strip);
    }
  }

  lemma {:induction false} RestrictPicked(raw: seq<string>, enabled: seq<string>, keep: string -> bool)
    requires forall x :: keep(x) <==> IsUsable(x) && Text.Strip(x) in enabled
    ensures Picked(raw, Restrict(UsableIds(raw), enabled), keep, Text.Strip)
  {
    if raw == [] {
      PickedNothing(keep, Text.Strip);
    } else {
      RestrictPicked(raw[1..], enabled, keep);
      PickedCons(raw, Restrict(UsableIds(raw), enabled), keep, Text.Strip);
    }
  }

  lemma SomeUsable(raw: seq<string>)
    ensures UsableIds(raw) != [] <==> exists i :: 0 <= i < |raw| && IsUsable(raw[i])
  {
    UsableIdsPicked(raw);
    PickedSome(raw, UsableIds(raw), IsUsable, Text.Strip);
  }

  /**
   The scopes of a run: if some requested text is a whole number, the enabled ones among those texts, each
   as often as it was asked for and in that order; otherwise all enabled endpoints.
   */
  lemma ScopesExactly(raw: seq<string>, enabled: seq<string>, keep: string -> bool)
    requires forall x :: keep(x) <==> IsUsable(x) && Text.Strip(x) in enabled
    ensures if exists i :: 0 <= i < |raw| && IsUsable(raw[i])
            then Picked(raw, Scopes(raw, enabled), keep, Text.Strip)
            else Scopes(raw, enabled) == enabled
  {
    SomeUsable(raw);
    RestrictPicked(raw, enabled, keep);
  }

  /** An endpoint gets a scope if and only if it is enabled and was asked for, or no usable one was. */
  lemma ScopesHas(raw: seq<string>, enabled: seq<string>, pk: string)
    ensures pk in Scopes(raw, enabled) <==>
      && pk in enabled
      && ((forall i :: 0 <= i < |raw| ==> !IsUsable(raw[i]))
          || exists i :: 0 <= i < |raw| && IsUsable(raw[i]) && Text.Strip(raw[i]) == pk)
  {
    var keep := (x: string) => IsUsable(x) && Text.Strip(x) in enabled;
    ScopesExactly(raw, enabled, keep);
    if exists i :: 0 <= i < |raw| && IsUsable(raw[i]) {
      PickedHas(raw, Scopes(raw, enabled), keep, Text.Strip, pk);
    }
  }

  // ---- Stages

  /** The stages that have a path per machine. */
  predicate PerMachine(stage: Stage) {
    stage.VirtualMachines? || stage.VmDisks? || stage.VmBackups? || stage.VmSnapshots?
  }

  /** The paths of a stage: one per selected machine where the stage has such paths, else one. */
  function StreamPaths(stage: Stage, vms: seq<string>): seq<Path> {
    var targets := Text.NonEmpty(vms);
    if targets == [] || !PerMachine(stage) then [Path(stage, None)]
    else seq(|targets|, i requires 0 <= i < |targets| => Path(stage, Some(targets[i])))
  }

  predicate Optional(stage: Stage) {
    stage.VmBackups? || stage.VmSnapshots? || stage.TaskHistory? || stage.Sdn?
  }

  /** Why a stage is skipped: the mode of its resource, or both halves of vm. */
  datatype Reason = ResourceOff(resource: Resource) | VmOff

  predicate Off(effective: Modes, resource: Resource) {
    resource in effective && effective[resource] == Disabled
  }

  /** The resource whose mode decides about a stage. */
  function StageResource(stage: Stage): Option<Resource> {
    match stage
    case Devices => Some(Node)
    case NetworkInterfaces => Some(Node)
    case Storage => Some(Resource.Storage)
    case VmInterfaces => Some(VmInterface)
    case IpAddresses => Some(IpAddress)
    case Sdn => Some(Resource.Sdn)
    case _ => None
  }

  /** `_stage_skip_reason` under the cascaded modes. */
  function SkipReason(effective: Modes, stage: Stage): Option<Reason> {
    var resource := StageResource(stage);
    if resource.Some? && Off(effective, resource.value) then Some(ResourceOff(resource.value))
    else if (stage.VirtualMachines? || stage.VmDisks? || stage.VmBackups? || stage.VmSnapshots?)
         && Off(effective, Vm) && Off(effective, VmTemplate) then Some(VmOff)
    else None
  }

  /** What `_set_sync_mode_vars` stores. */
  function Stored(modes: Modes): Modes {
    map r | r in FIELDS :: ResourceMode(modes, r)
  }

  /** `_active_sync_modes` after the modes of one endpoint were stored. */
  function Active(modes: Modes): Modes {
    Cascade(Stored(modes), HIERARCHY, FIELDS)
  }

  // ---- One stream call with retries

  predicate Retryable(a: Attempt) {
    a.status >= 500 || a.status == 429 || (a.status == 400 && a.transport)
  }

  function RetryDelay(a: Attempt, k: nat): (ms: int)
    requires k < RETRIES
    ensures 0 <= ms <= RETRY_MAX_MS
  {
    if a.hint.Some? then Min(Max(a.hint.value, 0), RETRY_MAX_MS)
    else Min(if k == 0 then RETRY_INITIAL_MS else RETRY_INITIAL_MS * 2, RETRY_MAX_MS)
  }

  datatype Outcome = Succeeded(ok: Option<bool>) | Failed(deadline: bool)

  /** The number of requests sent from attempt `k` on, and how the call ends. */
  function Execute(call: Call, deadline: bool, k: nat): (r: (nat, Outcome))
    requires k <= RETRIES
    ensures r.0 <= RETRIES + 1 - k
    ensures r.1.Succeeded? ==> r.0 > 0
    decreases RETRIES - k
  {
    var a := call.attempts(k);
    if deadline && a.left <= 0 then (0, Failed(true))
    else if a.status < 400 then (1, Succeeded(a.ok))
    else if Retryable(a) && k < RETRIES then
      if deadline && Min(RetryDelay(a, k), a.leftToWait) <= 0 then (1, Failed(true))
      else
        var rest := Execute(call, deadline, k + 1);
        (rest.0 + 1, rest.1)
    else (1, Failed(call.mentionsDeadline))
  }

  // ---- One scope, as a function of its own endpoint and its own world

  datatype Trace = Trace(events: seq<Event>, failed: bool)

  /** One trace after another, unless the first one failed. */
  function Then(before: Trace, next: Trace): Trace {
    if before.failed then before else Trace(before.events + next.events, next.failed)
  }

  /** The first `n` traces one after another, up to a failure. */
  function Fold(ts: seq<Trace>, n: nat): Trace
    requires n <= |ts|
  {
    if n == 0 then Trace([], false) else Then(Fold(ts, n - 1), ts[n - 1])
  }

  function Repeat(request: Request, n: nat): (events: seq<Event>)
    ensures |events| == n && forall i :: 0 <= i < n ==> events[i] == Requested(request)
  {
    if n == 0 then [] else Repeat(request, n - 1) + [Requested(request)]
  }

  function PathRequest(endpoint: Endpoint, path: Path): Request
    requires endpoint.wire.Some?
  {
    Request(endpoint.pk, [endpoint.wire.value], endpoint.active, path)
  }

  /** Path `p` of stage `j`. */
  function PathTrace(plan: RunPlan, endpoint: Endpoint, world: ScopeWorld, j: nat, p: nat): Trace
    requires endpoint.wire.Some? && j < |plan.stages| && p < |StreamPaths(plan.stages[j], plan.vms)|
  {
    var stage := plan.stages[j];
    var path := StreamPaths(stage, plan.vms)[p];
    var (n, outcome) := Execute(world.calls(j, p), plan.deadline, 0);
    var sent := Repeat(PathRequest(endpoint, path), n);
    match outcome
    case Succeeded(ok) => Trace(sent + [Recorded(Result(endpoint.pk, stage, path, ok))], false)
    case Failed(deadline) =>
      if Optional(stage) && !deadline then Trace(sent, false)
      else Trace(sent + [Recorded(ScopeFailed(Some(endpoint.pk), Some(stage)))], true)
  }

  function PathTraces(plan: RunPlan, endpoint: Endpoint, world: ScopeWorld, j: nat): (ts: seq<Trace>)
    requires endpoint.wire.Some? && j < |plan.stages|
    ensures |ts| == |StreamPaths(plan.stages[j], plan.vms)|
    ensures forall p :: 0 <= p < |ts| ==> ts[p] == PathTrace(plan, endpoint, world, j, p)
  {
    seq(|StreamPaths(plan.stages[j], plan.vms)|,
        p requires 0 <= p < |StreamPaths(plan.stages[j], plan.vms)| => PathTrace(plan, endpoint, world, j, p))
  }

  /** Stage `j`: a configured skip, or its paths one after another. */
  function StageTrace(plan: RunPlan, endpoint: Endpoint, world: ScopeWorld, j: nat): Trace
    requires endpoint.wire.Some? && j < |plan.stages|
  {
    var stage := plan.stages[j];
    var reason := SkipReason(endpoint.active, stage);
    if reason.Some? then Trace([Recorded(Skipped(endpoint.pk, stage, reason.value))], false)
    else
      var ts := PathTraces(plan, endpoint, world, j);
      Fold(ts, |ts|)
  }

  function StageTraces(plan: RunPlan, endpoint: Endpoint, world: ScopeWorld): (ts: seq<Trace>)
    requires endpoint.wire.Some?
    ensures |ts| == |plan.stages|
    ensures forall j :: 0 <= j < |ts| ==> ts[j] == StageTrace(plan, endpoint, world, j)
  {
    seq(|plan.stages|, j requires 0 <= j < |plan.stages| => StageTrace(plan, endpoint, world, j))
  }

  /** Distinct stages in order of first occurrence: the keys of a Python dictionary. */
  function Keys(stages: seq<Stage>): seq<Stage> {
    if stages == [] then []
    else
      var before := Keys(stages[..|stages| - 1]);
      if stages[|stages| - 1] in before then before else before + [stages[|stages| - 1]]
  }

  predicate AllSkipped(stages: seq<Stage>, effective: Modes) {
    forall i :: 0 <= i < |stages| ==> SkipReason(effective, stages[i]).Some?
  }

  function SkipRecords(pk: string, stages: seq<Stage>, effective: Modes): seq<Event>
    requires AllSkipped(stages, effective)
  {
    seq(|stages|, i requires 0 <= i < |stages| && AllSkipped(stages, effective) =>
          Recorded(Skipped(pk, stages[i], SkipReason(effective, stages[i]).value)))
  }

  lemma {:induction false} KeysMeaning(stages: seq<Stage>)
    ensures forall stage :: stage in Keys(stages) <==> stage in stages
  {
    if stages != [] {
      KeysMeaning(stages[..|stages| - 1]);
      assert stages == stages[..|stages| - 1] + [stages[|stages| - 1]];
    }
  }

  /** `_record_unresolved_endpoint`: an endpoint the backend does not know. */
  function UnresolvedTrace(plan: RunPlan, endpoint: Endpoint): Trace {
    var stages, effective := Keys(plan.stages), endpoint.active;
    if AllSkipped(stages, effective) then Trace(SkipRecords(endpoint.pk, stages, effective), false)
    else Trace([Recorded(ScopeFailed(Some(endpoint.pk), None))], true)
  }

  function ScopeTrace(plan: RunPlan, endpoint: Endpoint, world: ScopeWorld): Trace {
    if endpoint.wire.None? then UnresolvedTrace(plan, endpoint)
    else Fold(StageTraces(plan, endpoint, world), |plan.stages|)
  }

  // ---- What a scope leaves behind

  /** An event of this scope alone; a request names exactly the backend id of the endpoint. */
  predicate OwnEvent(endpoint: Endpoint, event: Event) {
    match event
    case Requested(request) =>
      && endpoint.wire.Some?
      && request.endpoint == endpoint.pk
      && request.scope == [endpoint.wire.value]
      && request.modes == endpoint.active
    case Recorded(Skipped(pk, _, _)) => pk == endpoint.pk
    case Recorded(Result(pk, _, _, _)) => pk == endpoint.pk
    case Recorded(ScopeFailed(pk, _)) => pk == Some(endpoint.pk)
  }

  predicate IsFailure(event: Event) {
    event.Recorded? && event.record.ScopeFailed?
  }

  ghost predicate OwnEvents(endpoint: Endpoint, events: seq<Event>) {
    forall i :: 0 <= i < |events| ==> OwnEvent(endpoint, events[i])
  }

  /** The only failure of a trace is its last event, and it is there exactly if the trace failed. */
  ghost predicate EndsProperly(t: Trace) {
    && (t.failed ==> t.events != [])
    && forall i :: 0 <= i < |t.events| ==> (IsFailure(t.events[i]) <==> t.failed && i == |t.events| - 1)
  }

  /** Own events, properly ended. */
  ghost predicate Proper(endpoint: Endpoint, t: Trace) {
    OwnEvents(endpoint, t.events) && EndsProperly(t)
  }

  lemma {:induction false} FoldProper(endpoint: Endpoint, ts: seq<Trace>, n: nat)
    requires n <= |ts| && forall i :: 0 <= i < n ==> Proper(endpoint, ts[i])
    ensures Proper(endpoint, Fold(ts, n))
  {
    if n > 0 {
      FoldProper(endpoint, ts, n - 1);
      assert Proper(endpoint, ts[n - 1]);
    }
  }

  /** If nothing failed, every trace is there in full. */
  lemma {:induction false} FoldHas(ts: seq<Trace>, n: nat, i: nat)
    requires i < n <= |ts| && !Fold(ts, n).failed
    ensures !ts[i].failed && forall event :: event in ts[i].events ==> event in Fold(ts, n).events
  {
    if i < n - 1 {
      FoldHas(ts, n - 1, i);
    }
  }

  ghost predicate HasResult(events: seq<Event>, pk: string, stage: Stage, path: Path) {
    exists ok :: Recorded(Result(pk, stage, path, ok)) in events
  }

  /** A stage is accounted for: a configured skip, or, unless it is optional, a result per path. */
  ghost predicate Covered(plan: RunPlan, endpoint: Endpoint, events: seq<Event>, stage: Stage) {
    match SkipReason(endpoint.active, stage)
    case Some(reason) => Recorded(Skipped(endpoint.pk, stage, reason)) in events
    case None =>
      Optional(stage) || forall p :: 0 <= p < |StreamPaths(stage, plan.vms)| ==> HasResult(events, endpoint.pk, stage, StreamPaths(stage, plan.vms)[p])
  }

  lemma CoveredIn(plan: RunPlan, endpoint: Endpoint, events: seq<Event>, all: seq<Event>, stage: Stage)
    requires Covered(plan, endpoint, events, stage) && forall event :: event in events ==> event in all
    ensures Covered(plan, endpoint, all, stage)
  {
    forall path | HasResult(events, endpoint.pk, stage, path) ensures HasResult(all, endpoint.pk, stage, path) {
      var ok :| Recorded(Result(endpoint.pk, stage, path, ok)) in events;
      assert Recorded(Result(endpoint.pk, stage, path, ok)) in all;
    }
  }

  lemma PathSettles(plan: RunPlan, endpoint: Endpoint, world: ScopeWorld, j: nat, p: nat)
    requires endpoint.wire.Some? && j < |plan.stages| && p < |StreamPaths(plan.stages[j], plan.vms)|
    ensures
      var t := PathTrace(plan, endpoint, world, j, p);
      var stage := plan.stages[j];
      && Proper(endpoint, t)
      && (t.failed || Optional(stage) || HasResult(t.events, endpoint.pk, stage, StreamPaths(stage, plan.vms)[p]))
  {
    var t := PathTrace(plan, endpoint, world, j, p);
    var (n, outcome) := Execute(world.calls(j, p), plan.deadline, 0);
    if outcome.Succeeded? {
      assert t.events[n] == Recorded(Result(endpoint.pk, plan.stages[j], StreamPaths(plan.stages[j], plan.vms)[p], outcome.ok));
    }
  }

  lemma StageSettles(plan: RunPlan, endpoint: Endpoint, world: ScopeWorld, j: nat)
    requires endpoint.wire.Some? && j < |plan.stages|
    ensures
      var t := StageTrace(plan, endpoint, world, j);
      Proper(endpoint, t) && (t.failed || Covered(plan, endpoint, t.events, plan.stages[j]))
  {
    var ts := PathTraces(plan, endpoint, world, j);
    var t := Fold(ts, |ts|);
    forall p | 0 <= p < |ts| ensures Proper(endpoint, ts[p]) {
      PathSettles(plan, endpoint, world, j, p);
    }
    FoldProper(endpoint, ts, |ts|);
    if !t.failed && !Optional(plan.stages[j]) {
      forall p | 0 <= p < |ts|
        ensures HasResult(t.events, endpoint.pk, plan.stages[j], StreamPaths(plan.stages[j], plan.vms)[p])
      {
        PathSettles(plan, endpoint, world, j, p);
        FoldHas(ts, |ts|, p);
        var ok :| Recorded(Result(endpoint.pk, plan.stages[j], StreamPaths(plan.stages[j], plan.vms)[p], ok)) in ts[p].events;
      }
    }
  }

  lemma UnresolvedSettles(plan: RunPlan, endpoint: Endpoint)
    ensures
      var t := UnresolvedTrace(plan, endpoint);
      && Proper(endpoint, t)
      && (t.failed || forall i :: 0 <= i < |plan.stages| ==> Covered(plan, endpoint, t.events, plan.stages[i]))
  {
    var t := UnresolvedTrace(plan, endpoint);
    var stages := Keys(plan.stages);
    KeysMeaning(plan.stages);
    forall i | 0 <= i < |plan.stages| && !t.failed ensures Covered(plan, endpoint, t.events, plan.stages[i]) {
      assert plan.stages[i] in stages;
      var k :| 0 <= k < |stages| && stages[k] == plan.stages[i];
      assert t.events[k] == Recorded(Skipped(endpoint.pk, stages[k], SkipReason(endpoint.active, stages[k]).value));
    }
  }

  /**
   One scope, whatever the backend answers: all its requests name exactly the backend id of its
   endpoint, and it ends either with exactly one failure and nothing after it, or with every required
   stage recorded as a result per path or as a configured skip.
   */
  lemma ScopeSettles(plan: RunPlan, endpoint: Endpoint, world: ScopeWorld)
    ensures
      var t := ScopeTrace(plan, endpoint, world);
      && Proper(endpoint, t)
      && (t.failed || forall i :: 0 <= i < |plan.stages| ==> Covered(plan, endpoint, t.events, plan.stages[i]))
  {
    if endpoint.wire.Some? {
      var ts := StageTraces(plan, endpoint, world);
      forall j | 0 <= j < |ts| ensures Proper(endpoint, ts[j]) {
        StageSettles(plan, endpoint, world, j);
      }
      FoldProper(endpoint, ts, |ts|);
      forall j | 0 <= j < |ts| && !Fold(ts, |ts|).failed
        ensures Covered(plan, endpoint, Fold(ts, |ts|).events, plan.stages[j])
      {
        FoldHas(ts, |ts|, j);
        StageSettles(plan, endpoint, world, j);
        CoveredIn(plan, endpoint, ts[j].events, Fold(ts, |ts|).events, plan.stages[j]);
      }
    } else {
      UnresolvedSettles(plan, endpoint);
    }
  }

  // ---- The whole run

  type World = nat -> ScopeWorld

  /** The deadline has cut the run at or before scope `i`. */
  predicate Cut(plan: RunPlan, world: World, i: nat) {
    plan.deadline && exists c: nat :: c <= i && world(c).left == 0
  }

  function LeftOver(endpoint: Endpoint): Trace {
    Trace([Recorded(ScopeFailed(Some(endpoint.pk), None))], true)
  }

  function TraceOf(plan: RunPlan, endpoints: seq<Endpoint>, world: World, i: nat): Trace
    requires i < |endpoints|
  {
    if Cut(plan, world, i) then LeftOver(endpoints[i]) else ScopeTrace(plan, endpoints[i], world(i))
  }

  function Traces(plan: RunPlan, endpoints: seq<Endpoint>, world: World): (ts: seq<Trace>)
    ensures |ts| == |endpoints| && forall i :: 0 <= i < |ts| ==> ts[i] == TraceOf(plan, endpoints, world, i)
  {
    seq(|endpoints|, i requires 0 <= i < |endpoints| => TraceOf(plan, endpoints, world, i))
  }

  /** The events of the first `n` traces, one after the other. */
  function Flat(ts: seq<Trace>, n: nat): seq<Event>
    requires n <= |ts|
  {
    if n == 0 then [] else Flat(ts, n - 1) + ts[n - 1].events
  }

  /** Everything the scopes do, in order. */
  function RunEvents(plan: RunPlan, endpoints: seq<Endpoint>, world: World): seq<Event> {
    Flat(Traces(plan, endpoints, world), |endpoints|)
  }

  /** A run over these endpoints; with none, it fails as a whole. */
  function AllEvents(plan: RunPlan, endpoints: seq<Endpoint>, world: World): seq<Event> {
    if endpoints == [] then [Recorded(ScopeFailed(None, None))] else RunEvents(plan, endpoints, world)
  }

  function Records(events: seq<Event>): seq<Record> {
    if events == [] then []
    else
      var before := Records(events[..|events| - 1]);
      match events[|events| - 1]
      case Requested(_) => before
      case Recorded(record) => before + [record]
  }

  lemma {:induction false} RecordsConcat(a: seq<Event>, b: seq<Event>)
    ensures Records(a + b) == Records(a) + Records(b)
  {
    if b == [] {
      assert a + b == a;
    } else {
      var n := |b| - 1;
      RecordsConcat(a, b[..n]);
      assert (a + b)[..|a + b| - 1] == a + b[..n];
    }
  }

  /** A scope the deadline cut off has one failure and no request; any other scope settles by itself. */
  lemma EveryScopeSettles(plan: RunPlan, endpoints: seq<Endpoint>, world: World, i: nat)
    requires i < |endpoints|
    ensures
      var t := TraceOf(plan, endpoints, world, i);
      && Proper(endpoints[i], t)
      && (t.failed || forall j :: 0 <= j < |plan.stages| ==> Covered(plan, endpoints[i], t.events, plan.stages[j]))
      && (Cut(plan, world, i) ==> t.failed && |t.events| == 1)
  {
    ScopeSettles(plan, endpoints[i], world(i));
  }

  // ---- Isolation of endpoints from each other

  /** The endpoint an event is about. */
  function About(event: Event): Option<string> {
    match event
    case Requested(request) => Some(request.endpoint)
    case Recorded(Skipped(pk, _, _)) => Some(pk)
    case Recorded(Result(pk, _, _, _)) => Some(pk)
    case Recorded(ScopeFailed(pk, _)) => pk
  }

  /** The requests and records of one endpoint, in order. */
  function EventsOf(events: seq<Event>, pk: string): seq<Event> {
    if events == [] then []
    else
      var n := |events| - 1;
      EventsOf(events[..n], pk) + if About(events[n]) == Some(pk) then [events[n]] else []
  }

  lemma {:induction false} EventsOfConcat(a: seq<Event>, b: seq<Event>, pk: string)
    ensures EventsOf(a + b, pk) == EventsOf(a, pk) + EventsOf(b, pk)
  {
    if b == [] {
      assert a + b == a;
    } else {
      var n := |b| - 1;
      EventsOfConcat(a, b[..n], pk);
      assert (a + b)[..|a + b| - 1] == a + b[..n];
    }
  }

  lemma {:induction false} EventsOfOwn(endpoint: Endpoint, events: seq<Event>, pk: string)
    requires OwnEvents(endpoint, events)
    ensures EventsOf(events, pk) == if endpoint.pk == pk then events else []
  {
    if events != [] {
      var n := |events| - 1;
      assert OwnEvent(endpoint, events[n]);
      EventsOfOwn(endpoint, events[..n], pk);
      assert events == events[..n] + [events[n]];
    }
  }

  /** One scope as its endpoint sees it: its settings, what it meets, and on which side of the deadline it is. */
  datatype View = View(endpoint: Endpoint, world: ScopeWorld, cut: bool)

  /** The scopes of one endpoint among the first `n` of a run. */
  ghost function Views(plan: RunPlan, endpoints: seq<Endpoint>, world: World, pk: string, n: nat): seq<View>
    requires n <= |endpoints|
  {
    if n == 0 then []
    else
      Views(plan, endpoints, world, pk, n - 1) +
      if endpoints[n - 1].pk == pk then [ViewAt(plan, endpoints, world, n - 1)] else []
  }

  /** What one scope does by itself. */
  function Shown(plan: RunPlan, view: View): seq<Event> {
    if view.cut then LeftOver(view.endpoint).events else ScopeTrace(plan, view.endpoint, view.world).events
  }

  type Show = View -> seq<Event>

  function ShowIn(plan: RunPlan): Show {
    view => Shown(plan, view)
  }

  /** What scopes do one after the other, each by itself. */
  function ShownAll(show: Show, views: seq<View>): seq<Event> {
    if views == [] then [] else ShownAll(show, views[..|views| - 1]) + show(views[|views| - 1])
  }

  lemma ShownOneMore(show: Show, views: seq<View>, view: View)
    ensures ShownAll(show, views + [view]) == ShownAll(show, views) + show(view)
  {
    assert (views + [view])[..|views|] == views;
  }

  /** One more trace adds its events to those of its own endpoint only. */
  lemma EventsOfOneMore(ts: seq<Trace>, n: nat, endpoint: Endpoint, pk: string)
    requires n < |ts| && OwnEvents(endpoint, ts[n].events)
    ensures EventsOf(Flat(ts, n + 1), pk) == EventsOf(Flat(ts, n), pk) + if endpoint.pk == pk then ts[n].events else []
  {
    EventsOfConcat(Flat(ts, n), ts[n].events, pk);
    EventsOfOwn(endpoint, ts[n].events, pk);
  }

  ghost function ViewAt(plan: RunPlan, endpoints: seq<Endpoint>, world: World, i: nat): View
    requires i < |endpoints|
  {
    View(endpoints[i], world(i), Cut(plan, world, i))
  }

  /** Trace `i` has only events of its own endpoint, and they are what its view shows. */
  ghost predicate Shows(plan: RunPlan, endpoints: seq<Endpoint>, world: World, ts: seq<Trace>, show: Show, i: nat)
    requires i < |endpoints| == |ts|
  {
    OwnEvents(endpoints[i], ts[i].events) && ts[i].events == show(ViewAt(plan, endpoints, world, i))
  }

  lemma {:induction false} FlatShowsViews(
    plan: RunPlan, endpoints: seq<Endpoint>, world: World, ts: seq<Trace>, show: Show, pk: string, n: nat)
    requires n <= |endpoints| == |ts| && forall i: nat :: i < n ==> Shows(plan, endpoints, world, ts, show, i)
    ensures EventsOf(Flat(ts, n), pk) == ShownAll(show, Views(plan, endpoints, world, pk, n))
  {
    if n > 0 {
      FlatShowsViews(plan, endpoints, world, ts, show, pk, n - 1);
      assert Shows(plan, endpoints, world, ts, show, n - 1);
      EventsOfOneMore(ts, n - 1, endpoints[n - 1], pk);
      var views := Views(plan, endpoints, world, pk, n - 1);
      ShownOneMore(show, views, ViewAt(plan, endpoints, world, n - 1));
      assert views + [] == views;
    }
  }

  lemma TraceShows(plan: RunPlan, endpoints: seq<Endpoint>, world: World, i: nat)
    requires i < |endpoints|
    ensures Shows(plan, endpoints, world, Traces(plan, endpoints, world), ShowIn(plan), i)
  {
    EveryScopeSettles(plan, endpoints, world, i);
  }

  /** The requests and records of an endpoint in a run are those of its own scopes, each run by itself. */
  lemma RunShowsOwnScopes(plan: RunPlan, endpoints: seq<Endpoint>, world: World, pk: string)
    ensures EventsOf(RunEvents(plan, endpoints, world), pk) ==
            ShownAll(ShowIn(plan), Views(plan, endpoints, world, pk, |endpoints|))
  {
    var ts := Traces(plan, endpoints, world);
    forall i: nat | i < |ts| ensures Shows(plan, endpoints, world, ts, ShowIn(plan), i) {
      TraceShows(plan, endpoints, world, i);
    }
    FlatShowsViews(plan, endpoints, world, ts, ShowIn(plan), pk, |endpoints|);
  }

  /**
   Two runs that agree on the scopes of one endpoint show the same requests and records of it,
   whichever and however many other endpoints there are, and whatever their backend ids, modes, answers
   and failures.
   */
  lemma {:induction false} ScopesAreIsolated(
    plan: RunPlan, endpoints: seq<Endpoint>, world: World, others: seq<Endpoint>, otherWorld: World, pk: string)
    requires Views(plan, endpoints, world, pk, |endpoints|) == Views(plan, others, otherWorld, pk, |others|)
    ensures EventsOf(RunEvents(plan, endpoints, world), pk) == EventsOf(RunEvents(plan, others, otherWorld), pk)
  {
    RunShowsOwnScopes(plan, endpoints, world, pk);
    RunShowsOwnScopes(plan, others, otherWorld, pk);
  }

  // ---- The run as the program performs it

  /** `_execute_stage_sync`: how many requests it sends, and how it ends. */
  method ExecuteStage(call: Call, deadline: bool) returns (sent: nat, outcome: Outcome)
    ensures (sent, outcome) == Execute(call, deadline, 0)
  {
    var waiting := true;
    sent, outcome := 0, Failed(true);
    while waiting
      invariant waiting ==>
        && sent <= RETRIES
        && Execute(call, deadline, 0) == (sent + Execute(call, deadline, sent).0, Execute(call, deadline, sent).1)
      invariant !waiting ==> (sent, outcome) == Execute(call, deadline, 0)
      decreases waiting, RETRIES - sent
    {
      var a := call.attempts(sent);
      if deadline && a.left <= 0 {
        outcome, waiting := Failed(true), false;
      } else {
        var k := sent;
        sent := sent + 1;
        if a.status < 400 {
          outcome, waiting := Succeeded(a.ok), false;
        } else if !Retryable(a) || k == RETRIES {
          outcome, waiting := Failed(call.mentionsDeadline), false;
        } else if deadline && Min(RetryDelay(a, k), a.leftToWait) <= 0 {
          outcome, waiting := Failed(true), false;
        }
      }
    }
  }

  lemma {:induction false} NothingRecorded(request: Request, n: nat)
    ensures Records(Repeat(request, n)) == []
  {
    if n > 0 {
      NothingRecorded(request, n - 1);
      assert Repeat(request, n)[..n - 1] == Repeat(request, n - 1);
    }
  }

  class StageRunner {
    /** The module-level sync-mode variables, overwritten by every scope. */
    var modes: Modes
    var stagesOut: seq<Record>
    ghost var events: seq<Event>

    ghost predicate Valid()
      reads this
    {
      stagesOut == Records(events)
    }

    constructor ()
      ensures Valid() && events == []
    {
      modes, stagesOut := map[], [];
      events := [];
    }

    /** `_active_sync_modes`: read from the shared variables at every use. */
    function ActiveModes(): Modes
      reads this
    {
      Cascade(modes, HIERARCHY, FIELDS)
    }

    method SetSyncModes(configured: Modes)
      modifies this`modes
      ensures modes == Stored(configured)
    {
      var todo := FIELDS;
      while todo != {}
        invariant todo <= FIELDS
        invariant forall r :: r in FIELDS - todo ==> r in modes && modes[r] == ResourceMode(configured, r)
        decreases |todo|
      {
        var r :| r in todo;
        modes, todo := modes[r := ResourceMode(configured, r)], todo - {r};
      }
      modes := map r | r in FIELDS :: modes[r];
    }

    method Append(record: Record)
      requires Valid()
      modifies this`stagesOut, this`events
      ensures Valid() && events == old(events) + [Recorded(record)]
    {
      assert (events + [Recorded(record)])[..|events|] == events;
      stagesOut := stagesOut + [record];
      events := events + [Recorded(record)];
    }

    /** `n` requests on the wire. */
    ghost method Send(request: Request, n: nat)
      requires Valid()
      modifies this`events
      ensures Valid() && events == old(events) + Repeat(request, n)
    {
      RecordsConcat(events, Repeat(request, n));
      NothingRecorded(request, n);
      events := events + Repeat(request, n);
    }

    /** One path of one stage; the result says whether the scope has failed. */
    method RunPath(plan: RunPlan, endpoint: Endpoint, world: ScopeWorld, j: nat, p: nat) returns (failed: bool)
      requires Valid() && endpoint.wire.Some? && j < |plan.stages| && p < |StreamPaths(plan.stages[j], plan.vms)|
      modifies this`stagesOut, this`events
      ensures Valid()
      ensures events == old(events) + PathTrace(plan, endpoint, world, j, p).events
      ensures failed == PathTrace(plan, endpoint, world, j, p).failed
    {
      var stage := plan.stages[j];
      var path := StreamPaths(stage, plan.vms)[p];
      var sent, outcome := ExecuteStage(world.calls(j, p), plan.deadline);
      Send(PathRequest(endpoint, path), sent);
      if outcome.Succeeded? {
        Append(Result(endpoint.pk, stage, path, outcome.ok));
        return false;
      }
      if Optional(stage) && !outcome.deadline {
        return false;
      }
      Append(ScopeFailed(Some(endpoint.pk), Some(stage)));
      return true;
    }

    /** One stage: a configured skip, or its paths up to a failure. */
    method RunStage(plan: RunPlan, endpoint: Endpoint, world: ScopeWorld, j: nat) returns (failed: bool)
      requires Valid() && endpoint.wire.Some? && j < |plan.stages| && ActiveModes() == endpoint.active
      modifies this`stagesOut, this`events
      ensures Valid()
      ensures events == old(events) + StageTrace(plan, endpoint, world, j).events
      ensures failed == StageTrace(plan, endpoint, world, j).failed
    {
      var stage := plan.stages[j];
      var reason := SkipReason(ActiveModes(), stage);
      if reason.Some? {
        Append(Skipped(endpoint.pk, stage, reason.value));
        return false;
      }
      ghost var ts := PathTraces(plan, endpoint, world, j);
      for p := 0 to |StreamPaths(stage, plan.vms)|
        invariant Valid() && events == old(events) + Fold(ts, p).events && !Fold(ts, p).failed
      {
        failed := RunPath(plan, endpoint, world, j, p);
        Advance(old(events), ts, p);
        if failed {
          FoldStops(ts, p + 1);
          return;
        }
      }
      return false;
    }

    /** All stages of one resolved endpoint. */
    method RunStages(plan: RunPlan, endpoint: Endpoint, world: ScopeWorld, ghost ts: seq<Trace>)
      requires Valid() && endpoint.wire.Some? && ActiveModes() == endpoint.active && AreStageTraces(ts, plan, endpoint, world)
      modifies this`stagesOut, this`events
      ensures Valid() && events == old(events) + Fold(ts, |ts|).events
    {
      var j, failed := 0, false;
      while j < |plan.stages| && !failed
        invariant 0 <= j <= |plan.stages|
        invariant Valid() && events == old(events) + Fold(ts, j).events && failed == Fold(ts, j).failed
      {
        failed := RunStageOf(plan, endpoint, world, j, ts);
        Advance(old(events), ts, j);
        j := j + 1;
      }
      if failed {
        FoldStops(ts, j);
      }
    }

    method RunStageOf(plan: RunPlan, endpoint: Endpoint, world: ScopeWorld, j: nat, ghost ts: seq<Trace>) returns (failed: bool)
      requires Valid() && endpoint.wire.Some? && ActiveModes() == endpoint.active && AreStageTraces(ts, plan, endpoint, world)
      requires j < |plan.stages|
      modifies this`stagesOut, this`events
      ensures Valid() && events == old(events) + ts[j].events && failed == ts[j].failed
    {
      assert IsStageTrace(ts, plan, endpoint, world, j);
      failed := RunStage(plan, endpoint, world, j);
    }

    /** `_record_unresolved_endpoint`; it stores the modes of its endpoint and reads them for every stage. */
    method RecordUnresolved(plan: RunPlan, pk: string, configured: Modes)
      requires Valid()
      modifies this
      ensures Valid() && events == old(events) + UnresolvedTrace(plan, Endpoint(pk, None, Active(configured))).events
    {
      SetSyncModes(configured);
      RecordSkips(plan, Endpoint(pk, None, ActiveModes()));
    }

    /** Skips if every stage is configured off, else one failure. */
    method RecordSkips(plan: RunPlan, endpoint: Endpoint)
      requires Valid()
      modifies this`stagesOut, this`events
      ensures Valid() && events == old(events) + UnresolvedTrace(plan, endpoint).events
    {
      var stages := Keys(plan.stages);
      if AllSkipped(stages, endpoint.active) {
        ghost var all := SkipRecords(endpoint.pk, stages, endpoint.active);
        for i := 0 to |stages|
          invariant Valid() && events == old(events) + all[..i]
        {
          Append(Skipped(endpoint.pk, stages[i], SkipReason(endpoint.active, stages[i]).value));
        }
        assert all[..|all|] == all;
      } else {
        Append(ScopeFailed(Some(endpoint.pk), None));
      }
    }

    /** One scope: its base query carries the modes stored for it, and every stage reads them again. */
    method RunScope(plan: RunPlan, pk: string, backend: Option<string>, configured: Modes, world: ScopeWorld)
      requires Valid()
      modifies this
      ensures Valid() && events == old(events) + ScopeTrace(plan, Endpoint(pk, backend, Active(configured)), world).events
    {
      if backend.None? {
        RecordUnresolved(plan, pk, configured);
      } else {
        SetSyncModes(configured);
        var endpoint := Endpoint(pk, backend, ActiveModes());
        ghost var ts := StageTraces(plan, endpoint, world);
        StageTracesAre(plan, endpoint, world);
        RunStages(plan, endpoint, world, ts);
      }
    }

    /** `_record_deadline_endpoints`: one failure for every scope left. */
    method RecordDeadline(scopes: seq<string>, ghost ts: seq<Trace>, from: nat)
      requires Valid() && from <= |scopes| == |ts| && events == Flat(ts, from)
      requires forall i :: from <= i < |ts| ==> ts[i].events == [Recorded(ScopeFailed(Some(scopes[i]), None))]
      modifies this`stagesOut, this`events
      ensures Valid() && events == Flat(ts, |ts|)
    {
      for i := from to |scopes|
        invariant Valid() && events == Flat(ts, i)
      {
        Append(ScopeFailed(Some(scopes[i]), None));
      }
    }

    /**
     `_run_all_stages_sync`: resolve the scopes, and run each with the modes of its own endpoint. The
     modes are kept in one shared place, yet every scope does what it would do alone.
     */
    method RunAllStages(
      plan: RunPlan, raw: seq<string>, enabled: seq<string>, wire: map<string, string>, modesOf: string -> Modes, world: World)
      requires Valid() && events == []
      modifies this
      ensures Valid() && events == AllEvents(plan, Endpoints(Scopes(raw, enabled), wire, modesOf), world)
    {
      var scopes := Scopes(raw, enabled);
      if scopes == [] {
        Append(ScopeFailed(None, None));
      } else {
        ghost var endpoints := Endpoints(scopes, wire, modesOf);
        ghost var ts := Traces(plan, endpoints, world);
        assert forall i: nat :: i < |ts| ==> IsTrace(ts, plan, endpoints, world, i);
        RunScopes(plan, scopes, wire, modesOf, world, endpoints, ts);
      }
    }

    /** The loop over the scopes. */
    method RunScopes(
      plan: RunPlan, scopes: seq<string>, wire: map<string, string>, modesOf: string -> Modes, world: World,
      ghost endpoints: seq<Endpoint>, ghost ts: seq<Trace>)
      requires Valid() && events == [] && endpoints == Endpoints(scopes, wire, modesOf) && AreTraces(ts, plan, endpoints, world)
      modifies this
      ensures Valid() && events == Flat(ts, |ts|)
    {
      var i := 0;
      while i < |scopes| && (plan.deadline ==> world(i).left > 0)
        invariant 0 <= i <= |scopes| && Valid() && events == Flat(ts, i)
        invariant forall c :: 0 <= c < i && plan.deadline ==> world(c).left > 0
      {
        RunScopeInTime(plan, scopes, wire, modesOf, world, i, endpoints, ts);
        i := i + 1;
      }
      if i < |scopes| {
        forall k | i <= k < |ts| ensures ts[k].events == [Recorded(ScopeFailed(Some(scopes[k]), None))] {
          TooLate(plan, endpoints, world, ts, i, k);
        }
      }
      RecordDeadline(scopes, ts, i);
    }

    /** A scope that starts before the deadline, with the backend id and the modes of its own endpoint. */
    method RunScopeInTime(
      plan: RunPlan, scopes: seq<string>, wire: map<string, string>, modesOf: string -> Modes, world: World, i: nat,
      ghost endpoints: seq<Endpoint>, ghost ts: seq<Trace>)
      requires Valid() && endpoints == Endpoints(scopes, wire, modesOf) && AreTraces(ts, plan, endpoints, world)
      requires i < |scopes| && forall c :: 0 <= c <= i && plan.deadline ==> world(c).left > 0
      modifies this
      ensures Valid() && events == old(events) + ts[i].events
    {
      assert IsTrace(ts, plan, endpoints, world, i);
      var backend := if scopes[i] in wire then Some(wire[scopes[i]]) else None;
      RunScope(plan, scopes[i], backend, modesOf(scopes[i]), world(i));
    }
  }

  ghost predicate IsStageTrace(ts: seq<Trace>, plan: RunPlan, endpoint: Endpoint, world: ScopeWorld, j: nat)
    requires endpoint.wire.Some? && j < |ts| == |plan.stages|
  {
    ts[j] == StageTrace(plan, endpoint, world, j)
  }

  ghost predicate AreStageTraces(ts: seq<Trace>, plan: RunPlan, endpoint: Endpoint, world: ScopeWorld)
    requires endpoint.wire.Some?
  {
    |ts| == |plan.stages| && forall j: nat :: j < |ts| ==> IsStageTrace(ts, plan, endpoint, world, j)
  }

  lemma StageTracesAre(plan: RunPlan, endpoint: Endpoint, world: ScopeWorld)
    requires endpoint.wire.Some?
    ensures AreStageTraces(StageTraces(plan, endpoint, world), plan, endpoint, world)
  {
    var ts := StageTraces(plan, endpoint, world);
    forall j: nat | j < |ts| ensures IsStageTrace(ts, plan, endpoint, world, j) {
    }
  }

  ghost predicate IsTrace(ts: seq<Trace>, plan: RunPlan, endpoints: seq<Endpoint>, world: World, i: nat)
    requires i < |ts| == |endpoints|
  {
    ts[i] == TraceOf(plan, endpoints, world, i)
  }

  ghost predicate AreTraces(ts: seq<Trace>, plan: RunPlan, endpoints: seq<Endpoint>, world: World) {
    |ts| == |endpoints| && forall i: nat :: i < |ts| ==> IsTrace(ts, plan, endpoints, world, i)
  }

  /** From the deadline on every scope is a recorded failure. */
  lemma TooLate(plan: RunPlan, endpoints: seq<Endpoint>, world: World, ts: seq<Trace>, i: nat, k: nat)
    requires AreTraces(ts, plan, endpoints, world) && i <= k < |ts| && plan.deadline && world(i).left == 0
    ensures ts[k].events == [Recorded(ScopeFailed(Some(endpoints[k].pk), None))]
  {
    assert IsTrace(ts, plan, endpoints, world, k) && Cut(plan, world, k);
  }

  /** What the run knows about each scope. */
  function Endpoints(scopes: seq<string>, wire: map<string, string>, modesOf: string -> Modes): (endpoints: seq<Endpoint>)
    ensures |endpoints| == |scopes|
    ensures forall i :: 0 <= i < |scopes| ==>
      endpoints[i] == Endpoint(scopes[i], if scopes[i] in wire then Some(wire[scopes[i]]) else None, Active(modesOf(scopes[i])))
  {
    seq(|scopes|, i requires 0 <= i < |scopes| =>
      Endpoint(scopes[i], if scopes[i] in wire then Some(wire[scopes[i]]) else None, Active(modesOf(scopes[i]))))
  }

  lemma Advance(prefix: seq<Event>, ts: seq<Trace>, n: nat)
    requires n < |ts| && !Fold(ts, n).failed
    ensures prefix + Fold(ts, n).events + ts[n].events == prefix + Fold(ts, n + 1).events
    ensures Fold(ts, n + 1).failed == ts[n].failed
  {
  }

  /** After a failure nothing more is added. */
  lemma {:induction false} FoldStops(ts: seq<Trace>, n: nat)
    requires n <= |ts| && Fold(ts, n).failed
    ensures Fold(ts, |ts|) == Fold(ts, n)
    decreases |ts| - n
  {
    if n < |ts| {
      FoldStops(ts, n + 1);
    }
  }

  /**
   Every request of a staged run names exactly one backend id, and it is the id of an endpoint that is
   enabled and was asked for (or of any enabled one when no usable endpoint was asked for).
   */
  lemma RequestsAreScoped(
    plan: RunPlan, raw: seq<string>, enabled: seq<string>, wire: map<string, string>, modesOf: string -> Modes, world: World, request: Request)
    requires Requested(request) in RunEvents(plan, Endpoints(Scopes(raw, enabled), wire, modesOf), world)
    ensures request.endpoint in enabled && request.endpoint in wire && request.scope == [wire[request.endpoint]]
    ensures (forall i :: 0 <= i < |raw| ==> !IsUsable(raw[i]))
         || exists i :: 0 <= i < |raw| && IsUsable(raw[i]) && Text.Strip(raw[i]) == request.endpoint
    ensures request.modes == Active(modesOf(request.endpoint))
  {
    var scopes := Scopes(raw, enabled);
    var endpoints := Endpoints(scopes, wire, modesOf);
    var n := FlatSource(Traces(plan, endpoints, world), |endpoints|, Requested(request));
    var t := TraceOf(plan, endpoints, world, n);
    EveryScopeSettles(plan, endpoints, world, n);
    var i :| 0 <= i < |t.events| && t.events[i] == Requested(request);
    assert OwnEvent(endpoints[n], t.events[i]);
    assert scopes[n] in scopes;
    ScopesHas(raw, enabled, scopes[n]);
  }

  lemma {:induction false} FlatSource(ts: seq<Trace>, n: nat, event: Event) returns (i: nat)
    requires n <= |ts| && event in Flat(ts, n)
    ensures i < n && event in ts[i].events
  {
    if event in ts[n - 1].events {
      i := n - 1;
    } else {
      i := FlatSource(ts, n - 1, event);
    }
  }
}
