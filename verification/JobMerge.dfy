/**
 A sync job from its first saved parameters to the merge of its isolation branch: the local passes
 over endpoints, the staged or selected-object run, what is persisted, and what is raised. Services,
 the clock, the backend and the branch machinery answer arbitrarily.
 */
module JobMerge {
  import opened Basics
  import StageRun
  import SyncModes
  import BatchScope
  import Text

  // ---- Phases

  datatype Kind = Preflight | Cluster | Firewall | Datacenter | VmTemplate | SseStage

  datatype Phase = Phase(kind: Kind, endpoint: Option<string>, success: bool)

  predicate IsLocal(kind: Kind) {
    kind.Cluster? || kind.Firewall? || kind.Datacenter? || kind.VmTemplate?
  }

  predicate FailedLocal(phase: Phase) {
    IsLocal(phase.kind) && !phase.success
  }

  predicate NoFailedLocal(phases: seq<Phase>) {
    forall i :: 0 <= i < |phases| ==> !FailedLocal(phases[i])
  }

  // ---- Services

  datatype Row = Row(endpoint: Option<string>, success: bool)

  datatype ServiceResult = ServiceResult(success: bool, endpoint: Option<string>, rows: seq<Row>)

  /** What one service call does: reach the deadline, raise anything else, or return. */
  datatype Reply = Expired | Crashed | Done(result: ServiceResult)

  /** One endpoint's turn in a pass: whether no time was left before it, and what the service did. */
  datatype Turn = Turn(exhausted: bool, reply: Reply)

  predicate Stops(turn: Turn) {
    turn.exhausted || turn.reply.Expired?
  }

  /** `_record_local_deadline_phases`: one warning for every endpoint left. */
  function Warnings(kind: Kind, ids: seq<string>): (phases: seq<Phase>)
    ensures |phases| == |ids|
    ensures forall i :: 0 <= i < |ids| ==> phases[i] == Phase(kind, Some(ids[i]), false)
  {
    if ids == [] then [] else [Phase(kind, Some(ids[0]), false)] + Warnings(kind, ids[1..])
  }

  /** Cluster and template services answer for one endpoint; an answer without an id is that endpoint's. */
  function OwnPhase(kind: Kind, id: string, result: ServiceResult): Phase {
    Phase(kind, if result.endpoint.Some? then result.endpoint else Some(id), result.success)
  }

  /** The rows of a firewall or datacenter answer, and its aggregate when no row shows what it says. */
  function ResultRows(result: ServiceResult): seq<Row> {
    var silent := forall i :: 0 <= i < |result.rows| ==> result.rows[i].success;
    if result.rows == [] || (!result.success && silent)
    then result.rows + [Row(result.endpoint, result.success)]
    else result.rows
  }

  predicate Concerns(row: Row, id: string) {
    row.endpoint.None? || row.endpoint.value == id
  }

  /** `_phases_for_service_endpoint`: rows about another endpoint are dropped. */
  function RowPhases(kind: Kind, id: string, rows: seq<Row>): seq<Phase> {
    if rows == [] then []
    else
      (if Concerns(rows[0], id) then [Phase(kind, Some(id), rows[0].success)] else []) + RowPhases(kind, id, rows[1..])
  }

  /** What one turn that was not cut records; `None` lets the exception through. */
  function TurnPhases(kind: Kind, id: string, reply: Reply): Option<seq<Phase>>
    requires !reply.Expired?
  {
    if kind.Firewall? || kind.Datacenter? then
      match reply
      case Crashed => Some([Phase(kind, Some(id), false)])
      case Done(result) => Some(RowPhases(kind, id, ResultRows(result)))
    else
      match reply
      case Crashed => None
      case Done(result) => Some([OwnPhase(kind, id, result)])
  }

  function Prepend(before: seq<Phase>, rest: Option<seq<Phase>>): Option<seq<Phase>> {
    match rest
    case None => None
    case Some(phases) => Some(before + phases)
  }

  /** The phases of a pass from endpoint `i` on. */
  function PassPhases(kind: Kind, ids: seq<string>, turns: nat -> Turn, i: nat): Option<seq<Phase>>
    requires i <= |ids|
    decreases |ids| - i
  {
    if i == |ids| then Some([])
    else if Stops(turns(i)) then Some(Warnings(kind, ids[i..]))
    else
      match TurnPhases(kind, ids[i], turns(i).reply)
      case None => None
      case Some(own) => Prepend(own, PassPhases(kind, ids, turns, i + 1))
  }

  /** One pass over the endpoints, for each of the four local kinds. */
  method Pass(kind: Kind, ids: seq<string>, turns: nat -> Turn) returns (phases: Option<seq<Phase>>)
    ensures phases == PassPhases(kind, ids, turns, 0)
  {
    var recorded := [];
    var i := 0;
    ghost var all := PassPhases(kind, ids, turns, 0);
    PrependNothing(all);
    while i < |ids| && !Stops(turns(i))
      invariant 0 <= i <= |ids|
      invariant all == Prepend(recorded, PassPhases(kind, ids, turns, i))
    {
      var own := TurnPhases(kind, ids[i], turns(i).reply);
      PassNext(kind, ids, turns, i, recorded);
      if own.None? {
        return None;
      }
      recorded := recorded + own.value;
      i := i + 1;
    }
    PassEnd(kind, ids, turns, i);
    return Some(recorded + Warnings(kind, ids[i..]));
  }

  lemma PassNext(kind: Kind, ids: seq<string>, turns: nat -> Turn, i: nat, recorded: seq<Phase>)
    requires i < |ids| && !Stops(turns(i))
    ensures Prepend(recorded, PassPhases(kind, ids, turns, i)) ==
      match TurnPhases(kind, ids[i], turns(i).reply)
      case None => None
      case Some(own) => Prepend(recorded + own, PassPhases(kind, ids, turns, i + 1))
  {
    var own := TurnPhases(kind, ids[i], turns(i).reply);
    if own.Some? {
      PrependTwice(recorded, own.value, PassPhases(kind, ids, turns, i + 1));
    }
  }

  lemma PassEnd(kind: Kind, ids: seq<string>, turns: nat -> Turn, i: nat)
    requires i <= |ids| && (i == |ids| || Stops(turns(i)))
    ensures PassPhases(kind, ids, turns, i) == Some(Warnings(kind, ids[i..]))
  {
  }

  lemma PrependNothing(rest: Option<seq<Phase>>)
    ensures Prepend([], rest) == rest
  {
    if rest.Some? {
      assert [] + rest.value == rest.value;
    }
  }

  lemma PrependTwice(a: seq<Phase>, b: seq<Phase>, rest: Option<seq<Phase>>)
    ensures Prepend(a, Prepend(b, rest)) == Prepend(a + b, rest)
  {
    if rest.Some? {
      assert a + (b + rest.value) == (a + b) + rest.value;
    }
  }

  // ---- What a pass guarantees

  predicate OnePerEndpoint(kind: Kind) {
    kind.Cluster? || kind.VmTemplate?
  }

  /** The pass was cut at or before `k`. */
  predicate CutBy(turns: nat -> Turn, i: nat, k: nat) {
    exists c: nat :: i <= c <= k && Stops(turns(c))
  }

  /**
   * The cluster and template passes record exactly one phase per endpoint, in order: the service's
   * answer before the deadline, a warning from the deadline on.
   */
  lemma {:induction false} OnePhaseEach(kind: Kind, ids: seq<string>, turns: nat -> Turn, i: nat, k: nat)
    requires OnePerEndpoint(kind) && i <= k < |ids| && PassPhases(kind, ids, turns, i).Some?
    ensures var phases := PassPhases(kind, ids, turns, i).value;
      && |phases| == |ids| - i
      && if CutBy(turns, i, k) then phases[k - i] == Phase(kind, Some(ids[k]), false)
         else turns(k).reply.Done? && phases[k - i] == OwnPhase(kind, ids[k], turns(k).reply.result)
    decreases k - i
  {
    var phases := PassPhases(kind, ids, turns, i).value;
    if Stops(turns(i)) {
      assert CutBy(turns, i, k);
      assert phases == Warnings(kind, ids[i..]) && ids[i..][k - i] == ids[k];
    } else {
      var own, rest := OwnPhase(kind, ids[i], turns(i).reply.result), PassPhases(kind, ids, turns, i + 1).value;
      assert phases == [own] + rest;
      if i == k {
        PassLength(kind, ids, turns, i + 1);
      } else {
        OnePhaseEach(kind, ids, turns, i + 1, k);
        assert phases[k - i] == rest[k - (i + 1)];
      }
    }
  }

  lemma {:induction false} PassLength(kind: Kind, ids: seq<string>, turns: nat -> Turn, i: nat)
    requires OnePerEndpoint(kind) && i <= |ids| && PassPhases(kind, ids, turns, i).Some?
    ensures |PassPhases(kind, ids, turns, i).value| == |ids| - i
    decreases |ids| - i
  {
    if i < |ids| && !Stops(turns(i)) {
      PassLength(kind, ids, turns, i + 1);
    }
  }

  /** A failure of a firewall or datacenter answer that survives the filter on endpoints. */
  predicate ReportsFailure(result: ServiceResult, id: string) {
    || (exists i :: 0 <= i < |result.rows| && !result.rows[i].success && Concerns(result.rows[i], id))
    || (!result.success && Concerns(Row(result.endpoint, false), id)
        && forall i :: 0 <= i < |result.rows| ==> result.rows[i].success)
  }

  /** A turn after which nothing failed is on record: it was reached, returned, and reported success. */
  predicate Clean(kind: Kind, id: string, turn: Turn) {
    && !Stops(turn) && turn.reply.Done?
    && if OnePerEndpoint(kind) then turn.reply.result.success else !ReportsFailure(turn.reply.result, id)
  }

  lemma {:induction false} RowPhasesFail(kind: Kind, id: string, rows: seq<Row>)
    requires IsLocal(kind)
    ensures NoFailedLocal(RowPhases(kind, id, rows)) <==>
            forall i :: 0 <= i < |rows| ==> rows[i].success || !Concerns(rows[i], id)
  {
    if rows != [] {
      var tail := rows[1..];
      RowPhasesFail(kind, id, tail);
      var own := if Concerns(rows[0], id) then [Phase(kind, Some(id), rows[0].success)] else [];
      NoFailedConcat(own, RowPhases(kind, id, tail));
      assert own != [] ==> (FailedLocal(own[0]) <==> !rows[0].success);
      assert forall i :: 0 <= i < |tail| ==> tail[i] == rows[i + 1];
      assert forall i :: 1 <= i < |rows| ==> rows[i] == tail[i - 1];
    }
  }

  lemma NoFailedConcat(a: seq<Phase>, b: seq<Phase>)
    ensures NoFailedLocal(a + b) <==> NoFailedLocal(a) && NoFailedLocal(b)
  {
    forall i | 0 <= i < |a| ensures (a + b)[i] == a[i] {
    }
    forall i | 0 <= i < |b| ensures (a + b)[|a| + i] == b[i] {
    }
    if NoFailedLocal(a + b) {
      forall i | 0 <= i < |b| ensures !FailedLocal(b[i]) {
        assert (a + b)[|a| + i] == b[i];
      }
    }
  }

  lemma TurnFails(kind: Kind, id: string, turn: Turn)
    requires IsLocal(kind) && !Stops(turn)
    ensures Clean(kind, id, turn) <==>
            TurnPhases(kind, id, turn.reply).Some? && NoFailedLocal(TurnPhases(kind, id, turn.reply).value)
  {
    if turn.reply.Crashed? {
      if !OnePerEndpoint(kind) {
        assert FailedLocal(TurnPhases(kind, id, turn.reply).value[0]);
      }
    } else if OnePerEndpoint(kind) {
      assert TurnPhases(kind, id, turn.reply).value[0] == OwnPhase(kind, id, turn.reply.result);
    } else {
      ResultRowsFail(kind, id, turn.reply.result);
    }
  }

  /** The filter keeps a failure exactly when `ReportsFailure` says so. */
  lemma ResultRowsFail(kind: Kind, id: string, result: ServiceResult)
    requires IsLocal(kind)
    ensures NoFailedLocal(RowPhases(kind, id, ResultRows(result))) <==> !ReportsFailure(result, id)
  {
    var rows := ResultRows(result);
    RowPhasesFail(kind, id, rows);
    assert forall i :: 0 <= i < |result.rows| ==> rows[i] == result.rows[i];
    if |rows| > |result.rows| {
      assert rows[|result.rows|] == Row(result.endpoint, result.success);
    }
  }

  /** A pass leaves no failure exactly when every endpoint's turn was clean: nothing is lost at the deadline. */
  lemma {:induction false} PassIsClean(kind: Kind, ids: seq<string>, turns: nat -> Turn, i: nat)
    requires IsLocal(kind) && i <= |ids|
    ensures PassPhases(kind, ids, turns, i).Some? && NoFailedLocal(PassPhases(kind, ids, turns, i).value) <==>
            forall k :: i <= k < |ids| ==> Clean(kind, ids[k], turns(k))
    decreases |ids| - i
  {
    if i < |ids| {
      if Stops(turns(i)) {
        assert !Clean(kind, ids[i], turns(i));
        assert FailedLocal(Warnings(kind, ids[i..])[0]);
      } else {
        TurnFails(kind, ids[i], turns(i));
        PassIsClean(kind, ids, turns, i + 1);
        var own, rest := TurnPhases(kind, ids[i], turns(i).reply), PassPhases(kind, ids, turns, i + 1);
        if own.Some? && rest.Some? {
          NoFailedConcat(own.value, rest.value);
        }
      }
    }
  }

  // ---- A job, with everything it meets

  datatype Key = Verified | OutOfTime | Refused

  datatype Batch = Batch(requested: seq<string>, objects: map<string, BatchScope.Object>, objectType: BatchScope.ObjectType,
                         rows: seq<BatchScope.Claim>, raw: seq<string>, enabled: seq<string>,
                         resolution: BatchScope.Resolution, reply: nat -> int)

  /** What a staged run over the backend is given. */
  datatype StagedRun = StagedRun(plan: StageRun.RunPlan, raw: seq<string>, enabled: seq<string>, wire: map<string, string>,
                                 modesOf: string -> SyncModes.Modes, world: StageRun.World)

  /** The end of a staged job: whether the deadline has passed and for which endpoints, else the run, unless it raises. */
  datatype Finish = Finish(late: bool, ids: seq<string>, run: Option<StagedRun>)

  /** What the branch machinery answers: merged, merged with nothing to merge, or refused. */
  datatype MergeReply = Merged | NothingToMerge | MergeRefused

  datatype Job = Job(branch: bool, key: Key, batch: Option<Batch>, preflight: Option<seq<Row>>, ids: seq<string>,
                     targeted: bool, templatesOff: bool, turns: Kind -> nat -> Turn, finish: Finish,
                     backfills: bool, merge: MergeReply)

  // ---- What a job does

  datatype Evidence =
    | Parameters
    | Staged(stages: seq<StageRun.Record>, phases: seq<Phase>)
    | Selected(items: seq<BatchScope.Item>)

  datatype Note = LocalFailure | SseFailure | LeftOpen | NotMerged

  datatype Data = Data(evidence: Evidence, note: Option<Note>)

  datatype Event = Saved(data: Data) | Merging

  datatype Cause = NoKey | NoTime | NoPreflight | NoScope | ServiceCrash | SseCrash | BackfillCrash
                 | ObjectsFailed | ScopesFailed | LocalsFailed | MergeFailed

  datatype Ending = Finished | Raised(cause: Cause)

  datatype Outcome = Outcome(events: seq<Event>, ending: Ending)

  function After(events: seq<Event>, next: Outcome): Outcome {
    Outcome(events + next.events, next.ending)
  }

  function MergeOutcome(job: Job, evidence: Evidence): Outcome {
    if !job.branch then Outcome([], Finished)
    else
      match job.merge
      case Merged => Outcome([Merging], Finished)
      case NothingToMerge => Outcome([Merging, Saved(Data(evidence, Some(LeftOpen)))], Finished)
      case MergeRefused => Outcome([Merging, Saved(Data(evidence, Some(NotMerged)))], Raised(MergeFailed))
  }

  // ---- Selected objects

  function Items(batch: Batch, scope: BatchScope.Scope): seq<BatchScope.Item> {
    var ids := Text.NonEmpty(batch.requested);
    BatchScope.Reports(ids, |ids|, BatchScope.JudgeOf(batch.objects, batch.objectType, batch.rows, scope), batch.reply)
  }

  lemma {:induction false} NoneFailed(items: seq<BatchScope.Item>)
    ensures BatchScope.Succeeded(items) <= |items|
    ensures BatchScope.Succeeded(items) == |items| <==> forall i :: 0 <= i < |items| ==> items[i].status < 400
  {
    if items != [] {
      var front := items[..|items| - 1];
      NoneFailed(front);
      assert forall i :: 0 <= i < |front| ==> front[i] == items[i];
    }
  }

  /** The selected-object run of a job, and how many objects failed. */
  method RunItems(batch: Batch, scope: BatchScope.Scope) returns (items: seq<BatchScope.Item>, failed: nat)
    ensures items == Items(batch, scope) && failed == |items| - BatchScope.Succeeded(items)
  {
    var sent, succeeded;
    items, sent, succeeded, failed := BatchScope.RunSelected(
      batch.requested, batch.objects, batch.objectType, batch.rows, scope, batch.reply);
    BatchScope.SucceededCounts(items);
  }

  function BatchOutcome(job: Job, batch: Batch): Outcome {
    match BatchScope.BatchWireScope(batch.raw, batch.enabled, batch.resolution)
    case Err(_) => Outcome([], Raised(NoScope))
    case Ok(scope) =>
      if !job.backfills then Outcome([], Raised(BackfillCrash)) else ItemsOutcome(job, Items(batch, scope))
  }

  /** The end of a selected-object run, given its results. */
  function ItemsOutcome(job: Job, items: seq<BatchScope.Item>): Outcome {
    After([Saved(Data(Selected(items), None))],
          if BatchScope.Succeeded(items) < |items| then Outcome([], Raised(ObjectsFailed))
          else MergeOutcome(job, Selected(items)))
  }

  // ---- Staged runs

  predicate FailedScope(record: StageRun.Record) {
    record.ScopeFailed?
  }

  predicate NoFailedScope(stages: seq<StageRun.Record>) {
    forall i :: 0 <= i < |stages| ==> !FailedScope(stages[i])
  }

  /** `_phases_from_stage_results`; none of these is a local phase. */
  function SsePhases(stages: seq<StageRun.Record>): (phases: seq<Phase>)
    ensures |phases| == |stages| && NoFailedLocal(phases)
    ensures forall i :: 0 <= i < |stages| ==>
      && phases[i].kind.SseStage?
      && (phases[i].success <==> stages[i].Skipped? || (stages[i].Result? && stages[i].ok == Some(true)))
  {
    seq(|stages|, i requires 0 <= i < |stages| =>
      match stages[i]
      case Skipped(endpoint, _, _) => Phase(SseStage, Some(endpoint), true)
      case Result(endpoint, _, _, ok) => Phase(SseStage, Some(endpoint), ok == Some(true))
      case ScopeFailed(failed, _) => Phase(SseStage, failed, false))
  }

  /** `_deadline_sse_stages`: one failed scope for each enabled endpoint. */
  function DeadlineStages(ids: seq<string>): (stages: seq<StageRun.Record>)
    ensures NoFailedScope(stages) <==> ids == []
    ensures |stages| == |ids| && forall i :: 0 <= i < |ids| ==> stages[i] == StageRun.ScopeFailed(Some(ids[i]), None)
  {
    var stages := seq(|ids|, i requires 0 <= i < |ids| => StageRun.ScopeFailed(Some(ids[i]), None));
    assert ids != [] ==> FailedScope(stages[0]);
    stages
  }

  function FinishNote(job: Job, stages: Option<seq<StageRun.Record>>, phases: seq<Phase>): Option<Note> {
    if !job.branch then None
    else if !NoFailedLocal(phases) then Some(LocalFailure)
    else if stages.None? || !NoFailedScope(stages.value) then Some(SseFailure)
    else None
  }

  /** The endpoints of a staged run, as it sees them. */
  function EndpointsOf(run: StagedRun): seq<StageRun.Endpoint> {
    StageRun.Endpoints(StageRun.Scopes(run.raw, run.enabled), run.wire, run.modesOf)
  }

  /** The records a staged run returns. */
  function StagesOf(run: StagedRun): seq<StageRun.Record> {
    StageRun.Records(StageRun.AllEvents(run.plan, EndpointsOf(run), run.world))
  }

  /** `_run_sse_stages` when nothing is raised. */
  method RunStages(run: StagedRun) returns (stages: seq<StageRun.Record>)
    ensures stages == StagesOf(run)
  {
    var runner := new StageRun.StageRunner();
    runner.RunAllStages(run.plan, run.raw, run.enabled, run.wire, run.modesOf, run.world);
    stages := runner.stagesOut;
  }

  /** The stages a staged job ends with; `None` if the run over the backend raises. */
  function FinalStages(job: Job): Option<seq<StageRun.Record>> {
    if job.finish.late then Some(DeadlineStages(job.finish.ids))
    else if job.finish.run.None? then None
    else Some(StagesOf(job.finish.run.value))
  }

  /** `_finish_staged_sync`. */
  function FinishOutcome(job: Job, phases: seq<Phase>): Outcome {
    FinishWith(job, FinalStages(job), phases)
  }

  function FinishWith(job: Job, stages: Option<seq<StageRun.Record>>, phases: seq<Phase>): Outcome {
    if stages.None? then Outcome([Saved(Data(Staged([], phases), FinishNote(job, None, phases)))], Raised(SseCrash))
    else if !job.finish.late && !job.backfills then Outcome([], Raised(BackfillCrash))
    else
      var all := phases + SsePhases(stages.value);
      var evidence := Staged(stages.value, all);
      After([Saved(Data(evidence, FinishNote(job, stages, all)))],
            if !NoFailedScope(stages.value) then Outcome([], Raised(ScopesFailed))
            else if !NoFailedLocal(all) then Outcome([], Raised(LocalsFailed))
            else MergeOutcome(job, evidence))
  }

  function Checkpoint(job: Job, phases: seq<Phase>): Event {
    Saved(Data(Staged([], phases), if job.branch && !NoFailedLocal(phases) then Some(LocalFailure) else None))
  }

  /** The endpoints a local pass of this kind goes over; a disabled template pass goes over none. */
  function PassIds(job: Job, kind: Kind): seq<string> {
    if kind.VmTemplate? && job.templatesOff then [] else job.ids
  }

  /** The local passes still to run, in order, and then the end of the run. */
  function PassesOutcome(job: Job, kinds: seq<Kind>, phases: seq<Phase>): Outcome {
    if kinds == [] then FinishOutcome(job, phases)
    else
      match PassPhases(kinds[0], PassIds(job, kinds[0]), job.turns(kinds[0]), 0)
      case None => Outcome([], Raised(ServiceCrash))
      case Some(more) => After([Checkpoint(job, phases + more)], PassesOutcome(job, kinds[1..], phases + more))
  }

  function Kinds(job: Job): seq<Kind> {
    if job.targeted then [Cluster] else [Cluster, Firewall, Datacenter, VmTemplate]
  }

  function PreflightPhases(rows: seq<Row>): (phases: seq<Phase>)
    ensures |phases| == |rows| && NoFailedLocal(phases)
  {
    seq(|rows|, i requires 0 <= i < |rows| => Phase(Preflight, rows[i].endpoint, rows[i].success))
  }

  predicate IsBatch(job: Job) {
    job.batch.Some? && Text.NonEmpty(job.batch.value.requested) != []
  }

  /** `run`, once the job owns the sync. */
  function JobOutcome(job: Job): Outcome {
    After([Saved(Data(Parameters, None))],
          match job.key
          case OutOfTime => Outcome([Checkpoint(job, Warnings(Preflight, job.ids))], Raised(NoTime))
          case Refused => Outcome([], Raised(NoKey))
          case Verified =>
            if job.preflight.None? then Outcome([], Raised(NoPreflight))
            else if IsBatch(job) then BatchOutcome(job, job.batch.value)
            else PassesOutcome(job, Kinds(job), PreflightPhases(job.preflight.value)))
  }

  // ---- The job as the program performs it

  class SyncJob {
    var data: Data
    var events: seq<Event>
    var phases: seq<Phase>

    constructor ()
      ensures events == []
    {
      data, events, phases := Data(Parameters, None), [], [];
    }

    method Save(saved: Data)
      modifies this`data, this`events
      ensures data == saved && events == old(events) + [Saved(saved)]
    {
      data := saved;
      events := events + [Saved(saved)];
    }

    /** `_merge_sync_branch`, on top of whatever evidence is saved. */
    method MergeBranch(job: Job) returns (ending: Ending)
      modifies this`data, this`events
      ensures events == old(events) + MergeOutcome(job, old(data).evidence).events
      ensures ending == MergeOutcome(job, old(data).evidence).ending
    {
      if !job.branch {
        return Finished;
      }
      events := events + [Merging];
      match job.merge {
        case Merged => return Finished;
        case NothingToMerge =>
          Save(data.(note := Some(LeftOpen)));
          return Finished;
        case MergeRefused =>
          Save(data.(note := Some(NotMerged)));
          return Raised(MergeFailed);
      }
    }

    /** `_run_batch_phase` after the preflight. */
    method RunBatch(job: Job, batch: Batch) returns (ending: Ending)
      modifies this`data, this`events
      ensures events == old(events) + BatchOutcome(job, batch).events
      ensures ending == BatchOutcome(job, batch).ending
    {
      var resolved := BatchScope.BatchWireScope(batch.raw, batch.enabled, batch.resolution);
      if resolved.Err? {
        return Raised(NoScope);
      }
      var items, failed := RunItems(batch, resolved.value);
      if !job.backfills {
        return Raised(BackfillCrash);
      }
      ending := ConcludeBatch(job, items, failed);
    }

    /** Evidence first, then what the results allow. */
    method ConcludeBatch(job: Job, items: seq<BatchScope.Item>, failed: int) returns (ending: Ending)
      requires failed == |items| - BatchScope.Succeeded(items)
      modifies this`data, this`events
      ensures events == old(events) + ItemsOutcome(job, items).events
      ensures ending == ItemsOutcome(job, items).ending
    {
      Save(Data(Selected(items), None));
      if failed > 0 {
        return Raised(ObjectsFailed);
      }
      ending := MergeBranch(job);
    }

    /** `_finish_staged_sync`. */
    method FinishStaged(job: Job) returns (ending: Ending)
      modifies this
      ensures events == old(events) + FinishOutcome(job, old(phases)).events
      ensures ending == FinishOutcome(job, old(phases)).ending
    {
      if !job.finish.late && job.finish.run.None? {
        Save(Data(Staged([], phases), FinishNote(job, None, phases)));
        return Raised(SseCrash);
      }
      var stages;
      if job.finish.late {
        stages := DeadlineStages(job.finish.ids);
      } else {
        stages := RunStages(job.finish.run.value);
        if !job.backfills {
          return Raised(BackfillCrash);
        }
      }
      ending := Conclude(job, stages);
    }

    /** Evidence first, then what the stages and the phases allow. */
    method Conclude(job: Job, stages: seq<StageRun.Record>) returns (ending: Ending)
      requires job.finish.late || job.backfills
      modifies this
      ensures events == old(events) + FinishWith(job, Some(stages), old(phases)).events
      ensures ending == FinishWith(job, Some(stages), old(phases)).ending
    {
      phases := phases + SsePhases(stages);
      Save(Data(Staged(stages, phases), FinishNote(job, Some(stages), phases)));
      if !NoFailedScope(stages) {
        return Raised(ScopesFailed);
      }
      if !NoFailedLocal(phases) {
        return Raised(LocalsFailed);
      }
      ending := MergeBranch(job);
    }

    /** Every local pass, each checkpointed before the next starts, and then the end of the run. */
    method RunPasses(job: Job, kinds: seq<Kind>) returns (ending: Ending)
      modifies this
      ensures events == old(events) + PassesOutcome(job, kinds, old(phases)).events
      ensures ending == PassesOutcome(job, kinds, old(phases)).ending
    {
      var k := 0;
      ghost var whole := PassesOutcome(job, kinds, phases);
      assert kinds[0..] == kinds;
      while k < |kinds|
        invariant 0 <= k <= |kinds|
        invariant old(events) + whole.events == events + PassesOutcome(job, kinds[k..], phases).events
        invariant whole.ending == PassesOutcome(job, kinds[k..], phases).ending
      {
        var more := Pass(kinds[k], PassIds(job, kinds[k]), job.turns(kinds[k]));
        if more.None? {
          return Raised(ServiceCrash);
        }
        assert kinds[k..][1..] == kinds[k + 1..];
        phases := phases + more.value;
        Save(Checkpoint(job, phases).data);
        k := k + 1;
      }
      ending := FinishStaged(job);
    }

    method Run(job: Job) returns (ending: Ending)
      requires events == []
      modifies this
      ensures events == JobOutcome(job).events && ending == JobOutcome(job).ending
    {
      Save(Data(Parameters, None));
      if job.key.OutOfTime? {
        Save(Checkpoint(job, Warnings(Preflight, job.ids)).data);
        return Raised(NoTime);
      }
      if job.key.Refused? {
        return Raised(NoKey);
      }
      if job.preflight.None? {
        return Raised(NoPreflight);
      }
      if IsBatch(job) {
        ending := RunBatch(job, job.batch.value);
      } else {
        phases := PreflightPhases(job.preflight.value);
        ending := RunPasses(job, Kinds(job));
      }
    }
  }
}
