/** When a job merges its branch, exactly, and what is on record by then. */
module JobTheorems {
  import opened Basics
  import opened JobMerge
  import opened Picking
  import BatchScope
  import StageRun
  import Text

  // ---- Merge safety

  /** Every endpoint had its turn in the local pass of this kind, and none of them reported a failure. */
  ghost predicate PassClean(job: Job, kind: Kind) {
    var ids, turns := PassIds(job, kind), job.turns(kind);
    forall i :: 0 <= i < |ids| ==> Clean(kind, ids[i], turns(i))
  }

  ghost predicate PassesClean(job: Job, kinds: seq<Kind>) {
    forall j :: 0 <= j < |kinds| ==> PassClean(job, kinds[j])
  }

  /** No endpoint scope failed; past the deadline that means there was no endpoint left to sync. */
  predicate FinishClean(job: Job) {
    if job.finish.late then job.finish.ids == []
    else job.finish.run.Some? && NoFailedScope(StagesOf(job.finish.run.value)) && job.backfills
  }

  /** The scope was resolved and no selected object failed. */
  predicate BatchClean(job: Job, batch: Batch) {
    match BatchScope.BatchWireScope(batch.raw, batch.enabled, batch.resolution)
    case Err(_) => false
    case Ok(scope) => job.backfills && AllSucceeded(Items(batch, scope))
  }

  ghost predicate Sound(job: Job) {
    && job.key.Verified? && job.preflight.Some?
    && if IsBatch(job) then BatchClean(job, job.batch.value) else PassesClean(job, Kinds(job)) && FinishClean(job)
  }

  ghost predicate Merges(outcome: Outcome) {
    Merging in outcome.events
  }

  /** The outcome merges exactly if `sound`, given a branch, and completes exactly if `sound` and the merge is not refused. */
  ghost predicate Follows(job: Job, outcome: Outcome, sound: bool) {
    && (Merges(outcome) <==> job.branch && sound)
    && (outcome.ending.Finished? <==> sound && (job.branch ==> !job.merge.MergeRefused?))
  }

  lemma AfterFollows(job: Job, events: seq<Event>, next: Outcome, sound: bool)
    requires Merging !in events && Follows(job, next, sound)
    ensures Follows(job, After(events, next), sound)
  {
  }

  lemma StagesFollow(job: Job, stages: Option<seq<StageRun.Record>>, phases: seq<Phase>)
    ensures Follows(job, FinishWith(job, stages, phases),
              NoFailedLocal(phases) && stages.Some? && NoFailedScope(stages.value) && (job.finish.late || job.backfills))
  {
    if stages.Some? {
      NoFailedConcat(phases, SsePhases(stages.value));
    }
  }

  lemma FinishFollows(job: Job, phases: seq<Phase>)
    ensures Follows(job, FinishOutcome(job, phases), NoFailedLocal(phases) && FinishClean(job))
  {
    StagesFollow(job, FinalStages(job), phases);
  }

  lemma {:induction false} PassesFollow(job: Job, kinds: seq<Kind>, phases: seq<Phase>)
    requires forall k :: k in kinds ==> IsLocal(k)
    ensures Follows(job, PassesOutcome(job, kinds, phases), NoFailedLocal(phases) && PassesClean(job, kinds) && FinishClean(job))
  {
    if kinds == [] {
      FinishFollows(job, phases);
    } else {
      var kind, rest := kinds[0], kinds[1..];
      PassIsClean(kind, PassIds(job, kind), job.turns(kind), 0);
      CleanSplit(job, kinds);
      match PassPhases(kind, PassIds(job, kind), job.turns(kind), 0) {
        case None =>
        case Some(more) =>
          PassesFollow(job, rest, phases + more);
          NoFailedConcat(phases, more);
          AfterFollows(job, [Checkpoint(job, phases + more)], PassesOutcome(job, rest, phases + more),
                       NoFailedLocal(phases + more) && PassesClean(job, rest) && FinishClean(job));
      }
    }
  }

  lemma CleanSplit(job: Job, kinds: seq<Kind>)
    requires kinds != []
    ensures PassesClean(job, kinds) <==> PassClean(job, kinds[0]) && PassesClean(job, kinds[1..])
  {
    var rest := kinds[1..];
    assert forall j :: 0 <= j < |rest| ==> rest[j] == kinds[j + 1];
    assert forall j :: 1 <= j < |kinds| ==> kinds[j] == rest[j - 1];
  }

  /**
   * A job merges its branch exactly when the key was verified, the preflight passed, and either no
   * selected object failed or every local turn was clean and no endpoint scope failed. It ends
   * without raising exactly then, unless the branch machinery refuses the merge.
   */
  lemma MergesExactly(job: Job)
    ensures Follows(job, JobOutcome(job), Sound(job))
  {
    var first := [Saved(Data(Parameters, None))];
    if job.key.Verified? && job.preflight.Some? {
      if IsBatch(job) {
        BatchFollows(job, job.batch.value);
        AfterFollows(job, first, BatchOutcome(job, job.batch.value), Sound(job));
      } else {
        var phases := PreflightPhases(job.preflight.value);
        PassesFollow(job, Kinds(job), phases);
        AfterFollows(job, first, PassesOutcome(job, Kinds(job), phases), Sound(job));
      }
    }
  }

  predicate AllSucceeded(items: seq<BatchScope.Item>) {
    forall i :: 0 <= i < |items| ==> items[i].status < 400
  }

  lemma ItemsFollow(job: Job, items: seq<BatchScope.Item>)
    ensures Follows(job, ItemsOutcome(job, items), AllSucceeded(items))
  {
    NoneFailed(items);
  }

  lemma BatchFollows(job: Job, batch: Batch)
    ensures Follows(job, BatchOutcome(job, batch), BatchClean(job, batch))
  {
    match BatchScope.BatchWireScope(batch.raw, batch.enabled, batch.resolution) {
      case Err(_) =>
      case Ok(scope) => ItemsFollow(job, Items(batch, scope));
    }
  }

  /**
   * What a merged staged job has behind it: every endpoint had a clean turn in the cluster pass, and unless the job
   * was targeted at single objects also in the firewall and datacenter passes and, if not switched off, in the
   * template pass.
   */
  lemma MergedJobRanEveryPass(job: Job, i: nat)
    requires !IsBatch(job) && Merges(JobOutcome(job)) && i < |job.ids|
    ensures Clean(Cluster, job.ids[i], job.turns(Cluster)(i))
    ensures !job.targeted ==> Clean(Firewall, job.ids[i], job.turns(Firewall)(i))
    ensures !job.targeted ==> Clean(Datacenter, job.ids[i], job.turns(Datacenter)(i))
    ensures !job.targeted && !job.templatesOff ==> Clean(VmTemplate, job.ids[i], job.turns(VmTemplate)(i))
  {
    MergesExactly(job);
    var kinds := Kinds(job);
    assert PassClean(job, kinds[0]);
    if !job.targeted {
      assert PassClean(job, kinds[1]) && PassClean(job, kinds[2]) && PassClean(job, kinds[3]);
    }
  }

  /** And a targeted job does not depend on what the other three passes would have answered. */
  lemma TargetedJobRunsOnePass(job: Job, other: Job)
    requires job.targeted && other == job.(turns := other.turns) && other.turns(Cluster) == job.turns(Cluster)
    ensures JobOutcome(other) == JobOutcome(job)
  {
    if job.preflight.Some? {
      var phases := PreflightPhases(job.preflight.value);
      assert PassPhases(Cluster, PassIds(other, Cluster), other.turns(Cluster), 0)
          == PassPhases(Cluster, PassIds(job, Cluster), job.turns(Cluster), 0);
      match PassPhases(Cluster, PassIds(job, Cluster), job.turns(Cluster), 0) {
        case None =>
        case Some(more) => OnePassLeft(job, other, phases + more);
      }
    }
  }

  lemma OnePassLeft(job: Job, other: Job, phases: seq<Phase>)
    requires other == job.(turns := other.turns)
    ensures PassesOutcome(other, [Cluster][1..], phases) == PassesOutcome(job, [Cluster][1..], phases)
    ensures Checkpoint(other, phases) == Checkpoint(job, phases)
  {
    assert [Cluster][1..] == [];
    SameFinish(job, other, FinalStages(job), phases);
  }

  lemma SameFinish(job: Job, other: Job, stages: Option<seq<StageRun.Record>>, phases: seq<Phase>)
    requires other == job.(turns := other.turns)
    ensures FinishWith(other, stages, phases) == FinishWith(job, stages, phases)
  {
  }

  /** A job is one for selected objects exactly if one of the requested ids is not empty. */
  lemma BatchExactly(job: Job)
    ensures IsBatch(job) <==>
      job.batch.Some? && exists i :: 0 <= i < |job.batch.value.requested| && job.batch.value.requested[i] != ""
  {
    if job.batch.Some? {
      var requested := job.batch.value.requested;
      Text.NonEmptyPicked(requested);
      PickedSome(requested, Text.NonEmpty(requested), Text.IsNonEmpty, Itself);
      forall i | 0 <= i < |requested| && requested[i] != "" ensures Text.IsNonEmpty(requested[i]) {
      }
    }
  }

  /** A merged selected-object job has a result below 400 on record for every requested id that is not empty. */
  lemma MergedBatchSyncedEveryObject(job: Job, batch: Batch, id: string)
    requires IsBatch(job) && job.batch == Some(batch) && Merges(JobOutcome(job))
    requires id in batch.requested && id != ""
    ensures exists m: nat, k: nat ::
      && m + 1 < |JobOutcome(job).events| && JobOutcome(job).events[m + 1].Merging?
      && JobOutcome(job).events[m].Saved? && HasResult(JobOutcome(job).events[m].data.evidence, k, id)
  {
    MergesExactly(job);
    BatchEvidenceFirst(job, batch);
    var scope := BatchScope.BatchWireScope(batch.raw, batch.enabled, batch.resolution).value;
    var items, events := Items(batch, scope), JobOutcome(job).events;
    var k := SelectedHas(batch, scope, id);
    var m :| 0 <= m < |events| && events[m] == Merging;
    assert SelectedBefore(events, m, items);
    assert events[(m - 1) + 1].Merging? && HasResult(events[m - 1].data.evidence, k, id);
  }

  ghost predicate HasResult(evidence: Evidence, k: nat, id: string) {
    evidence.Selected? && k < |evidence.items| && evidence.items[k].id == id && evidence.items[k].status < 400
  }

  lemma SelectedHas(batch: Batch, scope: BatchScope.Scope, id: string) returns (k: nat)
    requires id in batch.requested && id != ""
    ensures k < |Items(batch, scope)| && Items(batch, scope)[k].id == id
  {
    var judge := BatchScope.JudgeOf(batch.objects, batch.objectType, batch.rows, scope);
    var items := Items(batch, scope);
    BatchScope.RunAnswersAll(batch.requested, judge, batch.reply);
    var ids := BatchScope.ResultIds(items);
    PickedHas(batch.requested, ids, Text.IsNonEmpty, Itself, id);
    var i :| 0 <= i < |batch.requested| && batch.requested[i] == id;
    assert Text.IsNonEmpty(batch.requested[i]) && Itself(batch.requested[i]) == id;
    k :| 0 <= k < |ids| && ids[k] == id;
  }

  /** A cluster pass, or a template pass that runs, cut short by the deadline: the job raises and does not merge. */
  lemma CutPassNeverMerges(job: Job, kind: Kind, i: nat)
    requires !IsBatch(job) && OnePerEndpoint(kind) && kind in Kinds(job)
    requires i < |PassIds(job, kind)| && Stops(job.turns(kind)(i))
    ensures !Merges(JobOutcome(job)) && JobOutcome(job).ending.Raised?
  {
    MergesExactly(job);
    var j :| 0 <= j < |Kinds(job)| && Kinds(job)[j] == kind;
    assert !PassClean(job, Kinds(job)[j]) by {
      assert !Clean(kind, PassIds(job, kind)[i], job.turns(kind)(i));
    }
  }

  /** Once the deadline has passed, only a job that has no endpoint left to sync can still merge. */
  lemma LateJobsMergeOnlyWithoutEndpoints(job: Job)
    requires !IsBatch(job) && job.finish.late && Merges(JobOutcome(job))
    ensures job.finish.ids == []
  {
    MergesExactly(job);
  }

  /** And such a job does merge, although no stage ran. */
  lemma LateJobWithoutEndpointsMerges(job: Job)
    requires !IsBatch(job) && job.key.Verified? && job.preflight.Some? && job.branch
    requires job.ids == [] && job.finish.late && job.finish.ids == []
    ensures Merges(JobOutcome(job))
  {
    MergesExactly(job);
    assert forall kind :: PassIds(job, kind) == [];
  }

  /** A firewall or datacenter answer leaves one phase for each row about this endpoint, in order, and no other. */
  lemma {:induction false} RowPhasesPicked(kind: Kind, id: string, rows: seq<Row>, keep: Row -> bool, value: Row -> Phase)
    requires forall row :: keep(row) <==> row.endpoint.None? || row.endpoint.value == id
    requires forall row :: value(row) == Phase(kind, Some(id), row.success)
    ensures Picked(rows, RowPhases(kind, id, rows), keep, value)
  {
    if rows == [] {
      PickedNothing(keep, value);
    } else {
      RowPhasesPicked(kind, id, rows[1..], keep, value);
      var phases, rest := RowPhases(kind, id, rows), RowPhases(kind, id, rows[1..]);
      assert keep(rows[0]) <==> Concerns(rows[0], id);
      assert if keep(rows[0]) then phases == [value(rows[0])] + rest else phases == rest;
      PickedCons(rows, phases, keep, value);
    }
  }

  lemma {:induction false} ForeignRows(kind: Kind, id: string, rows: seq<Row>)
    requires forall i :: 0 <= i < |rows| ==> !Concerns(rows[i], id)
    ensures RowPhases(kind, id, rows) == []
  {
    if rows != [] {
      ForeignRows(kind, id, rows[1..]);
    }
  }

  /**
   * A firewall or datacenter answer that failed, but whose failing row names another endpoint,
   * leaves no record of it. `Clean` says exactly which failures count.
   */
  lemma ForeignRowsHideFailure(kind: Kind, id: string, other: string, result: ServiceResult)
    requires (kind.Firewall? || kind.Datacenter?) && id != other
    requires result == ServiceResult(false, None, [Row(Some(other), false)])
    ensures TurnPhases(kind, id, Done(result)) == Some([])
  {
    assert !result.rows[0].success;
    ForeignRows(kind, id, result.rows);
  }

  // ---- Evidence before any raise and before the merge

  /** All phases a staged job has recorded when it gets to its end. */
  function AllPhases(job: Job, kinds: seq<Kind>, phases: seq<Phase>): Option<seq<Phase>> {
    if kinds == [] then Some(phases)
    else
      match PassPhases(kinds[0], PassIds(job, kinds[0]), job.turns(kinds[0]), 0)
      case None => None
      case Some(more) => AllPhases(job, kinds[1..], phases + more)
  }

  /** The evidence of a staged job: all its stages and all its phases. */
  predicate Complete(job: Job, evidence: Evidence, phases: Option<seq<Phase>>) {
    && evidence.Staged? && phases.Some?
    && FinalStages(job) == Some(evidence.stages)
    && evidence.phases == phases.value + SsePhases(evidence.stages)
  }

  /** The failure a job raises for is on record in the last thing it saved, and that is complete. */
  ghost predicate Documents(job: Job, outcome: Outcome, phases: Option<seq<Phase>>) {
    outcome.ending == Raised(ScopesFailed) || outcome.ending == Raised(LocalsFailed) ==>
      && outcome.events != []
      && var last := outcome.events[|outcome.events| - 1];
      && last.Saved? && Complete(job, last.data.evidence, phases)
      && (outcome.ending.cause.ScopesFailed? <==> !NoFailedScope(last.data.evidence.stages))
      && (outcome.ending.cause.LocalsFailed? ==> !NoFailedLocal(last.data.evidence.phases))
      && last.data.note ==
         if !job.branch then None
         else if NoFailedLocal(last.data.evidence.phases) then Some(SseFailure)
         else Some(LocalFailure)
  }

  /** What precedes event `m` is complete saved evidence that shows no failure. */
  ghost predicate ClearedAt(job: Job, events: seq<Event>, m: nat, phases: Option<seq<Phase>>)
    requires m < |events|
  {
    && m > 0 && events[m - 1].Saved?
    && var evidence := events[m - 1].data.evidence;
    && Complete(job, evidence, phases) && events[m - 1].data.note.None?
    && NoFailedScope(evidence.stages) && NoFailedLocal(evidence.phases)
  }

  /** A merge comes directly after complete evidence that shows no failure. */
  ghost predicate MergesOnEvidence(job: Job, outcome: Outcome, phases: Option<seq<Phase>>) {
    forall m: nat :: m < |outcome.events| && outcome.events[m].Merging? ==> ClearedAt(job, outcome.events, m, phases)
  }

  ghost predicate WellDocumented(job: Job, outcome: Outcome, phases: Option<seq<Phase>>) {
    Documents(job, outcome, phases) && MergesOnEvidence(job, outcome, phases)
  }

  lemma AfterDocumented(job: Job, saved: Event, next: Outcome, phases: Option<seq<Phase>>)
    requires saved.Saved? && WellDocumented(job, next, phases)
    ensures WellDocumented(job, After([saved], next), phases)
  {
    var outcome := After([saved], next);
    forall m: nat | m < |outcome.events| && outcome.events[m].Merging? ensures ClearedAt(job, outcome.events, m, phases) {
      assert outcome.events[m] == next.events[m - 1];
      assert ClearedAt(job, next.events, m - 1, phases);
    }
  }

  lemma FinishDocumented(job: Job, phases: seq<Phase>)
    ensures WellDocumented(job, FinishOutcome(job, phases), Some(phases))
  {
    StagesDocumented(job, FinalStages(job), phases);
  }

  lemma StagesDocumented(job: Job, stages: Option<seq<StageRun.Record>>, phases: seq<Phase>)
    requires stages == FinalStages(job)
    ensures WellDocumented(job, FinishWith(job, stages, phases), Some(phases))
  {
    if stages.Some? && (job.finish.late || job.backfills) {
      var all := phases + SsePhases(stages.value);
      var data := Data(Staged(stages.value, all), FinishNote(job, stages, all));
      assert Complete(job, data.evidence, Some(phases));
      if NoFailedScope(stages.value) && NoFailedLocal(all) {
        MergeDocumented(job, data, phases);
      } else {
        RaiseDocumented(job, data, if NoFailedScope(stages.value) then LocalsFailed else ScopesFailed, phases);
      }
    }
  }

  /** The raise comes directly after the saved evidence. */
  lemma RaiseDocumented(job: Job, data: Data, cause: Cause, phases: seq<Phase>)
    requires Complete(job, data.evidence, Some(phases)) && data.note == FinishNote(job, Some(data.evidence.stages), data.evidence.phases)
    requires if cause.ScopesFailed? then !NoFailedScope(data.evidence.stages)
             else cause.LocalsFailed? && NoFailedScope(data.evidence.stages) && !NoFailedLocal(data.evidence.phases)
    ensures WellDocumented(job, After([Saved(data)], Outcome([], Raised(cause))), Some(phases))
  {
  }

  /** And so does the merge. */
  lemma MergeDocumented(job: Job, data: Data, phases: seq<Phase>)
    requires Complete(job, data.evidence, Some(phases)) && data.note.None?
    requires NoFailedScope(data.evidence.stages) && NoFailedLocal(data.evidence.phases)
    ensures WellDocumented(job, After([Saved(data)], MergeOutcome(job, data.evidence)), Some(phases))
  {
    var merge := MergeOutcome(job, data.evidence);
    var outcome := After([Saved(data)], merge);
    forall m: nat | m < |outcome.events| && outcome.events[m].Merging? ensures ClearedAt(job, outcome.events, m, Some(phases)) {
      assert outcome.events[m] == merge.events[m - 1];
      assert m == 1 && outcome.events[0] == Saved(data);
    }
  }

  lemma {:induction false} PassesDocumented(job: Job, kinds: seq<Kind>, phases: seq<Phase>)
    ensures WellDocumented(job, PassesOutcome(job, kinds, phases), AllPhases(job, kinds, phases))
  {
    if kinds == [] {
      FinishDocumented(job, phases);
    } else {
      match PassPhases(kinds[0], PassIds(job, kinds[0]), job.turns(kinds[0]), 0) {
        case None =>
        case Some(more) =>
          PassesDocumented(job, kinds[1..], phases + more);
          AfterDocumented(job, Checkpoint(job, phases + more), PassesOutcome(job, kinds[1..], phases + more),
                          AllPhases(job, kinds, phases));
      }
    }
  }

  /** Staged jobs: complete evidence before a raise for a failed scope or local phase, and before a merge. */
  lemma EvidenceFirst(job: Job)
    requires !IsBatch(job)
    ensures WellDocumented(job, JobOutcome(job),
              if job.preflight.Some? then AllPhases(job, Kinds(job), PreflightPhases(job.preflight.value)) else None)
  {
    var first := Saved(Data(Parameters, None));
    if job.key.Verified? && job.preflight.Some? {
      var phases := PreflightPhases(job.preflight.value);
      PassesDocumented(job, Kinds(job), phases);
      AfterDocumented(job, first, PassesOutcome(job, Kinds(job), phases), AllPhases(job, Kinds(job), phases));
    }
  }

  /** The phases of one pass over all endpoints. */
  function Of(job: Job, kind: Kind): Option<seq<Phase>> {
    PassPhases(kind, job.ids, job.turns(kind), 0)
  }

  /** The phases of the template pass, if it is not switched off. */
  function OfTemplates(job: Job): Option<seq<Phase>> {
    if job.templatesOff then Some([]) else Of(job, VmTemplate)
  }

  /** What complete evidence of a whole sync consists of: the preflight and then the four passes, in this order. */
  lemma WholeSyncPhases(job: Job, phases: seq<Phase>)
    requires !job.targeted
    ensures
      var cluster, firewall := Of(job, Cluster), Of(job, Firewall);
      var datacenter, template := Of(job, Datacenter), OfTemplates(job);
      AllPhases(job, Kinds(job), phases) ==
        if cluster.None? || firewall.None? || datacenter.None? || template.None? then None
        else Some(phases + cluster.value + firewall.value + datacenter.value + template.value)
  {
    assert Kinds(job) == [Cluster] + [Firewall, Datacenter, VmTemplate];
    NextPass(job, Cluster, [Firewall, Datacenter, VmTemplate], phases);
    if Of(job, Cluster).Some? {
      var two := phases + Of(job, Cluster).value;
      assert [Firewall, Datacenter, VmTemplate] == [Firewall] + [Datacenter, VmTemplate];
      NextPass(job, Firewall, [Datacenter, VmTemplate], two);
      if Of(job, Firewall).Some? {
        LastPasses(job, two + Of(job, Firewall).value);
      }
    }
  }

  lemma LastPasses(job: Job, phases: seq<Phase>)
    ensures AllPhases(job, [Datacenter, VmTemplate], phases) ==
      if Of(job, Datacenter).None? || OfTemplates(job).None? then None
      else Some(phases + Of(job, Datacenter).value + OfTemplates(job).value)
  {
    assert [Datacenter, VmTemplate] == [Datacenter] + [VmTemplate];
    NextPass(job, Datacenter, [VmTemplate], phases);
    if Of(job, Datacenter).Some? {
      TemplatePass(job, phases + Of(job, Datacenter).value);
    }
  }

  lemma TemplatePass(job: Job, phases: seq<Phase>)
    ensures AllPhases(job, [VmTemplate], phases) ==
      if OfTemplates(job).None? then None else Some(phases + OfTemplates(job).value)
  {
    assert [VmTemplate][1..] == [];
  }

  lemma NextPass(job: Job, kind: Kind, rest: seq<Kind>, phases: seq<Phase>)
    requires !kind.VmTemplate?
    ensures AllPhases(job, [kind] + rest, phases) ==
      if Of(job, kind).None? then None else AllPhases(job, rest, phases + Of(job, kind).value)
  {
    assert ([kind] + rest)[1..] == rest;
  }

  /** If the run over the backend does not return, the last thing saved is all phases so far, without stages. */
  ghost predicate KeepsPhases(outcome: Outcome, phases: Option<seq<Phase>>) {
    outcome.ending == Raised(SseCrash) ==>
      && outcome.events != []
      && var last := outcome.events[|outcome.events| - 1];
      && last.Saved? && phases.Some? && last.data.evidence == Staged([], phases.value)
  }

  lemma {:induction false} PassesKeepPhases(job: Job, kinds: seq<Kind>, phases: seq<Phase>)
    ensures KeepsPhases(PassesOutcome(job, kinds, phases), AllPhases(job, kinds, phases))
  {
    if kinds != [] {
      match PassPhases(kinds[0], PassIds(job, kinds[0]), job.turns(kinds[0]), 0) {
        case None =>
        case Some(more) => PassesKeepPhases(job, kinds[1..], phases + more);
      }
    }
  }

  lemma CrashKeepsPhases(job: Job)
    requires !IsBatch(job) && job.preflight.Some?
    ensures KeepsPhases(JobOutcome(job), AllPhases(job, Kinds(job), PreflightPhases(job.preflight.value)))
  {
    PassesKeepPhases(job, Kinds(job), PreflightPhases(job.preflight.value));
  }

  /** As soon as a pass is over, everything recorded so far is saved, whatever happens next. */
  lemma {:induction false} PassesAreCheckpointed(job: Job, kinds: seq<Kind>, phases: seq<Phase>, j: nat)
    requires j < |kinds| && AllPhases(job, kinds[..j + 1], phases).Some?
    ensures
      var events := PassesOutcome(job, kinds, phases).events;
      var saved := AllPhases(job, kinds[..j + 1], phases).value;
      && j < |events| && events[j].Saved? && events[j].data.evidence == Staged([], saved)
      && (events[j].data.note.Some? <==> job.branch && !NoFailedLocal(saved))
    decreases j
  {
    var first := kinds[..j + 1];
    var more := PassPhases(first[0], PassIds(job, first[0]), job.turns(first[0]), 0).value;
    if j > 0 {
      assert kinds[1..][..j] == first[1..];
      PassesAreCheckpointed(job, kinds[1..], phases + more, j - 1);
    } else {
      assert first[1..] == [];
    }
  }

  /** In a whole job, this follows the saved parameters. */
  lemma JobIsCheckpointed(job: Job, rows: seq<Row>, j: nat)
    requires !IsBatch(job) && job.key.Verified? && job.preflight == Some(rows) && j < |Kinds(job)|
    requires AllPhases(job, Kinds(job)[..j + 1], PreflightPhases(rows)).Some?
    ensures
      var events := JobOutcome(job).events;
      && events[0] == Saved(Data(Parameters, None))
      && j + 1 < |events| && events[j + 1].Saved?
      && events[j + 1].data.evidence == Staged([], AllPhases(job, Kinds(job)[..j + 1], PreflightPhases(rows)).value)
  {
    PassesAreCheckpointed(job, Kinds(job), PreflightPhases(rows), j);
  }

  /** A job that runs out of time on the key check leaves a failed preflight phase for each endpoint, and raises. */
  lemma TimeoutIsRecorded(job: Job)
    requires job.key.OutOfTime?
    ensures
      var outcome := JobOutcome(job);
      && outcome.ending == Raised(NoTime) && !Merges(outcome)
      && var last := outcome.events[|outcome.events| - 1];
      && last.Saved? && last.data.evidence.Staged? && last.data.evidence.stages == []
      && |last.data.evidence.phases| == |job.ids|
      && forall i :: 0 <= i < |job.ids| ==> last.data.evidence.phases[i] == Phase(Preflight, Some(job.ids[i]), false)
  {
    assert JobOutcome(job).events[1] == Checkpoint(job, Warnings(Preflight, job.ids));
  }

  /** A job that raises past the deadline has one failed scope for each endpoint on record, and no other stage. */
  lemma LateJobRecordsEveryScope(job: Job)
    requires !IsBatch(job) && job.finish.late && JobOutcome(job).ending == Raised(ScopesFailed)
    ensures
      var events := JobOutcome(job).events;
      && events != [] && events[|events| - 1].Saved? && events[|events| - 1].data.evidence.Staged?
      && var stages := events[|events| - 1].data.evidence.stages;
      && |stages| == |job.finish.ids|
      && forall i :: 0 <= i < |stages| ==> stages[i] == StageRun.ScopeFailed(Some(job.finish.ids[i]), None)
  {
    EvidenceFirst(job);
  }

  /** Exactly these results are the last thing saved before the raise for them, and the thing saved directly before the merge. */
  ghost predicate BatchDocumented(outcome: Outcome, items: seq<BatchScope.Item>) {
    && (outcome.ending == Raised(ObjectsFailed) ==>
          !AllSucceeded(items) && outcome.events != [] && outcome.events[|outcome.events| - 1] == Saved(Data(Selected(items), None)))
    && (Merges(outcome) ==> AllSucceeded(items))
    && forall m: nat :: m < |outcome.events| && outcome.events[m].Merging? ==> SelectedBefore(outcome.events, m, items)
  }

  ghost predicate SelectedBefore(events: seq<Event>, m: nat, items: seq<BatchScope.Item>)
    requires m < |events|
  {
    m > 0 && events[m - 1] == Saved(Data(Selected(items), None))
  }

  lemma ItemsDocumented(job: Job, items: seq<BatchScope.Item>)
    ensures BatchDocumented(ItemsOutcome(job, items), items)
  {
    NoneFailed(items);
  }

  lemma AfterBatchDocumented(saved: Event, next: Outcome, items: seq<BatchScope.Item>)
    requires saved.Saved? && BatchDocumented(next, items)
    ensures BatchDocumented(After([saved], next), items)
  {
    var outcome := After([saved], next);
    forall m: nat | m < |outcome.events| && outcome.events[m].Merging? ensures SelectedBefore(outcome.events, m, items) {
      assert outcome.events[m] == next.events[m - 1];
      assert SelectedBefore(next.events, m - 1, items);
    }
    if Merges(outcome) {
      assert Merging in next.events;
    }
  }

  /**
   * Selected-object jobs: with the resolved scope, exactly the results of the run are the last thing
   * saved before the raise, and are saved directly before the merge; without a scope there is neither.
   */
  lemma BatchEvidenceFirst(job: Job, batch: Batch)
    requires IsBatch(job) && job.batch == Some(batch)
    ensures match BatchScope.BatchWireScope(batch.raw, batch.enabled, batch.resolution)
      case Ok(scope) => BatchDocumented(JobOutcome(job), Items(batch, scope))
      case Err(_) => !Merges(JobOutcome(job)) && JobOutcome(job).ending != Raised(ObjectsFailed)
  {
    var resolved := BatchScope.BatchWireScope(batch.raw, batch.enabled, batch.resolution);
    if job.key.Verified? && job.preflight.Some? && resolved.Ok? && job.backfills {
      ItemsDocumented(job, Items(batch, resolved.value));
      AfterBatchDocumented(Saved(Data(Parameters, None)), BatchOutcome(job, batch), Items(batch, resolved.value));
    }
  }

  // ---- A merge, refused or not, leaves the evidence in place

  /** After the merge call at `m` there is at most one save, of the same evidence, that says what became of the branch. */
  ghost predicate KeptAt(job: Job, outcome: Outcome, m: nat)
    requires m < |outcome.events|
  {
    var events := outcome.events;
    && m > 0 && events[m - 1].Saved?
    && if job.merge.Merged? then |events| == m + 1 && outcome.ending.Finished?
       else
         var refused := job.merge.MergeRefused?;
         && |events| == m + 2
         && events[m + 1] == Saved(Data(events[m - 1].data.evidence, Some(if refused then NotMerged else LeftOpen)))
         && outcome.ending == if refused then Raised(MergeFailed) else Finished
  }

  ghost predicate Keeps(job: Job, outcome: Outcome) {
    && (forall m: nat :: m < |outcome.events| && outcome.events[m].Merging? ==> KeptAt(job, outcome, m))
    && (outcome.ending == Raised(MergeFailed) ==> Merges(outcome))
  }

  lemma MergeKeeps(job: Job, data: Data)
    ensures Keeps(job, After([Saved(data)], MergeOutcome(job, data.evidence)))
  {
  }

  lemma AfterKeeps(job: Job, saved: Event, next: Outcome)
    requires saved.Saved? && Keeps(job, next)
    ensures Keeps(job, After([saved], next))
  {
    var outcome := After([saved], next);
    forall m: nat | m < |outcome.events| && outcome.events[m].Merging? ensures KeptAt(job, outcome, m) {
      assert outcome.events[m] == next.events[m - 1];
      assert KeptAt(job, next, m - 1);
    }
    if Merges(next) {
      assert Merging in outcome.events;
    }
  }

  lemma StagesKeep(job: Job, stages: Option<seq<StageRun.Record>>, phases: seq<Phase>)
    ensures Keeps(job, FinishWith(job, stages, phases))
  {
    if stages.Some? {
      var all := phases + SsePhases(stages.value);
      MergeKeeps(job, Data(Staged(stages.value, all), FinishNote(job, stages, all)));
    }
  }

  lemma {:induction false} PassesKeep(job: Job, kinds: seq<Kind>, phases: seq<Phase>)
    ensures Keeps(job, PassesOutcome(job, kinds, phases))
  {
    if kinds == [] {
      StagesKeep(job, FinalStages(job), phases);
    } else {
      match PassPhases(kinds[0], PassIds(job, kinds[0]), job.turns(kinds[0]), 0) {
        case None =>
        case Some(more) =>
          PassesKeep(job, kinds[1..], phases + more);
          AfterKeeps(job, Checkpoint(job, phases + more), PassesOutcome(job, kinds[1..], phases + more));
      }
    }
  }

  lemma BatchKeeps(job: Job, batch: Batch)
    ensures Keeps(job, BatchOutcome(job, batch))
  {
    var resolved := BatchScope.BatchWireScope(batch.raw, batch.enabled, batch.resolution);
    if resolved.Ok? && job.backfills {
      MergeKeeps(job, Data(Selected(Items(batch, resolved.value)), None));
    }
  }

  /**
   * Every job: a merge call is the last thing but one save, which keeps the evidence saved before the
   * call and notes a refused or empty merge: that the branch was not merged, or is left open. Only a
   * refused merge is raised, and only with that note saved.
   */
  lemma EvidenceSurvivesMerge(job: Job)
    ensures Keeps(job, JobOutcome(job))
  {
    var first := Saved(Data(Parameters, None));
    if job.key.Verified? && job.preflight.Some? {
      if IsBatch(job) {
        BatchKeeps(job, job.batch.value);
        AfterKeeps(job, first, BatchOutcome(job, job.batch.value));
      } else {
        var phases := PreflightPhases(job.preflight.value);
        PassesKeep(job, Kinds(job), phases);
        AfterKeeps(job, first, PassesOutcome(job, Kinds(job), phases));
      }
    }
  }

  // ---- What a merged staged run has done on the backend

  lemma {:induction false} FailureIsRecorded(events: seq<StageRun.Event>)
    ensures NoFailedScope(StageRun.Records(events)) <==>
            forall i :: 0 <= i < |events| ==> !StageRun.IsFailure(events[i])
  {
    if events != [] {
      var n := |events| - 1;
      FailureIsRecorded(events[..n]);
      var before, records := StageRun.Records(events[..n]), StageRun.Records(events);
      assert forall i :: 0 <= i < |before| ==> records[i] == before[i];
      assert forall i :: 0 <= i < n ==> events[..n][i] == events[i];
      if events[n].Recorded? {
        assert records[|before|] == events[n].record;
      }
    }
  }

  /** A properly ended trace has a failed scope on record exactly if it failed. */
  lemma TraceFailure(before: seq<StageRun.Event>, t: StageRun.Trace)
    requires StageRun.EndsProperly(t)
    ensures NoFailedScope(StageRun.Records(before + t.events)) <==> NoFailedScope(StageRun.Records(before)) && !t.failed
  {
    StageRun.RecordsConcat(before, t.events);
    ScopesConcat(StageRun.Records(before), StageRun.Records(t.events));
    FailureIsRecorded(t.events);
    assert t.failed ==> StageRun.IsFailure(t.events[|t.events| - 1]);
  }

  lemma {:induction false} FlatWithoutFailure(ts: seq<StageRun.Trace>, n: nat)
    requires n <= |ts| && forall i :: 0 <= i < n ==> StageRun.EndsProperly(ts[i])
    ensures NoFailedScope(StageRun.Records(StageRun.Flat(ts, n))) <==> forall i :: 0 <= i < n ==> !ts[i].failed
  {
    if n > 0 {
      FlatWithoutFailure(ts, n - 1);
      TraceFailure(StageRun.Flat(ts, n - 1), ts[n - 1]);
    }
  }

  /** The records of a run show no failed scope exactly when no scope failed. */
  lemma RunWithoutFailure(plan: StageRun.RunPlan, endpoints: seq<StageRun.Endpoint>, world: StageRun.World)
    ensures NoFailedScope(StageRun.Records(StageRun.RunEvents(plan, endpoints, world))) <==>
            var ts := StageRun.Traces(plan, endpoints, world);
            forall i :: 0 <= i < |ts| ==> !ts[i].failed
  {
    var ts := StageRun.Traces(plan, endpoints, world);
    forall i | 0 <= i < |ts| ensures StageRun.EndsProperly(ts[i]) {
      StageRun.EveryScopeSettles(plan, endpoints, world, i);
    }
    FlatWithoutFailure(ts, |ts|);
  }

  lemma ScopesConcat(a: seq<StageRun.Record>, b: seq<StageRun.Record>)
    ensures NoFailedScope(a + b) <==> NoFailedScope(a) && NoFailedScope(b)
  {
    assert forall i :: 0 <= i < |a| ==> (a + b)[i] == a[i];
    assert forall i :: 0 <= i < |b| ==> (a + b)[|a| + i] == b[i];
  }

  /** A staged job that merges in time has endpoints, and has settled every required stage of each of their scopes. */
  lemma MergedRunCoveredEveryScope(job: Job, run: StagedRun, i: nat, j: nat)
    requires !IsBatch(job) && !job.finish.late && Merges(JobOutcome(job)) && job.finish.run == Some(run)
    requires i < |EndpointsOf(run)| && j < |run.plan.stages|
    ensures !StageRun.Cut(run.plan, run.world, i)
    ensures StageRun.Covered(run.plan, EndpointsOf(run)[i],
              StageRun.TraceOf(run.plan, EndpointsOf(run), run.world, i).events, run.plan.stages[j])
  {
    MergesExactly(job);
    var endpoints := EndpointsOf(run);
    RunWithoutFailure(run.plan, endpoints, run.world);
    assert !StageRun.Traces(run.plan, endpoints, run.world)[i].failed;
    StageRun.EveryScopeSettles(run.plan, endpoints, run.world, i);
  }

  /** In time, a staged job without an endpoint to sync never merges: its run fails as a whole. */
  lemma JobWithoutEndpointsNeverMergesInTime(job: Job, run: StagedRun)
    requires !IsBatch(job) && !job.finish.late && job.finish.run == Some(run) && EndpointsOf(run) == []
    ensures !Merges(JobOutcome(job)) && JobOutcome(job).ending.Raised?
  {
    MergesExactly(job);
    var failure := StageRun.ScopeFailed(None, None);
    var events := [StageRun.Recorded(failure)];
    assert StagesOf(run) == StageRun.Records(events);
    assert events[..0] == [] && StageRun.Records(events) == StageRun.Records(events[..0]) + [failure];
    assert FailedScope(StagesOf(run)[0]);
  }
}
