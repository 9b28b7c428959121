/** Normalizing a selection of sync types and expanding it into ordered stages. */
module StagePlan {
  import opened Text

  datatype Stage =
    | Devices | Storage | VirtualMachines | TaskHistory | VmDisks | VmBackups | VmSnapshots
    | NetworkInterfaces | VmInterfaces | IpAddresses | Sdn | Replications | BackupRoutines

  /** A sync type: a stage, the word for all of them, or a text that names neither. */
  datatype Slug = Known(stage: Stage) | All | Unknown(text: string)

  const STAGES := 13

  /** The position of a stage in the order of execution. */
  function Position(stage: Stage): (n: nat)
    ensures n < STAGES
  {
    match stage
    case Devices => 0
    case Storage => 1
    case VirtualMachines => 2
    case TaskHistory => 3
    case VmDisks => 4
    case VmBackups => 5
    case VmSnapshots => 6
    case NetworkInterfaces => 7
    case VmInterfaces => 8
    case IpAddresses => 9
    case Sdn => 10
    case Replications => 11
    case BackupRoutines => 12
  }

  function StageAt(n: nat): (stage: Stage)
    requires n < STAGES
    ensures Position(stage) == n
  {
    if n == 0 then Devices
    else if n == 1 then Storage
    else if n == 2 then VirtualMachines
    else if n == 3 then TaskHistory
    else if n == 4 then VmDisks
    else if n == 5 then VmBackups
    else if n == 6 then VmSnapshots
    else if n == 7 then NetworkInterfaces
    else if n == 8 then VmInterfaces
    else if n == 9 then IpAddresses
    else if n == 10 then Sdn
    else if n == 11 then Replications
    else BackupRoutines
  }

  lemma StageAtPosition(stage: Stage)
    ensures StageAt(Position(stage)) == stage
  {
  }

  function SlugOf(text: string): Slug {
    match text
    case "devices" => Known(Devices)
    case "storage" => Known(Storage)
    case "virtual-machines" => Known(VirtualMachines)
    case "task-history" => Known(TaskHistory)
    case "vm-disks" => Known(VmDisks)
    case "vm-backups" => Known(VmBackups)
    case "vm-snapshots" => Known(VmSnapshots)
    case "network-interfaces" => Known(NetworkInterfaces)
    case "vm-interfaces" => Known(VmInterfaces)
    case "ip-addresses" => Known(IpAddresses)
    case "sdn" => Known(Sdn)
    case "replications" => Known(Replications)
    case "backup-routines" => Known(BackupRoutines)
    case "all" => All
    case _ => Unknown(text)
  }

  /** The sort key; anything that is not a stage comes last. */
  function Index(slug: Slug): nat {
    if slug.Known? then Position(slug.stage) else 99
  }

  predicate Allowed(slug: Slug) { !slug.Unknown? }

  // ---- Sequences ordered by position

  ghost predicate Ordered(s: seq<Slug>) {
    forall i, j :: 0 <= i < j < |s| ==> Index(s[i]) <= Index(s[j])
  }

  ghost predicate StrictlyOrdered(s: seq<Slug>) {
    forall i, j :: 0 <= i < j < |s| ==> Index(s[i]) < Index(s[j])
  }

  ghost predicate Distinct(s: seq<Slug>) {
    forall i, j :: 0 <= i < j < |s| ==> s[i] != s[j]
  }

  ghost predicate Same(s: seq<Slug>, slugs: set<Slug>) {
    forall x :: x in s <==> x in slugs
  }

  ghost predicate AllKnown(s: seq<Slug>) {
    forall i :: 0 <= i < |s| ==> s[i].Known?
  }

  /** Insert after everything that does not come later: Python's `sorted` is stable. */
  function Insert(sorted: seq<Slug>, slug: Slug): seq<Slug> {
    if sorted != [] && Index(sorted[|sorted| - 1]) > Index(slug)
    then Insert(sorted[..|sorted| - 1], slug) + [sorted[|sorted| - 1]]
    else sorted + [slug]
  }

  /** `sorted(slugs, key=position)`. */
  function Sort(slugs: seq<Slug>): seq<Slug> {
    if slugs == [] then [] else Insert(Sort(slugs[..|slugs| - 1]), slugs[|slugs| - 1])
  }

  lemma {:induction false} InsertCount(sorted: seq<Slug>, slug: Slug)
    ensures multiset(Insert(sorted, slug)) == multiset(sorted) + multiset{slug}
  {
    if sorted != [] && Index(sorted[|sorted| - 1]) > Index(slug) {
      var n := |sorted| - 1;
      InsertCount(sorted[..n], slug);
      assert sorted == sorted[..n] + [sorted[n]];
    }
  }

  ghost predicate UpTo(s: seq<Slug>, bound: nat) {
    forall i :: 0 <= i < |s| ==> Index(s[i]) <= bound
  }

  lemma {:induction false} InsertUpTo(sorted: seq<Slug>, slug: Slug, bound: nat)
    requires UpTo(sorted, bound) && Index(slug) <= bound
    ensures UpTo(Insert(sorted, slug), bound)
  {
    if sorted != [] && Index(sorted[|sorted| - 1]) > Index(slug) {
      InsertUpTo(sorted[..|sorted| - 1], slug, bound);
    }
  }

  lemma OrderedSnoc(s: seq<Slug>, slug: Slug)
    requires Ordered(s) && UpTo(s, Index(slug))
    ensures Ordered(s + [slug])
  {
  }

  lemma OrderedUpToLast(s: seq<Slug>)
    requires Ordered(s) && s != []
    ensures Ordered(s[..|s| - 1]) && UpTo(s[..|s| - 1], Index(s[|s| - 1])) && UpTo(s, Index(s[|s| - 1]))
  {
  }

  lemma {:induction false} InsertOrdered(sorted: seq<Slug>, slug: Slug)
    requires Ordered(sorted)
    ensures Ordered(Insert(sorted, slug))
  {
    if sorted == [] {
      assert Insert(sorted, slug) == [slug];
    } else {
      var n := |sorted| - 1;
      OrderedUpToLast(sorted);
      if Index(sorted[n]) > Index(slug) {
        InsertOrdered(sorted[..n], slug);
        InsertUpTo(sorted[..n], slug, Index(sorted[n]));
        OrderedSnoc(Insert(sorted[..n], slug), sorted[n]);
      } else {
        assert UpTo(sorted, Index(slug));
        OrderedSnoc(sorted, slug);
      }
    }
  }

  lemma {:induction false} SortCount(slugs: seq<Slug>)
    ensures multiset(Sort(slugs)) == multiset(slugs)
  {
    if slugs != [] {
      var n := |slugs| - 1;
      SortCount(slugs[..n]);
      InsertCount(Sort(slugs[..n]), slugs[n]);
      assert slugs == slugs[..n] + [slugs[n]];
    }
  }

  lemma {:induction false} SortOrders(slugs: seq<Slug>)
    ensures Ordered(Sort(slugs))
  {
    if slugs != [] {
      var n := |slugs| - 1;
      SortOrders(slugs[..n]);
      InsertOrdered(Sort(slugs[..n]), slugs[n]);
    }
  }

  /** Sorting orders the slugs and keeps each as often as it occurs. */
  lemma SortSorts(slugs: seq<Slug>)
    ensures Ordered(Sort(slugs)) && multiset(Sort(slugs)) == multiset(slugs)
  {
    SortOrders(slugs);
    SortCount(slugs);
  }

  lemma SortKeeps(slugs: seq<Slug>, x: Slug)
    ensures x in Sort(slugs) <==> x in slugs
  {
    SortSorts(slugs);
    assert x in multiset(Sort(slugs)) <==> x in multiset(slugs);
  }

  /** The stages of a set, in their order. */
  function Plan(slugs: set<Slug>, from: nat := 0): seq<Slug>
    requires from <= STAGES
    decreases STAGES - from
  {
    if from == STAGES then []
    else if Known(StageAt(from)) in slugs then [Known(StageAt(from))] + Plan(slugs, from + 1)
    else Plan(slugs, from + 1)
  }

  lemma SlugAt(x: Slug, n: nat)
    requires n < STAGES
    ensures x == Known(StageAt(n)) <==> x.Known? && Index(x) == n
  {
    if x.Known? { StageAtPosition(x.stage); }
  }

  lemma {:induction false} PlanHas(slugs: set<Slug>, from: nat, x: Slug)
    requires from <= STAGES
    ensures x in Plan(slugs, from) <==> x in slugs && x.Known? && from <= Index(x)
    decreases STAGES - from
  {
    if from < STAGES {
      PlanHas(slugs, from + 1, x);
      SlugAt(x, from);
    }
  }

  lemma {:induction false} PlanOrdered(slugs: set<Slug>, from: nat)
    requires from <= STAGES
    ensures StrictlyOrdered(Plan(slugs, from))
    decreases STAGES - from
  {
    if from < STAGES {
      PlanOrdered(slugs, from + 1);
      var rest := Plan(slugs, from + 1);
      forall i | 0 <= i < |rest| ensures from < Index(rest[i]) {
        PlanHas(slugs, from + 1, rest[i]);
      }
    }
  }

  lemma PlanMeaning(slugs: set<Slug>)
    ensures StrictlyOrdered(Plan(slugs))
    ensures forall x :: x in Plan(slugs) <==> x in slugs && x.Known?
  {
    PlanOrdered(slugs, 0);
    forall x ensures x in Plan(slugs) <==> x in slugs && x.Known? {
      PlanHas(slugs, 0, x);
    }
  }

  /** Two strictly ordered sequences of stages with the same elements are the same sequence. */
  lemma {:induction false} StrictOrderUnique(a: seq<Slug>, b: seq<Slug>)
    requires StrictlyOrdered(a) && StrictlyOrdered(b)
    requires forall x :: x in a <==> x in b
    ensures a == b
  {
    if a != [] { assert a[0] in b; }
    if b != [] { assert b[0] in a; }
    if a != [] {
      assert a[0] == b[0];
      forall x ensures x in a[1..] <==> x in b[1..] {
        TailHas(a, x);
        TailHas(b, x);
      }
      StrictOrderUnique(a[1..], b[1..]);
    }
  }

  lemma TailHas(a: seq<Slug>, x: Slug)
    requires a != [] && StrictlyOrdered(a)
    ensures x in a[1..] <==> x in a && x != a[0]
  {
    if x in a && x != a[0] {
      var i :| 0 <= i < |a| && a[i] == x;
      assert a[1..][i - 1] == x;
    }
  }

  /** Any strictly ordered sequence of stages is the plan of its elements. */
  lemma PlanOfElements(a: seq<Slug>, slugs: set<Slug>)
    requires StrictlyOrdered(a) && AllKnown(a) && Same(a, slugs)
    ensures a == Plan(slugs)
  {
    PlanMeaning(slugs);
    forall x ensures x in a <==> x in Plan(slugs) {
      if x in a {
        var i :| 0 <= i < |a| && a[i] == x;
      }
    }
    StrictOrderUnique(a, Plan(slugs));
  }

  // ---- Duplicates

  /** Keep the first occurrence of everything. */
  function Dedup(s: seq<Slug>): seq<Slug> {
    if s == [] then []
    else
      var shorter := Dedup(s[..|s| - 1]);
      if s[|s| - 1] in shorter then shorter else shorter + [s[|s| - 1]]
  }

  lemma {:induction false} DedupMeaning(s: seq<Slug>)
    ensures Distinct(Dedup(s)) && forall x :: x in Dedup(s) <==> x in s
    ensures Ordered(s) ==> Ordered(Dedup(s))
  {
    if s != [] {
      var n := |s| - 1;
      DedupMeaning(s[..n]);
      assert s == s[..n] + [s[n]];
      var shorter := Dedup(s[..n]);
      if Ordered(s) {
        forall i | 0 <= i < |shorter| ensures Index(shorter[i]) <= Index(s[n]) {
          assert shorter[i] in s[..n];
        }
      }
    }
  }

  lemma DistinctStages(s: seq<Slug>)
    requires Ordered(s) && Distinct(s) && AllKnown(s)
    ensures StrictlyOrdered(s)
  {
    forall i, j | 0 <= i < j < |s| ensures Index(s[i]) < Index(s[j]) {
      StageAtPosition(s[i].stage);
      StageAtPosition(s[j].stage);
    }
  }

  /** Sorting stages and dropping duplicates gives the plan of their set. */
  lemma SortedPlan(s: seq<Slug>, slugs: set<Slug>)
    requires AllKnown(s) && Same(s, slugs)
    ensures Dedup(Sort(s)) == Plan(slugs)
  {
    SortSorts(s);
    DedupMeaning(Sort(s));
    var plan := Dedup(Sort(s));
    forall x ensures x in plan <==> x in s {
      SortKeeps(s, x);
    }
    forall i | 0 <= i < |plan| ensures plan[i].Known? {
      assert plan[i] in s;
    }
    DistinctStages(plan);
    PlanOfElements(plan, slugs);
  }

  lemma {:induction false} DedupDistinct(s: seq<Slug>)
    requires Distinct(s)
    ensures Dedup(s) == s
  {
    if s != [] {
      var n := |s| - 1;
      DedupDistinct(s[..n]);
      assert s == s[..n] + [s[n]];
      assert s[n] !in s[..n];
    }
  }

  lemma {:induction false} SortDistinct(s: seq<Slug>)
    requires Distinct(s)
    ensures Distinct(Sort(s))
  {
    SortSorts(s);
    var t := Sort(s);
    forall i, j | 0 <= i < j < |t| ensures t[i] != t[j] {
      if t[i] == t[j] {
        CountTwice(t, i, j);
        CountOnce(s, t[i]);
      }
    }
  }

  lemma CountTwice(t: seq<Slug>, i: nat, j: nat)
    requires i < j < |t| && t[i] == t[j]
    ensures multiset(t)[t[i]] >= 2
  {
    assert t == t[..i] + [t[i]] + t[i + 1..];
    assert t[j] == t[i + 1..][j - i - 1];
    assert t[i] in multiset(t[i + 1..]);
  }

  lemma CountOnce(s: seq<Slug>, x: Slug)
    requires Distinct(s)
    ensures multiset(s)[x] <= 1
  {
    if x in s {
      var i :| 0 <= i < |s| && s[i] == x;
      assert s == s[..i] + [x] + s[i + 1..];
      assert x !in s[..i] && x !in s[i + 1..];
    }
  }

  // ---- Normalization

  /** The recognised slugs of a selection. */
  function Recognised(selected: seq<string>): set<Slug> {
    set i | 0 <= i < |selected| && Allowed(SlugOf(Strip(selected[i]))) :: SlugOf(Strip(selected[i]))
  }

  /** The canonical form of a set of recognised slugs. */
  function Canonical(slugs: set<Slug>): seq<Slug> {
    if slugs == {} || All in slugs then [All] else Plan(slugs)
  }

  lemma RecognisedAppend(selected: seq<string>, raw: string)
    ensures
      var slug := SlugOf(Strip(raw));
      Recognised(selected + [raw]) == Recognised(selected) + (if Allowed(slug) then {slug} else {})
  {
    var longer, slug := selected + [raw], SlugOf(Strip(raw));
    forall x ensures x in Recognised(longer) <==> x in Recognised(selected) || (Allowed(slug) && x == slug) {
      if x in Recognised(selected) {
        var i :| 0 <= i < |selected| && Allowed(SlugOf(Strip(selected[i]))) && SlugOf(Strip(selected[i])) == x;
        assert longer[i] == selected[i];
      }
      if Allowed(slug) {
        assert longer[|selected|] == raw;
      }
    }
  }

  lemma SortIsPlan(s: seq<Slug>, slugs: set<Slug>)
    requires Distinct(s) && AllKnown(s) && Same(s, slugs)
    ensures Sort(s) == Plan(slugs)
  {
    SortedPlan(s, slugs);
    SortDistinct(s);
    DedupDistinct(Sort(s));
  }

  /** `normalize_sync_types`: the result depends only on the set of recognised slugs. */
  method NormalizeSyncTypes(selected: seq<string>) returns (types: seq<Slug>)
    ensures types == Canonical(Recognised(selected))
  {
    var uniq: seq<Slug>, seen: set<Slug> := [], {};
    for k := 0 to |selected|
      invariant seen == Recognised(selected[..k]) && Same(uniq, seen)
      invariant Distinct(uniq) && forall i :: 0 <= i < |uniq| ==> Allowed(uniq[i])
    {
      var slug := SlugOf(Strip(selected[k]));
      assert selected[..k + 1] == selected[..k] + [selected[k]];
      RecognisedAppend(selected[..k], selected[k]);
      if Allowed(slug) && slug !in seen {
        seen := seen + {slug};
        uniq := uniq + [slug];
      }
    }
    assert selected[..|selected|] == selected;
    if uniq == [] {
      assert forall x :: x !in seen;
      return [All];
    }
    assert uniq[0] in seen;
    if All in seen {
      return [All];
    }
    forall i | 0 <= i < |uniq| ensures uniq[i].Known? {
      assert uniq[i] in seen;
    }
    SortIsPlan(uniq, seen);
    return Sort(uniq);
  }

  function Name(slug: Slug): string {
    match slug
    case All => "all"
    case Unknown(text) => text
    case Known(stage) =>
      match stage
      case Devices => "devices"
      case Storage => "storage"
      case VirtualMachines => "virtual-machines"
      case TaskHistory => "task-history"
      case VmDisks => "vm-disks"
      case VmBackups => "vm-backups"
      case VmSnapshots => "vm-snapshots"
      case NetworkInterfaces => "network-interfaces"
      case VmInterfaces => "vm-interfaces"
      case IpAddresses => "ip-addresses"
      case Sdn => "sdn"
      case Replications => "replications"
      case BackupRoutines => "backup-routines"
  }

  lemma NameRoundTrip(slug: Slug)
    requires Allowed(slug)
    ensures SlugOf(Strip(Name(slug))) == slug
  {
    StripKeeps(Name(slug));
  }

  function Names(slugs: seq<Slug>): seq<string> {
    seq(|slugs|, i requires 0 <= i < |slugs| => Name(slugs[i]))
  }

  lemma RecognisedNames(slugs: seq<Slug>)
    requires forall i :: 0 <= i < |slugs| ==> Allowed(slugs[i])
    ensures Same(slugs, Recognised(Names(slugs)))
  {
    var names := Names(slugs);
    forall i | 0 <= i < |slugs| ensures SlugOf(Strip(names[i])) == slugs[i] {
      NameRoundTrip(slugs[i]);
    }
    forall x ensures x in slugs <==> x in Recognised(names) {
      if x in slugs {
        var i :| 0 <= i < |slugs| && slugs[i] == x;
        assert Allowed(SlugOf(Strip(names[i])));
      }
    }
  }

  lemma RecognisedAllowed(selected: seq<string>, x: Slug)
    requires x in Recognised(selected)
    ensures Allowed(x)
  {
  }

  /** Normalizing what normalization produced changes nothing. */
  lemma NormalizeIdempotent(selected: seq<string>)
    ensures
      var types := Canonical(Recognised(selected));
      Canonical(Recognised(Names(types))) == types
  {
    var slugs := Recognised(selected);
    var types := Canonical(slugs);
    PlanMeaning(slugs);
    forall i | 0 <= i < |types| ensures Allowed(types[i]) {
      assert types[i] in types;
    }
    RecognisedNames(types);
    if slugs == {} || All in slugs {
      assert All in Recognised(Names(types));
    } else {
      forall x ensures x in Recognised(Names(types)) <==> x in slugs {
        if x in slugs { RecognisedAllowed(selected, x); }
      }
      assert Recognised(Names(types)) == slugs;
    }
  }

  // ---- Expansion

  /** What the selected stages bring in. */
  function WithInterfaces(types: seq<Slug>): seq<Slug> {
    if (Known(NetworkInterfaces) in types || Known(IpAddresses) in types) && Known(VmInterfaces) !in types
    then types + [Known(VmInterfaces)]
    else types
  }

  /** `expanded_sync_stages`. */
  function Expand(types: seq<Slug>): seq<Slug> {
    if types == [All] then seq(STAGES, i requires 0 <= i < STAGES => Known(StageAt(i)))
    else Dedup(Sort(WithInterfaces(types)))
  }

  method ExpandedSyncStages(types: seq<Slug>) returns (ordered: seq<Slug>)
    ensures ordered == Expand(types)
  {
    if types == [All] {
      return seq(STAGES, i requires 0 <= i < STAGES => Known(StageAt(i)));
    }
    var expanded := types;
    if Known(NetworkInterfaces) in expanded && Known(VmInterfaces) !in expanded {
      expanded := expanded + [Known(VmInterfaces)];
    }
    if Known(IpAddresses) in expanded && Known(VmInterfaces) !in expanded {
      expanded := expanded + [Known(VmInterfaces)];
    }
    assert expanded == WithInterfaces(types);
    var sorted, seen: set<Slug> := Sort(expanded), {};
    ordered := [];
    for k := 0 to |sorted|
      invariant ordered == Dedup(sorted[..k]) && Same(ordered, seen)
    {
      assert sorted[..k + 1][..k] == sorted[..k];
      if sorted[k] !in seen {
        seen := seen + {sorted[k]};
        ordered := ordered + [sorted[k]];
      }
    }
    assert sorted[..|sorted|] == sorted;
  }

  /** IP addresses and network interfaces need the VM interfaces. */
  ghost predicate Closed(slugs: set<Slug>) {
    Known(IpAddresses) in slugs || Known(NetworkInterfaces) in slugs ==> Known(VmInterfaces) in slugs
  }

  function Elements(s: seq<Slug>): (slugs: set<Slug>)
    ensures Same(s, slugs)
  {
    set i | 0 <= i < |s| :: s[i]
  }

  lemma ExpandMeaning(types: seq<Slug>)
    requires AllKnown(types)
    ensures StrictlyOrdered(Expand(types)) && AllKnown(Expand(types))
    ensures forall x :: x in Expand(types) <==> x in WithInterfaces(types)
  {
    assert types != [] ==> types[0].Known?;
    var wide, stages := WithInterfaces(types), Expand(types);
    SortedPlan(wide, Elements(wide));
    PlanMeaning(Elements(wide));
    forall x ensures x in stages <==> x in wide {
      assert AllKnown(wide);
      if x in wide {
        var i :| 0 <= i < |wide| && wide[i] == x;
      }
    }
    forall i | 0 <= i < |stages| ensures stages[i].Known? {
      assert stages[i] in stages;
    }
  }

  lemma ExpandExtends(types: seq<Slug>)
    requires AllKnown(types)
    ensures Elements(types) <= Elements(Expand(types)) && Closed(Elements(Expand(types)))
  {
    ExpandMeaning(types);
    WideIsClosed(types);
    var wide, stages := WithInterfaces(types), Expand(types);
    assert forall x :: x in Elements(stages) <==> x in Elements(wide);
  }

  lemma WideIsClosed(types: seq<Slug>)
    ensures Elements(types) <= Elements(WithInterfaces(types)) && Closed(Elements(WithInterfaces(types)))
  {
  }

  lemma ExpandIsLeast(types: seq<Slug>, closed: set<Slug>)
    requires AllKnown(types) && Elements(types) <= closed && Closed(closed)
    ensures Elements(Expand(types)) <= closed
  {
    ExpandMeaning(types);
    forall x | x in Elements(Expand(types)) ensures x in closed {
      assert x in WithInterfaces(types);
    }
  }

  lemma InterfacesFirst(stages: seq<Slug>, i: nat, j: nat)
    requires StrictlyOrdered(stages) && i < |stages| && j < |stages|
    requires stages[i] == Known(VmInterfaces) && stages[j] == Known(IpAddresses)
    ensures i < j
  {
    assert Index(stages[i]) < Index(stages[j]);
  }

  /**
   Expanding a selection of stages gives the least closed superset, strictly in order, so that the VM
   interfaces run before the IP addresses; expanding again changes nothing.
   */
  lemma ExpandIsLeastClosedPlan(types: seq<Slug>, closed: set<Slug>)
    requires AllKnown(types)
    ensures
      var stages := Expand(types);
      && StrictlyOrdered(stages) && AllKnown(stages)
      && Elements(types) <= Elements(stages)
      && Closed(Elements(stages))
      && (Elements(types) <= closed && Closed(closed) ==> Elements(stages) <= closed)
      && (forall i, j :: 0 <= i < |stages| && 0 <= j < |stages| && stages[i] == Known(VmInterfaces) && stages[j] == Known(IpAddresses) ==> i < j)
      && Expand(stages) == stages
  {
    var stages := Expand(types);
    ExpandMeaning(types);
    ExpandExtends(types);
    if Elements(types) <= closed && Closed(closed) {
      ExpandIsLeast(types, closed);
    }
    forall i, j | 0 <= i < |stages| && 0 <= j < |stages| && stages[i] == Known(VmInterfaces) && stages[j] == Known(IpAddresses)
      ensures i < j
    {
      InterfacesFirst(stages, i, j);
    }
    StagesExpandToThemselves(stages);
  }

  lemma StagesExpandToThemselves(stages: seq<Slug>)
    requires StrictlyOrdered(stages) && AllKnown(stages) && Closed(Elements(stages))
    ensures Expand(stages) == stages
  {
    assert WithInterfaces(stages) == stages;
    assert stages != [] ==> stages[0].Known?;
    SortedPlan(stages, Elements(stages));
    PlanOfElements(stages, Elements(stages));
  }

  /** Every stage, in its place. */
  ghost predicate IsEveryStage(stages: seq<Slug>) {
    |stages| == STAGES && forall i :: 0 <= i < STAGES ==> stages[i] == Known(StageAt(i))
  }

  lemma EveryStageIsIn(stages: seq<Slug>, stage: Stage)
    requires IsEveryStage(stages)
    ensures Known(stage) in stages
  {
    StageAtPosition(stage);
    assert stages[Position(stage)] == Known(stage);
  }

  lemma EveryStageIsOrdered(stages: seq<Slug>)
    requires IsEveryStage(stages)
    ensures StrictlyOrdered(stages) && AllKnown(stages)
  {
    forall i | 0 <= i < STAGES ensures Index(stages[i]) == i {
      SlugAt(stages[i], i);
    }
  }

  /** The thirteen stages, one by one. */
  ghost predicate InOrder(stages: seq<Slug>) {
    && |stages| == 13
    && stages[0] == Known(Devices) && stages[1] == Known(Storage) && stages[2] == Known(VirtualMachines)
    && stages[3] == Known(TaskHistory) && stages[4] == Known(VmDisks) && stages[5] == Known(VmBackups)
    && stages[6] == Known(VmSnapshots) && stages[7] == Known(NetworkInterfaces) && stages[8] == Known(VmInterfaces)
    && stages[9] == Known(IpAddresses) && stages[10] == Known(Sdn) && stages[11] == Known(Replications)
    && stages[12] == Known(BackupRoutines)
  }

  lemma EveryStageInOrder(stages: seq<Slug>)
    requires IsEveryStage(stages)
    ensures InOrder(stages)
  {}

  /** The word for everything expands to every stage, in order, and that list expands to itself. */
  lemma ExpandAll()
    ensures
      var stages := Expand([All]);
      && (forall stage: Stage :: Known(stage) in stages)
      && StrictlyOrdered(stages) && AllKnown(stages)
      && Expand(stages) == stages
      && InOrder(stages)
  {
    var stages := Expand([All]);
    EveryStageInOrder(stages);
    forall stage: Stage ensures Known(stage) in stages {
      EveryStageIsIn(stages, stage);
    }
    EveryStageIsOrdered(stages);
    StagesExpandToThemselves(stages);
  }
}
