/** Selected-object runs: which backend endpoint each object may be asked of, and what is reported. */
module BatchScope {
  import opened Basics
  import opened Picking
  import opened Text
  import StageRun

  const COMMA := ','

  /** A backend id on the wire: a decimal number, so no comma and nothing to strip. */
  predicate IsWireId(id: string) {
    id != "" && forall i :: 0 <= i < |id| ==> '0' <= id[i] <= '9'
  }

  // ---- The scope of the run

  /** What the backend resolved: the ids it knows, or an error. */
  datatype Resolution = Resolution(ids: map<string, string>, error: bool)

  datatype Scope = Scope(text: string, skipped: seq<string>, byPk: map<string, string>)

  datatype ScopeError = NoEndpoint | Unresolvable | NoneRegistered

  function Resolved(scopes: seq<string>, ids: map<string, string>): seq<string> {
    if scopes == [] then []
    else if scopes[0] in ids then [ids[scopes[0]]] + Resolved(scopes[1..], ids)
    else Resolved(scopes[1..], ids)
  }

  function Unresolved(scopes: seq<string>, ids: map<string, string>): seq<string> {
    if scopes == [] then []
    else if scopes[0] !in ids then [scopes[0]] + Unresolved(scopes[1..], ids)
    else Unresolved(scopes[1..], ids)
  }

  /** `_batch_wire_endpoint_scope`. */
  function BatchWireScope(raw: seq<string>, enabled: seq<string>, resolution: Resolution): Result<Scope, ScopeError> {
    var scopes := StageRun.Scopes(raw, enabled);
    if scopes == [] then Err(NoEndpoint)
    else if resolution.error then Err(Unresolvable)
    else
      var ids := Resolved(scopes, resolution.ids);
      if ids == [] then Err(NoneRegistered)
      else Ok(Scope(Join(ids, COMMA), Unresolved(scopes, resolution.ids),
                    map pk | pk in resolution.ids && pk in scopes :: resolution.ids[pk]))
  }

  lemma {:induction false} ResolvedPicked(scopes: seq<string>, ids: map<string, string>, keep: string -> bool, value: string -> string)
    requires forall pk :: keep(pk) <==> pk in ids
    requires forall pk :: pk in ids ==> value(pk) == ids[pk]
    ensures Picked(scopes, Resolved(scopes, ids), keep, value)
  {
    if scopes == [] {
      PickedNothing(keep, value);
    } else {
      ResolvedPicked(scopes[1..], ids, keep, value);
      PickedCons(scopes, Resolved(scopes, ids), keep, value);
    }
  }

  lemma {:induction false} UnresolvedPicked(scopes: seq<string>, ids: map<string, string>, drop: string -> bool)
    requires forall pk :: drop(pk) <==> pk !in ids
    ensures Picked(scopes, Unresolved(scopes, ids), drop, Itself)
  {
    if scopes == [] {
      PickedNothing(drop, Itself<string>);
    } else {
      UnresolvedPicked(scopes[1..], ids, drop);
      PickedCons(scopes, Unresolved(scopes, ids), drop, Itself);
    }
  }

  lemma ResolvedIn(scopes: seq<string>, ids: map<string, string>)
    ensures forall id :: id in Resolved(scopes, ids) <==> exists pk :: pk in scopes && pk in ids && ids[pk] == id
  {
    var keep, value := (pk: string) => pk in ids, (pk: string) => if pk in ids then ids[pk] else "";
    ResolvedPicked(scopes, ids, keep, value);
    forall id ensures id in Resolved(scopes, ids) <==> exists pk :: pk in scopes && pk in ids && ids[pk] == id {
      PickedHas(scopes, Resolved(scopes, ids), keep, value, id);
    }
  }

  /** `job_scope_wire_ids`: the ids of a scope text. */
  function WireIds(text: string): seq<string> {
    NonBlank(Split(text, COMMA))
  }

  function NonBlank(parts: seq<string>): seq<string> {
    if parts == [] then []
    else if Strip(parts[0]) != "" then [Strip(parts[0])] + NonBlank(parts[1..])
    else NonBlank(parts[1..])
  }

  lemma {:induction false} NonBlankIds(ids: seq<string>)
    requires forall i :: 0 <= i < |ids| ==> IsWireId(ids[i])
    ensures NonBlank(ids) == ids
  {
    if ids != [] {
      NonBlankIds(ids[1..]);
      assert IsWireId(ids[0]);
      StripKeeps(ids[0]);
    }
  }

  /** The scope text is read back as exactly the ids it was made of. */
  lemma WireIdsOfJoin(ids: seq<string>)
    requires ids != [] && forall i :: 0 <= i < |ids| ==> IsWireId(ids[i])
    ensures WireIds(Join(ids, COMMA)) == ids
  {
    forall i | 0 <= i < |ids| ensures COMMA !in ids[i] {
      assert IsWireId(ids[i]);
    }
    SplitJoin(ids, COMMA);
    NonBlankIds(ids);
  }

  // ---- Owners

  /** Which endpoint reflected which cluster: one row of the query. */
  datatype Claim = Claim(cluster: nat, endpoint: string)

  /** Every endpoint that claims `cluster`. */
  function Claimants(rows: seq<Claim>, cluster: nat): set<string> {
    set i | 0 <= i < |rows| && rows[i].cluster == cluster :: rows[i].endpoint
  }

  /** `_owner_endpoint_pks_by_cluster_id`: the whole claim set of every claimed cluster. */
  method OwnersByCluster(rows: seq<Claim>) returns (seen: map<nat, set<string>>)
    ensures Collects(seen, rows)
  {
    seen := map[];
    for k := 0 to |rows|
      invariant forall c :: c in seen <==> Claimants(rows[..k], c) != {}
      invariant forall c :: c in seen ==> seen[c] == Claimants(rows[..k], c)
    {
      var row := rows[k];
      forall c ensures Claimants(rows[..k + 1], c) == Claimants(rows[..k], c) + (if c == row.cluster then {row.endpoint} else {}) {
        ClaimantsStep(rows, k, c);
      }
      var claimed := if row.cluster in seen then seen[row.cluster] else {};
      assert claimed == Claimants(rows[..k], row.cluster);
      seen := seen[row.cluster := claimed + {row.endpoint}];
    }
    assert rows[..|rows|] == rows;
  }

  lemma ClaimantsStep(rows: seq<Claim>, k: nat, c: nat)
    requires k < |rows|
    ensures Claimants(rows[..k + 1], c) == Claimants(rows[..k], c) + (if c == rows[k].cluster then {rows[k].endpoint} else {})
  {
    var before, after := rows[..k], rows[..k + 1];
    forall x ensures x in Claimants(after, c) <==> x in Claimants(before, c) || (c == rows[k].cluster && x == rows[k].endpoint) {
      if x in Claimants(before, c) {
        var i :| 0 <= i < |before| && before[i].cluster == c && before[i].endpoint == x;
        assert after[i] == before[i];
      }
      if c == rows[k].cluster && x == rows[k].endpoint {
        assert after[k] == rows[k];
      }
    }
  }

  // ---- Selected objects

  datatype ObjectType = VirtualMachine | VmBackup | VmSnapshot | ProxmoxStorage | VmTaskHistory

  /** The cluster ids an object may hang off (zero means none), and why its parameters cannot be built. */
  datatype Object = Object(own: nat, ofStorage: nat, ofMachine: nat, paramsError: Option<int>)

  /** `_batch_object_core_cluster_id`; zero means none. */
  function CoreCluster(obj: Object, objectType: ObjectType): nat {
    match objectType
    case VirtualMachine => obj.own
    case ProxmoxStorage => obj.own
    case VmBackup => if obj.ofStorage != 0 then obj.ofStorage else obj.ofMachine
    case VmSnapshot => if obj.ofMachine != 0 then obj.ofMachine else obj.ofStorage
    case VmTaskHistory => if obj.ofMachine != 0 then obj.ofMachine else obj.ofStorage
  }

  /** The endpoints that claim the cluster of an object; none when it has no cluster. */
  function Owners(obj: Object, objectType: ObjectType, rows: seq<Claim>): set<string> {
    var cluster := CoreCluster(obj, objectType);
    if cluster == 0 then {} else Claimants(rows, cluster)
  }

  datatype Item = Item(id: string, status: int)

  datatype Dispatched = Dispatched(id: string, scope: string)

  /** What is decided about one object before the backend is asked. */
  datatype Decision = Refuse(status: int) | Ask(scope: string)

  lemma SingletonMember<T>(s: set<T>)
    requires |s| == 1
    ensures forall x, y :: x in s && y in s ==> x == y
  {
    forall x, y | x in s && y in s ensures x == y {
      assert |s - {x}| == 0;
      assert y == x || y in s - {x};
    }
  }

  /** The member of a one-element set. */
  function Only<T(==)>(s: set<T>): (x: T)
    requires |s| == 1
    ensures s == {x}
  {
    SingletonMember(s);
    assert s != {};
    var x :| x in s;
    x
  }

  /** `run_one` up to the request, for an object with these claimants. */
  function Decide(found: Option<Object>, owners: set<string>, scope: Scope): Decision {
    if found.None? then Refuse(404)
    else if |owners| > 1 then Refuse(424)
    else if |owners| == 1 then
      var owner := Only(owners);
      if owner !in scope.byPk || scope.byPk[owner] == "" then Refuse(424)
      else Build(found.value, scope.byPk[owner])
    else if |WireIds(scope.text)| > 1 then Refuse(424)
    else Build(found.value, scope.text)
  }

  function Build(obj: Object, scope: string): Decision {
    if obj.paramsError.Some? then Refuse(obj.paramsError.value) else Ask(scope)
  }

  function Lookup(id: string, objects: map<string, Object>): Option<Object> {
    if id in objects then Some(objects[id]) else None
  }

  /** The decision about one requested id; claims are looked at only when the run has a resolved scope. */
  function Verdict(id: string, objects: map<string, Object>, objectType: ObjectType, rows: seq<Claim>, scope: Scope): Decision {
    var found := Lookup(id, objects);
    var owners := if found.None? || scope.byPk == map[] then {} else Owners(found.value, objectType, rows);
    Decide(found, owners, scope)
  }

  function Succeeded(items: seq<Item>): nat {
    if items == [] then 0
    else Succeeded(items[..|items| - 1]) + (if items[|items| - 1].status < 400 then 1 else 0)
  }

  /** The results that succeeded, by their places. */
  function SucceededAt(items: seq<Item>): set<nat> {
    set i: nat | i < |items| && items[i].status < 400
  }

  lemma {:induction false} SucceededCounts(items: seq<Item>)
    ensures Succeeded(items) == |SucceededAt(items)|
  {
    if items != [] {
      var n := |items| - 1;
      SucceededCounts(items[..n]);
      var before, after := SucceededAt(items[..n]), SucceededAt(items);
      if items[n].status < 400 {
        assert after == before + {n};
      } else {
        assert after == before;
      }
    }
  }

  /** The decision for every id. */
  type Judge = string -> Decision

  function JudgeOf(objects: map<string, Object>, objectType: ObjectType, rows: seq<Claim>, scope: Scope): Judge {
    id => Verdict(id, objects, objectType, rows, scope)
  }

  /** What is reported for the `i`-th requested id. */
  function Report(ids: seq<string>, i: nat, judge: Judge, reply: nat -> int): Item
    requires i < |ids|
  {
    Item(ids[i], if judge(ids[i]).Ask? then reply(i) else judge(ids[i]).status)
  }

  /** The reports of the first `n` requested ids, in order. */
  function Reports(ids: seq<string>, n: nat, judge: Judge, reply: nat -> int): (items: seq<Item>)
    requires n <= |ids|
    ensures |items| == n
  {
    if n == 0 then [] else Reports(ids, n - 1, judge, reply) + [Report(ids, n - 1, judge, reply)]
  }

  /** One result for each requested id, at its place. */
  lemma {:induction false} ReportsAt(ids: seq<string>, n: nat, i: nat, judge: Judge, reply: nat -> int)
    requires i < n <= |ids|
    ensures Reports(ids, n, judge, reply)[i] == Report(ids, i, judge, reply)
  {
    if i < n - 1 {
      ReportsAt(ids, n - 1, i, judge, reply);
    }
  }

  /** The requests sent for the first `n` requested ids, in order. */
  function Requests(ids: seq<string>, n: nat, judge: Judge): seq<Dispatched>
    requires n <= |ids|
  {
    if n == 0 then [] else Requests(ids, n - 1, judge) + RequestFor(ids[n - 1], judge)
  }

  function RequestFor(id: string, judge: Judge): seq<Dispatched> {
    if judge(id).Ask? then [Dispatched(id, judge(id).scope)] else []
  }

  ghost predicate Agrees(judge: Judge, id: string, objects: map<string, Object>, objectType: ObjectType, rows: seq<Claim>, scope: Scope) {
    judge(id) == Verdict(id, objects, objectType, rows, scope)
  }

  ghost predicate Judges(judge: Judge, objects: map<string, Object>, objectType: ObjectType, rows: seq<Claim>, scope: Scope) {
    forall id :: Agrees(judge, id, objects, objectType, rows, scope)
  }

  /** The claims of every cluster, collected once for the whole batch. */
  ghost predicate Collects(seen: map<nat, set<string>>, rows: seq<Claim>) {
    && (forall c :: c in seen <==> Claimants(rows, c) != {})
    && (forall c :: c in seen ==> seen[c] == Claimants(rows, c))
  }

  /** `run_one`, from the claims collected per cluster. */
  method RunOne(ids: seq<string>, i: nat, objects: map<string, Object>, objectType: ObjectType, ghost rows: seq<Claim>,
                seen: map<nat, set<string>>, scope: Scope, reply: nat -> int, ghost judge: Judge)
    returns (item: Item, sent: seq<Dispatched>)
    requires i < |ids| && Collects(seen, rows) && Judges(judge, objects, objectType, rows, scope)
    ensures item == Report(ids, i, judge, reply) && sent == RequestFor(ids[i], judge)
  {
    var found := Lookup(ids[i], objects);
    var owners := {};
    if found.Some? && scope.byPk != map[] {
      var cluster := CoreCluster(found.value, objectType);
      if cluster != 0 && cluster in seen {
        owners := seen[cluster];
      }
    }
    var verdict := Decide(found, owners, scope);
    assert Agrees(judge, ids[i], objects, objectType, rows, scope);
    if verdict.Ask? {
      return Item(ids[i], reply(i)), [Dispatched(ids[i], verdict.scope)];
    }
    return Item(ids[i], verdict.status), [];
  }

  /**
   * `_run_batch_selected_sync`: one result per requested id and in that order; a request goes out
   * for exactly the ids whose verdict is to ask, with exactly the scope of the verdict.
   * `reply` is the status the backend gives to the request of each id.
   */
  method RunSelected(requested: seq<string>, objects: map<string, Object>, objectType: ObjectType, rows: seq<Claim>,
                     scope: Scope, reply: nat -> int)
    returns (results: seq<Item>, sent: seq<Dispatched>, succeeded: nat, failed: nat)
    ensures var ids, judge := NonEmpty(requested), JudgeOf(objects, objectType, rows, scope);
      results == Reports(ids, |ids|, judge, reply) && sent == Requests(ids, |ids|, judge)
    ensures AnswersAll(requested, results, sent, JudgeOf(objects, objectType, rows, scope), reply)
    ensures succeeded == |SucceededAt(results)| && succeeded + failed == |results|
  {
    var seen := OwnersByCluster(rows);
    ghost var judge := JudgeOf(objects, objectType, rows, scope);
    forall id ensures Agrees(judge, id, objects, objectType, rows, scope) {
    }
    results, sent, succeeded := RunIds(NonEmpty(requested), objects, objectType, rows, seen, scope, reply, judge);
    failed := |results| - succeeded;
    SucceededCounts(results);
    RunAnswersAll(requested, judge, reply);
  }

  function ResultIds(results: seq<Item>): (ids: seq<string>)
    ensures |ids| == |results| && forall i :: 0 <= i < |ids| ==> ids[i] == results[i].id
  {
    seq(|results|, i requires 0 <= i < |results| => results[i].id)
  }

  /** An id that is dispatched. */
  function Asked(judge: Judge): string -> bool {
    id => id != "" && judge(id).Ask?
  }

  function RequestOf(judge: Judge): string -> Dispatched {
    id => Dispatched(id, if judge(id).Ask? then judge(id).scope else "")
  }

  /**
   * One result for each requested id that is not empty, in order and as often as it was requested, with the
   * backend's answer if the id was dispatched and the status of the refusal if not; and one request for
   * each of the dispatched ids, in order.
   */
  ghost predicate AnswersAll(requested: seq<string>, results: seq<Item>, sent: seq<Dispatched>, judge: Judge, reply: nat -> int) {
    && Picked(requested, ResultIds(results), IsNonEmpty, Itself)
    && (forall i :: 0 <= i < |results| ==>
          results[i].status == if judge(results[i].id).Ask? then reply(i) else judge(results[i].id).status)
    && Picked(requested, sent, Asked(judge), RequestOf(judge))
  }

  lemma RunAnswersAll(requested: seq<string>, judge: Judge, reply: nat -> int)
    ensures var ids := NonEmpty(requested);
      AnswersAll(requested, Reports(ids, |ids|, judge, reply), Requests(ids, |ids|, judge), judge, reply)
  {
    var ids := NonEmpty(requested);
    var results := Reports(ids, |ids|, judge, reply);
    NonEmptyPicked(requested);
    forall i | 0 <= i < |ids| ensures results[i] == Report(ids, i, judge, reply) {
      ReportsAt(ids, |ids|, i, judge, reply);
    }
    assert ResultIds(results) == ids;
    var asks := (id: string) => judge(id).Ask?;
    RequestsPicked(ids, |ids|, judge, asks, RequestOf(judge));
    assert ids[..|ids|] == ids;
    PickedTwice(requested, ids, Requests(ids, |ids|, judge), IsNonEmpty, asks, Asked(judge), RequestOf(judge));
  }

  lemma RequestsStep(ids: seq<string>, n: nat, judge: Judge, asks: string -> bool, request: string -> Dispatched)
    requires 0 < n <= |ids| && request == RequestOf(judge) && asks(ids[n - 1]) == judge(ids[n - 1]).Ask?
    ensures Requests(ids, n, judge) ==
      if asks(ids[n - 1]) then Requests(ids, n - 1, judge) + [request(ids[n - 1])] else Requests(ids, n - 1, judge)
  {
    assert Requests(ids, n - 1, judge) + [] == Requests(ids, n - 1, judge);
  }

  lemma {:induction false} RequestsPicked(ids: seq<string>, n: nat, judge: Judge, asks: string -> bool, request: string -> Dispatched)
    requires n <= |ids| && request == RequestOf(judge) && forall i :: 0 <= i < |ids| ==> asks(ids[i]) == judge(ids[i]).Ask?
    ensures Picked(ids[..n], Requests(ids, n, judge), asks, request)
  {
    if n == 0 {
      PickedNothing(asks, request);
      assert ids[..0] == [];
    } else {
      RequestsPicked(ids, n - 1, judge, asks, request);
      RequestsStep(ids, n, judge, asks, request);
      PickedOneMore(ids, Requests(ids, n, judge), n - 1, Requests(ids, n - 1, judge), asks, request);
    }
  }

  method RunIds(ids: seq<string>, objects: map<string, Object>, objectType: ObjectType, ghost rows: seq<Claim>,
                seen: map<nat, set<string>>, scope: Scope, reply: nat -> int, ghost judge: Judge)
    returns (results: seq<Item>, sent: seq<Dispatched>, succeeded: nat)
    requires Collects(seen, rows) && Judges(judge, objects, objectType, rows, scope)
    ensures results == Reports(ids, |ids|, judge, reply) && sent == Requests(ids, |ids|, judge)
    ensures succeeded == Succeeded(results) <= |results|
  {
    results, sent, succeeded := [], [], 0;
    for i := 0 to |ids|
      invariant results == Reports(ids, i, judge, reply) && sent == Requests(ids, i, judge)
      invariant succeeded == Succeeded(results) <= i
    {
      var item, request := RunOne(ids, i, objects, objectType, rows, seen, scope, reply, judge);
      SucceededStep(results, item);
      results, sent := results + [item], sent + request;
      if item.status < 400 {
        succeeded := succeeded + 1;
      }
    }
  }

  lemma SucceededStep(items: seq<Item>, item: Item)
    ensures Succeeded(items + [item]) == Succeeded(items) + if item.status < 400 then 1 else 0
  {
    assert (items + [item])[..|items|] == items;
  }

  // ---- Every request names exactly one backend endpoint, the right one

  /** The backend registers endpoints under decimal ids. */
  predicate Registered(resolution: Resolution) {
    forall pk :: pk in resolution.ids ==> IsWireId(resolution.ids[pk])
  }

  /** The scope of a run: enabled endpoints only, and its text reads back as their ids. */
  lemma ScopeMeaning(raw: seq<string>, enabled: seq<string>, resolution: Resolution)
    requires Registered(resolution)
    ensures BatchWireScope(raw, enabled, resolution).Ok? <==>
            !resolution.error && exists pk :: pk in StageRun.Scopes(raw, enabled) && pk in resolution.ids
    ensures BatchWireScope(raw, enabled, resolution).Ok? ==>
      var scope := BatchWireScope(raw, enabled, resolution).value;
      && scope.byPk != map[]
      && WireIds(scope.text) == Resolved(StageRun.Scopes(raw, enabled), resolution.ids)
      && (|WireIds(scope.text)| == 1 ==> scope.text == WireIds(scope.text)[0])
  {
    var scopes := StageRun.Scopes(raw, enabled);
    var ids := Resolved(scopes, resolution.ids);
    ResolvedIn(scopes, resolution.ids);
    forall pk | pk in scopes && pk in resolution.ids ensures ids != [] {
      assert resolution.ids[pk] in ids;
    }
    if ids != [] {
      assert ids[0] in ids;
      var pk :| pk in scopes && pk in resolution.ids && resolution.ids[pk] == ids[0];
      assert pk in (map pk | pk in resolution.ids && pk in scopes :: resolution.ids[pk]);
      forall i | 0 <= i < |ids| ensures IsWireId(ids[i]) {
        assert ids[i] in ids;
      }
      WireIdsOfJoin(ids);
    }
  }

  /** An endpoint that is in the run: in its scope and known to the backend. */
  predicate InScope(pk: string, raw: seq<string>, enabled: seq<string>, resolution: Resolution) {
    pk in StageRun.Scopes(raw, enabled) && pk in resolution.ids
  }

  /**
   * When an object is asked about, exactly: it exists, its parameters can be built, and either one
   * endpoint claims its cluster and is in the run, or none does and the run names one backend id.
   */
  lemma AskedExactly(id: string, objects: map<string, Object>, objectType: ObjectType, rows: seq<Claim>,
                     raw: seq<string>, enabled: seq<string>, resolution: Resolution, scope: Scope)
    requires Registered(resolution) && BatchWireScope(raw, enabled, resolution) == Ok(scope)
    ensures Verdict(id, objects, objectType, rows, scope).Ask? <==>
      && id in objects && objects[id].paramsError.None?
      && var owners := Owners(objects[id], objectType, rows);
         || (exists pk :: owners == {pk} && InScope(pk, raw, enabled, resolution))
         || (owners == {} && |Resolved(StageRun.Scopes(raw, enabled), resolution.ids)| == 1)
  {
    ScopeMeaning(raw, enabled, resolution);
    if id in objects {
      var owners := Owners(objects[id], objectType, rows);
      if |owners| == 1 {
        var owner := Only(owners);
        assert owner in resolution.ids ==> IsWireId(resolution.ids[owner]);
        assert owners == {owner};
        assert owner in scope.byPk <==> InScope(owner, raw, enabled, resolution);
        forall pk | owners == {pk} ensures pk == owner {
          assert pk in owners;
        }
      }
    }
  }

  /** The endpoints that own an object cannot be asked: several claim it, one outside the run does, or none and the run names several. */
  ghost predicate Unownable(obj: Object, objectType: ObjectType, rows: seq<Claim>,
                            raw: seq<string>, enabled: seq<string>, resolution: Resolution)
  {
    var owners := Owners(obj, objectType, rows);
    || |owners| > 1
    || (exists pk :: owners == {pk} && !InScope(pk, raw, enabled, resolution))
    || (owners == {} && |Resolved(StageRun.Scopes(raw, enabled), resolution.ids)| > 1)
  }

  /** And if it is not asked about, exactly which status is reported for it. */
  lemma RefusedExactly(id: string, objects: map<string, Object>, objectType: ObjectType, rows: seq<Claim>,
                       raw: seq<string>, enabled: seq<string>, resolution: Resolution, scope: Scope)
    requires Registered(resolution) && BatchWireScope(raw, enabled, resolution) == Ok(scope)
    ensures var verdict := Verdict(id, objects, objectType, rows, scope);
      if id !in objects then verdict == Refuse(404)
      else if Unownable(objects[id], objectType, rows, raw, enabled, resolution) then verdict == Refuse(424)
      else if objects[id].paramsError.Some? then verdict == Refuse(objects[id].paramsError.value)
      else verdict.Ask?
  {
    ScopeMeaning(raw, enabled, resolution);
    if id in objects {
      var owners := Owners(objects[id], objectType, rows);
      if |owners| == 1 {
        var owner := Only(owners);
        assert owner in resolution.ids ==> IsWireId(resolution.ids[owner]);
        assert owner in scope.byPk <==> InScope(owner, raw, enabled, resolution);
        assert owners == {owner};
        forall pk | owners == {pk} ensures pk == owner {
          assert pk in owners;
        }
      }
    }
  }

  /** Whatever the scope, an object with one claimant is refused if the run has no backend id for it; without any ids, nobody's claim counts. */
  lemma ClaimantWithoutId(id: string, objects: map<string, Object>, objectType: ObjectType, rows: seq<Claim>, scope: Scope, pk: string)
    requires id in objects && Owners(objects[id], objectType, rows) == {pk}
    ensures scope.byPk != map[] && (pk !in scope.byPk || scope.byPk[pk] == "") ==>
      Verdict(id, objects, objectType, rows, scope) == Refuse(424)
    ensures scope.byPk == map[] ==> Verdict(id, objects, objectType, rows, scope) == Verdict(id, objects, objectType, [], scope)
  {
  }

  /** Which rows claim an object: a backup goes by its storage first, a snapshot and a task by their machine first. */
  lemma OwnersExactly(obj: Object, objectType: ObjectType, rows: seq<Claim>, pk: string)
    ensures pk in Owners(obj, objectType, rows) <==> exists i :: 0 <= i < |rows| && rows[i].endpoint == pk && ClaimsIt(rows[i], obj, objectType)
  {
  }

  predicate ClaimsIt(row: Claim, obj: Object, objectType: ObjectType) {
    && row.cluster != 0
    && match objectType
       case VirtualMachine => row.cluster == obj.own
       case ProxmoxStorage => row.cluster == obj.own
       case VmBackup => row.cluster == obj.ofStorage || (obj.ofStorage == 0 && row.cluster == obj.ofMachine)
       case VmSnapshot => row.cluster == obj.ofMachine || (obj.ofMachine == 0 && row.cluster == obj.ofStorage)
       case VmTaskHistory => row.cluster == obj.ofMachine || (obj.ofMachine == 0 && row.cluster == obj.ofStorage)
  }

  /** The endpoints reported as skipped are those of the run that the backend does not know, in order. */
  lemma SkippedExactly(raw: seq<string>, enabled: seq<string>, resolution: Resolution, scope: Scope, unknown: string -> bool)
    requires BatchWireScope(raw, enabled, resolution) == Ok(scope) && forall pk :: unknown(pk) <==> pk !in resolution.ids
    ensures Picked(StageRun.Scopes(raw, enabled), scope.skipped, unknown, Itself)
  {
    UnresolvedPicked(StageRun.Scopes(raw, enabled), resolution.ids, unknown);
  }

  /**
   * What an asked request names, always: one backend id, that of an enabled endpoint of the run,
   * and that of the endpoint which alone claims the object's cluster when there is one.
   */
  lemma RequestsNameOneEndpoint(id: string, objects: map<string, Object>, objectType: ObjectType, rows: seq<Claim>,
                                raw: seq<string>, enabled: seq<string>, resolution: Resolution, scope: Scope)
    requires Registered(resolution) && BatchWireScope(raw, enabled, resolution) == Ok(scope)
    requires Verdict(id, objects, objectType, rows, scope).Ask?
    ensures id in objects
    ensures var asked := Verdict(id, objects, objectType, rows, scope).scope;
      && IsWireId(asked)
      && (exists pk :: pk in enabled && InScope(pk, raw, enabled, resolution) && resolution.ids[pk] == asked)
      && forall pk :: pk in Owners(objects[id], objectType, rows) ==> pk in resolution.ids && resolution.ids[pk] == asked
  {
    ScopeMeaning(raw, enabled, resolution);
    var scopes := StageRun.Scopes(raw, enabled);
    forall pk | pk in scopes ensures pk in enabled {
      StageRun.ScopesHas(raw, enabled, pk);
    }
    ResolvedIn(scopes, resolution.ids);
    var owners := Owners(objects[id], objectType, rows);
    var asked := Verdict(id, objects, objectType, rows, scope).scope;
    if |owners| == 1 {
      var owner := Only(owners);
      assert owner in scope.byPk && InScope(owner, raw, enabled, resolution);
      assert owner in enabled && resolution.ids[owner] == asked;
    } else {
      var ids := Resolved(scopes, resolution.ids);
      assert asked == ids[0] && ids[0] in ids;
      var pk :| pk in scopes && pk in resolution.ids && resolution.ids[pk] == asked;
      assert pk in enabled && InScope(pk, raw, enabled, resolution);
    }
  }

  /** The same over a whole run: every request sent is for a requested id and names one endpoint as above. */
  lemma {:induction false} RunIsScoped(ids: seq<string>, n: nat, objects: map<string, Object>, objectType: ObjectType, rows: seq<Claim>,
                                       raw: seq<string>, enabled: seq<string>, resolution: Resolution, scope: Scope, k: nat)
    requires Registered(resolution) && BatchWireScope(raw, enabled, resolution) == Ok(scope)
    requires n <= |ids| && k < |Requests(ids, n, JudgeOf(objects, objectType, rows, scope))|
    ensures var sent := Requests(ids, n, JudgeOf(objects, objectType, rows, scope))[k];
      && sent.id in ids && sent.id in objects
      && IsWireId(sent.scope)
      && (exists pk :: pk in enabled && InScope(pk, raw, enabled, resolution) && resolution.ids[pk] == sent.scope)
      && (forall pk :: pk in Owners(objects[sent.id], objectType, rows) ==> pk in resolution.ids && resolution.ids[pk] == sent.scope)
  {
    if k < |Requests(ids, n - 1, JudgeOf(objects, objectType, rows, scope))| {
      RunIsScoped(ids, n - 1, objects, objectType, rows, raw, enabled, resolution, scope, k);
    } else {
      RequestsNameOneEndpoint(ids[n - 1], objects, objectType, rows, raw, enabled, resolution, scope);
    }
  }
}
