/**
 What a scan of nested archives accepts, charges, inspects and finds, told without recursion over scans: by the
 places of the bodies in the tree.
 */
module ArchiveTheorems {
  import opened Basics
  import opened Archive

  // ---- The bodies of a tree, by their places

  type Place = seq<nat>

  /** The body at a place: the way down, through file members only. */
  function At(blob: Blob, place: Place): Option<Blob>
    decreases |place|
  {
    if place == [] then Some(blob)
    else if IsArchive(blob) && place[0] < |blob.members| && blob.members[place[0]].kind.File?
    then At(blob.members[place[0]].body, place[1..])
    else None
  }

  /** `p` comes before `q` when the tree is read from top to bottom and from left to right. */
  predicate Before(p: Place, q: Place)
    decreases |p|
  {
    q != [] && (p == [] || p[0] < q[0] || (p[0] == q[0] && Before(p[1..], q[1..])))
  }

  function Under(i: nat, places: seq<Place>): (r: seq<Place>)
    ensures |r| == |places| && forall k :: 0 <= k < |places| ==> r[k] == [i] + places[k]
  {
    seq(|places|, k requires 0 <= k < |places| => [i] + places[k])
  }

  function Places(blob: Blob): seq<Place>
    decreases blob, 1, 0
  {
    [[]] + if IsArchive(blob) then PlacesUpTo(blob, |blob.members|) else []
  }

  function MemberPlaces(blob: Blob, i: nat): seq<Place>
    requires IsArchive(blob) && i < |blob.members|
    decreases blob, 0, i, 0
  {
    if blob.members[i].kind.File? then Under(i, Places(blob.members[i].body)) else []
  }

  function PlacesUpTo(blob: Blob, n: nat): seq<Place>
    requires IsArchive(blob) && n <= |blob.members|
    decreases blob, 0, n
  {
    if n == 0 then [] else PlacesUpTo(blob, n - 1) + MemberPlaces(blob, n - 1)
  }

  /** These bodies are at these places. */
  ghost predicate Stand(blob: Blob, bodies: seq<Blob>, places: seq<Place>) {
    |bodies| == |places| && forall k :: 0 <= k < |places| ==> At(blob, places[k]) == Some(bodies[k])
  }

  lemma StandConcat(blob: Blob, a: seq<Blob>, p: seq<Place>, b: seq<Blob>, q: seq<Place>)
    requires Stand(blob, a, p) && Stand(blob, b, q)
    ensures Stand(blob, a + b, p + q)
  {
  }

  lemma StandUnder(blob: Blob, i: nat, bodies: seq<Blob>, places: seq<Place>)
    requires IsArchive(blob) && i < |blob.members| && blob.members[i].kind.File? && Stand(blob.members[i].body, bodies, places)
    ensures Stand(blob, bodies, Under(i, places))
  {
    forall k | 0 <= k < |places| ensures At(blob, Under(i, places)[k]) == Some(bodies[k]) {
      var place := Under(i, places)[k];
      assert place[0] == i && place[1..] == places[k];
    }
  }

  lemma {:induction false} BodiesStand(blob: Blob)
    ensures Stand(blob, Bodies(blob), Places(blob))
    decreases blob, 1, 0
  {
    assert Stand(blob, [blob], [[]]);
    if IsArchive(blob) {
      BodiesStandUpTo(blob, |blob.members|);
      StandConcat(blob, [blob], [[]], BodiesUpTo(blob, |blob.members|), PlacesUpTo(blob, |blob.members|));
    }
  }

  lemma {:induction false} BodiesStandUpTo(blob: Blob, n: nat)
    requires IsArchive(blob) && n <= |blob.members|
    ensures Stand(blob, BodiesUpTo(blob, n), PlacesUpTo(blob, n))
    decreases blob, 0, n
  {
    if n > 0 {
      BodiesStandUpTo(blob, n - 1);
      if blob.members[n - 1].kind.File? {
        BodiesStand(blob.members[n - 1].body);
        StandUnder(blob, n - 1, Bodies(blob.members[n - 1].body), Places(blob.members[n - 1].body));
      }
      StandConcat(blob, BodiesUpTo(blob, n - 1), PlacesUpTo(blob, n - 1), MemberBodies(blob, n - 1), MemberPlaces(blob, n - 1));
    }
  }

  lemma UnderHas(i: nat, places: seq<Place>, place: Place)
    requires place != [] && place[0] == i && place[1..] in places
    ensures place in Under(i, places)
  {
    var k :| 0 <= k < |places| && places[k] == place[1..];
    assert Under(i, places)[k] == [i] + place[1..] == place;
  }

  /** No body is missed. */
  lemma {:induction false} EveryPlace(blob: Blob, place: Place)
    requires At(blob, place).Some?
    ensures place in Places(blob)
    decreases |place|
  {
    if place != [] {
      var i := place[0];
      var body := blob.members[i].body;
      EveryPlace(body, place[1..]);
      UnderHas(i, Places(body), place);
      MemberPlacesIn(blob, i, |blob.members|, place);
    }
  }

  lemma {:induction false} MemberPlacesIn(blob: Blob, i: nat, n: nat, place: Place)
    requires IsArchive(blob) && i < n <= |blob.members| && place in MemberPlaces(blob, i)
    ensures place in PlacesUpTo(blob, n)
    decreases n
  {
    if i < n - 1 {
      MemberPlacesIn(blob, i, n - 1, place);
    }
  }

  ghost predicate InOrder(places: seq<Place>) {
    forall k, l :: 0 <= k < l < |places| ==> Before(places[k], places[l])
  }

  /** Every place begins with an index below `n`. */
  ghost predicate Below(places: seq<Place>, n: nat) {
    forall k :: 0 <= k < |places| ==> places[k] != [] && places[k][0] < n
  }

  ghost predicate StartWith(places: seq<Place>, i: nat) {
    forall k :: 0 <= k < |places| ==> places[k] != [] && places[k][0] == i
  }

  lemma UnderInOrder(i: nat, places: seq<Place>)
    requires InOrder(places)
    ensures InOrder(Under(i, places)) && StartWith(Under(i, places), i)
  {
    var r := Under(i, places);
    forall k, l | 0 <= k < l < |r| ensures Before(r[k], r[l]) {
      assert Before(places[k], places[l]);
      assert r[k][1..] == places[k] && r[l][1..] == places[l];
    }
  }

  lemma OrderConcat(a: seq<Place>, b: seq<Place>, n: nat)
    requires InOrder(a) && InOrder(b) && Below(a, n) && StartWith(b, n)
    ensures InOrder(a + b) && Below(a + b, n + 1)
  {
    var all := a + b;
    forall k, l | 0 <= k < l < |all| ensures Before(all[k], all[l]) {
      if k < |a| <= l {
        assert all[k][0] < n && all[l][0] == n;
      } else if l < |a| {
        assert Before(a[k], a[l]);
      } else {
        assert Before(b[k - |a|], b[l - |a|]);
      }
    }
  }

  lemma {:induction false} PlacesInOrder(blob: Blob)
    ensures InOrder(Places(blob))
    decreases blob, 1, 0
  {
    if IsArchive(blob) {
      PlacesInOrderUpTo(blob, |blob.members|);
      var all, below := Places(blob), PlacesUpTo(blob, |blob.members|);
      forall k, l | 0 <= k < l < |all| ensures Before(all[k], all[l]) {
        assert all[l] == below[l - 1];
        assert k > 0 ==> all[k] == below[k - 1];
      }
    }
  }

  lemma {:induction false} PlacesInOrderUpTo(blob: Blob, n: nat)
    requires IsArchive(blob) && n <= |blob.members|
    ensures InOrder(PlacesUpTo(blob, n)) && Below(PlacesUpTo(blob, n), n)
    decreases blob, 0, n
  {
    if n > 0 {
      PlacesInOrderUpTo(blob, n - 1);
      if blob.members[n - 1].kind.File? {
        PlacesInOrder(blob.members[n - 1].body);
        UnderInOrder(n - 1, Places(blob.members[n - 1].body));
      }
      OrderConcat(PlacesUpTo(blob, n - 1), MemberPlaces(blob, n - 1), n - 1);
    }
  }

  /**
   What is inspected is exactly what the tree holds: one body for each place there is, and none twice, from top
   to bottom and from left to right.
   */
  lemma InspectsEveryBodyOnce(blob: Blob) returns (places: seq<Place>)
    ensures Stand(blob, Bodies(blob), places) && InOrder(places)
    ensures forall place :: place in places <==> At(blob, place).Some?
  {
    places := Places(blob);
    BodiesStand(blob);
    PlacesInOrder(blob);
    forall place ensures place in places <==> At(blob, place).Some? {
      if At(blob, place).Some? {
        EveryPlace(blob, place);
      }
    }
  }

  lemma {:induction false} BeforeIsStrict(p: Place)
    ensures !Before(p, p)
    decreases |p|
  {
    if p != [] {
      BeforeIsStrict(p[1..]);
    }
  }

  // ---- Sums over the inspected bodies

  function Sum(bodies: seq<Blob>, weight: Blob -> nat): nat {
    if bodies == [] then 0 else weight(bodies[0]) + Sum(bodies[1..], weight)
  }

  lemma {:induction false} SumConcat(a: seq<Blob>, b: seq<Blob>, weight: Blob -> nat)
    ensures Sum(a + b, weight) == Sum(a, weight) + Sum(b, weight)
  {
    if a == [] {
      assert a + b == b;
    } else {
      SumConcat(a[1..], b, weight);
      assert (a + b)[1..] == a[1..] + b;
    }
  }

  /** The members an archive itself lists. */
  function Listed(blob: Blob): nat {
    if IsArchive(blob) then |blob.members| else 0
  }

  /** What a body itself is charged for: a ZIP its comment, and metadata and bodies of its members; a tar its unpacked stream. */
  function Charge(blob: Blob): nat {
    match blob
    case Zip(_, _, comment, _, members) => comment + ZipChargeUpTo(members, |members|)
    case Tar(_, _, unpacked, _) => unpacked
    case _ => 0
  }

  function ZipChargeUpTo(members: seq<Member>, n: nat): nat
    requires n <= |members|
  {
    if n == 0 then 0
    else
      ZipChargeUpTo(members, n - 1) + members[n - 1].metadata + if members[n - 1].kind.File? then members[n - 1].body.size else 0
  }

  lemma {:induction false} CountIsListed(blob: Blob)
    ensures Count(blob) == Sum(Bodies(blob), Listed)
    decreases blob, 1, 0
  {
    SumOfOne(blob, Listed);
    if IsArchive(blob) {
      CountIsListedUpTo(blob, |blob.members|);
      SumConcat([blob], BodiesUpTo(blob, |blob.members|), Listed);
    }
  }

  lemma {:induction false} CountIsListedUpTo(blob: Blob, n: nat)
    requires IsArchive(blob) && n <= |blob.members|
    ensures CountUpTo(blob, n) == n + Sum(BodiesUpTo(blob, n), Listed)
    decreases blob, 0, n
  {
    if n > 0 {
      CountIsListedUpTo(blob, n - 1);
      SumConcat(BodiesUpTo(blob, n - 1), MemberBodies(blob, n - 1), Listed);
      if blob.members[n - 1].kind.File? {
        CountIsListed(blob.members[n - 1].body);
      }
    }
  }

  lemma SumOfOne(blob: Blob, weight: Blob -> nat)
    ensures Sum([blob], weight) == weight(blob)
  {
    assert [blob][1..] == [];
  }

  lemma {:induction false} BytesAreCharged(blob: Blob)
    ensures Bytes(blob, false) == Sum(Bodies(blob), Charge) && Bytes(blob, true) == blob.size + Sum(Bodies(blob), Charge)
    decreases blob, 1, 0
  {
    SumOfOne(blob, Charge);
    if IsArchive(blob) {
      BytesAreChargedUpTo(blob, |blob.members|);
      SumConcat([blob], BodiesUpTo(blob, |blob.members|), Charge);
    }
  }

  lemma {:induction false} BytesAreChargedUpTo(blob: Blob, n: nat)
    requires IsArchive(blob) && n <= |blob.members|
    ensures BytesUpTo(blob, n) == (if blob.Zip? then ZipChargeUpTo(blob.members, n) else 0) + Sum(BodiesUpTo(blob, n), Charge)
    decreases blob, 0, n
  {
    if n > 0 {
      BytesAreChargedUpTo(blob, n - 1);
      SumConcat(BodiesUpTo(blob, n - 1), MemberBodies(blob, n - 1), Charge);
      if blob.members[n - 1].kind.File? {
        BytesAreCharged(blob.members[n - 1].body);
      }
    }
  }

  // ---- When a scan succeeds

  /** Nothing about this member stops a scan: no link in a ZIP, nothing encrypted or of an unsupported type, files readable within their declared size. */
  predicate FineMember(blob: Blob, i: nat)
    requires IsArchive(blob) && i < |blob.members|
  {
    var member := blob.members[i];
    && member.declared <= MAX_BYTES
    && !member.kind.Encrypted? && !member.kind.Unsupported?
    && (member.kind.Link? ==> blob.Tar?)
    && (member.kind.File? ==> member.readable && member.body.size <= member.declared)
  }

  /** Nothing about this body itself, at this depth, stops a scan. */
  predicate Fine(blob: Blob, depth: nat) {
    match blob
    case Plain(_, text) => text.Some?
    case Opaque(_, approved, bytes) => approved || bytes != []
    case Zip(_, opens, _, _, members) =>
      depth < MAX_DEPTH && opens && |members| <= MAX_MEMBERS && forall i :: 0 <= i < |members| ==> FineMember(blob, i)
    case Tar(_, opens, unpacked, members) =>
      && depth < MAX_DEPTH && opens && |members| <= MAX_MEMBERS && unpacked <= MAX_BYTES
      && forall i :: 0 <= i < |members| ==> FineMember(blob, i)
  }

  /** Nothing at any place stops a scan; the depth of a place is its length. */
  ghost predicate AllFine(blob: Blob, depth: nat) {
    forall place :: At(blob, place).Some? ==> Fine(At(blob, place).value, depth + |place|)
  }

  ghost predicate AcceptableAt(blob: Blob, i: nat, depth: nat)
    requires IsArchive(blob) && i < |blob.members|
  {
    AcceptableMember(blob, i, depth)
  }

  lemma {:induction false} UpToAcceptable(blob: Blob, n: nat, depth: nat)
    requires IsArchive(blob) && n <= |blob.members|
    ensures AcceptableUpTo(blob, n, depth) <==> forall i: nat :: i < n ==> AcceptableAt(blob, i, depth)
    decreases n
  {
    if n > 0 {
      UpToAcceptable(blob, n - 1, depth);
      assert AcceptableUpTo(blob, n, depth) <==> AcceptableUpTo(blob, n - 1, depth) && AcceptableAt(blob, n - 1, depth);
    }
  }

  /** A member is acceptable exactly if it is fine itself and so is everything below it. */
  lemma MemberAcceptable(blob: Blob, i: nat, depth: nat)
    requires IsArchive(blob) && i < |blob.members| && blob.members[i].declared <= MAX_BYTES
    requires blob.members[i].kind.File? ==> (Acceptable(blob.members[i].body, depth + 1) <==> AllFine(blob.members[i].body, depth + 1))
    ensures AcceptableAt(blob, i, depth) <==>
      FineMember(blob, i) && (blob.members[i].kind.File? ==> AllFine(blob.members[i].body, depth + 1))
  {
  }

  /** Everything is fine exactly if the top is, and everything below each file member. */
  lemma AllFineSplit(blob: Blob, depth: nat)
    ensures AllFine(blob, depth) <==>
      && Fine(blob, depth)
      && (IsArchive(blob) ==> forall i :: 0 <= i < |blob.members| && blob.members[i].kind.File? ==> AllFine(blob.members[i].body, depth + 1))
  {
    if AllFine(blob, depth) {
      assert At(blob, []).Some?;
      if IsArchive(blob) {
        forall i | 0 <= i < |blob.members| && blob.members[i].kind.File? ensures AllFine(blob.members[i].body, depth + 1) {
          FineBelow(blob, depth, i);
        }
      }
    }
    if Fine(blob, depth) && (IsArchive(blob) ==> forall i :: 0 <= i < |blob.members| && blob.members[i].kind.File? ==> AllFine(blob.members[i].body, depth + 1)) {
      forall place | At(blob, place).Some? ensures Fine(At(blob, place).value, depth + |place|) {
        if place != [] {
          assert AllFine(blob.members[place[0]].body, depth + 1);
          assert depth + |place| == depth + 1 + |place[1..]|;
        }
      }
    }
  }

  lemma FineBelow(blob: Blob, depth: nat, i: nat)
    requires AllFine(blob, depth) && IsArchive(blob) && i < |blob.members| && blob.members[i].kind.File?
    ensures AllFine(blob.members[i].body, depth + 1)
  {
    var body := blob.members[i].body;
    forall place | At(body, place).Some? ensures Fine(At(body, place).value, depth + 1 + |place|) {
      var whole := [i] + place;
      assert whole[1..] == place && At(blob, whole) == At(body, place);
    }
  }

  /** What an archive must satisfy apart from its members one by one. */
  predicate Top(blob: Blob, depth: nat)
    requires IsArchive(blob)
  {
    && depth < MAX_DEPTH && blob.opens && |blob.members| <= MAX_MEMBERS
    && (blob.Tar? ==> blob.unpacked <= MAX_BYTES)
    && forall i :: 0 <= i < |blob.members| ==> blob.members[i].declared <= MAX_BYTES
  }

  lemma TopAcceptable(blob: Blob, depth: nat)
    requires IsArchive(blob)
    ensures Acceptable(blob, depth) <==> Top(blob, depth) && forall i: nat :: i < |blob.members| ==> AcceptableAt(blob, i, depth)
  {
    UpToAcceptable(blob, |blob.members|, depth);
  }

  lemma TopFine(blob: Blob, depth: nat)
    requires IsArchive(blob)
    ensures Fine(blob, depth) <==> Top(blob, depth) && forall i: nat :: i < |blob.members| ==> FineMember(blob, i)
  {
    if Fine(blob, depth) {
      forall i | 0 <= i < |blob.members| ensures blob.members[i].declared <= MAX_BYTES {
        assert FineMember(blob, i);
      }
    }
  }

  /** A member is fine, and so is everything below it. */
  ghost predicate FineAt(blob: Blob, i: nat, depth: nat)
    requires IsArchive(blob) && i < |blob.members|
  {
    FineMember(blob, i) && (blob.members[i].kind.File? ==> AllFine(blob.members[i].body, depth + 1))
  }

  lemma ArchiveFine(blob: Blob, depth: nat)
    requires IsArchive(blob)
    ensures AllFine(blob, depth) <==> Top(blob, depth) && forall i: nat :: i < |blob.members| ==> FineAt(blob, i, depth)
  {
    AllFineSplit(blob, depth);
    TopFine(blob, depth);
    if Top(blob, depth) && forall i: nat :: i < |blob.members| ==> FineAt(blob, i, depth) {
      forall i: nat | i < |blob.members| ensures FineMember(blob, i) && (blob.members[i].kind.File? ==> AllFine(blob.members[i].body, depth + 1)) {
        assert FineAt(blob, i, depth);
      }
    }
  }

  lemma {:induction false} AcceptableIsFine(blob: Blob, depth: nat)
    ensures Acceptable(blob, depth) <==> AllFine(blob, depth)
    decreases blob
  {
    if IsArchive(blob) {
      TopAcceptable(blob, depth);
      ArchiveFine(blob, depth);
      if Top(blob, depth) {
        forall i: nat | i < |blob.members| ensures AcceptableAt(blob, i, depth) <==> FineAt(blob, i, depth) {
          if blob.members[i].kind.File? {
            AcceptableIsFine(blob.members[i].body, depth + 1);
          }
          MemberAcceptable(blob, i, depth);
        }
      }
    } else {
      AllFineSplit(blob, depth);
    }
  }

  /**
   A file is scanned successfully if and only if nothing at any place of its tree stops the scan, and over all
   inspected bodies at most 100 MiB are charged and at most 10,000 members listed.
   */
  lemma SuccessExactly(blob: Blob)
    ensures Fits(blob, 0, false, MAX_BYTES, MAX_MEMBERS) <==>
      AllFine(blob, 0) && Sum(Bodies(blob), Charge) <= MAX_BYTES && Sum(Bodies(blob), Listed) <= MAX_MEMBERS
  {
    AcceptableIsFine(blob, 0);
    BytesAreCharged(blob);
    CountIsListed(blob);
  }

  // ---- Findings

  /** The findings of a body itself: of its text, of its bytes unless approved, of its comment, and of its members' metadata. */
  function OwnFindings(blob: Blob): Findings {
    match blob
    case Plain(_, text) => if text.Some? then text.value else []
    case Opaque(_, approved, bytes) => if approved then [] else bytes
    case Zip(_, _, _, remarks, members) => remarks + MetadataUpTo(members, |members|)
    case Tar(_, _, _, members) => MetadataUpTo(members, |members|)
  }

  function MetadataUpTo(members: seq<Member>, n: nat): Findings
    requires n <= |members|
  {
    if n == 0 then [] else MetadataUpTo(members, n - 1) + members[n - 1].findings
  }

  /** How often a list has a finding. */
  function Times(findings: Findings, finding: string): nat {
    if findings == [] then 0 else (if findings[0] == finding then 1 else 0) + Times(findings[1..], finding)
  }

  lemma {:induction false} TimesConcat(a: Findings, b: Findings, finding: string)
    ensures Times(a + b, finding) == Times(a, finding) + Times(b, finding)
  {
    if a == [] {
      assert a + b == b;
    } else {
      TimesConcat(a[1..], b, finding);
      assert (a + b)[1..] == a[1..] + b;
    }
  }

  lemma {:induction false} TimesHas(findings: Findings, finding: string)
    ensures Times(findings, finding) > 0 <==> finding in findings
  {
    if findings != [] {
      TimesHas(findings[1..], finding);
      assert findings == [findings[0]] + findings[1..];
    }
  }

  /** How often bodies themselves have a finding. */
  function Total(bodies: seq<Blob>, finding: string): nat {
    if bodies == [] then 0 else Times(OwnFindings(bodies[0]), finding) + Total(bodies[1..], finding)
  }

  lemma {:induction false} TotalConcat(a: seq<Blob>, b: seq<Blob>, finding: string)
    ensures Total(a + b, finding) == Total(a, finding) + Total(b, finding)
  {
    if a == [] {
      assert a + b == b;
    } else {
      TotalConcat(a[1..], b, finding);
      assert (a + b)[1..] == a[1..] + b;
    }
  }

  lemma TotalOfOne(blob: Blob, finding: string)
    ensures Total([blob], finding) == Times(OwnFindings(blob), finding)
  {
    assert [blob][1..] == [];
  }

  lemma TotalOneMore(blob: Blob, n: nat, finding: string)
    requires IsArchive(blob) && 0 < n <= |blob.members|
    ensures Total(BodiesUpTo(blob, n), finding) ==
      Total(BodiesUpTo(blob, n - 1), finding) + if blob.members[n - 1].kind.File? then Total(Bodies(blob.members[n - 1].body), finding) else 0
  {
    TotalConcat(BodiesUpTo(blob, n - 1), MemberBodies(blob, n - 1), finding);
  }

  /** The finding occurs in the result as often as in all bodies together. */
  ghost predicate Gathered(blob: Blob, finding: string) {
    Times(AllFindings(blob), finding) == Total(Bodies(blob), finding)
  }

  /** A scan reports a finding as often as the inspected bodies themselves have it. */
  lemma {:induction false} FindingsAreGathered(blob: Blob, finding: string)
    ensures Gathered(blob, finding)
    decreases blob, 1, 0
  {
    TotalOfOne(blob, finding);
    if IsArchive(blob) {
      var n := |blob.members|;
      FindingsAreGatheredUpTo(blob, n, finding);
      TotalConcat([blob], BodiesUpTo(blob, n), finding);
      if blob.Zip? {
        TimesConcat(blob.remarks, FindingsUpTo(blob, n), finding);
        TimesConcat(blob.remarks, MetadataUpTo(blob.members, n), finding);
      }
    }
  }

  /** How much more often the first `n` members have the finding than their metadata and the bodies below them. */
  ghost function Excess(blob: Blob, n: nat, finding: string): int
    requires IsArchive(blob) && n <= |blob.members|
  {
    Times(FindingsUpTo(blob, n), finding) - Times(MetadataUpTo(blob.members, n), finding) - Total(BodiesUpTo(blob, n), finding)
  }

  lemma ExcessStep(blob: Blob, n: nat, finding: string)
    requires IsArchive(blob) && 0 < n <= |blob.members| && Excess(blob, n - 1, finding) == 0
    requires blob.members[n - 1].kind.File? ==> Gathered(blob.members[n - 1].body, finding)
    ensures Excess(blob, n, finding) == 0
  {
    TotalOneMore(blob, n, finding);
    OneMoreMember(blob, n, finding);
  }

  lemma ExcessZero(blob: Blob, finding: string)
    requires IsArchive(blob)
    ensures Excess(blob, 0, finding) == 0
  {
    assert FindingsUpTo(blob, 0) == [] && MetadataUpTo(blob.members, 0) == [] && BodiesUpTo(blob, 0) == [];
  }

  lemma {:induction false} FindingsAreGatheredUpTo(blob: Blob, n: nat, finding: string)
    requires IsArchive(blob) && n <= |blob.members|
    ensures Excess(blob, n, finding) == 0
    decreases blob, 0, n
  {
    if n == 0 {
      ExcessZero(blob, finding);
    } else {
      FindingsAreGatheredUpTo(blob, n - 1, finding);
      if blob.members[n - 1].kind.File? {
        FindingsAreGathered(blob.members[n - 1].body, finding);
      }
      ExcessStep(blob, n, finding);
    }
  }

  lemma OneMoreMember(blob: Blob, n: nat, finding: string)
    requires IsArchive(blob) && 0 < n <= |blob.members|
    ensures
      var member := blob.members[n - 1];
      && Times(FindingsUpTo(blob, n), finding) ==
           Times(FindingsUpTo(blob, n - 1), finding) + Times(member.findings, finding)
           + (if member.kind.File? then Times(AllFindings(member.body), finding) else 0)
      && Times(MetadataUpTo(blob.members, n), finding) == Times(MetadataUpTo(blob.members, n - 1), finding) + Times(member.findings, finding)
  {
    var member := blob.members[n - 1];
    TimesConcat(FindingsUpTo(blob, n - 1), MemberFindings(blob, n - 1), finding);
    TimesConcat(member.findings, if member.kind.File? then AllFindings(member.body) else [], finding);
    TimesConcat(MetadataUpTo(blob.members, n - 1), member.findings, finding);
  }

  /** This body itself has the finding. */
  predicate Has(blob: Blob, finding: string) {
    match blob
    case Plain(_, text) => text.Some? && finding in text.value
    case Opaque(_, approved, bytes) => !approved && finding in bytes
    case Zip(_, _, _, remarks, members) => finding in remarks || exists i :: 0 <= i < |members| && finding in members[i].findings
    case Tar(_, _, _, members) => exists i :: 0 <= i < |members| && finding in members[i].findings
  }

  lemma {:induction false} MetadataHas(members: seq<Member>, n: nat, finding: string)
    requires n <= |members|
    ensures finding in MetadataUpTo(members, n) <==> exists i :: 0 <= i < n && finding in members[i].findings
  {
    if n > 0 {
      MetadataHas(members, n - 1, finding);
    }
  }

  lemma OwnHas(blob: Blob, finding: string)
    ensures finding in OwnFindings(blob) <==> Has(blob, finding)
  {
    if IsArchive(blob) {
      MetadataHas(blob.members, |blob.members|, finding);
    }
  }

  lemma {:induction false} TotalHas(bodies: seq<Blob>, finding: string)
    ensures Total(bodies, finding) > 0 <==> exists k :: 0 <= k < |bodies| && Has(bodies[k], finding)
  {
    if bodies != [] {
      TotalHas(bodies[1..], finding);
      OwnHas(bodies[0], finding);
      TimesHas(OwnFindings(bodies[0]), finding);
      assert forall k :: 0 <= k < |bodies| - 1 ==> bodies[1..][k] == bodies[k + 1];
      assert forall k :: 1 <= k < |bodies| ==> bodies[k] == bodies[1..][k - 1];
    }
  }

  lemma InspectedHas(blob: Blob, bodies: seq<Blob>, finding: string)
    requires bodies == Bodies(blob)
    ensures finding in AllFindings(blob) <==> exists k :: 0 <= k < |bodies| && Has(bodies[k], finding)
  {
    FindingsAreGathered(blob, finding);
    TotalHas(bodies, finding);
    TimesHas(AllFindings(blob), finding);
  }

  /** The body at this place has the finding. */
  ghost predicate HasAt(blob: Blob, place: Place, finding: string) {
    At(blob, place).Some? && Has(At(blob, place).value, finding)
  }

  /** A scan reports a finding if and only if the body at some place of the tree has it, however deep. */
  lemma FindingsExactly(blob: Blob, finding: string)
    ensures finding in AllFindings(blob) <==> exists place :: HasAt(blob, place, finding)
  {
    var bodies := Bodies(blob);
    InspectedHas(blob, bodies, finding);
    var places := InspectsEveryBodyOnce(blob);
    if finding in AllFindings(blob) {
      var k :| 0 <= k < |bodies| && Has(bodies[k], finding);
      assert At(blob, places[k]) == Some(bodies[k]);
      assert HasAt(blob, places[k], finding);
    }
    if exists place :: HasAt(blob, place, finding) {
      var place :| HasAt(blob, place, finding);
      assert place in places;
      var k :| 0 <= k < |places| && places[k] == place;
      assert At(blob, places[k]) == Some(bodies[k]);
      assert Has(bodies[k], finding);
    }
  }
}
