/**
 The bounded scan of nested archives. A blob is what the archive libraries and the text scanner see in
 its bytes: its length, the findings in its text, and for an archive its members with their bodies.
 */
module Archive {
  import opened Basics

  const MAX_MEMBERS := 10_000
  const MAX_BYTES := 104_857_600
  const MAX_DEPTH := 3

  datatype Kind = Directory | Link | File | Encrypted | Unsupported

  type Findings = seq<string>

  datatype Member = Member(metadata: nat, findings: Findings, kind: Kind, readable: bool, declared: nat, body: Blob)

  datatype Blob =
    | Plain(size: nat, text: Option<Findings>)
    | Opaque(size: nat, approved: bool, bytes: Findings)
    | Zip(size: nat, opens: bool, comment: nat, remarks: Findings, members: seq<Member>)
    | Tar(size: nat, opens: bool, unpacked: nat, members: seq<Member>)

  predicate IsArchive(blob: Blob) {
    blob.Zip? || blob.Tar?
  }

  // ---- What a scan has to charge, to find and to inspect

  /** Bytes charged for a blob; its own length counts when it comes out of a ZIP. */
  function Bytes(blob: Blob, charge: bool): nat
    decreases blob, 1, 0
  {
    (if charge then blob.size else 0) +
    match blob
    case Zip(_, _, comment, _, members) => comment + BytesUpTo(blob, |members|)
    case Tar(_, _, unpacked, members) => unpacked + BytesUpTo(blob, |members|)
    case _ => 0
  }

  function MemberBytes(blob: Blob, i: nat): nat
    requires IsArchive(blob) && i < |blob.members|
    decreases blob, 0, i, 0
  {
    var member := blob.members[i];
    (if blob.Zip? then member.metadata else 0) + if member.kind.File? then Bytes(member.body, blob.Zip?) else 0
  }

  function BytesUpTo(blob: Blob, n: nat): nat
    requires IsArchive(blob) && n <= |blob.members|
    decreases blob, 0, n
  {
    if n == 0 then 0 else BytesUpTo(blob, n - 1) + MemberBytes(blob, n - 1)
  }

  /** Members at all levels. */
  function Count(blob: Blob): nat
    decreases blob, 1, 0
  {
    if IsArchive(blob) then CountUpTo(blob, |blob.members|) else 0
  }

  function MemberCount(blob: Blob, i: nat): nat
    requires IsArchive(blob) && i < |blob.members|
    decreases blob, 0, i, 0
  {
    1 + if blob.members[i].kind.File? then Count(blob.members[i].body) else 0
  }

  function CountUpTo(blob: Blob, n: nat): nat
    requires IsArchive(blob) && n <= |blob.members|
    decreases blob, 0, n
  {
    if n == 0 then 0 else CountUpTo(blob, n - 1) + MemberCount(blob, n - 1)
  }

  /** All findings, at all levels and in order. */
  function AllFindings(blob: Blob): Findings
    decreases blob, 1, 0
  {
    match blob
    case Plain(_, text) => if text.Some? then text.value else []
    case Opaque(_, approved, bytes) => if approved then [] else bytes
    case Zip(_, _, _, remarks, members) => remarks + FindingsUpTo(blob, |members|)
    case Tar(_, _, _, members) => FindingsUpTo(blob, |members|)
  }

  function MemberFindings(blob: Blob, i: nat): Findings
    requires IsArchive(blob) && i < |blob.members|
    decreases blob, 0, i, 0
  {
    blob.members[i].findings + if blob.members[i].kind.File? then AllFindings(blob.members[i].body) else []
  }

  function FindingsUpTo(blob: Blob, n: nat): Findings
    requires IsArchive(blob) && n <= |blob.members|
    decreases blob, 0, n
  {
    if n == 0 then [] else FindingsUpTo(blob, n - 1) + MemberFindings(blob, n - 1)
  }

  /** A blob and the bodies of all its file members at all levels, each once and in order. */
  function Bodies(blob: Blob): seq<Blob>
    decreases blob, 1, 0
  {
    [blob] + if IsArchive(blob) then BodiesUpTo(blob, |blob.members|) else []
  }

  function MemberBodies(blob: Blob, i: nat): seq<Blob>
    requires IsArchive(blob) && i < |blob.members|
    decreases blob, 0, i, 0
  {
    if blob.members[i].kind.File? then Bodies(blob.members[i].body) else []
  }

  function BodiesUpTo(blob: Blob, n: nat): seq<Blob>
    requires IsArchive(blob) && n <= |blob.members|
    decreases blob, 0, n
  {
    if n == 0 then [] else BodiesUpTo(blob, n - 1) + MemberBodies(blob, n - 1)
  }

  // ---- What makes a blob acceptable apart from the budget

  predicate Acceptable(blob: Blob, depth: nat)
    decreases blob, 1, 0
  {
    if blob.Plain? then blob.text.Some?
    else if blob.Opaque? then blob.approved || blob.bytes != []
    else
      && depth < MAX_DEPTH && blob.opens && |blob.members| <= MAX_MEMBERS
      && (blob.Tar? ==> blob.unpacked <= MAX_BYTES)
      && (forall i :: 0 <= i < |blob.members| ==> blob.members[i].declared <= MAX_BYTES)
      && AcceptableUpTo(blob, |blob.members|, depth)
  }

  predicate AcceptableUpTo(blob: Blob, n: nat, depth: nat)
    requires IsArchive(blob) && n <= |blob.members|
    decreases blob, 0, n
  {
    n == 0 || (AcceptableUpTo(blob, n - 1, depth) && AcceptableMember(blob, n - 1, depth))
  }

  predicate AcceptableMember(blob: Blob, i: nat, depth: nat)
    requires IsArchive(blob) && i < |blob.members|
    decreases blob, 0, i, 0
  {
    var member := blob.members[i];
    match member.kind
    case Directory => true
    case Link => blob.Tar?
    case File => member.readable && member.body.size <= member.declared && Acceptable(member.body, depth + 1)
    case _ => false
  }

  // ---- The scan

  class ArchiveBudget {
    var remainingBytes: nat
    var remainingMembers: nat

    /** `_new_archive_budget`. */
    constructor ()
      ensures remainingBytes == MAX_BYTES && remainingMembers == MAX_MEMBERS
    {
      remainingBytes, remainingMembers := MAX_BYTES, MAX_MEMBERS;
    }

    method ChargeBytes(size: nat) returns (ok: bool)
      modifies this`remainingBytes
      ensures ok <==> size <= old(remainingBytes)
      ensures remainingBytes == old(remainingBytes) - if ok then size else 0
    {
      if size > remainingBytes {
        return false;
      }
      remainingBytes := remainingBytes - size;
      return true;
    }

    method ChargeMember() returns (ok: bool)
      modifies this`remainingMembers
      ensures ok <==> old(remainingMembers) >= 1
      ensures remainingMembers == old(remainingMembers) - if ok then 1 else 0
    {
      if remainingMembers < 1 {
        return false;
      }
      remainingMembers := remainingMembers - 1;
      return true;
    }
  }

  /** A blob fits a budget. */
  predicate Fits(blob: Blob, depth: nat, charge: bool, bytes: nat, members: nat) {
    Acceptable(blob, depth) && Bytes(blob, charge) <= bytes && Count(blob) <= members
  }

  predicate MemberFits(blob: Blob, i: nat, depth: nat, bytes: nat, members: nat)
    requires IsArchive(blob) && i < |blob.members|
  {
    AcceptableMember(blob, i, depth) && MemberBytes(blob, i) <= bytes && MemberCount(blob, i) <= members
  }

  /** One member of an archive, with everything below it. */
  method ScanMember(blob: Blob, i: nat, depth: nat, budget: ArchiveBudget) returns (findings: Option<Findings>, ghost visited: seq<Blob>)
    requires IsArchive(blob) && i < |blob.members| && blob.members[i].declared <= MAX_BYTES
    modifies budget
    ensures findings.Some? <==> MemberFits(blob, i, depth, old(budget.remainingBytes), old(budget.remainingMembers))
    ensures findings.Some? ==> findings.value == MemberFindings(blob, i) && visited == MemberBodies(blob, i)
    ensures findings.Some? ==>
      && budget.remainingBytes == old(budget.remainingBytes) - MemberBytes(blob, i)
      && budget.remainingMembers == old(budget.remainingMembers) - MemberCount(blob, i)
    decreases blob, 0, i
  {
    visited := [];
    var member := blob.members[i];
    var ok := budget.ChargeMember();
    if !ok {
      return None, visited;
    }
    if blob.Zip? {
      ok := budget.ChargeBytes(member.metadata);
      if !ok {
        return None, visited;
      }
    }
    if member.kind.Directory? || (member.kind.Link? && blob.Tar?) {
      return Some(member.findings + []), visited;
    }
    if !member.kind.File? || !member.readable {
      return None, visited;
    }
    var limit := Min(member.declared, MAX_BYTES);
    if blob.Zip? {
      limit := Min(limit, budget.remainingBytes);
    }
    if member.body.size > limit {
      return None, visited;
    }
    var inner;
    inner, visited := ScanData(member.body, depth + 1, budget, blob.Zip?);
    if inner.None? {
      return None, visited;
    }
    return Some(member.findings + inner.value), visited;
  }

  /** `_archive_findings` and `_tar_findings`: what an archive itself charges, and then its members in order. */
  method ScanArchive(blob: Blob, depth: nat, budget: ArchiveBudget) returns (findings: Option<Findings>, ghost visited: seq<Blob>)
    requires IsArchive(blob)
    modifies budget
    ensures findings.Some? <==> Fits(blob, depth, false, old(budget.remainingBytes), old(budget.remainingMembers))
    ensures findings.Some? ==> findings.value == AllFindings(blob) && [blob] + visited == Bodies(blob)
    ensures findings.Some? ==>
      && budget.remainingBytes == old(budget.remainingBytes) - Bytes(blob, false)
      && budget.remainingMembers == old(budget.remainingMembers) - Count(blob)
    decreases blob, 0, |blob.members|
  {
    visited := [];
    if depth >= MAX_DEPTH || !blob.opens {
      return None, visited;
    }
    var recorded := [];
    if blob.Zip? {
      var ok := budget.ChargeBytes(blob.comment);
      if !ok {
        return None, visited;
      }
      recorded := blob.remarks;
    } else {
      if blob.unpacked > Min(MAX_BYTES, budget.remainingBytes) {
        return None, visited;
      }
      var _ := budget.ChargeBytes(blob.unpacked);
    }
    if |blob.members| > MAX_MEMBERS || exists i :: 0 <= i < |blob.members| && blob.members[i].declared > MAX_BYTES {
      return None, visited;
    }
    var more;
    more, visited := ScanMembers(blob, depth, budget);
    if more.None? {
      return None, visited;
    }
    assert blob.Tar? ==> recorded + more.value == more.value;
    return Some(recorded + more.value), visited;
  }

  method ScanMembers(blob: Blob, depth: nat, budget: ArchiveBudget) returns (findings: Option<Findings>, ghost visited: seq<Blob>)
    requires IsArchive(blob) && forall i :: 0 <= i < |blob.members| ==> blob.members[i].declared <= MAX_BYTES
    modifies budget
    ensures findings.Some? <==>
      && AcceptableUpTo(blob, |blob.members|, depth)
      && BytesUpTo(blob, |blob.members|) <= old(budget.remainingBytes)
      && CountUpTo(blob, |blob.members|) <= old(budget.remainingMembers)
    ensures findings.Some? ==>
      && findings.value == FindingsUpTo(blob, |blob.members|) && visited == BodiesUpTo(blob, |blob.members|)
      && budget.remainingBytes == old(budget.remainingBytes) - BytesUpTo(blob, |blob.members|)
      && budget.remainingMembers == old(budget.remainingMembers) - CountUpTo(blob, |blob.members|)
    decreases blob, 0, |blob.members|, 0
  {
    var recorded: Findings, i := [], 0;
    visited := [];
    while i < |blob.members|
      invariant 0 <= i <= |blob.members|
      invariant recorded == FindingsUpTo(blob, i) && visited == BodiesUpTo(blob, i)
      invariant AcceptableUpTo(blob, i, depth)
      invariant budget.remainingBytes == old(budget.remainingBytes) - BytesUpTo(blob, i)
      invariant budget.remainingMembers == old(budget.remainingMembers) - CountUpTo(blob, i)
    {
      UpToGrows(blob, i + 1, |blob.members|, depth);
      ghost var below;
      var own;
      own, below := ScanMember(blob, i, depth, budget);
      if own.None? {
        return None, visited;
      }
      recorded := recorded + own.value;
      visited := visited + below;
      i := i + 1;
    }
    return Some(recorded), visited;
  }

  lemma {:induction false} UpToGrows(blob: Blob, n: nat, m: nat, depth: nat)
    requires IsArchive(blob) && n <= m <= |blob.members|
    ensures BytesUpTo(blob, n) <= BytesUpTo(blob, m) && CountUpTo(blob, n) <= CountUpTo(blob, m)
    ensures AcceptableUpTo(blob, m, depth) ==> AcceptableUpTo(blob, n, depth)
    decreases m - n
  {
    if n < m {
      UpToGrows(blob, n, m - 1, depth);
    }
  }

  /**
   * `_data_findings`: succeeds exactly when the blob is acceptable and everything in it fits the
   * budget; then the findings are complete, every body was inspected once, and the budget is down by
   * exactly what was charged. The budget is never negative, on success or failure.
   */
  method ScanData(blob: Blob, depth: nat, budget: ArchiveBudget, charge: bool) returns (findings: Option<Findings>, ghost visited: seq<Blob>)
    modifies budget
    ensures findings.Some? <==> Fits(blob, depth, charge, old(budget.remainingBytes), old(budget.remainingMembers))
    ensures findings.Some? ==> findings.value == AllFindings(blob) && visited == Bodies(blob)
    ensures findings.Some? ==>
      && budget.remainingBytes == old(budget.remainingBytes) - Bytes(blob, charge)
      && budget.remainingMembers == old(budget.remainingMembers) - Count(blob)
    decreases blob, 1, 0
  {
    visited := [blob];
    if charge {
      var ok := budget.ChargeBytes(blob.size);
      if !ok {
        return None, visited;
      }
    }
    match blob {
      case Plain(_, text) => return text, visited + [];
      case Opaque(_, approved, bytes) =>
        if approved {
          return Some([]), visited + [];
        }
        return (if bytes != [] then Some(bytes) else None), visited + [];
      case _ =>
        ghost var below;
        findings, below := ScanArchive(blob, depth, budget);
        visited := visited + below;
    }
  }

  /** The scan of one tracked file, with a budget of its own. */
  method ScanFile(blob: Blob) returns (findings: Option<Findings>)
    ensures findings.Some? <==> Fits(blob, 0, false, MAX_BYTES, MAX_MEMBERS)
    ensures findings.Some? ==> findings.value == AllFindings(blob)
  {
    var budget := new ArchiveBudget();
    ghost var visited;
    findings, visited := ScanData(blob, 0, budget, false);
  }

  // ---- What success bounds

  /** The number of containers on the longest way down. */
  function Nesting(blob: Blob): nat
    decreases blob, 1, 0
  {
    if IsArchive(blob) then 1 + NestingUpTo(blob, |blob.members|) else 0
  }

  function NestingUpTo(blob: Blob, n: nat): nat
    requires IsArchive(blob) && n <= |blob.members|
    decreases blob, 0, n
  {
    if n == 0 then 0
    else Max(NestingUpTo(blob, n - 1), if blob.members[n - 1].kind.File? then Nesting(blob.members[n - 1].body) else 0)
  }

  lemma {:induction false} NestsWithin(blob: Blob, depth: nat)
    requires Acceptable(blob, depth)
    ensures IsArchive(blob) ==> depth + Nesting(blob) <= MAX_DEPTH
    decreases blob, 1, 0
  {
    if IsArchive(blob) {
      NestsWithinUpTo(blob, |blob.members|, depth);
    }
  }

  lemma {:induction false} NestsWithinUpTo(blob: Blob, n: nat, depth: nat)
    requires IsArchive(blob) && n <= |blob.members| && depth < MAX_DEPTH && AcceptableUpTo(blob, n, depth)
    ensures depth + 1 + NestingUpTo(blob, n) <= MAX_DEPTH
    decreases blob, 0, n
  {
    if n > 0 {
      NestsWithinUpTo(blob, n - 1, depth);
      if blob.members[n - 1].kind.File? {
        NestsWithin(blob.members[n - 1].body, depth + 1);
      }
    }
  }

  /** Every inspected body is a member that was charged. */
  lemma {:induction false} BodiesCounted(blob: Blob)
    ensures |Bodies(blob)| <= 1 + Count(blob)
    decreases blob, 1, 0
  {
    if IsArchive(blob) {
      BodiesCountedUpTo(blob, |blob.members|);
    }
  }

  lemma {:induction false} BodiesCountedUpTo(blob: Blob, n: nat)
    requires IsArchive(blob) && n <= |blob.members|
    ensures |BodiesUpTo(blob, n)| <= CountUpTo(blob, n)
    decreases blob, 0, n
  {
    if n > 0 {
      BodiesCountedUpTo(blob, n - 1);
      if blob.members[n - 1].kind.File? {
        BodiesCounted(blob.members[n - 1].body);
      }
    }
  }

  /** Bytes of all bodies below a blob. */
  function Inspected(blob: Blob): nat
    decreases blob, 1, 0
  {
    if IsArchive(blob) then InspectedUpTo(blob, |blob.members|) else 0
  }

  function InspectedUpTo(blob: Blob, n: nat): nat
    requires IsArchive(blob) && n <= |blob.members|
    decreases blob, 0, n
  {
    if n == 0 then 0
    else
      var member := blob.members[n - 1];
      InspectedUpTo(blob, n - 1) + if member.kind.File? then member.body.size + Inspected(member.body) else 0
  }

  /** Bytes of the bodies directly in an archive. */
  function DirectUpTo(blob: Blob, n: nat): nat
    requires IsArchive(blob) && n <= |blob.members|
  {
    if n == 0 then 0 else DirectUpTo(blob, n - 1) + if blob.members[n - 1].kind.File? then blob.members[n - 1].body.size else 0
  }

  /**
   * What is charged beyond the inspected bytes: comments and metadata of ZIP archives, and what a tar
   * stream holds besides its bodies. Only the latter can be negative.
   */
  function Overhead(blob: Blob): int
    decreases blob, 1, 0
  {
    match blob
    case Zip(_, _, comment, _, members) => comment + OverheadUpTo(blob, |members|)
    case Tar(_, _, unpacked, members) => unpacked - DirectUpTo(blob, |members|) + OverheadUpTo(blob, |members|)
    case _ => 0
  }

  function OverheadUpTo(blob: Blob, n: nat): int
    requires IsArchive(blob) && n <= |blob.members|
    decreases blob, 0, n
  {
    if n == 0 then 0
    else
      var member := blob.members[n - 1];
      OverheadUpTo(blob, n - 1) + (if blob.Zip? then member.metadata else 0)
      + if member.kind.File? then Overhead(member.body) else 0
  }

  /** Every byte charged is an inspected byte or overhead. */
  lemma {:induction false} Conservation(blob: Blob)
    ensures Bytes(blob, false) == Inspected(blob) + Overhead(blob)
    ensures Bytes(blob, true) == blob.size + Bytes(blob, false)
    decreases blob, 1, 0
  {
    if IsArchive(blob) {
      ConservationUpTo(blob, |blob.members|);
    }
  }

  lemma {:induction false} ConservationUpTo(blob: Blob, n: nat)
    requires IsArchive(blob) && n <= |blob.members|
    ensures BytesUpTo(blob, n) + (if blob.Tar? then DirectUpTo(blob, n) else 0) == InspectedUpTo(blob, n) + OverheadUpTo(blob, n)
    decreases blob, 0, n
  {
    if n > 0 {
      ConservationUpTo(blob, n - 1);
      if blob.members[n - 1].kind.File? {
        Conservation(blob.members[n - 1].body);
      }
    }
  }

  /** No tar archive at any level yields more than its own unpacked stream: no member is stored sparsely. */
  predicate Dense(blob: Blob)
    decreases blob, 1, 0
  {
    IsArchive(blob) ==>
      && (blob.Tar? ==> DirectUpTo(blob, |blob.members|) <= blob.unpacked)
      && DenseUpTo(blob, |blob.members|)
  }

  predicate DenseUpTo(blob: Blob, n: nat)
    requires IsArchive(blob) && n <= |blob.members|
    decreases blob, 0, n
  {
    n == 0 || (DenseUpTo(blob, n - 1) && (blob.members[n - 1].kind.File? ==> Dense(blob.members[n - 1].body)))
  }

  lemma {:induction false} DenseOverhead(blob: Blob)
    requires Dense(blob)
    ensures Overhead(blob) >= 0
    decreases blob, 1, 0
  {
    if IsArchive(blob) {
      DenseOverheadUpTo(blob, |blob.members|);
    }
  }

  lemma {:induction false} DenseOverheadUpTo(blob: Blob, n: nat)
    requires IsArchive(blob) && n <= |blob.members| && DenseUpTo(blob, n)
    ensures OverheadUpTo(blob, n) >= 0
    decreases blob, 0, n
  {
    if n > 0 {
      DenseOverheadUpTo(blob, n - 1);
      if blob.members[n - 1].kind.File? {
        DenseOverhead(blob.members[n - 1].body);
      }
    }
  }

  /** No body of an acceptable archive is longer than the limit, so what is inspected is bounded by the members charged. */
  lemma {:induction false} InspectedByMembers(blob: Blob, depth: nat)
    requires Acceptable(blob, depth)
    ensures Inspected(blob) <= Count(blob) * MAX_BYTES
    decreases blob, 1, 0
  {
    if IsArchive(blob) {
      InspectedByMembersUpTo(blob, |blob.members|, depth);
    }
  }

  lemma {:induction false} InspectedByMembersUpTo(blob: Blob, n: nat, depth: nat)
    requires IsArchive(blob) && n <= |blob.members| && AcceptableUpTo(blob, n, depth)
    requires forall i :: 0 <= i < |blob.members| ==> blob.members[i].declared <= MAX_BYTES
    ensures InspectedUpTo(blob, n) <= CountUpTo(blob, n) * MAX_BYTES
    decreases blob, 0, n
  {
    if n > 0 {
      InspectedByMembersUpTo(blob, n - 1, depth);
      var member := blob.members[n - 1];
      if member.kind.File? {
        InspectedByMembers(member.body, depth + 1);
        assert member.body.size <= MAX_BYTES;
      }
    }
  }

  /**
   * A scan that succeeds visited at most 10,000 members and charged at most 100 MiB across all
   * levels, in at most three nested containers. What it inspected is within 100 MiB if no tar member
   * is stored sparsely, and in any case within 100 MiB for each member it charged.
   */
  lemma SuccessIsBounded(blob: Blob)
    requires Fits(blob, 0, false, MAX_BYTES, MAX_MEMBERS)
    ensures |Bodies(blob)| <= 1 + Count(blob) && Count(blob) <= MAX_MEMBERS
    ensures Nesting(blob) <= MAX_DEPTH
    ensures Inspected(blob) + Overhead(blob) <= MAX_BYTES
    ensures Inspected(blob) <= Count(blob) * MAX_BYTES <= MAX_MEMBERS * MAX_BYTES
    ensures Dense(blob) ==> Inspected(blob) <= MAX_BYTES
  {
    BodiesCounted(blob);
    NestsWithin(blob, 0);
    Conservation(blob);
    InspectedByMembers(blob, 0);
    if Dense(blob) {
      DenseOverhead(blob);
    }
  }

  /** A text of the limit's length, stored sparsely. */
  const SPARSE := Member(0, [], File, true, MAX_BYTES, Plain(MAX_BYTES, Some([])))

  /** The bound by members is reached: a small tar stream of any number of sparse members is scanned in full. */
  lemma SparseMembersReachBound(blob: Blob)
    requires blob.Tar? && blob.opens && blob.unpacked <= MAX_BYTES && |blob.members| <= MAX_MEMBERS
    requires forall i :: 0 <= i < |blob.members| ==> blob.members[i] == SPARSE
    ensures Fits(blob, 0, false, MAX_BYTES, MAX_MEMBERS)
    ensures Count(blob) == |blob.members| && Inspected(blob) == Count(blob) * MAX_BYTES
  {
    SparseUpTo(blob, |blob.members|);
  }

  lemma {:induction false} SparseUpTo(blob: Blob, n: nat)
    requires blob.Tar? && n <= |blob.members| && forall i :: 0 <= i < |blob.members| ==> blob.members[i] == SPARSE
    ensures AcceptableUpTo(blob, n, 0) && BytesUpTo(blob, n) == 0 && CountUpTo(blob, n) == n
    ensures InspectedUpTo(blob, n) == n * MAX_BYTES
    decreases n
  {
    if n > 0 {
      SparseUpTo(blob, n - 1);
      PlainMember(blob, n - 1);
    }
  }

  /** Two members stored sparsely: the scan succeeds and inspects twice the limit. */
  lemma SparseMembersEscape(blob: Blob)
    requires blob == Tar(100, true, 10_240, [SPARSE, SPARSE])
    ensures Fits(blob, 0, false, MAX_BYTES, MAX_MEMBERS) && Inspected(blob) == 2 * MAX_BYTES
  {
    SparseMembersReachBound(blob);
  }

  /** What one readable text member of a tar archive costs: a member, and no bytes. */
  lemma PlainMember(blob: Blob, i: nat)
    requires blob.Tar? && i < |blob.members|
    requires
      var member := blob.members[i];
      member.kind.File? && member.readable && member.body.Plain? && member.body.text.Some? && member.body.size <= member.declared
    ensures AcceptableMember(blob, i, 0) && MemberBytes(blob, i) == 0 && MemberCount(blob, i) == 1
    ensures Inspected(blob.members[i].body) == 0
  {
    var body := blob.members[i].body;
    assert Acceptable(body, 1) && Bytes(body, false) == 0 && Count(body) == 0;
    assert MemberCount(blob, i) == 1 + Count(body);
  }
}
