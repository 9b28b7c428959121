/**
 Sync modes and the cascade that disables a resource when an ancestor is disabled.
 A map of modes is keyed by resource type; the program spells the key `sync_mode_` plus the type.
 */
module SyncModes {
  import opened Basics

  /** A configured mode; an empty text counts as not configured. */
  datatype Mode = Always | BootstrapOnly | Disabled | OtherMode(text: string)

  /** The resource types that have a mode, and any other name a hierarchy may mention. */
  datatype Resource =
    | Vm | VmTemplate | VmInterface | Mac | IpAddress | Cluster | Node | Storage | Sdn | SdnBgp
    | OtherResource(name: string)

  type Modes = map<Resource, Mode>
  type Parents = map<Resource, Resource>

  const FIELDS: set<Resource> := {Vm, VmTemplate, VmInterface, Mac, IpAddress, Cluster, Node, Storage, Sdn, SdnBgp}

  const HIERARCHY: Parents := map[
    Node := Cluster, VmInterface := Vm, IpAddress := VmInterface, Mac := VmInterface, SdnBgp := Sdn
  ]

  function DefaultMode(resource: Resource): Mode {
    if resource.Sdn? || resource.SdnBgp? then Disabled else Always
  }

  /** `_resource_mode`: the configured mode, or the default when there is none. */
  function ResourceMode(raw: Modes, resource: Resource): Mode {
    if resource in raw then raw[resource] else DefaultMode(resource)
  }

  predicate VmDown(raw: Modes) {
    ResourceMode(raw, Vm) == Disabled && ResourceMode(raw, VmTemplate) == Disabled
  }

  /** `_effective_resource_mode`; `seen` guards against a cyclic hierarchy. */
  function Effective(raw: Modes, parents: Parents, resource: Resource, seen: set<Resource>): Mode
    decreases parents.Keys - seen
  {
    var mode := ResourceMode(raw, resource);
    if mode == Disabled || resource in seen then mode
    else if resource !in parents then mode
    else if parents[resource] == Vm then (if VmDown(raw) then Disabled else mode)
    else if Effective(raw, parents, parents[resource], seen + {resource}) == Disabled then Disabled
    else mode
  }

  /** `_effective_sync_modes`. */
  function Cascade(raw: Modes, parents: Parents, fields: set<Resource>): Modes {
    map resource | resource in fields :: Effective(raw, parents, resource, {})
  }

  // ---- A reference definition: walk up the hierarchy

  /** One step up; the walk does not continue through `vm`, whose two halves are judged together. */
  function Up(parents: Parents, resource: Resource): Option<Resource> {
    if resource in parents && parents[resource] != Vm then Some(parents[resource]) else None
  }

  function Ancestor(parents: Parents, resource: Resource, n: nat): Option<Resource>
    decreases n
  {
    if n == 0 then Some(resource)
    else match Up(parents, resource)
      case None => None
      case Some(parent) => Ancestor(parents, parent, n - 1)
  }

  predicate UnderVm(parents: Parents, resource: Resource) {
    resource in parents && parents[resource] == Vm
  }

  /** This node alone disables everything below it. */
  predicate Blocks(raw: Modes, parents: Parents, resource: Resource) {
    ResourceMode(raw, resource) == Disabled || (UnderVm(parents, resource) && VmDown(raw))
  }

  ghost predicate BlockedAt(raw: Modes, parents: Parents, resource: Resource, n: nat) {
    Ancestor(parents, resource, n).Some? && Blocks(raw, parents, Ancestor(parents, resource, n).value)
  }

  ghost predicate Blocked(raw: Modes, parents: Parents, resource: Resource) {
    exists n: nat :: BlockedAt(raw, parents, resource, n)
  }

  lemma BlockedByParent(raw: Modes, parents: Parents, resource: Resource)
    requires Up(parents, resource).Some? && !Blocks(raw, parents, resource)
    ensures Blocked(raw, parents, resource) <==> Blocked(raw, parents, Up(parents, resource).value)
  {
    var parent := Up(parents, resource).value;
    if Blocked(raw, parents, resource) {
      var n: nat :| BlockedAt(raw, parents, resource, n);
      assert BlockedAt(raw, parents, parent, n - 1);
    }
    if Blocked(raw, parents, parent) {
      var n: nat :| BlockedAt(raw, parents, parent, n);
      assert BlockedAt(raw, parents, resource, n + 1);
    }
  }

  lemma BlockedAlone(raw: Modes, parents: Parents, resource: Resource)
    requires Up(parents, resource).None?
    ensures Blocked(raw, parents, resource) <==> Blocks(raw, parents, resource)
  {
    if Blocks(raw, parents, resource) {
      assert BlockedAt(raw, parents, resource, 0);
    }
  }

  /** The nodes walked so far: none of them blocks, and each leads to another or to `resource`. */
  ghost predicate Trail(raw: Modes, parents: Parents, seen: set<Resource>, resource: Resource) {
    forall y :: y in seen ==>
      && !Blocks(raw, parents, y)
      && Up(parents, y).Some?
      && (Up(parents, y).value in seen || Up(parents, y).value == resource)
  }

  lemma {:induction false} CycleStays(raw: Modes, parents: Parents, seen: set<Resource>, start: Resource, resource: Resource, n: nat)
    requires Trail(raw, parents, seen, start) && start in seen && resource in seen
    ensures !BlockedAt(raw, parents, resource, n)
    decreases n
  {
    if n > 0 {
      CycleStays(raw, parents, seen, start, Up(parents, resource).value, n - 1);
    }
  }

  lemma {:induction false} EffectiveFrom(raw: Modes, parents: Parents, resource: Resource, seen: set<Resource>)
    requires Trail(raw, parents, seen, resource)
    ensures Effective(raw, parents, resource, seen) ==
            if Blocked(raw, parents, resource) then Disabled else ResourceMode(raw, resource)
    decreases parents.Keys - seen
  {
    if ResourceMode(raw, resource) == Disabled {
      assert BlockedAt(raw, parents, resource, 0);
    } else if resource in seen {
      forall n: nat ensures !BlockedAt(raw, parents, resource, n) {
        CycleStays(raw, parents, seen, resource, resource, n);
      }
    } else if Up(parents, resource).None? {
      BlockedAlone(raw, parents, resource);
    } else {
      BlockedByParent(raw, parents, resource);
      EffectiveFrom(raw, parents, parents[resource], seen + {resource});
      assert Blocks(raw, parents, parents[resource]) ==> BlockedAt(raw, parents, parents[resource], 0);
    }
  }

  /**
   Over any hierarchy, even a cyclic one, a resource is disabled exactly when it or a node on its
   parent chain is (a `vm` parent counts only when both vm and vm_template are); otherwise it keeps
   its own mode.
   */
  lemma CascadeMeaning(raw: Modes, parents: Parents, fields: set<Resource>, resource: Resource)
    requires resource in fields
    ensures Cascade(raw, parents, fields)[resource] ==
            if Blocked(raw, parents, resource) then Disabled else ResourceMode(raw, resource)
  {
    EffectiveFrom(raw, parents, resource, {});
  }

  /** Disabling more never enables anything. */
  lemma CascadeMonotone(raw: Modes, more: Modes, parents: Parents, fields: set<Resource>, resource: Resource)
    requires forall r {:trigger ResourceMode(more, r)} :: ResourceMode(raw, r) == Disabled ==> ResourceMode(more, r) == Disabled
    requires resource in fields && Cascade(raw, parents, fields)[resource] == Disabled
    ensures Cascade(more, parents, fields)[resource] == Disabled
  {
    CascadeMeaning(raw, parents, fields, resource);
    CascadeMeaning(more, parents, fields, resource);
    if Blocked(raw, parents, resource) {
      var n: nat :| BlockedAt(raw, parents, resource, n);
      assert BlockedAt(more, parents, resource, n);
    } else {
      assert BlockedAt(more, parents, resource, 0);
    }
  }

  // ---- Applying the cascade twice

  /** The chain of `resource` ends below `vm`. */
  ghost predicate ReachesVm(parents: Parents, resource: Resource) {
    exists n: nat :: Ancestor(parents, resource, n).Some? && UnderVm(parents, Ancestor(parents, resource, n).value)
  }

  lemma {:induction false} AncestorOfAncestor(parents: Parents, resource: Resource, m: nat, n: nat)
    requires Ancestor(parents, resource, m).Some?
    ensures Ancestor(parents, Ancestor(parents, resource, m).value, n) == Ancestor(parents, resource, m + n)
    decreases m
  {
    if m > 0 {
      AncestorOfAncestor(parents, Up(parents, resource).value, m - 1, n);
    }
  }

  /** Ancestors of an unblocked resource are unblocked. */
  lemma UnblockedAncestor(raw: Modes, parents: Parents, resource: Resource, m: nat)
    requires !Blocked(raw, parents, resource) && Ancestor(parents, resource, m).Some?
    ensures !Blocked(raw, parents, Ancestor(parents, resource, m).value)
  {
    var a := Ancestor(parents, resource, m).value;
    forall n: nat ensures !BlockedAt(raw, parents, a, n) {
      AncestorOfAncestor(parents, resource, m, n);
      assert !BlockedAt(raw, parents, resource, m + n);
    }
  }

  /** A cascaded mode that is not disabled stays so unless the cascade itself switched both halves of vm off. */
  lemma SecondPass(raw: Modes, parents: Parents, fields: set<Resource>, resource: Resource)
    requires {Vm, VmTemplate, Sdn, SdnBgp} <= fields && resource in fields
    requires Cascade(raw, parents, fields)[resource] != Disabled
    ensures
      var once := Cascade(raw, parents, fields);
      Cascade(once, parents, fields)[resource] ==
        if VmDown(once) && ReachesVm(parents, resource) then Disabled else once[resource]
  {
    var once := Cascade(raw, parents, fields);
    CascadeMeaning(raw, parents, fields, resource);
    CascadeMeaning(once, parents, fields, resource);
    forall n: nat | Ancestor(parents, resource, n).Some?
      ensures ResourceMode(once, Ancestor(parents, resource, n).value) != Disabled
    {
      var a := Ancestor(parents, resource, n).value;
      UnblockedAncestor(raw, parents, resource, n);
      assert !BlockedAt(raw, parents, a, 0);
      if a in fields {
        CascadeMeaning(raw, parents, fields, a);
      }
    }
    if VmDown(once) && ReachesVm(parents, resource) {
      var n: nat :| Ancestor(parents, resource, n).Some? && UnderVm(parents, Ancestor(parents, resource, n).value);
      assert BlockedAt(once, parents, resource, n);
    } else {
      forall n: nat ensures !BlockedAt(once, parents, resource, n) {
      }
    }
  }

  /**
   A second cascade changes nothing exactly when no enabled resource hangs below `vm` while the first
   cascade left both vm and vm_template disabled.
   */
  lemma CascadeTwice(raw: Modes, parents: Parents, fields: set<Resource>)
    requires {Vm, VmTemplate, Sdn, SdnBgp} <= fields
    ensures
      var once := Cascade(raw, parents, fields);
      Cascade(once, parents, fields) == once <==>
      !(VmDown(once) && exists r :: r in fields && once[r] != Disabled && ReachesVm(parents, r))
  {
    var once := Cascade(raw, parents, fields);
    var twice := Cascade(once, parents, fields);
    forall r | r in fields && once[r] == Disabled ensures twice[r] == Disabled {
      assert BlockedAt(once, parents, r, 0);
      CascadeMeaning(once, parents, fields, r);
    }
    forall r | r in fields && once[r] != Disabled
      ensures twice[r] == if VmDown(once) && ReachesVm(parents, r) then Disabled else once[r]
    {
      SecondPass(raw, parents, fields, r);
    }
  }

  /** When vm and vm_template are roots, applying the cascade twice changes nothing. */
  lemma CascadeIdempotent(raw: Modes, parents: Parents, fields: set<Resource>)
    requires {Vm, VmTemplate, Sdn, SdnBgp} <= fields
    requires Vm !in parents && VmTemplate !in parents
    ensures
      var once := Cascade(raw, parents, fields);
      Cascade(once, parents, fields) == once
  {
    var once := Cascade(raw, parents, fields);
    forall r | r in {Vm, VmTemplate} ensures once[r] == ResourceMode(raw, r) {
    }
    forall r | r in fields && ReachesVm(parents, r) && VmDown(once) ensures once[r] == Disabled {
      var n: nat :| Ancestor(parents, r, n).Some? && UnderVm(parents, Ancestor(parents, r, n).value);
      assert BlockedAt(raw, parents, r, n);
      CascadeMeaning(raw, parents, fields, r);
    }
    CascadeTwice(raw, parents, fields);
  }

  /** With a parent above both halves of vm, a second cascade can disable what the first one kept. */
  lemma CascadeNotIdempotent()
    ensures
      var parents := map[Vm := OtherResource("site"), VmTemplate := OtherResource("site"), VmInterface := Vm];
      var raw := map[OtherResource("site") := Disabled];
      var once := Cascade(raw, parents, FIELDS);
      once[VmInterface] == Always && Cascade(once, parents, FIELDS)[VmInterface] == Disabled
  {
    var parents := map[Vm := OtherResource("site"), VmTemplate := OtherResource("site"), VmInterface := Vm];
    var raw := map[OtherResource("site") := Disabled];
    assert Effective(raw, parents, OtherResource("site"), {Vm}) == Disabled;
    assert Effective(raw, parents, OtherResource("site"), {VmTemplate}) == Disabled;
  }

  /** Where each mode of the program hangs. */
  lemma ProgramHierarchy()
    ensures forall r :: r in {Vm, VmTemplate, Cluster, Storage, Sdn} ==> Up(HIERARCHY, r).None? && !UnderVm(HIERARCHY, r)
    ensures Up(HIERARCHY, VmInterface).None? && UnderVm(HIERARCHY, VmInterface)
    ensures Up(HIERARCHY, Node) == Some(Cluster) && Up(HIERARCHY, SdnBgp) == Some(Sdn)
    ensures Up(HIERARCHY, Mac) == Up(HIERARCHY, IpAddress) == Some(VmInterface)
  {
  }

  /** The hierarchy of the program: what the cascade makes of each of its ten modes. */
  lemma ProgramCascade(raw: Modes, r: Resource)
    requires r in FIELDS
    ensures
      var once := Cascade(raw, HIERARCHY, FIELDS);
      var below := match r
        case Node => ResourceMode(raw, Cluster) == Disabled
        case SdnBgp => ResourceMode(raw, Sdn) == Disabled
        case VmInterface => VmDown(raw)
        case Mac => ResourceMode(raw, VmInterface) == Disabled || VmDown(raw)
        case IpAddress => ResourceMode(raw, VmInterface) == Disabled || VmDown(raw)
        case _ => false;
      once[r] == if below then Disabled else ResourceMode(raw, r)
  {
    ProgramHierarchy();
    CascadeMeaning(raw, HIERARCHY, FIELDS, r);
    var parent := Up(HIERARCHY, r);
    if parent.None? {
      BlockedAlone(raw, HIERARCHY, r);
    } else {
      BlockedAlone(raw, HIERARCHY, parent.value);
      if Blocks(raw, HIERARCHY, r) {
        assert BlockedAt(raw, HIERARCHY, r, 0);
      } else {
        BlockedByParent(raw, HIERARCHY, r);
      }
    }
  }

  /** Without a configured mode SDN and its BGP part are off, whatever else is configured; with none at all, everything else is on. */
  lemma UnconfiguredModes(raw: Modes, r: Resource)
    requires r in FIELDS && r !in raw
    ensures r.Sdn? || r.SdnBgp? ==> Cascade(raw, HIERARCHY, FIELDS)[r] == Disabled
    ensures raw == map[] && !r.Sdn? && !r.SdnBgp? ==> Cascade(raw, HIERARCHY, FIELDS)[r] == Always
  {
    ProgramCascade(raw, r);
  }
}
