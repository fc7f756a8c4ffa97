/** Every plan the decision table emits for an unblocked component, seen as a
    list of operations, and the gate it then has to pass. */
module PlanGate {
  import opened Prelude
  import opened Ordering
  import opened Audio
  import opened Disk
  import opened Grouping
  import opened Planner
  import opened PlannerProof

  // ---------- a component as its stems ----------

  ghost predicate FilesOk(files: seq<File>) {
    (forall f :: f in files ==> Named(f.path)) && PathsDistinct(files)
  }

  ghost predicate GroupsOk(groups: seq<StemGroup>) {
    && (forall k :: 0 <= k < |groups| ==> GroupOk(groups[k]))
    && (forall i, j :: 0 <= i < j < |groups| ==> groups[i].stem != groups[j].stem)
  }

  lemma GroupsAreOk(files: seq<File>)
    requires FilesOk(files)
    ensures GroupsOk(StemGroups(files))
  {
    var stems := SortBy(StringLess, Stems(files));
    SameBagDistinct(Stems(files), stems);
    forall k | 0 <= k < |stems| ensures GroupOk(StemGroups(files)[k]) {
      FilterDistinct(files, (f: File) => StemOf(f) == stems[k]);
    }
    hide Stems, StemOf, GroupOk, OfStem;
  }

  /** Every file is in the group of its stem, and groups hold files only. */
  lemma GroupsCover(files: seq<File>, f: File)
    requires f in files
    ensures exists k :: 0 <= k < |StemGroups(files)| && StemGroups(files)[k].stem == StemOf(f) && f in StemGroups(files)[k].files
  {
    var stems := SortBy(StringLess, Stems(files));
    SortMembers(StringLess, Stems(files));
    assert StemOf(f) in Stems(files);
    var k :| 0 <= k < |stems| && stems[k] == StemOf(f);
    assert f in StemGroups(files)[k].files;
  }

  lemma GroupsWithin(files: seq<File>, k: nat)
    requires k < |StemGroups(files)|
    ensures forall f :: f in StemGroups(files)[k].files <==> f in files && StemOf(f) == StemGroups(files)[k].stem
  {
  }

  // ---------- the draft ----------

  function PlanAt(groups: seq<StemGroup>, k: nat, profile: Profile, occupied: set<Path>): StemPlan
    requires k < |groups|
  {
    LenientStem(groups[k], profile, occupied)
  }

  /** An encode operation of the component: one of stem `k`, made its own. */
  ghost predicate FromStem(groups: seq<StemGroup>, profile: Profile, occupied: set<Path>, id: string, op: Operation, k: nat)
    requires k < |groups|
  {
    exists o :: o in PlanAt(groups, k, profile, occupied).ops && op == Owned(o, id)
  }

  ghost predicate FromSomeStem(groups: seq<StemGroup>, n: nat, profile: Profile, occupied: set<Path>, id: string, op: Operation)
    requires n <= |groups|
  {
    exists k: nat :: k < n && FromStem(groups, profile, occupied, id, op, k)
  }

  ghost predicate DraftSound(groups: seq<StemGroup>, n: nat, profile: Profile, occupied: set<Path>, id: string, d: Draft)
    requires n <= |groups|
  {
    && d.block == None
    && DraftVariants(groups, n, profile, occupied, d.variants)
    && DraftOps(groups, n, profile, occupied, id, d.ops)
    && TargetsDistinct(d.ops) && d.targets == OpTargets(d.ops)
  }

  ghost predicate DraftVariants(groups: seq<StemGroup>, n: nat, profile: Profile, occupied: set<Path>, variants: seq<Variant>)
    requires n <= |groups|
  {
    && |variants| == n
    && (forall k :: 0 <= k < n ==> PlanAt(groups, k, profile, occupied).block.None?)
    && (forall k :: 0 <= k < n ==> variants[k] == Variant(groups[k].stem, PlanAt(groups, k, profile, occupied).decisions))
  }

  ghost predicate DraftOps(groups: seq<StemGroup>, n: nat, profile: Profile, occupied: set<Path>, id: string, ops: seq<Operation>)
    requires n <= |groups|
  {
    && (forall op :: op in ops ==> FromSomeStem(groups, n, profile, occupied, id, op))
    && (forall k, o :: 0 <= k < n && o in PlanAt(groups, k, profile, occupied).ops ==> Owned(o, id) in ops)
  }

  predicate TargetsDistinct(ops: seq<Operation>) {
    forall i, j :: 0 <= i < j < |ops| ==> ops[i].target != ops[j].target
  }

  lemma {:induction false} DedupeDistinct(ds: seq<Decision>)
    requires DecisionsDistinct(ds)
    ensures Dedupe(ds) == ds
  {
    if ds != [] {
      var init, last := ds[..|ds| - 1], ds[|ds| - 1];
      assert ds == init + [last];
      DedupeDistinct(init);
      forall d | d in init ensures d.path != last.path {
        var i :| 0 <= i < |init| && init[i] == d;
        assert ds[i].path != ds[|ds| - 1].path;
      }
    }
  }

  lemma {:induction false} AppendFresh(list: seq<Path>, more: seq<Path>)
    requires Distinct(list + more)
    ensures AppendAllUnique(list, more) == list + more
  {
    if more == [] {
      assert list + more == list;
    } else {
      var init, last := more[..|more| - 1], more[|more| - 1];
      assert (list + more)[..|list + more| - 1] == list + init;
      AppendFresh(list, init);
      forall k | 0 <= k < |list + init| ensures (list + init)[k] != last {
        assert (list + more)[k] != (list + more)[|list + more| - 1];
      }
      assert list + more == list + init + [last];
    }
  }

  lemma TargetStem(groups: seq<StemGroup>, profile: Profile, occupied: set<Path>, id: string, op: Operation, k: nat)
    requires GroupsOk(groups) && LanesOk(profile) && k < |groups| && PlanAt(groups, k, profile, occupied).block.None?
    requires FromStem(groups, profile, occupied, id, op, k)
    ensures StemAt(op.target) == groups[k].stem
  {
    EveryStemSound(groups[k], profile, occupied);
    hide LenientStem;
  }

  /** Targets of different stems differ, so the next stem's are fresh. */
  lemma NextTargetsFresh(groups: seq<StemGroup>, n: nat, profile: Profile, occupied: set<Path>, id: string, d: Draft)
    requires GroupsOk(groups) && LanesOk(profile) && n < |groups|
    requires DraftSound(groups, n, profile, occupied, id, d) && PlanAt(groups, n, profile, occupied).block.None?
    ensures forall i, j :: 0 <= i < |d.ops| && 0 <= j < |PlanAt(groups, n, profile, occupied).ops| ==>
      d.ops[i].target != PlanAt(groups, n, profile, occupied).ops[j].target
  {
    var p := PlanAt(groups, n, profile, occupied);
    EveryStemSound(groups[n], profile, occupied);
    hide LenientStem, StemAt, GroupOk;
    forall i, j | 0 <= i < |d.ops| && 0 <= j < |p.ops| ensures d.ops[i].target != p.ops[j].target {
      assert d.ops[i] in d.ops;
      var k: nat :| k < n && FromStem(groups, profile, occupied, id, d.ops[i], k);
      TargetStem(groups, profile, occupied, id, d.ops[i], k);
      assert p.ops[j] in p.ops;
      assert GoodEncode(groups[n], profile, p.ops[j]);
    }
  }

  lemma OpsStep(groups: seq<StemGroup>, n: nat, profile: Profile, occupied: set<Path>, id: string, ops: seq<Operation>)
    requires n < |groups| && DraftOps(groups, n, profile, occupied, id, ops)
    ensures DraftOps(groups, n + 1, profile, occupied, id, ops + OwnedAll(PlanAt(groups, n, profile, occupied).ops, id))
  {
    hide LenientStem;
    var more := PlanAt(groups, n, profile, occupied).ops;
    forall op | op in ops + OwnedAll(more, id) ensures FromSomeStem(groups, n + 1, profile, occupied, id, op) {
      if op in ops {
        var k: nat :| k < n && FromStem(groups, profile, occupied, id, op, k);
      } else {
        var x :| 0 <= x < |more| && OwnedAll(more, id)[x] == op;
        assert more[x] in more;
        assert FromStem(groups, profile, occupied, id, op, n);
      }
    }
    forall o | o in more ensures Owned(o, id) in OwnedAll(more, id) {
      var x :| 0 <= x < |more| && more[x] == o;
      assert OwnedAll(more, id)[x] in OwnedAll(more, id);
    }
  }

  lemma TargetsStep(ops: seq<Operation>, more: seq<Operation>, id: string)
    requires TargetsDistinct(ops) && TargetsDistinct(more)
    requires forall i, j :: 0 <= i < |ops| && 0 <= j < |more| ==> ops[i].target != more[j].target
    ensures TargetsDistinct(ops + OwnedAll(more, id))
    ensures AppendAllUnique(OpTargets(ops), OpTargets(more)) == OpTargets(ops + OwnedAll(more, id))
  {
    var a, b := OpTargets(ops), OpTargets(more);
    assert Distinct(a + b);
    AppendFresh(a, b);
    assert OpTargets(ops + OwnedAll(more, id)) == a + b;
  }

  lemma VariantsStep(groups: seq<StemGroup>, n: nat, profile: Profile, occupied: set<Path>, variants: seq<Variant>)
    requires n < |groups| && DraftVariants(groups, n, profile, occupied, variants)
    requires PlanAt(groups, n, profile, occupied).block.None? && DecisionsDistinct(PlanAt(groups, n, profile, occupied).decisions)
    ensures DraftVariants(groups, n + 1, profile, occupied, variants + [Variant(groups[n].stem, Dedupe(PlanAt(groups, n, profile, occupied).decisions))])
  {
    hide LenientStem;
    DedupeDistinct(PlanAt(groups, n, profile, occupied).decisions);
  }

  lemma DraftStep(groups: seq<StemGroup>, n: nat, profile: Profile, occupied: set<Path>, id: string, d: Draft, e: Draft)
    requires GroupsOk(groups) && LanesOk(profile) && n < |groups|
    requires DraftSound(groups, n, profile, occupied, id, d) && PlanAt(groups, n, profile, occupied).block.None?
    requires var p := PlanAt(groups, n, profile, occupied);
      e == Draft(d.variants + [Variant(groups[n].stem, Dedupe(p.decisions))], d.ops + OwnedAll(p.ops, id), AppendAllUnique(d.targets, p.targets), None)
    ensures DraftSound(groups, n + 1, profile, occupied, id, e)
  {
    hide LenientStem, LanesOk, GoodEncode, Allowed, OpsDecided, Observed, DraftOps, DraftVariants, DecisionsDistinct, OpTargets, TargetsDistinct, GroupOk;
    var p := PlanAt(groups, n, profile, occupied);
    assert GroupOk(groups[n]);
    NextTargetsFresh(groups, n, profile, occupied, id, d);
    EveryStemSound(groups[n], profile, occupied);
    VariantsStep(groups, n, profile, occupied, d.variants);
    OpsStep(groups, n, profile, occupied, id, d.ops);
    StemTargetsDistinct(groups[n], profile, occupied, p);
    TargetsStep(d.ops, p.ops, id);
  }

  lemma StemTargetsDistinct(group: StemGroup, profile: Profile, occupied: set<Path>, p: StemPlan)
    requires StemSound(group, profile, occupied, p)
    ensures TargetsDistinct(p.ops)
  {
    hide GoodEncode, Allowed;
  }

  lemma {:induction false} DraftIsSound(groups: seq<StemGroup>, n: nat, profile: Profile, occupied: set<Path>, id: string)
    requires GroupsOk(groups) && LanesOk(profile) && n <= |groups| && PlanStems(groups, n, profile, occupied, id).block.None?
    ensures DraftSound(groups, n, profile, occupied, id, PlanStems(groups, n, profile, occupied, id))
  {
    hide GroupsOk, LanesOk, LenientStem;
    if n > 0 {
      DraftIsSound(groups, n - 1, profile, occupied, id);
      DraftStep(groups, n - 1, profile, occupied, id, PlanStems(groups, n - 1, profile, occupied, id), PlanStems(groups, n, profile, occupied, id));
    }
  }

  // ---------- removals ----------

  predicate Deletes(v: Variant, p: Path) {
    exists d :: d in v.decisions && d.Delete? && d.path == p
  }

  lemma {:induction false} RemovalsOfExactly(v: Variant, k: nat, id: string, targets: seq<Path>)
    requires k <= |v.decisions| && DecisionsDistinct(v.decisions)
    ensures forall op :: op in RemovalsOf(v, k, id, targets) ==>
      op == RemoveOp(id, v.stem, op.source, targets) && exists x :: 0 <= x < k && v.decisions[x].Delete? && v.decisions[x].path == op.source
    ensures forall x :: 0 <= x < k && v.decisions[x].Delete? ==> RemoveOp(id, v.stem, v.decisions[x].path, targets) in RemovalsOf(v, k, id, targets)
    ensures SourcesDistinct(RemovalsOf(v, k, id, targets))
  {
    if k > 0 {
      RemovalsOfExactly(v, k - 1, id, targets);
    }
  }

  predicate SourcesDistinct(ops: seq<Operation>) {
    forall i, j :: 0 <= i < j < |ops| ==> ops[i].source != ops[j].source
  }

  /** The removals of the first `k` variants are exactly their deletions. */
  ghost predicate RemovalsSound(groups: seq<StemGroup>, variants: seq<Variant>, k: nat, id: string, targets: seq<Path>, ops: seq<Operation>)
    requires k <= |variants| == |groups|
  {
    && (forall op :: op in ops ==> RemovalFrom(variants, k, id, targets, op))
    && (forall x, p :: 0 <= x < k && Deletes(variants[x], p) ==> RemoveOp(id, variants[x].stem, p, targets) in ops)
    && SourcesDistinct(ops)
  }

  ghost predicate RemovalFrom(variants: seq<Variant>, k: nat, id: string, targets: seq<Path>, op: Operation)
    requires k <= |variants|
  {
    exists x :: 0 <= x < k && op == RemoveOp(id, variants[x].stem, op.source, targets) && Deletes(variants[x], op.source)
  }

  /** Each variant is the plan of its group. */
  ghost predicate VariantsSound(groups: seq<StemGroup>, variants: seq<Variant>) {
    && |variants| == |groups|
    && (forall k :: 0 <= k < |groups| ==> variants[k].stem == groups[k].stem && DecisionsDistinct(variants[k].decisions) && Observed(groups[k], variants[k].decisions))
  }

  lemma DeletedStem(groups: seq<StemGroup>, variants: seq<Variant>, x: nat, p: Path)
    requires GroupsOk(groups) && VariantsSound(groups, variants) && x < |groups| && Deletes(variants[x], p)
    ensures p in PathsOf(groups[x].files) && StemAt(p) == groups[x].stem
  {
  }

  lemma {:induction false} RemovalsAreSound(groups: seq<StemGroup>, variants: seq<Variant>, k: nat, id: string, targets: seq<Path>)
    requires GroupsOk(groups) && VariantsSound(groups, variants) && k <= |variants|
    ensures RemovalsSound(groups, variants, k, id, targets, Removals(variants, k, id, targets))
  {
    hide GroupsOk, VariantsSound, RemovalsOf;
    if k > 0 {
      RemovalsAreSound(groups, variants, k - 1, id, targets);
      RemovalStep(groups, variants, k - 1, id, targets, Removals(variants, k - 1, id, targets));
    }
  }

  lemma RemovalSourcesApart(groups: seq<StemGroup>, variants: seq<Variant>, k: nat, id: string, targets: seq<Path>, ops: seq<Operation>, more: seq<Operation>)
    requires GroupsOk(groups) && VariantsSound(groups, variants) && k < |variants| == |groups|
    requires forall op :: op in ops ==> RemovalFrom(variants, k, id, targets, op)
    requires forall op :: op in more ==> Deletes(variants[k], op.source)
    requires SourcesDistinct(ops) && SourcesDistinct(more)
    ensures SourcesDistinct(ops + more)
  {
    hide GroupsOk, VariantsSound, Deletes, StemAt, PathsOf;
    forall a, b | a in ops && b in more ensures a.source != b.source {
      var x :| 0 <= x < k && a == RemoveOp(id, variants[x].stem, a.source, targets) && Deletes(variants[x], a.source);
      SourcesOfStems(groups, variants, x, k, a.source, b.source);
    }
    forall i, j | 0 <= i < j < |ops + more| ensures (ops + more)[i].source != (ops + more)[j].source {
      if i < |ops| <= j {
        assert ops[i] in ops && more[j - |ops|] in more;
      } else if |ops| <= i {
        assert more[i - |ops|].source != more[j - |ops|].source;
      }
    }
  }

  lemma SourcesOfStems(groups: seq<StemGroup>, variants: seq<Variant>, x: nat, k: nat, p: Path, q: Path)
    requires GroupsOk(groups) && VariantsSound(groups, variants) && x < k < |groups|
    requires Deletes(variants[x], p) && Deletes(variants[k], q)
    ensures p != q
  {
    DeletedStem(groups, variants, x, p);
    DeletedStem(groups, variants, k, q);
    StemsDiffer(groups, x, k);
    hide GroupsOk, VariantsSound, StemAt, PathsOf, Deletes;
  }

  lemma SoundVariant(groups: seq<StemGroup>, variants: seq<Variant>, k: nat)
    requires VariantsSound(groups, variants) && k < |variants|
    ensures DecisionsDistinct(variants[k].decisions) && |variants| == |groups|
  {
  }

  lemma RemovalStep(groups: seq<StemGroup>, variants: seq<Variant>, k: nat, id: string, targets: seq<Path>, ops: seq<Operation>)
    requires GroupsOk(groups) && VariantsSound(groups, variants) && k < |variants|
    requires RemovalsSound(groups, variants, k, id, targets, ops)
    ensures RemovalsSound(groups, variants, k + 1, id, targets, ops + RemovalsOf(variants[k], |variants[k].decisions|, id, targets))
  {
    hide GroupsOk, VariantsSound, RemovalsOf, DecisionsDistinct, SourcesDistinct, StemAt, PathsOf;
    var v := variants[k];
    var more := RemovalsOf(v, |v.decisions|, id, targets);
    SoundVariant(groups, variants, k);
    RemovalsOfExactly(v, |v.decisions|, id, targets);
    RemovalSourcesApart(groups, variants, k, id, targets, ops, more);
    forall op | op in ops + more ensures RemovalFrom(variants, k + 1, id, targets, op) {
      if op in ops {
        var x :| 0 <= x < k && op == RemoveOp(id, variants[x].stem, op.source, targets) && Deletes(variants[x], op.source);
      } else {
        assert op in more;
        assert Deletes(v, op.source);
      }
    }
  }

  lemma StemsDiffer(groups: seq<StemGroup>, i: nat, j: nat)
    requires GroupsOk(groups) && i < j < |groups|
    ensures groups[i].stem != groups[j].stem
  {
  }
}
