/** An unblocked plan, run against an unchanged disk, passes the gate exactly
    when none of its removals is an `.opus` file. */
module PlanPasses {
  import opened Prelude
  import opened Ordering
  import opened Audio
  import opened Disk
  import opened Grouping
  import opened Planner
  import opened PlannerProof
  import opened PlanGate
  import opened Gate
  import Executor

  // ---------- the operations of an unblocked component ----------

  ghost predicate GoodComponentEncode(files: seq<File>, profile: Profile, occupied: set<Path>, id: string, op: Operation) {
    && op.kind.EncodeKind? && op.phase.MaterializeOutputs? && op.component == id
    && (exists f :: f in files && f.path == op.source && IsLosslessFile(f))
    && Named(op.target) && Beside(files, op.target)
    && (LosslessOutput(files, profile, op.target)
        || (EncodedOutput(profile, op.target) && (op.target in PathsOf(files) || op.target !in occupied)))
  }

  /** Some file of the component has this directory and this stem. */
  ghost predicate Beside(files: seq<File>, target: Path) {
    exists f :: f in files && f.path != [] && target != [] && Dir(f.path) == Dir(target) && StemOf(f) == StemAt(target)
  }

  predicate LosslessOutput(files: seq<File>, profile: Profile, target: Path) {
    && profile.lossless.Some? && ExtOf(target) == ExtFor(profile.lossless.value.codec)
    && CodecAt(target) == Some(profile.lossless.value.codec) && target !in PathsOf(files)
  }

  predicate EncodedOutput(profile: Profile, target: Path) {
    profile.encoded.Some? && ExtOf(target) == ExtFor(profile.encoded.value.codec) && CodecAt(target) == Some(profile.encoded.value.codec)
  }

  lemma StemBeside(files: seq<File>, k: nat, profile: Profile, op: Operation)
    requires k < |StemGroups(files)| && GoodEncode(StemGroups(files)[k], profile, op)
    ensures Beside(files, op.target)
    ensures exists f :: f in files && f.path == op.source && IsLosslessFile(f)
  {
    var group := StemGroups(files)[k];
    GroupsWithin(files, k);
    hide StemGroups, StemAt, ExtOf, Named, PathsOf, CodecAt;
    var f :| f in group.files && f.path != [] && Dir(f.path) == Dir(op.target);
    assert f in files && StemOf(f) == group.stem;
  }

  /** A path of the stem that the stem does not hold is not in the component. */
  lemma StemPaths(files: seq<File>, k: nat, p: Path)
    requires k < |StemGroups(files)| && StemAt(p) == StemGroups(files)[k].stem
    ensures p in PathsOf(StemGroups(files)[k].files) <==> p in PathsOf(files)
  {
  }

  lemma StemEncodeIsGood(files: seq<File>, k: nat, profile: Profile, occupied: set<Path>, id: string, op: Operation)
    requires FilesOk(files) && LanesOk(profile) && k < |StemGroups(files)|
    requires GoodEncode(StemGroups(files)[k], profile, op) && Allowed(StemGroups(files)[k], profile, occupied, op.target)
    ensures GoodComponentEncode(files, profile, occupied, id, Owned(op, id))
  {
    StemBeside(files, k, profile, op);
    StemPaths(files, k, op.target);
    hide StemGroups, StemAt, ExtOf, Named, IsLosslessFile, FilesOk, WantsLossless, Beside, PathsOf, CodecAt, ExtFor;
  }

  function PlannedOps(files: seq<File>, profile: Profile, occupied: set<Path>, id: string): Draft {
    var groups := StemGroups(files);
    PlanStems(groups, |groups|, profile, occupied, id)
  }

  function PlannedRemovals(files: seq<File>, profile: Profile, occupied: set<Path>, id: string): seq<Operation> {
    var d := PlannedOps(files, profile, occupied, id);
    Removals(d.variants, |d.variants|, id, d.targets)
  }

  lemma EncodesAreGood(files: seq<File>, profile: Profile, occupied: set<Path>, id: string, op: Operation)
    requires FilesOk(files) && LanesOk(profile) && PlannedOps(files, profile, occupied, id).block.None?
    requires op in PlannedOps(files, profile, occupied, id).ops
    ensures GoodComponentEncode(files, profile, occupied, id, op)
    ensures Declared(PlannedOps(files, profile, occupied, id).variants, op.target)
  {
    var groups := StemGroups(files);
    var d := PlannedOps(files, profile, occupied, id);
    GroupsAreOk(files);
    DraftIsSound(groups, |groups|, profile, occupied, id);
    hide LenientStem, FilesOk, GoodComponentEncode, StemGroups, GoodEncode, Allowed, DecisionsDistinct, Observed;
    var k: nat :| k < |groups| && FromStem(groups, profile, occupied, id, op, k);
    var o :| o in PlanAt(groups, k, profile, occupied).ops && op == Owned(o, id);
    assert GroupOk(groups[k]);
    EveryStemSound(groups[k], profile, occupied);
    StemEncodeIsGood(files, k, profile, occupied, id, o);
    assert Decided(PlanAt(groups, k, profile, occupied).decisions, o.target);
    var dec :| dec in d.variants[k].decisions && dec.EncodeTo? && dec.path == op.target;
  }

  lemma VariantsAreSound(files: seq<File>, profile: Profile, occupied: set<Path>, id: string)
    requires FilesOk(files) && LanesOk(profile) && PlannedOps(files, profile, occupied, id).block.None?
    ensures GroupsOk(StemGroups(files)) && VariantsSound(StemGroups(files), PlannedOps(files, profile, occupied, id).variants)
  {
    var groups := StemGroups(files);
    var d := PlannedOps(files, profile, occupied, id);
    GroupsAreOk(files);
    DraftIsSound(groups, |groups|, profile, occupied, id);
    hide LenientStem, FilesOk, StemGroups, GoodEncode, Allowed, DecisionsDistinct, Observed, PlanStems;
    forall k | 0 <= k < |groups|
      ensures d.variants[k].stem == groups[k].stem && DecisionsDistinct(d.variants[k].decisions) && Observed(groups[k], d.variants[k].decisions)
    {
      assert GroupOk(groups[k]);
      EveryStemSound(groups[k], profile, occupied);
    }
  }

  /** A removal of the component: an observed file of one of its stems. */
  ghost predicate GoodRemove(files: seq<File>, id: string, targets: seq<Path>, op: Operation) {
    op == RemoveOp(id, op.stem, op.source, targets) && op.source in PathsOf(files)
  }

  lemma RemovalsAreGood(files: seq<File>, profile: Profile, occupied: set<Path>, id: string, op: Operation)
    requires FilesOk(files) && LanesOk(profile) && PlannedOps(files, profile, occupied, id).block.None?
    requires op in PlannedRemovals(files, profile, occupied, id)
    ensures GoodRemove(files, id, PlannedOps(files, profile, occupied, id).targets, op)
    ensures forall e :: e in PlannedOps(files, profile, occupied, id).ops ==> e.target != op.source
  {
    var groups := StemGroups(files);
    var d := PlannedOps(files, profile, occupied, id);
    VariantsAreSound(files, profile, occupied, id);
    RemovalsAreSound(groups, d.variants, |d.variants|, id, d.targets);
    hide FilesOk, StemGroups, PlanStems, VariantsSound, GroupsOk, Deletes, StemAt, Removals, SourcesDistinct;
    var x: nat :| x < |groups| && op == RemoveOp(id, d.variants[x].stem, op.source, d.targets) && Deletes(d.variants[x], op.source);
    DeletedStem(groups, d.variants, x, op.source);
    GroupPaths(files, x);
    forall e | e in d.ops ensures e.target != op.source {
      NotATarget(files, profile, occupied, id, op.source, x, e);
    }
  }

  lemma GroupPaths(files: seq<File>, k: nat)
    requires k < |StemGroups(files)|
    ensures PathsOf(StemGroups(files)[k].files) <= PathsOf(files)
  {
    GroupsWithin(files, k);
    hide StemGroups, StemOf;
  }

  /** What a stem deletes is no target of any stem. */
  lemma NotATarget(files: seq<File>, profile: Profile, occupied: set<Path>, id: string, p: Path, x: nat, e: Operation)
    requires FilesOk(files) && LanesOk(profile) && PlannedOps(files, profile, occupied, id).block.None?
    requires var d := PlannedOps(files, profile, occupied, id); x < |d.variants| && Deletes(d.variants[x], p) && e in d.ops
    ensures e.target != p
  {
    var groups := StemGroups(files);
    var d := PlannedOps(files, profile, occupied, id);
    VariantsAreSound(files, profile, occupied, id);
    DraftIsSound(groups, |groups|, profile, occupied, id);
    hide LenientStem, FilesOk, StemGroups, GoodEncode, Allowed, Observed, StemAt, PlanStems, GroupOk;
    var k: nat :| k < |groups| && FromStem(groups, profile, occupied, id, e, k);
    TargetStem(groups, profile, occupied, id, e, k);
    DeletedStem(groups, d.variants, x, p);
    if e.target == p {
      assert k == x;
      SameStemApart(groups, k, profile, occupied, id, e, p);
    }
  }

  lemma SameStemApart(groups: seq<StemGroup>, k: nat, profile: Profile, occupied: set<Path>, id: string, e: Operation, p: Path)
    requires GroupsOk(groups) && LanesOk(profile) && k < |groups| && PlanAt(groups, k, profile, occupied).block.None?
    requires FromStem(groups, profile, occupied, id, e, k)
    requires Deletes(Variant(groups[k].stem, PlanAt(groups, k, profile, occupied).decisions), p)
    ensures e.target != p
  {
    assert GroupOk(groups[k]);
    EveryStemSound(groups[k], profile, occupied);
    hide LenientStem, GoodEncode, Allowed, Observed, GroupOk;
    var ds := PlanAt(groups, k, profile, occupied).decisions;
    var o :| o in PlanAt(groups, k, profile, occupied).ops && e == Owned(o, id);
    var i :| 0 <= i < |ds| && ds[i].EncodeTo? && ds[i].path == o.target;
    var j :| 0 <= j < |ds| && ds[j].Delete? && ds[j].path == p;
    assert i != j;
  }

  // ---------- the gate, check by check ----------

  function SpecAt(profile: Profile, ext: string): Option<Spec>
    requires SpecsOf(profile).Good?
  {
    if ext in SpecsOf(profile).value then Some(SpecsOf(profile).value[ext]) else None
  }

  lemma SpecsKnown(profile: Profile)
    requires LanesOk(profile)
    ensures SpecsOf(profile).Good?
    ensures profile.lossless.Some? ==> SpecAt(profile, ExtFor(profile.lossless.value.codec)) == Some(profile.lossless.value)
    ensures profile.encoded.Some? ==> SpecAt(profile, ExtFor(profile.encoded.value.codec)) == Some(profile.encoded.value)
  {
  }

  predicate IsOpusRemoval(op: Operation) {
    op.kind.RemoveObsoleteKind? && ExtOf(op.source) == ".opus"
  }

  lemma EncodePasses(files: seq<File>, profile: Profile, occupied: set<Path>, id: string, op: Operation)
    requires FilesOk(files) && LanesOk(profile) && GoodComponentEncode(files, profile, occupied, id, op)
    ensures CheckOp(op, id, SpecsOf(profile).value).None?
    ensures op.source != op.target && op.source != []
  {
    SpecsKnown(profile);
    SourceIsNoTarget(files, profile, occupied, id, op, op);
    hide SpecsOf, Beside, PathsOf;
  }

  /** What is read is never what is written. */
  lemma SourceIsNoTarget(files: seq<File>, profile: Profile, occupied: set<Path>, id: string, a: Operation, b: Operation)
    requires FilesOk(files) && LanesOk(profile)
    requires GoodComponentEncode(files, profile, occupied, id, a) && GoodComponentEncode(files, profile, occupied, id, b)
    ensures a.source != b.target && a.source in PathsOf(files) && a.source != []
  {
    var f :| f in files && f.path == a.source && IsLosslessFile(f);
    hide Beside, ExtOf, CodecOfExt;
  }

  lemma RemovePasses(files: seq<File>, id: string, targets: seq<Path>, op: Operation, specs: map<string, Spec>)
    requires FilesOk(files) && GoodRemove(files, id, targets, op)
    ensures CheckOp(op, id, specs) == if IsOpusRemoval(op) then Some(UnsupportedOp) else None
  {
    var f :| f in files && f.path == op.source;
    assert Named(f.path);
  }

  /** One accepted operation adds its encode or its removal. */
  lemma CollectStep(ops: seq<Operation>, k: nat, id: string, specs: map<string, Spec>)
    requires k < |ops| && Collect(ops, k, id, specs).Good? && CheckOp(ops[k], id, specs).None?
    ensures Collect(ops, k + 1, id, specs).Good?
    ensures var c, d := Collect(ops, k, id, specs).value, Collect(ops, k + 1, id, specs).value; var op := ops[k];
      if op.kind.EncodeKind? then
        ExtOf(op.target) in specs && d == Collected(c.encodes + [Executor.Encode(op.source, op.target, specs[ExtOf(op.target)], false)], c.removes)
      else op.kind.RemoveObsoleteKind? && d == Collected(c.encodes, c.removes + [Removal(op.source, op.dependsOn)])
  {
  }

  lemma {:induction false} CollectAll(ops: seq<Operation>, k: nat, id: string, specs: map<string, Spec>)
    requires k <= |ops| && forall x :: 0 <= x < k ==> CheckOp(ops[x], id, specs).None?
    ensures Collect(ops, k, id, specs).Good?
    ensures CollectedFrom(ops, k, specs, Collect(ops, k, id, specs).value)
  {
    if k > 0 {
      CollectAll(ops, k - 1, id, specs);
      CollectStep(ops, k - 1, id, specs);
      CollectedStep(ops, k - 1, specs, Collect(ops, k - 1, id, specs).value, Collect(ops, k, id, specs).value);
    }
  }

  /** Everything collected comes from an operation, and every target is there. */
  ghost predicate CollectedFrom(ops: seq<Operation>, k: nat, specs: map<string, Spec>, c: Collected)
    requires k <= |ops|
  {
    && (forall e :: e in c.encodes ==> EncodeFrom(ops, k, specs, e))
    && (forall r :: r in c.removes ==> RemoveFrom(ops, k, r))
    && (forall x :: 0 <= x < k && ops[x].kind.EncodeKind? ==> IsTarget(c.encodes, ops[x].target))
    && (forall x :: 0 <= x < k && ops[x].kind.RemoveObsoleteKind? ==> IsRemoved(c.removes, ops[x].source))
  }

  predicate IsRemoved(removes: seq<Removal>, p: Path) {
    exists j :: 0 <= j < |removes| && removes[j].source == p
  }

  lemma CollectedStep(ops: seq<Operation>, k: nat, specs: map<string, Spec>, c: Collected, d: Collected)
    requires k < |ops| && CollectedFrom(ops, k, specs, c)
    requires var op := ops[k];
      if op.kind.EncodeKind? then
        ExtOf(op.target) in specs && d == Collected(c.encodes + [Executor.Encode(op.source, op.target, specs[ExtOf(op.target)], false)], c.removes)
      else op.kind.RemoveObsoleteKind? && d == Collected(c.encodes, c.removes + [Removal(op.source, op.dependsOn)])
    ensures CollectedFrom(ops, k + 1, specs, d)
  {
    forall e | e in d.encodes ensures EncodeFrom(ops, k + 1, specs, e) {
      if e in c.encodes {
        assert EncodeFrom(ops, k, specs, e);
      }
    }
    forall r | r in d.removes ensures RemoveFrom(ops, k + 1, r) {
      if r in c.removes {
        assert RemoveFrom(ops, k, r);
      }
    }
    forall x | 0 <= x < k + 1 && ops[x].kind.EncodeKind? ensures IsTarget(d.encodes, ops[x].target) {
      if x < k {
        var j :| 0 <= j < |c.encodes| && c.encodes[j].target == ops[x].target;
        assert d.encodes[j].target == ops[x].target;
      } else {
        assert d.encodes[|c.encodes|].target == ops[x].target;
      }
    }
    forall x | 0 <= x < k + 1 && ops[x].kind.RemoveObsoleteKind? ensures IsRemoved(d.removes, ops[x].source) {
      if x < k {
        var j :| 0 <= j < |c.removes| && c.removes[j].source == ops[x].source;
        assert d.removes[j].source == ops[x].source;
      } else {
        assert d.removes[|c.removes|].source == ops[x].source;
      }
    }
  }

  predicate EncodeFrom(ops: seq<Operation>, k: nat, specs: map<string, Spec>, e: Executor.Encode)
    requires k <= |ops|
  {
    exists x :: 0 <= x < k && ops[x].kind.EncodeKind? && e.source == ops[x].source && e.target == ops[x].target
      && ExtOf(ops[x].target) in specs && e.spec == specs[ExtOf(ops[x].target)]
  }

  predicate RemoveFrom(ops: seq<Operation>, k: nat, r: Removal)
    requires k <= |ops|
  {
    exists x :: 0 <= x < k && ops[x].kind.RemoveObsoleteKind? && r == Removal(ops[x].source, ops[x].dependsOn)
  }

  /** The first refused operation refuses the collection. */
  lemma {:induction false} CollectRefuses(ops: seq<Operation>, k: nat, id: string, specs: map<string, Spec>)
    requires k <= |ops|
    requires forall x :: 0 <= x < k ==> CheckOp(ops[x], id, specs).None? || CheckOp(ops[x], id, specs) == Some(UnsupportedOp)
    requires exists x :: 0 <= x < k && CheckOp(ops[x], id, specs) == Some(UnsupportedOp)
    ensures Collect(ops, k, id, specs) == Bad(UnsupportedOp)
  {
    var x :| 0 <= x < k && CheckOp(ops[x], id, specs) == Some(UnsupportedOp);
    if forall y :: 0 <= y < k - 1 ==> CheckOp(ops[y], id, specs).None? {
      CollectAll(ops, k - 1, id, specs);
    } else {
      CollectRefuses(ops, k - 1, id, specs);
    }
  }

  /** No two operations write the same target or remove the same file. */
  predicate Apart(a: Operation, b: Operation) {
    && (a.kind.EncodeKind? && b.kind.EncodeKind? ==> a.target != b.target)
    && (a.kind.RemoveObsoleteKind? && b.kind.RemoveObsoleteKind? ==> a.source != b.source)
  }

  predicate AllApart(ops: seq<Operation>) {
    forall i, j :: 0 <= i < j < |ops| ==> Apart(ops[i], ops[j])
  }

  predicate CollectedApart(c: Collected) {
    && (forall i, j :: 0 <= i < j < |c.encodes| ==> c.encodes[i].target != c.encodes[j].target)
    && (forall i, j :: 0 <= i < j < |c.removes| ==> c.removes[i].source != c.removes[j].source)
  }

  lemma {:induction false} CollectApart(ops: seq<Operation>, k: nat, id: string, specs: map<string, Spec>)
    requires k <= |ops| && AllApart(ops) && forall x :: 0 <= x < k ==> CheckOp(ops[x], id, specs).None?
    ensures Collect(ops, k, id, specs).Good? && CollectedApart(Collect(ops, k, id, specs).value)
  {
    hide CheckOp, CollectedFrom, AllApart, CollectedApart, Collect, ExtOf;
    if k == 0 {
      CollectNone(ops, id, specs);
    } else {
      CollectApart(ops, k - 1, id, specs);
      CollectAll(ops, k - 1, id, specs);
      CollectStep(ops, k - 1, id, specs);
      CollectedGrows(ops, k - 1, specs, Collect(ops, k - 1, id, specs).value, Collect(ops, k, id, specs).value);
    }
  }

  lemma CollectNone(ops: seq<Operation>, id: string, specs: map<string, Spec>)
    ensures Collect(ops, 0, id, specs).Good? && CollectedApart(Collect(ops, 0, id, specs).value)
  {
  }

  lemma CollectedGrows(ops: seq<Operation>, k: nat, specs: map<string, Spec>, c: Collected, d: Collected)
    requires k < |ops| && AllApart(ops) && CollectedFrom(ops, k, specs, c) && CollectedApart(c)
    requires var op := ops[k];
      if op.kind.EncodeKind? then
        ExtOf(op.target) in specs && d == Collected(c.encodes + [Executor.Encode(op.source, op.target, specs[ExtOf(op.target)], false)], c.removes)
      else op.kind.RemoveObsoleteKind? && d == Collected(c.encodes, c.removes + [Removal(op.source, op.dependsOn)])
    ensures CollectedApart(d)
  {
    ApartStep(ops, k, specs, c);
    hide CollectedFrom, AllApart;
    assert forall i :: 0 <= i < |c.encodes| ==> c.encodes[i] in c.encodes;
    assert forall i :: 0 <= i < |c.removes| ==> c.removes[i] in c.removes;
  }

  lemma ApartStep(ops: seq<Operation>, k: nat, specs: map<string, Spec>, c: Collected)
    requires k < |ops| && AllApart(ops) && CollectedFrom(ops, k, specs, c)
    ensures forall e :: e in c.encodes && ops[k].kind.EncodeKind? ==> e.target != ops[k].target
    ensures forall r :: r in c.removes && ops[k].kind.RemoveObsoleteKind? ==> r.source != ops[k].source
  {
  }

  // ---------- the frozen order ----------

  /** Sorting keeps operations apart. */
  lemma SortedApart(all: seq<Operation>)
    requires AllApart(all) && forall op :: op in all ==> op.kind.EncodeKind? || op.kind.RemoveObsoleteKind?
    ensures AllApart(SortBy(OpBefore, all))
  {
    var ops := SortBy(OpBefore, all);
    forall i, j | 0 <= i < j < |all| ensures all[i] != all[j] {
      assert Apart(all[i], all[j]) && all[i] in all;
    }
    SameBagDistinct(all, ops);
    forall i, j | 0 <= i < j < |ops| ensures Apart(ops[i], ops[j]) {
      MembersApart(all, ops[i], ops[j]);
    }
  }

  lemma MembersApart(all: seq<Operation>, a: Operation, b: Operation)
    requires AllApart(all) && a != b && a in multiset(all) && b in multiset(all)
    ensures Apart(a, b)
  {
  }

  /** The operations of an unblocked component. */
  ghost predicate ComponentOps(files: seq<File>, profile: Profile, occupied: set<Path>, id: string, o: Outcome) {
    && (forall op :: op in o.operations ==>
          (GoodComponentEncode(files, profile, occupied, id, op) && Declared(o.variants, op.target))
          || GoodComponentRemove(files, id, o.operations, op))
    && (forall a, b :: a in o.operations && b in o.operations && a.kind.RemoveObsoleteKind? && b.kind.EncodeKind? ==> a.source != b.target)
    && AllApart(o.operations)
  }

  ghost predicate GoodComponentRemove(files: seq<File>, id: string, ops: seq<Operation>, op: Operation) {
    && GoodRemove(files, id, op.dependsOn, op)
    && forall t :: t in op.dependsOn ==> exists e :: e in ops && e.kind.EncodeKind? && e.target == t
  }

  lemma AllKinds(files: seq<File>, profile: Profile, occupied: set<Path>, id: string)
    requires FilesOk(files) && LanesOk(profile) && PlannedOps(files, profile, occupied, id).block.None?
    ensures var all := PlannedOps(files, profile, occupied, id).ops + PlannedRemovals(files, profile, occupied, id);
      AllApart(all) && forall op :: op in all ==> op.kind.EncodeKind? || op.kind.RemoveObsoleteKind?
  {
    var groups := StemGroups(files);
    var d, r := PlannedOps(files, profile, occupied, id), PlannedRemovals(files, profile, occupied, id);
    VariantsAreSound(files, profile, occupied, id);
    DraftIsSound(groups, |groups|, profile, occupied, id);
    RemovalsAreSound(groups, d.variants, |d.variants|, id, d.targets);
    assert TargetsDistinct(d.ops) && SourcesDistinct(r);
    hide FilesOk, StemGroups, PlanStems, VariantsSound, GroupsOk, RemovalsSound, DraftSound, GoodComponentEncode, Declared, LanesOk;
    forall op | op in d.ops ensures op.kind.EncodeKind? {
      EncodesAreGood(files, profile, occupied, id, op);
      EncodeKindOf(files, profile, occupied, id, op);
    }
    forall op | op in r ensures op.kind.RemoveObsoleteKind? {
      RemovalsAreGood(files, profile, occupied, id, op);
    }
    JoinApart(d.ops, r);
  }

  lemma EncodeKindOf(files: seq<File>, profile: Profile, occupied: set<Path>, id: string, op: Operation)
    requires GoodComponentEncode(files, profile, occupied, id, op)
    ensures op.kind.EncodeKind?
  {
  }

  lemma JoinApart(a: seq<Operation>, b: seq<Operation>)
    requires TargetsDistinct(a) && SourcesDistinct(b)
    requires (forall op :: op in a ==> op.kind.EncodeKind?) && forall op :: op in b ==> op.kind.RemoveObsoleteKind?
    ensures AllApart(a + b)
  {
  }

  lemma SortedMembers(files: seq<File>, profile: Profile, occupied: set<Path>, id: string)
    requires FilesOk(files) && LanesOk(profile) && LenientComponent(id, files, profile, occupied).block.None?
    ensures PlannedOps(files, profile, occupied, id).block.None?
    ensures var o, d, r := LenientComponent(id, files, profile, occupied), PlannedOps(files, profile, occupied, id), PlannedRemovals(files, profile, occupied, id);
      && o.id == id && o.variants == d.variants && o.files == FrozenFiles(files)
      && (forall op :: op in o.operations <==> op in d.ops + r)
      && AllApart(o.operations)
  {
    var all := PlannedOps(files, profile, occupied, id).ops + PlannedRemovals(files, profile, occupied, id);
    assert LenientComponent(id, files, profile, occupied).operations == SortBy(OpBefore, all);
    AllKinds(files, profile, occupied, id);
    hide PlannedOps, PlannedRemovals, SortBy, FilesOk, LanesOk, AllApart, FrozenFiles;
    SortMembers(OpBefore, all);
    SortedApart(all);
  }

  lemma EachOpGood(files: seq<File>, profile: Profile, occupied: set<Path>, id: string, op: Operation)
    requires FilesOk(files) && LanesOk(profile) && LenientComponent(id, files, profile, occupied).block.None?
    requires op in LenientComponent(id, files, profile, occupied).operations
    ensures var o := LenientComponent(id, files, profile, occupied);
      (GoodComponentEncode(files, profile, occupied, id, op) && Declared(o.variants, op.target)) || GoodComponentRemove(files, id, o.operations, op)
  {
    SortedMembers(files, profile, occupied, id);
    hide LenientComponent, PlannedOps, PlannedRemovals, GoodComponentEncode, Declared, FilesOk, LanesOk, AllApart, PathsOf, FrozenFiles;
    var d := PlannedOps(files, profile, occupied, id);
    if op in d.ops {
      EncodesAreGood(files, profile, occupied, id, op);
    } else {
      RemovalsAreGood(files, profile, occupied, id, op);
      TargetsOfDraft(files, profile, occupied, id);
      assert op.dependsOn == d.targets;
    }
  }

  lemma ComponentOpsHold(files: seq<File>, profile: Profile, occupied: set<Path>, id: string)
    requires FilesOk(files) && LanesOk(profile) && LenientComponent(id, files, profile, occupied).block.None?
    ensures ComponentOps(files, profile, occupied, id, LenientComponent(id, files, profile, occupied))
  {
    var o := LenientComponent(id, files, profile, occupied);
    SortedMembers(files, profile, occupied, id);
    hide LenientComponent, PlannedOps, PlannedRemovals, GoodComponentEncode, GoodComponentRemove, Declared, FilesOk, LanesOk, AllApart, FrozenFiles;
    forall op | op in o.operations
      ensures (GoodComponentEncode(files, profile, occupied, id, op) && Declared(o.variants, op.target)) || GoodComponentRemove(files, id, o.operations, op)
    {
      EachOpGood(files, profile, occupied, id, op);
    }
    forall a, b | a in o.operations && b in o.operations && a.kind.RemoveObsoleteKind? && b.kind.EncodeKind? ensures a.source != b.target {
      KindsTell(files, profile, occupied, id, a, b);
      RemovalsAreGood(files, profile, occupied, id, a);
    }
  }

  lemma KindsTell(files: seq<File>, profile: Profile, occupied: set<Path>, id: string, a: Operation, b: Operation)
    requires FilesOk(files) && LanesOk(profile) && PlannedOps(files, profile, occupied, id).block.None?
    requires var all := PlannedOps(files, profile, occupied, id).ops + PlannedRemovals(files, profile, occupied, id); a in all && b in all
    requires a.kind.RemoveObsoleteKind? && b.kind.EncodeKind?
    ensures a in PlannedRemovals(files, profile, occupied, id) && b in PlannedOps(files, profile, occupied, id).ops
  {
    hide FilesOk, LanesOk, PlannedOps, PlannedRemovals, Declared, PathsOf;
    if a in PlannedOps(files, profile, occupied, id).ops {
      EncodesAreGood(files, profile, occupied, id, a);
      assert false;
    }
    if b in PlannedRemovals(files, profile, occupied, id) {
      RemovalsAreGood(files, profile, occupied, id, b);
      assert false;
    }
  }

  lemma TargetsOfDraft(files: seq<File>, profile: Profile, occupied: set<Path>, id: string)
    requires FilesOk(files) && LanesOk(profile) && PlannedOps(files, profile, occupied, id).block.None?
    ensures forall t :: t in PlannedOps(files, profile, occupied, id).targets ==>
      exists e :: e in PlannedOps(files, profile, occupied, id).ops && e.kind.EncodeKind? && e.target == t
  {
    var d := PlannedOps(files, profile, occupied, id);
    GroupsAreOk(files);
    DraftIsSound(StemGroups(files), |StemGroups(files)|, profile, occupied, id);
    assert d.targets == OpTargets(d.ops);
    hide FilesOk, LanesOk, PlannedOps, Declared, PathsOf, GroupsOk, DraftSound, StemGroups, PlanStems;
    forall t | t in d.targets ensures exists e :: e in d.ops && e.kind.EncodeKind? && e.target == t {
      var i :| 0 <= i < |d.targets| && d.targets[i] == t;
      assert d.ops[i] in d.ops;
      EncodesAreGood(files, profile, occupied, id, d.ops[i]);
    }
  }

  // ---------- an unchanged disk ----------

  predicate Unchanged(f: File, n: Node) {
    n.Regular? && n.size == f.size && 0 <= n.nanos - f.mtime * NANOS < NANOS
  }

  /** The disk still is what the plan was made from: every file of the component
      is there, everything on it with an audio name is a listed entry unless it
      is a directory, and listed entries sharing a directory and a stem with the
      component belong to it. Directories are never listed. */
  ghost predicate FreshDisk(files: seq<File>, occupied: set<Path>, root: Path, disk: Snapshot) {
    && (forall f :: f in files ==>
          && root < f.path && f.path in disk && Unchanged(f, disk[f.path])
          && Dir(f.path) in disk && disk[Dir(f.path)].Directory?)
    && (forall p :: p in disk && !disk[p].Directory? && CodecAt(p).Some? ==> p in occupied)
    && (forall p :: p in occupied && CodecAt(p).Some? && Beside(files, p) ==> p in PathsOf(files))
  }

  lemma {:induction false} FrozenKeys(ts: seq<Tuple>)
    ensures forall p :: p in Frozen(ts) <==> exists t :: t in ts && t.path == p
    ensures forall p :: p in Frozen(ts) ==> Frozen(ts)[p] in ts && Frozen(ts)[p].path == p
  {
    if ts != [] {
      var init, last := ts[..|ts| - 1], ts[|ts| - 1];
      assert ts == init + [last];
      FrozenKeys(init);
      forall p ensures p in Frozen(ts) <==> exists t :: t in ts && t.path == p {
        if p == last.path {
          assert last in ts;
        }
      }
    }
  }

  /** The frozen tuples are the files' own facts. */
  lemma FrozenFacts(files: seq<File>)
    ensures forall p :: p in Frozen(FrozenFiles(files)) <==> p in PathsOf(files)
    ensures forall p :: p in Frozen(FrozenFiles(files)) ==>
      exists f :: f in files && f.path == p && Frozen(FrozenFiles(files))[p] == Tuple(f.path, f.size, f.mtime)
  {
    var raw := seq(|files|, k requires 0 <= k < |files| => Tuple(files[k].path, files[k].size, files[k].mtime));
    SortMembers(TupleBefore, raw);
    var ts := FrozenFiles(files);
    FrozenKeys(ts);
    assert forall t :: t in ts <==> t in raw;
    hide FrozenFiles, Frozen, SortBy;
    forall p ensures p in Frozen(ts) <==> p in PathsOf(files) {
      if p in PathsOf(files) {
        var k :| 0 <= k < |files| && files[k].path == p;
        assert raw[k] in raw;
      }
    }
    forall p | p in Frozen(ts) ensures exists f :: f in files && f.path == p && Frozen(ts)[p] == Tuple(f.path, f.size, f.mtime) {
      var k :| 0 <= k < |raw| && raw[k] == Frozen(ts)[p];
      assert files[k] in files;
    }
  }

  lemma FrozenPasses(files: seq<File>, occupied: set<Path>, root: Path, disk: Snapshot, p: Path)
    requires FreshDisk(files, occupied, root, disk) && p in PathsOf(files)
    ensures CheckFrozen(Frozen(FrozenFiles(files)), disk, p).None?
  {
    FrozenFacts(files);
    hide Frozen, FrozenFiles, Beside;
    var f :| f in files && f.path == p && Frozen(FrozenFiles(files))[p] == Tuple(f.path, f.size, f.mtime);
  }

  /** What is in the way of a target that is no file of the component can only
      be a directory, and the gate finds it. */
  lemma TargetFree(files: seq<File>, profile: Profile, occupied: set<Path>, id: string, root: Path, disk: Snapshot, op: Operation)
    requires FilesOk(files) && FreshDisk(files, occupied, root, disk) && GoodComponentEncode(files, profile, occupied, id, op)
    requires op.target !in PathsOf(files)
    ensures CheckFree(disk, op.target) == if op.target in disk then Some(TargetConflict) else None
    ensures op.target in disk ==> disk[op.target].Directory?
  {
    var f :| f in files && f.path != [] && op.target != [] && Dir(f.path) == Dir(op.target) && StemOf(f) == StemAt(op.target);
    hide PathsOf, StemAt, ExtOf;
  }

  lemma InsideRoot(files: seq<File>, profile: Profile, occupied: set<Path>, id: string, root: Path, disk: Snapshot, op: Operation)
    requires FreshDisk(files, occupied, root, disk) && GoodComponentEncode(files, profile, occupied, id, op)
    ensures root < op.source && root < op.target
  {
    var f :| f in files && f.path != [] && op.target != [] && Dir(f.path) == Dir(op.target) && StemOf(f) == StemAt(op.target);
    assert root <= Dir(f.path);
    hide PathsOf, StemAt, ExtOf, CodecAt;
  }

  // ---------- the theorem ----------

  lemma EachOpChecked(files: seq<File>, profile: Profile, occupied: set<Path>, id: string, o: Outcome, op: Operation)
    requires FilesOk(files) && LanesOk(profile) && ComponentOps(files, profile, occupied, id, o) && op in o.operations
    ensures SpecsOf(profile).Good?
    ensures CheckOp(op, id, SpecsOf(profile).value) == if IsOpusRemoval(op) then Some(UnsupportedOp) else None
  {
    SpecsKnown(profile);
    hide SpecsOf, FilesOk, LanesOk, GoodComponentEncode, Declared, AllApart, CheckOp, GoodRemove;
    if GoodComponentEncode(files, profile, occupied, id, op) {
      EncodePasses(files, profile, occupied, id, op);
      EncodeKindOf(files, profile, occupied, id, op);
    } else {
      assert GoodComponentRemove(files, id, o.operations, op);
      RemovePasses(files, id, op.dependsOn, op, SpecsOf(profile).value);
    }
  }

  /** What was collected, as operations of the component. */
  lemma CollectedAre(files: seq<File>, profile: Profile, occupied: set<Path>, id: string, o: Outcome, c: Collected, specs: map<string, Spec>)
    requires FilesOk(files) && LanesOk(profile) && ComponentOps(files, profile, occupied, id, o)
    requires CollectedFrom(o.operations, |o.operations|, specs, c)
    ensures forall e :: e in c.encodes ==> EncodeOfComponent(files, profile, occupied, id, o, e)
    ensures forall r :: r in c.removes ==>
      && r.source in PathsOf(files) && (forall d :: d in r.dependsOn ==> IsTarget(c.encodes, d))
      && (forall op :: op in o.operations && op.kind.EncodeKind? ==> op.target != r.source)
  {
  }

  lemma RemoveOfComponent(files: seq<File>, profile: Profile, occupied: set<Path>, id: string, o: Outcome, op: Operation)
    requires ComponentOps(files, profile, occupied, id, o) && op in o.operations && op.kind.RemoveObsoleteKind?
    ensures GoodComponentRemove(files, id, o.operations, op)
  {
    hide Declared, AllApart, PathsOf, Beside;
  }

  ghost predicate EncodeOfComponent(files: seq<File>, profile: Profile, occupied: set<Path>, id: string, o: Outcome, e: Executor.Encode) {
    exists op :: op in o.operations && op.kind.EncodeKind? && e.source == op.source && e.target == op.target
      && GoodComponentEncode(files, profile, occupied, id, op) && Declared(o.variants, op.target)
  }

  lemma CollectedHasNoConflicts(files: seq<File>, profile: Profile, occupied: set<Path>, id: string, o: Outcome, c: Collected)
    requires FilesOk(files) && LanesOk(profile) && CollectedApart(c)
    requires forall e :: e in c.encodes ==> EncodeOfComponent(files, profile, occupied, id, o, e)
    requires forall r :: r in c.removes ==> forall op :: op in o.operations && op.kind.EncodeKind? ==> op.target != r.source
    ensures NoConflicts(c)
  {
    hide GoodComponentEncode, Declared, FilesOk, LanesOk;
    forall i, j | 0 <= i < |c.encodes| && 0 <= j < |c.encodes| ensures c.encodes[i].source != c.encodes[j].target {
      assert c.encodes[i] in c.encodes && c.encodes[j] in c.encodes;
      var a :| a in o.operations && c.encodes[i].source == a.source && GoodComponentEncode(files, profile, occupied, id, a);
      var b :| b in o.operations && c.encodes[j].target == b.target && GoodComponentEncode(files, profile, occupied, id, b);
      SourceIsNoTarget(files, profile, occupied, id, a, b);
    }
    forall i, j | 0 <= i < |c.removes| && 0 <= j < |c.encodes| ensures c.removes[i].source != c.encodes[j].target {
      assert c.removes[i] in c.removes && c.encodes[j] in c.encodes;
    }
  }

  lemma CollectedInside(files: seq<File>, profile: Profile, occupied: set<Path>, id: string, o: Outcome, c: Collected, root: Path, disk: Snapshot)
    requires FreshDisk(files, occupied, root, disk)
    requires forall e :: e in c.encodes ==> EncodeOfComponent(files, profile, occupied, id, o, e)
    requires forall r :: r in c.removes ==> r.source in PathsOf(files)
    ensures PathsInside(c, root)
  {
    forall i | 0 <= i < |c.removes| ensures root < c.removes[i].source {
      assert c.removes[i] in c.removes;
    }
    hide GoodComponentEncode, Declared, FreshDisk;
    forall i | 0 <= i < |c.encodes| ensures root < c.encodes[i].source && root < c.encodes[i].target {
      assert c.encodes[i] in c.encodes;
      var a :| a in o.operations && c.encodes[i].source == a.source && c.encodes[i].target == a.target && GoodComponentEncode(files, profile, occupied, id, a);
      InsideRoot(files, profile, occupied, id, root, disk, a);
    }
  }

  /** Nothing on the disk is in the way of an encode: its target is an observed
      file of the component, or not there. */
  predicate Clear(files: seq<File>, disk: Snapshot, target: Path) {
    target in disk ==> target in PathsOf(files)
  }

  /** Each clear encode passes the disk facts and replaces exactly an observed
      file; any other conflicts. */
  lemma EncodeOnDisk(files: seq<File>, profile: Profile, occupied: set<Path>, id: string, o: Outcome, root: Path, disk: Snapshot, e: Executor.Encode)
    requires FilesOk(files) && LanesOk(profile) && FreshDisk(files, occupied, root, disk) && o.files == FrozenFiles(files)
    requires EncodeOfComponent(files, profile, occupied, id, o, e)
    ensures CheckEncode(Frozen(o.files), o.variants, disk, e) ==
      if Clear(files, disk, e.target) then Good(e.target in PathsOf(files)) else Bad(TargetConflict)
  {
    FrozenFacts(files);
    hide GoodComponentEncode, Declared, FreshDisk, FilesOk, LanesOk, Frozen, FrozenFiles, CheckFrozen, CheckFree;
    var op :| op in o.operations && e.source == op.source && e.target == op.target && GoodComponentEncode(files, profile, occupied, id, op) && Declared(o.variants, op.target);
    SourceIsNoTarget(files, profile, occupied, id, op, op);
    FrozenPasses(files, occupied, root, disk, e.source);
    if e.target in PathsOf(files) {
      FrozenPasses(files, occupied, root, disk, e.target);
    } else {
      TargetFree(files, profile, occupied, id, root, disk, op);
    }
  }

  lemma {:induction false} EncodesOnDisk(files: seq<File>, profile: Profile, occupied: set<Path>, id: string, o: Outcome, root: Path, disk: Snapshot,
                                         encodes: seq<Executor.Encode>, k: nat)
    requires FilesOk(files) && LanesOk(profile) && FreshDisk(files, occupied, root, disk) && o.files == FrozenFiles(files) && k <= |encodes|
    requires forall e :: e in encodes ==> EncodeOfComponent(files, profile, occupied, id, o, e)
    ensures var r := CheckEncodes(Frozen(o.files), o.variants, disk, encodes, k);
      if forall i :: 0 <= i < k ==> Clear(files, disk, encodes[i].target) then r.Good? && Marked(files, encodes, k, r.value)
      else r == Bad(TargetConflict)
  {
    hide Clear, EncodeOfComponent, FreshDisk, FilesOk, LanesOk, Frozen, FrozenFiles, CheckEncode, PathsOf;
    if k > 0 {
      EncodesOnDisk(files, profile, occupied, id, o, root, disk, encodes, k - 1);
      assert encodes[k - 1] in encodes;
      EncodeOnDisk(files, profile, occupied, id, o, root, disk, encodes[k - 1]);
    }
  }

  ghost predicate Marked(files: seq<File>, encodes: seq<Executor.Encode>, k: nat, marked: seq<Executor.Encode>)
    requires k <= |encodes|
  {
    |marked| == k && forall i :: 0 <= i < k ==> marked[i] == encodes[i].(replace := encodes[i].target in PathsOf(files))
  }

  lemma {:induction false} RemovesOnDisk(files: seq<File>, occupied: set<Path>, root: Path, disk: Snapshot, removes: seq<Removal>, k: nat)
    requires FreshDisk(files, occupied, root, disk) && k <= |removes|
    requires forall r :: r in removes ==> r.source in PathsOf(files)
    ensures CheckRemoves(Frozen(FrozenFiles(files)), disk, removes, k).None?
  {
    if k > 0 {
      RemovesOnDisk(files, occupied, root, disk, removes, k - 1);
      assert removes[k - 1] in removes;
      FrozenPasses(files, occupied, root, disk, removes[k - 1].source);
    }
  }

  /** A plan for this request, made by the table from these files. */
  ghost predicate PlannedRequest(files: seq<File>, profile: Profile, occupied: set<Path>, req: Request, disk: Snapshot) {
    && FilesOk(files) && LanesOk(profile) && FreshDisk(files, occupied, req.root, disk)
    && req.component == LenientComponent(req.component.id, files, profile, occupied)
    && req.profile == profile && req.ready && CheckRequest(req, disk).None?
  }

  /** Nothing on the disk is in the way of the plan. */
  ghost predicate AllClear(files: seq<File>, ops: seq<Operation>, disk: Snapshot) {
    forall op :: op in ops && op.kind.EncodeKind? ==> Clear(files, disk, op.target)
  }

  /** On an unchanged disk an unblocked plan passes the gate exactly when it
      removes no `.opus` file and no directory stands where an output goes. */
  lemma PlanPassesGate(files: seq<File>, profile: Profile, occupied: set<Path>, req: Request, disk: Snapshot)
    requires PlannedRequest(files, profile, occupied, req, disk)
    ensures Precheck(req, disk).Good? <==>
      (forall op :: op in req.component.operations ==> !IsOpusRemoval(op)) && AllClear(files, req.component.operations, disk)
    ensures Precheck(req, disk).Bad? ==>
      Precheck(req, disk) == Bad(if exists op :: op in req.component.operations && IsOpusRemoval(op) then UnsupportedOp else TargetConflict)
    ensures Precheck(req, disk).Good? ==> ReplacesObserved(files, Precheck(req, disk).value)
  {
    hide FilesOk, LanesOk, FreshDisk, ComponentOps, CheckOp, SpecsOf, CheckDisk, LenientComponent, FrozenFiles, NoConflicts, DependenciesKnown, PathsInside, Collect, IsOpusRemoval, CheckRequest, Precheck, AllClear;
    var o, id := req.component, req.component.id;
    var ops := o.operations;
    UnblockedOps(files, profile, occupied, req, disk);
    SpecsKnown(profile);
    var specs := SpecsOf(profile).value;
    forall x | 0 <= x < |ops| ensures CheckOp(ops[x], id, specs) == if IsOpusRemoval(ops[x]) then Some(UnsupportedOp) else None {
      EachOpChecked(files, profile, occupied, id, o, ops[x]);
    }
    if forall x :: 0 <= x < |ops| ==> !IsOpusRemoval(ops[x]) {
      PlanPassesDisk(files, profile, occupied, req, disk);
    } else {
      CollectRefuses(ops, |ops|, id, specs);
      GateRefuses(req, disk);
    }
  }

  /** What is in the way of a refused output is a directory. */
  lemma OnlyDirectoriesObstruct(files: seq<File>, profile: Profile, occupied: set<Path>, req: Request, disk: Snapshot, op: Operation)
    requires PlannedRequest(files, profile, occupied, req, disk)
    requires op in req.component.operations && op.kind.EncodeKind? && !Clear(files, disk, op.target)
    ensures op.target in disk && disk[op.target].Directory?
  {
    hide LanesOk, ComponentOps, CheckOp, LenientComponent, FrozenFiles, CheckRequest, GoodComponentEncode, FreshDisk, FilesOk;
    UnblockedOps(files, profile, occupied, req, disk);
    EncodesOfComponent(files, profile, occupied, req.component.id, req.component, op);
    TargetFree(files, profile, occupied, req.component.id, req.root, disk, op);
  }

  lemma EncodesOfComponent(files: seq<File>, profile: Profile, occupied: set<Path>, id: string, o: Outcome, op: Operation)
    requires ComponentOps(files, profile, occupied, id, o) && op in o.operations && op.kind.EncodeKind?
    ensures GoodComponentEncode(files, profile, occupied, id, op)
  {
    hide Declared, AllApart, PathsOf, Beside;
  }

  lemma GateRefuses(req: Request, disk: Snapshot)
    requires CheckRequest(req, disk).None? && SpecsOf(req.profile).Good?
    requires Collect(req.component.operations, |req.component.operations|, req.component.id, SpecsOf(req.profile).value) == Bad(UnsupportedOp)
    ensures Precheck(req, disk) == Bad(UnsupportedOp)
  {
  }

  /** An encode replaces exactly a file that was observed. */
  ghost predicate ReplacesObserved(files: seq<File>, plan: Executor.Plan) {
    forall i :: 0 <= i < |plan.encodes| ==> (plan.encodes[i].replace <==> plan.encodes[i].target in PathsOf(files))
  }

  lemma UnblockedOps(files: seq<File>, profile: Profile, occupied: set<Path>, req: Request, disk: Snapshot)
    requires PlannedRequest(files, profile, occupied, req, disk)
    ensures req.component.block.None? && req.component.files == FrozenFiles(files)
    ensures ComponentOps(files, profile, occupied, req.component.id, req.component)
  {
    ComponentOpsHold(files, profile, occupied, req.component.id);
    SortedMembers(files, profile, occupied, req.component.id);
    hide ComponentOps, FreshDisk, FilesOk, LanesOk, FrozenFiles, LenientComponent;
  }

  lemma PlanPassesDisk(files: seq<File>, profile: Profile, occupied: set<Path>, req: Request, disk: Snapshot)
    requires PlannedRequest(files, profile, occupied, req, disk) && ComponentOps(files, profile, occupied, req.component.id, req.component)
    requires req.component.files == FrozenFiles(files) && SpecsOf(profile).Good?
    requires forall x :: 0 <= x < |req.component.operations| ==> CheckOp(req.component.operations[x], req.component.id, SpecsOf(profile).value).None?
    ensures if AllClear(files, req.component.operations, disk) then Precheck(req, disk).Good? && ReplacesObserved(files, Precheck(req, disk).value)
      else Precheck(req, disk) == Bad(TargetConflict)
  {
    var o, id, ops := req.component, req.component.id, req.component.operations;
    var specs := SpecsOf(profile).value;
    assert AllApart(ops);
    CollectAll(ops, |ops|, id, specs);
    CollectApart(ops, |ops|, id, specs);
    var c := Collect(ops, |ops|, id, specs).value;
    CollectedAre(files, profile, occupied, id, o, c, specs);
    CollectedHasNoConflicts(files, profile, occupied, id, o, c);
    CollectedInside(files, profile, occupied, id, o, c, req.root, disk);
    ClearTargets(files, ops, specs, c, disk);
    hide FilesOk, LanesOk, FreshDisk, ComponentOps, CheckOp, SpecsOf, LenientComponent, FrozenFiles, NoConflicts, PathsInside, Collect, CheckRequest, CollectedFrom, CollectedApart, EncodeOfComponent, PathsOf, AllClear, Clear, CheckDisk;
    forall i, d | 0 <= i < |c.removes| && d in c.removes[i].dependsOn ensures IsTarget(c.encodes, d) {
      assert c.removes[i] in c.removes;
    }
    assert Precheck(req, disk) == CheckDisk(req, disk, c);
    DiskDecides(files, profile, occupied, req, disk, c);
  }

  lemma ClearTargets(files: seq<File>, ops: seq<Operation>, specs: map<string, Spec>, c: Collected, disk: Snapshot)
    requires CollectedFrom(ops, |ops|, specs, c)
    ensures AllClear(files, ops, disk) <==> forall i :: 0 <= i < |c.encodes| ==> Clear(files, disk, c.encodes[i].target)
  {
    hide Clear;
    if forall i :: 0 <= i < |c.encodes| ==> Clear(files, disk, c.encodes[i].target) {
      forall op | op in ops && op.kind.EncodeKind? ensures Clear(files, disk, op.target) {
        assert IsTarget(c.encodes, op.target);
      }
    }
    if AllClear(files, ops, disk) {
      forall i | 0 <= i < |c.encodes| ensures Clear(files, disk, c.encodes[i].target) {
        assert EncodeFrom(ops, |ops|, specs, c.encodes[i]);
      }
    }
  }

  /** Past the collection only the disk facts decide. */
  lemma DiskDecides(files: seq<File>, profile: Profile, occupied: set<Path>, req: Request, disk: Snapshot, c: Collected)
    requires PlannedRequest(files, profile, occupied, req, disk) && req.component.files == FrozenFiles(files)
    requires forall e :: e in c.encodes ==> EncodeOfComponent(files, profile, occupied, req.component.id, req.component, e)
    requires forall r :: r in c.removes ==> r.source in PathsOf(files)
    ensures if forall i :: 0 <= i < |c.encodes| ==> Clear(files, disk, c.encodes[i].target)
      then CheckDisk(req, disk, c).Good? && ReplacesObserved(files, CheckDisk(req, disk, c).value)
      else CheckDisk(req, disk, c) == Bad(TargetConflict)
  {
    hide FilesOk, LanesOk, FreshDisk, LenientComponent, FrozenFiles, Frozen, CheckRequest, EncodeOfComponent, PathsOf, CheckEncodes, CheckRemoves, Clear;
    EncodesOnDisk(files, profile, occupied, req.component.id, req.component, req.root, disk, c.encodes, |c.encodes|);
    RemovesOnDisk(files, occupied, req.root, disk, c.removes, |c.removes|);
  }
}
