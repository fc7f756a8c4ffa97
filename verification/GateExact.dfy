/** Exactly what the gate lets through, said about the request and the disk without
    the gate's own walk, and that it refuses a component whose files changed. */
module GateExact {
  import opened Prelude
  import opened Audio
  import opened Disk
  import opened Grouping
  import opened Planner
  import opened Gate
  import opened GateProof
  import Executor

  // ---------- what is accepted ----------

  predicate IsEncode(op: Operation) { op.kind.EncodeKind? }

  predicate IsRemoval(op: Operation) { op.kind.RemoveObsoleteKind? }

  function EncodesIn(ops: seq<Operation>): seq<Operation> { Filter(ops, IsEncode) }

  function RemovalsIn(ops: seq<Operation>): seq<Operation> { Filter(ops, IsRemoval) }

  /** The declared output an extension stands for. */
  predicate DeclaredOutput(profile: Profile, ext: string, spec: Spec) {
    (profile.lossless == Some(spec) || profile.encoded == Some(spec)) && ExtFor(spec.codec) == ext
  }

  /** The two outputs differ in extension, and a lossy one has a bitrate. */
  ghost predicate OutputsClear(profile: Profile) {
    && (forall spec :: profile.lossless == Some(spec) || profile.encoded == Some(spec) ==>
          spec.Lossless() || (spec.bitrate.Some? && spec.bitrate.value > 0))
    && (profile.lossless.Some? && profile.encoded.Some? ==> ExtFor(profile.lossless.value.codec) != ExtFor(profile.encoded.value.codec))
  }

  ghost predicate OpAccepted(profile: Profile, id: string, op: Operation) {
    && op.component == id && op.source != []
    && if IsEncode(op) then
         op.phase.MaterializeOutputs? && op.target != [] && op.target != op.source && exists spec :: DeclaredOutput(profile, ExtOf(op.target), spec)
       else
         IsRemoval(op) && op.phase.RemoveObsoleteAudio? && op.target == [] && ExtOf(op.source) in [".wav", ".flac", ".mp3", ".m4a", ".aac"]
  }

  /** Targets are distinct, no source and no removed file is a target, and no
      file is removed twice. */
  predicate SidesApart(ops: seq<Operation>) {
    var es, rs := EncodesIn(ops), RemovalsIn(ops);
    && (forall i, j :: 0 <= i < j < |es| ==> es[i].target != es[j].target)
    && (forall i, j :: 0 <= i < |es| && 0 <= j < |es| ==> es[i].source != es[j].target)
    && (forall i, j :: 0 <= i < |rs| && 0 <= j < |es| ==> rs[i].source != es[j].target)
    && (forall i, j :: 0 <= i < j < |rs| ==> rs[i].source != rs[j].source)
  }

  /** Whatever a removal waits for is a target. */
  predicate DependenciesMet(ops: seq<Operation>) {
    forall i, d :: 0 <= i < |RemovalsIn(ops)| && d in RemovalsIn(ops)[i].dependsOn ==>
      exists j :: 0 <= j < |EncodesIn(ops)| && EncodesIn(ops)[j].target == d
  }

  predicate Distinctly(ops: seq<Operation>) {
    SidesApart(ops) && DependenciesMet(ops)
  }

  /** The tuple that was frozen for a path: the last one listed. */
  ghost predicate FrozenAs(files: seq<Tuple>, p: Path, t: Tuple) {
    exists k :: 0 <= k < |files| && files[k] == t && t.path == p && forall l :: k < l < |files| ==> files[l].path != p
  }

  /** The node still is the file that was frozen: regular, of the same size, and
      modified within a second of the frozen time, where either is known. */
  predicate StillIs(t: Tuple, n: Node) {
    && n.Regular?
    && (t.size > 0 ==> n.size == t.size)
    && (t.mtime > 0 ==> (t.mtime - 1) * 1_000_000_000 <= n.nanos <= (t.mtime + 1) * 1_000_000_000)
  }

  ghost predicate FileUnchanged(files: seq<Tuple>, disk: Snapshot, p: Path) {
    p in disk && exists t :: FrozenAs(files, p, t) && StillIs(t, disk[p])
  }

  predicate Listed(files: seq<Tuple>, p: Path) {
    exists k :: 0 <= k < |files| && files[k].path == p
  }

  /** A fresh target: nothing there, in a directory that is. */
  predicate FreeTarget(disk: Snapshot, p: Path) {
    p !in disk && p != [] && Dir(p) in disk && disk[Dir(p)].Directory?
  }

  ghost predicate EncodeFits(req: Request, disk: Snapshot, op: Operation) {
    && FileUnchanged(req.component.files, disk, op.source)
    && if Listed(req.component.files, op.target) then Declared(req.component.variants, op.target) && FileUnchanged(req.component.files, disk, op.target)
       else FreeTarget(disk, op.target)
  }

  ghost predicate Accepts(req: Request, disk: Snapshot) {
    var ops := req.component.operations;
    && req.root != [] && req.root in disk && disk[req.root].Directory?
    && (req.recoveryRoot != [] ==> req.recoveryRoot in disk && disk[req.recoveryRoot].Directory?)
    && req.component.id != "" && req.component.block.None?
    && OutputsClear(req.profile)
    && (forall op :: op in ops ==> OpAccepted(req.profile, req.component.id, op))
    && Distinctly(ops)
    && (forall op :: op in EncodesIn(ops) ==> req.root < op.source && req.root < op.target && EncodeFits(req, disk, op))
    && (forall op :: op in RemovalsIn(ops) ==> req.root < op.source && FileUnchanged(req.component.files, disk, op.source))
    && (EncodesIn(ops) != [] ==> req.ready)
  }

  // ---------- the collection ----------

  lemma OutputsAreSpecs(profile: Profile)
    ensures SpecsOf(profile).Good? <==> OutputsClear(profile)
    ensures SpecsOf(profile).Good? ==> forall ext, spec ::
      ext in SpecsOf(profile).value && SpecsOf(profile).value[ext] == spec <==> DeclaredOutput(profile, ext, spec)
  {
    hide ExtFor;
    if profile.lossless.Some? && profile.encoded.Some? {
      assert SpecsOf(profile) == match AddSpec(map[], profile.lossless) case Bad(e) => Bad(e) case Good(specs) => AddSpec(specs, profile.encoded);
    }
  }

  lemma CheckedIsAccepted(profile: Profile, id: string, op: Operation)
    requires SpecsOf(profile).Good?
    ensures CheckOp(op, id, SpecsOf(profile).value).None? <==> OpAccepted(profile, id, op)
  {
    OutputsAreSpecs(profile);
    hide SpecsOf, ExtOf, DeclaredOutput;
    var specs := SpecsOf(profile).value;
    assert ExtOf(op.target) in specs <==> exists spec :: DeclaredOutput(profile, ExtOf(op.target), spec) by {
      if ExtOf(op.target) in specs { assert DeclaredOutput(profile, ExtOf(op.target), specs[ExtOf(op.target)]); }
    }
  }

  function EncodeFor(op: Operation, specs: map<string, Spec>): Executor.Encode
    requires ExtOf(op.target) in specs
  {
    Executor.Encode(op.source, op.target, specs[ExtOf(op.target)], false)
  }

  /** The encodes and the removals of the operations, each in their order. */
  ghost predicate Collects(ops: seq<Operation>, specs: map<string, Spec>, c: Collected) {
    && |c.encodes| == |EncodesIn(ops)| && |c.removes| == |RemovalsIn(ops)|
    && (forall i :: 0 <= i < |c.encodes| ==> ExtOf(EncodesIn(ops)[i].target) in specs && c.encodes[i] == EncodeFor(EncodesIn(ops)[i], specs))
    && (forall i :: 0 <= i < |c.removes| ==> c.removes[i] == Removal(RemovalsIn(ops)[i].source, RemovalsIn(ops)[i].dependsOn))
  }

  lemma OpsGrow(ops: seq<Operation>, k: nat)
    requires k < |ops|
    ensures EncodesIn(ops[..k + 1]) == EncodesIn(ops[..k]) + if IsEncode(ops[k]) then [ops[k]] else []
    ensures RemovalsIn(ops[..k + 1]) == RemovalsIn(ops[..k]) + if IsRemoval(ops[k]) then [ops[k]] else []
  {
    assert ops[..k + 1][..k] == ops[..k];
  }

  lemma CheckedKind(op: Operation, id: string, specs: map<string, Spec>)
    requires CheckOp(op, id, specs).None?
    ensures IsEncode(op) ==> ExtOf(op.target) in specs
    ensures IsEncode(op) != IsRemoval(op)
  {
  }

  lemma CollectsMore(ops: seq<Operation>, k: nat, id: string, specs: map<string, Spec>, c: Collected)
    requires k < |ops| && Collects(ops[..k], specs, c) && CheckOp(ops[k], id, specs).None?
    requires IsEncode(ops[k]) ==> ExtOf(ops[k].target) in specs
    ensures Collects(ops[..k + 1], specs,
      if IsEncode(ops[k]) then Collected(c.encodes + [EncodeFor(ops[k], specs)], c.removes)
      else Collected(c.encodes, c.removes + [Removal(ops[k].source, ops[k].dependsOn)]))
  {
    OpsGrow(ops, k);
    CheckedKind(ops[k], id, specs);
    hide EncodesIn, RemovalsIn, CheckOp, ExtOf, EncodeFor, IsRemoval, IsEncode;
  }

  lemma {:induction false} CollectGood(ops: seq<Operation>, k: nat, id: string, specs: map<string, Spec>)
    requires k <= |ops|
    ensures Collect(ops, k, id, specs).Good? <==> forall x :: 0 <= x < k ==> CheckOp(ops[x], id, specs).None?
  {
    hide CheckOp, ExtOf;
    if k > 0 {
      CollectGood(ops, k - 1, id, specs);
      StepGood(ops, k, id, specs);
    }
  }

  lemma StepGood(ops: seq<Operation>, k: nat, id: string, specs: map<string, Spec>)
    requires 0 < k <= |ops|
    ensures Collect(ops, k, id, specs).Good? <==> Collect(ops, k - 1, id, specs).Good? && CheckOp(ops[k - 1], id, specs).None?
    ensures Collect(ops, k, id, specs).Good? ==>
      var c, op := Collect(ops, k - 1, id, specs).value, ops[k - 1];
      && (IsEncode(op) ==> ExtOf(op.target) in specs)
      && Collect(ops, k, id, specs).value ==
        if IsEncode(op) then Collected(c.encodes + [EncodeFor(op, specs)], c.removes)
        else Collected(c.encodes, c.removes + [Removal(op.source, op.dependsOn)])
  {
    hide ExtOf;
  }

  lemma {:induction false} CollectIs(ops: seq<Operation>, k: nat, id: string, specs: map<string, Spec>)
    requires k <= |ops| && Collect(ops, k, id, specs).Good?
    ensures Collects(ops[..k], specs, Collect(ops, k, id, specs).value)
  {
    if k > 0 {
      StepGood(ops, k, id, specs);
      CollectIs(ops, k - 1, id, specs);
      hide Collect, CheckOp, Collects, ExtOf, EncodeFor;
      CollectsMore(ops, k - 1, id, specs, Collect(ops, k - 1, id, specs).value);
    } else {
      assert ops[..0] == [];
    }
  }

  // ---------- the disk ----------

  /** Nothing after `k` is listed under its path. */
  predicate LastOf(files: seq<Tuple>, k: nat)
    requires k < |files|
  {
    forall l :: k < l < |files| ==> files[l].path != files[k].path
  }

  lemma {:induction false} FrozenHoldsLast(files: seq<Tuple>, k: nat)
    requires k < |files| && LastOf(files, k)
    ensures files[k].path in Frozen(files) && Frozen(files)[files[k].path] == files[k]
  {
    if k < |files| - 1 {
      assert files[|files| - 1].path != files[k].path;
      FrozenHoldsLast(files[..|files| - 1], k);
    }
  }

  lemma {:induction false} LastListed(files: seq<Tuple>, p: Path) returns (k: nat)
    requires Listed(files, p)
    ensures k < |files| && files[k].path == p && LastOf(files, k)
  {
    var n := |files| - 1;
    if files[n].path == p {
      k := n;
    } else {
      var j :| 0 <= j < |files| && files[j].path == p;
      assert files[..n][j] == files[j];
      k := LastListed(files[..n], p);
    }
  }

  lemma {:induction false} FrozenIsListed(files: seq<Tuple>, p: Path)
    requires p in Frozen(files)
    ensures Listed(files, p)
  {
    var n := |files| - 1;
    if files[n].path != p {
      FrozenIsListed(files[..n], p);
      var j :| 0 <= j < n && files[..n][j].path == p;
      assert files[j].path == p;
    }
  }

  lemma FrozenIs(files: seq<Tuple>, p: Path)
    ensures p in Frozen(files) <==> Listed(files, p)
    ensures p in Frozen(files) ==> FrozenAs(files, p, Frozen(files)[p])
    ensures forall t :: FrozenAs(files, p, t) ==> p in Frozen(files) && Frozen(files)[p] == t
  {
    hide Frozen, Listed;
    if p in Frozen(files) { FrozenIsListed(files, p); }
    if Listed(files, p) {
      var k := LastListed(files, p);
      FrozenHoldsLast(files, k);
    }
    forall t | FrozenAs(files, p, t) ensures p in Frozen(files) && Frozen(files)[p] == t {
      var k :| 0 <= k < |files| && files[k] == t && t.path == p && forall l :: k < l < |files| ==> files[l].path != p;
      FrozenHoldsLast(files, k);
    }
  }

  lemma UnchangedIsFrozen(files: seq<Tuple>, disk: Snapshot, p: Path)
    ensures CheckFrozen(Frozen(files), disk, p).None? <==> FileUnchanged(files, disk, p)
  {
    FrozenIs(files, p);
    hide Frozen, FrozenAs;
  }

  lemma EncodeFitsGate(req: Request, disk: Snapshot, op: Operation, e: Executor.Encode)
    requires e.source == op.source && e.target == op.target
    ensures CheckEncode(Frozen(req.component.files), req.component.variants, disk, e).Good? <==> EncodeFits(req, disk, op)
    ensures CheckEncode(Frozen(req.component.files), req.component.variants, disk, e).Good? ==>
      CheckEncode(Frozen(req.component.files), req.component.variants, disk, e).value == Listed(req.component.files, op.target)
  {
    FrozenIs(req.component.files, op.target);
    UnchangedIsFrozen(req.component.files, disk, op.source);
    UnchangedIsFrozen(req.component.files, disk, op.target);
    hide Frozen, FileUnchanged, CheckFrozen, Declared, Listed;
  }

  lemma {:induction false} EncodesFit(frozen: map<Path, Tuple>, variants: seq<Variant>, disk: Snapshot, encodes: seq<Executor.Encode>, k: nat)
    requires k <= |encodes|
    ensures CheckEncodes(frozen, variants, disk, encodes, k).Good? <==> forall i :: 0 <= i < k ==> CheckEncode(frozen, variants, disk, encodes[i]).Good?
  {
    if k > 0 { EncodesFit(frozen, variants, disk, encodes, k - 1); }
  }

  lemma {:induction false} RemovesFit(frozen: map<Path, Tuple>, disk: Snapshot, removes: seq<Removal>, k: nat)
    requires k <= |removes|
    ensures CheckRemoves(frozen, disk, removes, k).None? <==> forall i :: 0 <= i < k ==> CheckFrozen(frozen, disk, removes[i].source).None?
  {
    if k > 0 { RemovesFit(frozen, disk, removes, k - 1); }
  }

  // ---------- the gate ----------

  /** What a plan that passed consists of: the encodes and removals of the request
      in their order, each output in its declared form, marked as replacing
      exactly where its target is a frozen file. */
  ghost predicate PlanFits(req: Request, plan: Executor.Plan) {
    var es, rs := EncodesIn(req.component.operations), RemovalsIn(req.component.operations);
    && plan.root == RecoveryRootOf(req) && plan.soft == req.soft
    && |plan.encodes| == |es| && |plan.removes| == |rs|
    && (forall i :: 0 <= i < |es| ==>
          && plan.encodes[i].source == es[i].source && plan.encodes[i].target == es[i].target
          && DeclaredOutput(req.profile, ExtOf(es[i].target), plan.encodes[i].spec)
          && (plan.encodes[i].replace <==> Listed(req.component.files, es[i].target)))
    && (forall i :: 0 <= i < |rs| ==> plan.removes[i] == rs[i].source)
  }

  lemma DistinctIsFree(ops: seq<Operation>, specs: map<string, Spec>, c: Collected)
    requires Collects(ops, specs, c)
    ensures (NoConflicts(c) <==> SidesApart(ops)) && (DependenciesKnown(c) <==> DependenciesMet(ops))
  {
    hide ExtOf, EncodesIn, RemovalsIn;
    var es, rs := EncodesIn(ops), RemovalsIn(ops);
    assert forall i :: 0 <= i < |es| ==> c.encodes[i].source == es[i].source && c.encodes[i].target == es[i].target;
    assert forall i :: 0 <= i < |rs| ==> c.removes[i].source == rs[i].source && c.removes[i].dependsOn == rs[i].dependsOn;
    assert NoConflicts(c) <==> SidesApart(ops);
    assert DependenciesKnown(c) <==> DependenciesMet(ops) by {
      assert forall d :: IsTarget(c.encodes, d) <==> exists j :: 0 <= j < |es| && es[j].target == d;
      if DependenciesKnown(c) {
        forall i, d | 0 <= i < |rs| && d in rs[i].dependsOn ensures exists j :: 0 <= j < |es| && es[j].target == d {
          assert d in c.removes[i].dependsOn;
          assert IsTarget(c.encodes, d);
          var j :| 0 <= j < |c.encodes| && c.encodes[j].target == d;
          assert es[j].target == d;
        }
      }
      if DependenciesMet(ops) {
        forall i, d | 0 <= i < |c.removes| && d in c.removes[i].dependsOn ensures IsTarget(c.encodes, d) {
          assert d in rs[i].dependsOn;
        }
      }
    }
  }

  lemma InsideIsBelow(ops: seq<Operation>, specs: map<string, Spec>, c: Collected, root: Path)
    requires Collects(ops, specs, c)
    ensures PathsInside(c, root) <==>
      (forall op :: op in EncodesIn(ops) ==> root < op.source && root < op.target) && (forall op :: op in RemovalsIn(ops) ==> root < op.source)
  {
    hide EncodesIn, RemovalsIn, ExtOf;
    var es, rs := EncodesIn(ops), RemovalsIn(ops);
    assert forall i :: 0 <= i < |es| ==> c.encodes[i].source == es[i].source && c.encodes[i].target == es[i].target && es[i] in es;
    assert forall i :: 0 <= i < |rs| ==> c.removes[i].source == rs[i].source && rs[i] in rs;
  }

  lemma DiskFits(req: Request, disk: Snapshot, specs: map<string, Spec>, c: Collected)
    requires Collects(req.component.operations, specs, c) && SpecsOf(req.profile) == Good(specs)
    ensures CheckDisk(req, disk, c).Good? <==>
      && (forall op :: op in EncodesIn(req.component.operations) ==> EncodeFits(req, disk, op))
      && (forall op :: op in RemovalsIn(req.component.operations) ==> FileUnchanged(req.component.files, disk, op.source))
      && (EncodesIn(req.component.operations) != [] ==> req.ready)
    ensures CheckDisk(req, disk, c).Good? ==> PlanFits(req, CheckDisk(req, disk, c).value)
  {
    hide EncodesIn, RemovalsIn, SpecsOf, Frozen, EncodeFits, FileUnchanged, CheckEncodes, CheckRemoves, DeclaredOutput, PlanFits, Collects;
    EncodesAsFits(req, disk, specs, c);
    RemovesAsFit(req, disk, specs, c);
    EncodesOrNone(req.component.operations, specs, c);
    SameNumber(Frozen(req.component.files), req.component.variants, disk, c.encodes);
    if CheckDisk(req, disk, c).Good? { PlanIsFit(req, disk, specs, c); }
  }

  lemma EncodesOrNone(ops: seq<Operation>, specs: map<string, Spec>, c: Collected)
    requires Collects(ops, specs, c)
    ensures c.encodes == [] <==> EncodesIn(ops) == []
    ensures |c.encodes| == |EncodesIn(ops)|
  {
  }

  lemma SameNumber(frozen: map<Path, Tuple>, variants: seq<Variant>, disk: Snapshot, encodes: seq<Executor.Encode>)
    ensures var r := CheckEncodes(frozen, variants, disk, encodes, |encodes|); r.Good? ==> |r.value| == |encodes|
  {
    hide CheckEncode;
    if CheckEncodes(frozen, variants, disk, encodes, |encodes|).Good? { EncodesChecked(frozen, variants, disk, encodes, |encodes|); }
  }

  /** The encode of each operation fits for the gate exactly when it fits. */
  lemma EncodeAt(req: Request, disk: Snapshot, specs: map<string, Spec>, c: Collected, i: nat)
    requires Collects(req.component.operations, specs, c) && i < |c.encodes|
    ensures i < |EncodesIn(req.component.operations)|
    ensures var op, r := EncodesIn(req.component.operations)[i], CheckEncode(Frozen(req.component.files), req.component.variants, disk, c.encodes[i]);
      && (r.Good? <==> EncodeFits(req, disk, op)) && (r.Good? ==> r.value == Listed(req.component.files, op.target))
      && ExtOf(op.target) in specs && c.encodes[i] == EncodeFor(op, specs)
  {
    hide EncodesIn, ExtOf, Frozen, CheckEncode, EncodeFits, Listed;
    EncodeFitsGate(req, disk, EncodesIn(req.component.operations)[i], c.encodes[i]);
  }

  lemma EncodesAsFits(req: Request, disk: Snapshot, specs: map<string, Spec>, c: Collected)
    requires Collects(req.component.operations, specs, c)
    ensures CheckEncodes(Frozen(req.component.files), req.component.variants, disk, c.encodes, |c.encodes|).Good?
      <==> forall op :: op in EncodesIn(req.component.operations) ==> EncodeFits(req, disk, op)
  {
    var es := EncodesIn(req.component.operations);
    EncodesOrNone(req.component.operations, specs, c);
    EncodesFit(Frozen(req.component.files), req.component.variants, disk, c.encodes, |c.encodes|);
    hide Collects, EncodesIn, Frozen, CheckEncode, EncodeFits, CheckEncodes;
    forall i | 0 <= i < |es| ensures CheckEncode(Frozen(req.component.files), req.component.variants, disk, c.encodes[i]).Good? <==> EncodeFits(req, disk, es[i]) {
      EncodeAt(req, disk, specs, c, i);
    }
    AllMembers(req, disk, es, []);
  }

  lemma RemovesAsFit(req: Request, disk: Snapshot, specs: map<string, Spec>, c: Collected)
    requires Collects(req.component.operations, specs, c)
    ensures CheckRemoves(Frozen(req.component.files), disk, c.removes, |c.removes|).None?
      <==> forall op :: op in RemovalsIn(req.component.operations) ==> FileUnchanged(req.component.files, disk, op.source)
  {
    var rs := RemovalsIn(req.component.operations);
    RemovesFit(Frozen(req.component.files), disk, c.removes, |c.removes|);
    hide EncodesIn, RemovalsIn, Frozen, CheckFrozen, FileUnchanged, CheckRemoves, ExtOf;
    forall i | 0 <= i < |rs| ensures CheckFrozen(Frozen(req.component.files), disk, c.removes[i].source).None? <==> FileUnchanged(req.component.files, disk, rs[i].source) {
      UnchangedIsFrozen(req.component.files, disk, rs[i].source);
    }
    AllMembers(req, disk, [], rs);
  }

  /** Each encode of a plan that passed is the operation's, marked by whether its
      target is frozen. */
  lemma PlanEncodes(req: Request, disk: Snapshot, specs: map<string, Spec>, c: Collected, i: nat)
    requires Collects(req.component.operations, specs, c) && CheckDisk(req, disk, c).Good? && i < |c.encodes|
    ensures |CheckDisk(req, disk, c).value.encodes| == |c.encodes| == |EncodesIn(req.component.operations)|
    ensures var op, e := EncodesIn(req.component.operations)[i], CheckDisk(req, disk, c).value.encodes[i];
      ExtOf(op.target) in specs && e == EncodeFor(op, specs).(replace := Listed(req.component.files, op.target))
  {
    hide EncodesIn, RemovalsIn, ExtOf, Frozen, CheckEncode, CheckRemoves, Listed, EncodeFits;
    EncodesOrNone(req.component.operations, specs, c);
    EncodesChecked(Frozen(req.component.files), req.component.variants, disk, c.encodes, |c.encodes|);
    EncodeAt(req, disk, specs, c, i);
  }

  lemma PlanIsFit(req: Request, disk: Snapshot, specs: map<string, Spec>, c: Collected)
    requires Collects(req.component.operations, specs, c) && SpecsOf(req.profile) == Good(specs) && CheckDisk(req, disk, c).Good?
    ensures PlanFits(req, CheckDisk(req, disk, c).value)
  {
    var es := EncodesIn(req.component.operations);
    OutputsAreSpecs(req.profile);
    SameNumber(Frozen(req.component.files), req.component.variants, disk, c.encodes);
    hide EncodesIn, RemovalsIn, ExtOf, SpecsOf, Frozen, CheckEncodes, CheckRemoves, DeclaredOutput, Listed;
    forall i | 0 <= i < |es|
      ensures var e := CheckDisk(req, disk, c).value.encodes[i];
        && e.source == es[i].source && e.target == es[i].target
        && DeclaredOutput(req.profile, ExtOf(es[i].target), e.spec) && (e.replace <==> Listed(req.component.files, es[i].target))
    {
      PlanEncodes(req, disk, specs, c, i);
    }
  }

  lemma AllMembers(req: Request, disk: Snapshot, es: seq<Operation>, rs: seq<Operation>)
    ensures (forall op :: op in es ==> EncodeFits(req, disk, op)) <==> forall i :: 0 <= i < |es| ==> EncodeFits(req, disk, es[i])
    ensures (forall op :: op in rs ==> FileUnchanged(req.component.files, disk, op.source)) <==> forall i :: 0 <= i < |rs| ==> FileUnchanged(req.component.files, disk, rs[i].source)
  {
    hide EncodeFits, FileUnchanged;
  }

  /** The gate lets a request through exactly when it is acceptable, and the plan
      that comes out is the request's own. */
  lemma GateIsExact(req: Request, disk: Snapshot)
    ensures Precheck(req, disk).Good? <==> Accepts(req, disk)
    ensures Precheck(req, disk).Good? ==> PlanFits(req, Precheck(req, disk).value)
  {
    var ops, id := req.component.operations, req.component.id;
    OutputsAreSpecs(req.profile);
    hide OutputsClear, DeclaredOutput, CheckOp, OpAccepted, SidesApart, DependenciesMet, NoConflicts, DependenciesKnown, PathsInside, CheckDisk, EncodesIn, RemovalsIn, EncodeFits, FileUnchanged, SpecsOf, PlanFits, Collects;
    if SpecsOf(req.profile).Good? {
      var specs := SpecsOf(req.profile).value;
      CollectGood(ops, |ops|, id, specs);
      assert ops[..|ops|] == ops;
      forall op ensures CheckOp(op, id, specs).None? <==> OpAccepted(req.profile, id, op) { CheckedIsAccepted(req.profile, id, op); }
      assert Collect(ops, |ops|, id, specs).Good? <==> forall op :: op in ops ==> OpAccepted(req.profile, id, op);
      if Collect(ops, |ops|, id, specs).Good? {
        var c := Collect(ops, |ops|, id, specs).value;
        CollectIs(ops, |ops|, id, specs);
        DistinctIsFree(ops, specs, c);
        InsideIsBelow(ops, specs, c, req.root);
        DiskFits(req, disk, specs, c);
      }
    }
  }

  /** The request itself: its directories are there and it names a component. */
  predicate RequestSound(req: Request, disk: Snapshot) {
    && req.root != [] && req.root in disk && disk[req.root].Directory?
    && (req.recoveryRoot != [] ==> req.recoveryRoot in disk && disk[req.recoveryRoot].Directory?)
    && req.component.id != ""
  }

  ghost predicate OpsSound(req: Request, disk: Snapshot) {
    && RequestSound(req, disk) && req.component.block.None? && OutputsClear(req.profile)
    && forall op :: op in req.component.operations ==> OpAccepted(req.profile, req.component.id, op)
  }

  predicate AllInside(req: Request) {
    && (forall op :: op in EncodesIn(req.component.operations) ==> req.root < op.source && req.root < op.target)
    && (forall op :: op in RemovalsIn(req.component.operations) ==> req.root < op.source)
  }

  /** What the gate answers, in the order of its checks: an unsound request, a blocked
      component, unclear outputs, operations it does not take, targets that clash,
      a removal that waits for no target, a path outside the root. */
  lemma GateAnswers(req: Request, disk: Snapshot)
    ensures var r := Precheck(req, disk); var ops := req.component.operations;
      if !RequestSound(req, disk) then r == Bad(InvalidRequest)
      else if req.component.block.Some? then r == Bad(ComponentBlocked)
      else if !OutputsClear(req.profile) then r == Bad(InvalidRequest)
      else if !OpsSound(req, disk) then r == Bad(UnsupportedOp) || r == Bad(TargetConflict)
      else if !SidesApart(ops) then r == Bad(TargetConflict)
      else if !DependenciesMet(ops) then r == Bad(InvalidDependency)
      else if !AllInside(req) then r == Bad(PathUnsafe)
      else r.Good? || r.error in {FileChanged, TargetConflict, ToolsUnavailable}
  {
    var ops, id := req.component.operations, req.component.id;
    OutputsAreSpecs(req.profile);
    hide OutputsClear, DeclaredOutput, CheckOp, OpAccepted, SidesApart, DependenciesMet, NoConflicts, DependenciesKnown, PathsInside, CheckDisk, EncodesIn, RemovalsIn, SpecsOf, Collects;
    SpecsError(req.profile);
    if SpecsOf(req.profile).Good? {
      var specs := SpecsOf(req.profile).value;
      CollectGood(ops, |ops|, id, specs);
      CollectErrors(ops, |ops|, id, specs);
      assert ops[..|ops|] == ops;
      forall op ensures CheckOp(op, id, specs).None? <==> OpAccepted(req.profile, id, op) { CheckedIsAccepted(req.profile, id, op); }
      assert Collect(ops, |ops|, id, specs).Good? <==> forall op :: op in ops ==> OpAccepted(req.profile, id, op);
      if Collect(ops, |ops|, id, specs).Good? {
        var c := Collect(ops, |ops|, id, specs).value;
        CollectIs(ops, |ops|, id, specs);
        DistinctIsFree(ops, specs, c);
        InsideIsBelow(ops, specs, c, req.root);
        DiskErrors(req, disk, c);
      }
    }
  }

  lemma SpecsError(profile: Profile)
    ensures SpecsOf(profile).Bad? ==> SpecsOf(profile).error == InvalidRequest
  {
    hide ExtFor;
  }

  lemma {:induction false} CollectErrors(ops: seq<Operation>, k: nat, id: string, specs: map<string, Spec>)
    requires k <= |ops|
    ensures Collect(ops, k, id, specs).Bad? ==> Collect(ops, k, id, specs).error in {UnsupportedOp, TargetConflict}
  {
    hide ExtOf, Removable;
    if k > 0 { CollectErrors(ops, k - 1, id, specs); }
  }

  lemma {:induction false} EncodesErrors(frozen: map<Path, Tuple>, variants: seq<Variant>, disk: Snapshot, encodes: seq<Executor.Encode>, k: nat)
    requires k <= |encodes|
    ensures var r := CheckEncodes(frozen, variants, disk, encodes, k); r.Bad? ==> r.error in {FileChanged, TargetConflict}
  {
    hide Declared;
    if k > 0 { EncodesErrors(frozen, variants, disk, encodes, k - 1); }
  }

  lemma {:induction false} RemovesErrors(frozen: map<Path, Tuple>, disk: Snapshot, removes: seq<Removal>, k: nat)
    requires k <= |removes|
    ensures var r := CheckRemoves(frozen, disk, removes, k); r.Some? ==> r.value == FileChanged
  {
    if k > 0 { RemovesErrors(frozen, disk, removes, k - 1); }
  }

  lemma DiskErrors(req: Request, disk: Snapshot, c: Collected)
    ensures var r := CheckDisk(req, disk, c); r.Bad? ==> r.error in {FileChanged, TargetConflict, ToolsUnavailable}
  {
    hide CheckEncodes, CheckRemoves, Frozen;
    EncodesErrors(Frozen(req.component.files), req.component.variants, disk, c.encodes, |c.encodes|);
    RemovesErrors(Frozen(req.component.files), disk, c.removes, |c.removes|);
  }

  /** The tools are looked at last: their absence is answered exactly for a request
      with encodes that would be let through with them. */
  lemma ToolsAreLast(req: Request, disk: Snapshot)
    ensures Precheck(req, disk) == Bad(ToolsUnavailable) <==>
      !req.ready && EncodesIn(req.component.operations) != [] && Accepts(req.(ready := true), disk)
  {
    var able := req.(ready := true);
    GateIsExact(able, disk);
    SpecsError(req.profile);
    hide Accepts, CheckDisk, NoConflicts, DependenciesKnown, PathsInside, SpecsOf, Collects, EncodesIn, Collect;
    if SpecsOf(req.profile).Good? {
      var specs, ops := SpecsOf(req.profile).value, req.component.operations;
      CollectErrors(ops, |ops|, req.component.id, specs);
      if Collect(ops, |ops|, req.component.id, specs).Good? {
        var c := Collect(ops, |ops|, req.component.id, specs).value;
        CollectIs(ops, |ops|, req.component.id, specs);
        assert ops[..|ops|] == ops;
        EncodesOrNone(ops, specs, c);
        ToolsAtTheEnd(req, disk, c);
      }
    }
  }

  lemma ToolsAtTheEnd(req: Request, disk: Snapshot, c: Collected)
    ensures CheckDisk(req, disk, c) == Bad(ToolsUnavailable) <==> !req.ready && c.encodes != [] && CheckDisk(req.(ready := true), disk, c).Good?
  {
    hide CheckEncodes, CheckRemoves, Frozen;
    SameNumber(Frozen(req.component.files), req.component.variants, disk, c.encodes);
    EncodesErrors(Frozen(req.component.files), req.component.variants, disk, c.encodes, |c.encodes|);
    RemovesErrors(Frozen(req.component.files), disk, c.removes, |c.removes|);
  }

  // ---------- changed files ----------

  /** A file the plan reads, replaces or removes. */
  predicate Uses(req: Request, p: Path) {
    || (exists op :: op in EncodesIn(req.component.operations) && (op.source == p || (op.target == p && Listed(req.component.files, p))))
    || (exists op :: op in RemovalsIn(req.component.operations) && op.source == p)
  }

  ghost predicate SameNode(was: Snapshot, now: Snapshot, p: Path) {
    (p in was <==> p in now) && (p in was ==> was[p] == now[p])
  }

  lemma UsedIsRegular(req: Request, disk: Snapshot, p: Path)
    requires Accepts(req, disk) && Uses(req, p)
    ensures p in disk && disk[p].Regular? && Listed(req.component.files, p)
  {
    hide EncodesIn, RemovalsIn, Distinctly, OpAccepted, OutputsClear, Declared;
    var t :| FrozenAs(req.component.files, p, t) && StillIs(t, disk[p]);
  }

  lemma OnlyChanged(frozen: map<Path, Tuple>, disk: Snapshot, p: Path)
    ensures CheckFrozen(frozen, disk, p).None? || CheckFrozen(frozen, disk, p) == Some(FileChanged)
  {
  }

  lemma {:induction false} EncodesOnlyChanged(frozen: map<Path, Tuple>, variants: seq<Variant>, disk: Snapshot, encodes: seq<Executor.Encode>, k: nat)
    requires k <= |encodes|
    requires forall i :: 0 <= i < k ==>
      CheckEncode(frozen, variants, disk, encodes[i]).Good? || CheckEncode(frozen, variants, disk, encodes[i]) == Bad(FileChanged)
    ensures CheckEncodes(frozen, variants, disk, encodes, k).Good? || CheckEncodes(frozen, variants, disk, encodes, k) == Bad(FileChanged)
  {
    hide CheckEncode;
    if k > 0 { EncodesOnlyChanged(frozen, variants, disk, encodes, k - 1); }
  }

  lemma {:induction false} RemovesOnlyChanged(frozen: map<Path, Tuple>, disk: Snapshot, removes: seq<Removal>, k: nat)
    requires k <= |removes|
    ensures CheckRemoves(frozen, disk, removes, k).None? || CheckRemoves(frozen, disk, removes, k) == Some(FileChanged)
  {
    if k > 0 {
      RemovesOnlyChanged(frozen, disk, removes, k - 1);
      OnlyChanged(frozen, disk, removes[k - 1].source);
    }
  }

  /** One encode of an accepted request, on a disk where only used files changed. */
  lemma EncodeOnlyChanged(req: Request, was: Snapshot, now: Snapshot, op: Operation, e: Executor.Encode)
    requires Accepts(req, was) && op in EncodesIn(req.component.operations) && e.source == op.source && e.target == op.target
    requires forall p: Path :: !Uses(req, p) ==> SameNode(was, now, p)
    ensures var r := CheckEncode(Frozen(req.component.files), req.component.variants, now, e); r.Good? || r == Bad(FileChanged)
  {
    var files := req.component.files;
    FrozenIs(files, op.target);
    OnlyChanged(Frozen(files), now, op.source);
    OnlyChanged(Frozen(files), now, op.target);
    assert EncodeFits(req, was, op);
    hide Accepts, Frozen, CheckFrozen, Uses, EncodesIn, FileUnchanged, Declared;
    if !Listed(files, op.target) {
      NotUsed(req, was, op.target);
      NotUsed(req, was, Dir(op.target));
      assert SameNode(was, now, op.target) && SameNode(was, now, Dir(op.target));
    }
  }

  lemma NotUsed(req: Request, disk: Snapshot, p: Path)
    requires Accepts(req, disk) && (p !in disk || disk[p].Directory?)
    ensures !Uses(req, p)
  {
    hide Accepts, Uses;
    if Uses(req, p) { UsedIsRegular(req, disk, p); }
  }

  /** A request that would pass answers that a file changed as soon as a file it
      reads, replaces or removes is gone, no regular file any more, of another
      size, or modified more than a second from its frozen time. */
  lemma ChangeIsNoticed(req: Request, was: Snapshot, now: Snapshot, p: Path)
    requires Precheck(req, was).Good? && Uses(req, p) && !FileUnchanged(req.component.files, now, p)
    requires forall q: Path :: !Uses(req, q) ==> SameNode(was, now, q)
    ensures Precheck(req, now) == Bad(FileChanged)
  {
    GateIsExact(req, was);
    GateIsExact(req, now);
    RequestStands(req, was, now);
    Refused(req, now, p);
    var ops, id := req.component.operations, req.component.id;
    PrecheckParts(req, was);
    var specs := SpecsOf(req.profile).value;
    var c := Collect(ops, |ops|, id, specs).value;
    CollectIs(ops, |ops|, id, specs);
    assert ops[..|ops|] == ops;
    hide Accepts, Uses, FileUnchanged, Collect, SpecsOf, NoConflicts, DependenciesKnown, PathsInside, CheckRequest, Frozen, CheckEncode, CheckEncodes, CheckRemoves, EncodesIn, RemovalsIn, ExtOf, PlanFits;
    forall i | 0 <= i < |c.encodes|
      ensures var r := CheckEncode(Frozen(req.component.files), req.component.variants, now, c.encodes[i]); r.Good? || r == Bad(FileChanged)
    {
      EncodeOnlyChanged(req, was, now, EncodesIn(ops)[i], c.encodes[i]);
    }
    EncodesOnlyChanged(Frozen(req.component.files), req.component.variants, now, c.encodes, |c.encodes|);
    RemovesOnlyChanged(Frozen(req.component.files), now, c.removes, |c.removes|);
    ToolsReady(req, was, c);
  }

  lemma ToolsReady(req: Request, disk: Snapshot, c: Collected)
    requires CheckDisk(req, disk, c).Good?
    ensures c.encodes == [] || req.ready
  {
    var frozen := Frozen(req.component.files);
    EncodesChecked(frozen, req.component.variants, disk, c.encodes, |c.encodes|);
    hide CheckEncodes, CheckRemoves, Frozen;
  }

  lemma Refused(req: Request, disk: Snapshot, p: Path)
    requires Uses(req, p) && !FileUnchanged(req.component.files, disk, p)
    ensures !Accepts(req, disk)
  {
    hide EncodesIn, RemovalsIn, FileUnchanged, Distinctly, OpAccepted, OutputsClear, Declared;
  }

  lemma RequestStands(req: Request, was: Snapshot, now: Snapshot)
    requires Accepts(req, was) && forall p: Path :: !Uses(req, p) ==> SameNode(was, now, p)
    ensures CheckRequest(req, now).None?
  {
    NotUsed(req, was, req.root);
    if req.recoveryRoot != [] { NotUsed(req, was, req.recoveryRoot); }
    hide EncodesIn, RemovalsIn, EncodeFits, FileUnchanged, Distinctly, OpAccepted, OutputsClear, Uses;
    assert SameNode(was, now, req.root);
    assert req.recoveryRoot != [] ==> SameNode(was, now, req.recoveryRoot);
  }
}
