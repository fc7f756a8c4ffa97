/** Plan, pass the gate, run, scan, plan again: the composition of the planner,
    the gate and the executor. */
module Roundtrip {
  import opened Ordering
  import opened Audio
  import opened Disk
  import opened Grouping
  import opened Planner
  import opened PlannerProof
  import opened PlanGate
  import opened Gate
  import opened GateProof
  import opened PlanPasses
  import opened Replan
  import Executor
  import ExecutorRuns
  import ExecutorProof
  import ExecutorStaging
  import ExecutorCalm
  import ExecutorOutcome

  // ---------- the plan, seen from the stems ----------

  ghost predicate SomeStemTargets(groups: seq<StemGroup>, profile: Profile, occupied: set<Path>, p: Path) {
    exists j: nat :: j < |groups| && Targeted(PlanAt(groups, j, profile, occupied).ops, p)
  }

  ghost predicate SomeStemDeletes(groups: seq<StemGroup>, profile: Profile, occupied: set<Path>, p: Path) {
    exists j: nat :: j < |groups| && DeletesPath(PlanAt(groups, j, profile, occupied).decisions, p)
  }

  ghost predicate OpTargeting(ops: seq<Operation>, p: Path) {
    exists op :: op in ops && op.kind.EncodeKind? && op.target == p
  }

  ghost predicate OpRemoving(ops: seq<Operation>, p: Path) {
    exists op :: op in ops && op.kind.RemoveObsoleteKind? && op.source == p
  }

  lemma StemsOfOps(groups: seq<StemGroup>, profile: Profile, occupied: set<Path>, id: string, ops: seq<Operation>, p: Path)
    requires DraftOps(groups, |groups|, profile, occupied, id, ops)
    ensures (exists op :: op in ops && op.target == p) <==> SomeStemTargets(groups, profile, occupied, p)
  {
    hide LenientStem;
    if op :| op in ops && op.target == p {
      var k: nat :| k < |groups| && FromStem(groups, profile, occupied, id, op, k);
      var o :| o in PlanAt(groups, k, profile, occupied).ops && op == Owned(o, id);
      assert Targeted(PlanAt(groups, k, profile, occupied).ops, p);
    }
    if SomeStemTargets(groups, profile, occupied, p) {
      var j: nat :| j < |groups| && Targeted(PlanAt(groups, j, profile, occupied).ops, p);
      var o :| o in PlanAt(groups, j, profile, occupied).ops && o.target == p;
      assert Owned(o, id) in ops;
    }
  }

  lemma DraftTargets(files: seq<File>, profile: Profile, occupied: set<Path>, id: string, p: Path)
    requires FilesOk(files) && LanesOk(profile) && PlannedOps(files, profile, occupied, id).block.None?
    ensures (exists op :: op in PlannedOps(files, profile, occupied, id).ops && op.target == p)
       <==> SomeStemTargets(StemGroups(files), profile, occupied, p)
  {
    hide LenientStem, FilesOk, LanesOk, StemGroups, PlanStems, GroupsOk, DraftOps, DraftVariants, TargetsDistinct, SomeStemTargets;
    var groups := StemGroups(files);
    GroupsAreOk(files);
    DraftIsSound(groups, |groups|, profile, occupied, id);
    StemsOfOps(groups, profile, occupied, id, PlannedOps(files, profile, occupied, id).ops, p);
  }

  lemma StemsOfRemovals(groups: seq<StemGroup>, profile: Profile, occupied: set<Path>, id: string, variants: seq<Variant>, targets: seq<Path>, r: seq<Operation>, p: Path)
    requires DraftVariants(groups, |groups|, profile, occupied, variants)
    requires RemovalsSound(groups, variants, |groups|, id, targets, r)
    ensures (exists op :: op in r && op.source == p) <==> SomeStemDeletes(groups, profile, occupied, p)
  {
    hide LenientStem, SourcesDistinct;
    if op :| op in r && op.source == p {
      assert RemovalFrom(variants, |variants|, id, targets, op);
      var x: nat :| x < |groups| && Deletes(variants[x], op.source);
      assert DeletesPath(PlanAt(groups, x, profile, occupied).decisions, p);
    }
    if SomeStemDeletes(groups, profile, occupied, p) {
      var j: nat :| j < |groups| && DeletesPath(PlanAt(groups, j, profile, occupied).decisions, p);
      assert Deletes(variants[j], p);
      assert RemoveOp(id, variants[j].stem, p, targets) in r;
    }
  }

  lemma DraftDeletes(files: seq<File>, profile: Profile, occupied: set<Path>, id: string, p: Path)
    requires FilesOk(files) && LanesOk(profile) && PlannedOps(files, profile, occupied, id).block.None?
    ensures (exists op :: op in PlannedRemovals(files, profile, occupied, id) && op.source == p)
       <==> SomeStemDeletes(StemGroups(files), profile, occupied, p)
  {
    hide LenientStem, FilesOk, LanesOk, StemGroups, PlanStems, GroupsOk, DraftOps, DraftVariants, TargetsDistinct, SomeStemDeletes, VariantsSound, RemovalsSound, Removals;
    var groups, d := StemGroups(files), PlannedOps(files, profile, occupied, id);
    VariantsAreSound(files, profile, occupied, id);
    DraftIsSound(groups, |groups|, profile, occupied, id);
    VariantCount(groups, profile, occupied, d.variants);
    RemovalsAreSound(groups, d.variants, |d.variants|, id, d.targets);
    StemsOfRemovals(groups, profile, occupied, id, d.variants, d.targets, PlannedRemovals(files, profile, occupied, id), p);
  }

  lemma VariantCount(groups: seq<StemGroup>, profile: Profile, occupied: set<Path>, variants: seq<Variant>)
    requires DraftVariants(groups, |groups|, profile, occupied, variants)
    ensures |variants| == |groups|
  {
  }

  /** The operations of the component are the encodes and deletions of its stems. */
  lemma OpsOfStems(files: seq<File>, profile: Profile, occupied: set<Path>, id: string, p: Path)
    requires FilesOk(files) && LanesOk(profile) && LenientComponent(id, files, profile, occupied).block.None?
    ensures OpTargeting(LenientComponent(id, files, profile, occupied).operations, p) <==> SomeStemTargets(StemGroups(files), profile, occupied, p)
    ensures OpRemoving(LenientComponent(id, files, profile, occupied).operations, p) <==> SomeStemDeletes(StemGroups(files), profile, occupied, p)
  {
    var ops := LenientComponent(id, files, profile, occupied).operations;
    var d, r := PlannedOps(files, profile, occupied, id), PlannedRemovals(files, profile, occupied, id);
    SortedMembers(files, profile, occupied, id);
    DraftTargets(files, profile, occupied, id, p);
    DraftDeletes(files, profile, occupied, id, p);
    hide LenientComponent, PlannedOps, PlannedRemovals, FilesOk, LanesOk, StemGroups, SomeStemTargets, SomeStemDeletes, AllApart, FrozenFiles;
    KindsOfOps(files, profile, occupied, id);
    if OpTargeting(ops, p) {
      var op :| op in ops && op.kind.EncodeKind? && op.target == p;
      assert op in d.ops;
    }
    if OpRemoving(ops, p) {
      var op :| op in ops && op.kind.RemoveObsoleteKind? && op.source == p;
      assert op in r;
    }
  }

  lemma KindsOfOps(files: seq<File>, profile: Profile, occupied: set<Path>, id: string)
    requires FilesOk(files) && LanesOk(profile) && PlannedOps(files, profile, occupied, id).block.None?
    ensures forall op :: op in PlannedOps(files, profile, occupied, id).ops ==> op.kind.EncodeKind?
    ensures forall op :: op in PlannedRemovals(files, profile, occupied, id) ==> op.kind.RemoveObsoleteKind?
  {
    hide FilesOk, LanesOk, PlannedOps, PlannedRemovals, Declared, PathsOf;
    forall op | op in PlannedOps(files, profile, occupied, id).ops ensures op.kind.EncodeKind? {
      EncodesAreGood(files, profile, occupied, id, op);
    }
    forall op | op in PlannedRemovals(files, profile, occupied, id) ensures op.kind.RemoveObsoleteKind? {
      RemovalsAreGood(files, profile, occupied, id, op);
    }
  }

  // ---------- the plan, seen from the executor ----------

  predicate PlanTargets(plan: Executor.Plan, p: Path) {
    exists i :: 0 <= i < |plan.encodes| && plan.encodes[i].target == p
  }

  /** The executor's plan has the targets and the removals of the operations. */
  lemma PlanOfOps(req: Request, disk: Snapshot, p: Path)
    requires Precheck(req, disk).Good?
    ensures PlanTargets(Precheck(req, disk).value, p) <==> OpTargeting(req.component.operations, p)
    ensures p in Precheck(req, disk).value.removes <==> OpRemoving(req.component.operations, p)
  {
    PrecheckParts(req, disk);
    var ops, id, specs := req.component.operations, req.component.id, SpecsOf(req.profile).value;
    var c := Collect(ops, |ops|, id, specs).value;
    var plan := Precheck(req, disk).value;
    DiskChecked(req, disk, c);
    AllAccepted(ops, |ops|, id, specs);
    CollectAll(ops, |ops|, id, specs);
    hide Precheck, CheckDisk, NoConflicts, DependenciesKnown, PathsInside, Collect, SpecsOf, CheckRequest, CheckOp;
    PlanOfCollected(ops, specs, c, plan, p);
  }

  lemma {:induction false} AllAccepted(ops: seq<Operation>, k: nat, id: string, specs: map<string, Spec>)
    requires k <= |ops| && Collect(ops, k, id, specs).Good?
    ensures forall x :: 0 <= x < k ==> CheckOp(ops[x], id, specs).None?
  {
    hide CheckOp;
    if k > 0 {
      AllAccepted(ops, k - 1, id, specs);
    }
  }

  lemma PlanOfCollected(ops: seq<Operation>, specs: map<string, Spec>, c: Collected, plan: Executor.Plan, p: Path)
    requires CollectedFrom(ops, |ops|, specs, c)
    requires |plan.encodes| == |c.encodes| && plan.removes == RemovalPaths(c.removes)
    requires forall i :: 0 <= i < |c.encodes| ==> plan.encodes[i].target == c.encodes[i].target
    ensures PlanTargets(plan, p) <==> OpTargeting(ops, p)
    ensures p in plan.removes <==> OpRemoving(ops, p)
  {
    if PlanTargets(plan, p) {
      var i :| 0 <= i < |plan.encodes| && plan.encodes[i].target == p;
      assert c.encodes[i] in c.encodes;
      assert EncodeFrom(ops, |ops|, specs, c.encodes[i]);
    }
    if OpTargeting(ops, p) {
      var x :| 0 <= x < |ops| && ops[x].kind.EncodeKind? && ops[x].target == p;
      assert IsTarget(c.encodes, ops[x].target);
      var j :| 0 <= j < |c.encodes| && c.encodes[j].target == p;
      assert plan.encodes[j].target == p;
    }
    if p in plan.removes {
      var i :| 0 <= i < |plan.removes| && plan.removes[i] == p;
      assert c.removes[i] in c.removes;
      assert RemoveFrom(ops, |ops|, c.removes[i]);
    }
    if OpRemoving(ops, p) {
      var x :| 0 <= x < |ops| && ops[x].kind.RemoveObsoleteKind? && ops[x].source == p;
      assert IsRemoved(c.removes, ops[x].source);
      var j :| 0 <= j < |c.removes| && c.removes[j].source == p;
      assert plan.removes[j] == p;
    }
  }

  // ---------- from the run to the rescan ----------

  /** A later scan at the component's own paths: what is on the disk there, with
      unchanged facts except for the committed targets. */
  ghost predicate LaterScan(files: seq<File>, profile: Profile, plan: Executor.Plan, now: map<Path, Content>, after: seq<File>) {
    && (forall p :: p in PathsOf(files) || PlanTargets(plan, p) ==> (p in now <==> p in PathsOf(after)))
    && (forall g :: g in after ==>
          if PlanTargets(plan, g.path) then FreshOutput(g, profile) else g in files)
  }

  /** What a successful run leaves at the component's paths. */
  ghost predicate RunLeft(files: seq<File>, plan: Executor.Plan, now: map<Path, Content>) {
    forall p :: p in PathsOf(files) || PlanTargets(plan, p) ==>
      (p in now <==> PlanTargets(plan, p) || p !in plan.removes)
  }

  lemma SuccessLeaves(files: seq<File>, plan: Executor.Plan, before: map<Path, Content>, run: Executor.Run)
    requires ExecutorOutcome.OneUpdate(plan, before, run)
    requires forall f :: f in files ==> f.path in before && !ExecutorProof.InZone(ExecutorProof.ZoneOf(plan), f.path)
    requires forall i, j :: 0 <= i < |plan.encodes| && 0 <= j < |plan.removes| ==> plan.encodes[i].target != plan.removes[j]
    ensures RunLeft(files, plan, run.w.files)
  {
    hide ExecutorRuns.Victims, ExecutorRuns.Parked, ExecutorProof.ZoneKept, ExecutorProof.InZone, ExecutorProof.ZoneOf;
    forall p | p in PathsOf(files) || PlanTargets(plan, p)
      ensures p in run.w.files <==> PlanTargets(plan, p) || p !in plan.removes
    {
      if PlanTargets(plan, p) {
        var i :| 0 <= i < |plan.encodes| && plan.encodes[i].target == p;
        assert ExecutorOutcome.HoldsOutput(plan, before, run.w.files, i);
      } else if p in plan.removes {
        var j :| 0 <= j < |plan.removes| && plan.removes[j] == p;
      } else {
        NotInTargets(plan, p);
      }
    }
  }

  lemma NotInTargets(plan: Executor.Plan, p: Path)
    requires !PlanTargets(plan, p)
    ensures p !in Executor.Targets(plan.encodes)
  {
  }

  /** The plan at path level is the plan of the stems. */
  ghost predicate PlanMatches(groups: seq<StemGroup>, profile: Profile, occupied: set<Path>, plan: Executor.Plan) {
    && (forall p :: PlanTargets(plan, p) <==> SomeStemTargets(groups, profile, occupied, p))
    && (forall p :: p in plan.removes <==> SomeStemDeletes(groups, profile, occupied, p))
    && (forall k :: 0 <= k < |groups| ==> PlanAt(groups, k, profile, occupied).block.None?)
  }

  /** A path planned by some stem with this stem's name is planned by this stem. */
  lemma OwnTarget(groups: seq<StemGroup>, profile: Profile, occupied: set<Path>, plan: Executor.Plan, j: nat, p: Path)
    requires GroupsOk(groups) && LanesOk(profile) && PlanMatches(groups, profile, occupied, plan)
    requires j < |groups| && StemAt(p) == groups[j].stem && PlanTargets(plan, p)
    ensures Targeted(PlanAt(groups, j, profile, occupied).ops, p)
  {
    hide LenientStem, StemAt, GroupOk;
    assert SomeStemTargets(groups, profile, occupied, p);
    var k: nat :| k < |groups| && Targeted(PlanAt(groups, k, profile, occupied).ops, p);
    assert GroupOk(groups[k]);
    StemOfTarget(groups[k], profile, occupied, p);
    assert k == j;
  }

  lemma StemOfTarget(group: StemGroup, profile: Profile, occupied: set<Path>, p: Path)
    requires GroupOk(group) && LanesOk(profile) && LenientStem(group, profile, occupied).block.None?
    requires Targeted(LenientStem(group, profile, occupied).ops, p)
    ensures StemAt(p) == group.stem && CodecAt(p).Some?
  {
    EveryStemSound(group, profile, occupied);
    hide LenientStem, Allowed, OpsDecided, Observed, DecisionsDistinct;
    var op :| op in LenientStem(group, profile, occupied).ops && op.target == p;
    assert GoodEncode(group, profile, op);
  }

  lemma OwnDelete(groups: seq<StemGroup>, profile: Profile, occupied: set<Path>, plan: Executor.Plan, j: nat, p: Path)
    requires GroupsOk(groups) && LanesOk(profile) && PlanMatches(groups, profile, occupied, plan)
    requires j < |groups| && StemAt(p) == groups[j].stem && p in plan.removes
    ensures DeletesPath(PlanAt(groups, j, profile, occupied).decisions, p)
  {
    hide LenientStem, StemAt, GroupOk;
    assert SomeStemDeletes(groups, profile, occupied, p);
    var k: nat :| k < |groups| && DeletesPath(PlanAt(groups, k, profile, occupied).decisions, p);
    assert GroupOk(groups[k]);
    StemOfDelete(groups[k], profile, occupied, p);
    assert k == j;
  }

  lemma StemOfDelete(group: StemGroup, profile: Profile, occupied: set<Path>, p: Path)
    requires GroupOk(group) && LanesOk(profile) && LenientStem(group, profile, occupied).block.None?
    requires DeletesPath(LenientStem(group, profile, occupied).decisions, p)
    ensures StemAt(p) == group.stem
  {
    EveryStemSound(group, profile, occupied);
    hide LenientStem, Allowed, OpsDecided, DecisionsDistinct, GoodEncode;
    var d :| d in LenientStem(group, profile, occupied).decisions && d.Delete? && d.path == p;
    assert d.path in PathsOf(group.files);
    var f :| f in group.files && f.path == p;
    assert StemOf(f) == group.stem;
  }

  lemma StemRescanned(files: seq<File>, profile: Profile, occupied: set<Path>, plan: Executor.Plan, now: map<Path, Content>, after: seq<File>, j: nat)
    requires FilesOk(files) && LanesOk(profile) && j < |StemGroups(files)|
    requires PlanMatches(StemGroups(files), profile, occupied, plan)
    requires LaterScan(files, profile, plan, now, after) && RunLeft(files, plan, now)
    ensures var group := StemGroups(files)[j];
      Rescanned(group, profile, PlanAt(StemGroups(files), j, profile, occupied), OfStem(after, group.stem))
  {
    hide LenientStem, StemGroups, StemAt, PlanMatches, FreshOutput, LaterScan, RunLeft, PathsOf, PlanTargets, DeletesPath, Targeted, FilesOk, LanesOk, OfStem, StemOf;
    var groups := StemGroups(files);
    var group, p := groups[j], PlanAt(groups, j, profile, occupied);
    GroupsWithin(files, j);
    OfStemMembers(after, group.stem);
    forall f | f in group.files && !DeletesPath(p.decisions, f.path) && !Targeted(p.ops, f.path) ensures f in OfStem(after, group.stem) {
      SurvivorSeen(files, profile, occupied, plan, now, after, j, f);
    }
    forall op | op in p.ops ensures exists g :: g in OfStem(after, group.stem) && g.path == op.target {
      TargetSeen(files, profile, occupied, plan, now, after, j, op);
    }
    forall g | g in OfStem(after, group.stem)
      ensures if Targeted(p.ops, g.path) then FreshOutput(g, profile) else g in group.files && !DeletesPath(p.decisions, g.path)
    {
      SeenExplained(files, profile, occupied, plan, now, after, j, g);
    }
  }

  lemma OfStemMembers(files: seq<File>, stem: string)
    ensures forall f :: f in OfStem(files, stem) <==> f in files && StemOf(f) == stem
  {
  }

  lemma SurvivorSeen(files: seq<File>, profile: Profile, occupied: set<Path>, plan: Executor.Plan, now: map<Path, Content>, after: seq<File>, j: nat, f: File)
    requires FilesOk(files) && LanesOk(profile) && j < |StemGroups(files)| && f in files && StemOf(f) == StemGroups(files)[j].stem
    requires PlanMatches(StemGroups(files), profile, occupied, plan)
    requires LaterScan(files, profile, plan, now, after) && RunLeft(files, plan, now)
    requires !DeletesPath(PlanAt(StemGroups(files), j, profile, occupied).decisions, f.path) && !Targeted(PlanAt(StemGroups(files), j, profile, occupied).ops, f.path)
    ensures f in after
  {
    GroupsAreOk(files);
    hide LenientStem, StemGroups, StemAt, PlanMatches, GroupsOk, FreshOutput, PlanTargets;
    if PlanTargets(plan, f.path) { OwnTarget(StemGroups(files), profile, occupied, plan, j, f.path); }
    if f.path in plan.removes { OwnDelete(StemGroups(files), profile, occupied, plan, j, f.path); }
    assert f.path in PathsOf(files);
    assert f.path in PathsOf(after);
    var g :| g in after && g.path == f.path;
    SamePathSameFile(files, f, g);
  }

  lemma TargetSeen(files: seq<File>, profile: Profile, occupied: set<Path>, plan: Executor.Plan, now: map<Path, Content>, after: seq<File>, j: nat, op: Operation)
    requires FilesOk(files) && LanesOk(profile) && j < |StemGroups(files)|
    requires PlanMatches(StemGroups(files), profile, occupied, plan) && op in PlanAt(StemGroups(files), j, profile, occupied).ops
    requires LaterScan(files, profile, plan, now, after) && RunLeft(files, plan, now)
    ensures exists g :: g in OfStem(after, StemGroups(files)[j].stem) && g.path == op.target
  {
    var groups := StemGroups(files);
    GroupsAreOk(files);
    assert GroupOk(groups[j]);
    assert Targeted(PlanAt(groups, j, profile, occupied).ops, op.target);
    assert SomeStemTargets(groups, profile, occupied, op.target);
    StemOfTarget(groups[j], profile, occupied, op.target);
    hide LenientStem, StemGroups, StemAt, GroupsOk, FreshOutput, PlanTargets, GroupOk, SomeStemTargets;
    assert PlanTargets(plan, op.target);
    assert op.target in PathsOf(after);
    var g :| g in after && g.path == op.target;
    assert g in OfStem(after, groups[j].stem);
  }

  lemma SeenExplained(files: seq<File>, profile: Profile, occupied: set<Path>, plan: Executor.Plan, now: map<Path, Content>, after: seq<File>, j: nat, g: File)
    requires FilesOk(files) && LanesOk(profile) && j < |StemGroups(files)|
    requires PlanMatches(StemGroups(files), profile, occupied, plan)
    requires LaterScan(files, profile, plan, now, after) && RunLeft(files, plan, now)
    requires g in after && StemOf(g) == StemGroups(files)[j].stem
    ensures var p := PlanAt(StemGroups(files), j, profile, occupied);
      if Targeted(p.ops, g.path) then FreshOutput(g, profile)
      else g in StemGroups(files)[j].files && !DeletesPath(p.decisions, g.path)
  {
    var groups := StemGroups(files);
    var p := PlanAt(groups, j, profile, occupied);
    GroupsAreOk(files);
    GroupsWithin(files, j);
    hide LenientStem, StemGroups, StemAt, GroupsOk, FreshOutput, PlanTargets;
    if Targeted(p.ops, g.path) {
      assert SomeStemTargets(groups, profile, occupied, g.path);
    } else {
      if PlanTargets(plan, g.path) { OwnTarget(groups, profile, occupied, plan, j, g.path); }
      assert g in files && g.path in PathsOf(files) && g.path in PathsOf(after);
      assert DeletesPath(p.decisions, g.path) ==> SomeStemDeletes(groups, profile, occupied, g.path);
    }
  }

  lemma AllStemsRescanned(files: seq<File>, profile: Profile, occupied: set<Path>, plan: Executor.Plan, now: map<Path, Content>, after: seq<File>)
    requires FilesOk(files) && LanesOk(profile) && PlanMatches(StemGroups(files), profile, occupied, plan)
    requires LaterScan(files, profile, plan, now, after) && RunLeft(files, plan, now)
    ensures RescannedStems(files, profile, occupied, after)
  {
    var groups := StemGroups(after);
    hide LenientStem, StemAt, PlanMatches, LaterScan, RunLeft, FilesOk, LanesOk, Rescanned;
    forall k | 0 <= k < |groups| ensures RescannedStem(files, profile, occupied, groups[k]) {
      StemHasOrigin(files, profile, occupied, plan, now, after, k);
      var j: nat :| j < |StemGroups(files)| && StemGroups(files)[j].stem == groups[k].stem;
      StemRescanned(files, profile, occupied, plan, now, after, j);
      assert groups[k].files == OfStem(after, groups[k].stem);
    }
  }

  /** Everything seen later is audio: a file of the component or a target. */
  lemma AllSeenAudio(files: seq<File>, profile: Profile, occupied: set<Path>, plan: Executor.Plan, now: map<Path, Content>, after: seq<File>)
    requires FilesOk(files) && LanesOk(profile) && PlanMatches(StemGroups(files), profile, occupied, plan)
    requires LaterScan(files, profile, plan, now, after)
    ensures forall g :: g in after ==> IsAudio(g)
  {
    GroupsAreOk(files);
    hide LenientStem, StemAt, StemGroups, FreshOutput, GroupsOk, PlanTargets, CodecAt;
    forall g | g in after ensures CodecAt(g.path).Some? {
      if PlanTargets(plan, g.path) {
        assert SomeStemTargets(StemGroups(files), profile, occupied, g.path);
        var j: nat :| j < |StemGroups(files)| && Targeted(PlanAt(StemGroups(files), j, profile, occupied).ops, g.path);
        GroupsAre(StemGroups(files), j);
        StemOfTarget(StemGroups(files)[j], profile, occupied, g.path);
      } else {
        assert Named(g.path);
      }
    }
  }

  lemma StemHasOrigin(files: seq<File>, profile: Profile, occupied: set<Path>, plan: Executor.Plan, now: map<Path, Content>, after: seq<File>, k: nat)
    requires FilesOk(files) && LanesOk(profile) && PlanMatches(StemGroups(files), profile, occupied, plan)
    requires LaterScan(files, profile, plan, now, after) && k < |StemGroups(after)|
    ensures exists j: nat :: j < |StemGroups(files)| && StemGroups(files)[j].stem == StemGroups(after)[k].stem
  {
    var stem := StemGroups(after)[k].stem;
    StemHasMember(after, k);
    GroupsAreOk(files);
    hide LenientStem, StemAt, StemGroups, FreshOutput, GroupsOk, PlanTargets;
    var g :| g in after && StemOf(g) == stem;
    if PlanTargets(plan, g.path) {
      assert SomeStemTargets(StemGroups(files), profile, occupied, g.path);
      var j: nat :| j < |StemGroups(files)| && Targeted(PlanAt(StemGroups(files), j, profile, occupied).ops, g.path);
      GroupsAre(StemGroups(files), j);
      StemOfTarget(StemGroups(files)[j], profile, occupied, g.path);
    } else {
      GroupsCover(files, g);
    }
  }

  lemma GroupsAre(groups: seq<StemGroup>, j: nat)
    requires GroupsOk(groups) && j < |groups|
    ensures GroupOk(groups[j])
  {
  }

  lemma MatchAt(files: seq<File>, profile: Profile, occupied: set<Path>, req: Request, disk: Snapshot, p: Path)
    requires PlannedRequest(files, profile, occupied, req, disk) && Precheck(req, disk).Good? && req.component.block.None?
    ensures PlanTargets(Precheck(req, disk).value, p) <==> SomeStemTargets(StemGroups(files), profile, occupied, p)
    ensures p in Precheck(req, disk).value.removes <==> SomeStemDeletes(StemGroups(files), profile, occupied, p)
  {
    hide StemGroups, FreshDisk, SomeStemTargets, SomeStemDeletes, PlanTargets, Precheck, OpTargeting, OpRemoving, FilesOk, LanesOk, LenientComponent, CheckRequest;
    PlanOfOps(req, disk, p);
    OpsOfStems(files, profile, occupied, req.component.id, p);
  }

  lemma UnblockedStems(files: seq<File>, profile: Profile, occupied: set<Path>, req: Request, disk: Snapshot)
    requires PlannedRequest(files, profile, occupied, req, disk) && req.component.block.None?
    ensures forall k :: 0 <= k < |StemGroups(files)| ==> PlanAt(StemGroups(files), k, profile, occupied).block.None?
  {
    hide LenientStem, StemGroups, FreshDisk, FilesOk, LanesOk, CheckRequest;
    var groups := StemGroups(files);
    forall k | 0 <= k < |groups| ensures PlanAt(groups, k, profile, occupied).block.None? {
      NoStemBlocks(groups, |groups|, profile, occupied, req.component.id, k);
    }
  }

  lemma PlanDoesMatch(files: seq<File>, profile: Profile, occupied: set<Path>, req: Request, disk: Snapshot)
    requires PlannedRequest(files, profile, occupied, req, disk) && Precheck(req, disk).Good?
    ensures PlanMatches(StemGroups(files), profile, occupied, Precheck(req, disk).value)
  {
    hide LenientStem, StemGroups, PlannedRequest, ComponentOps, SomeStemTargets, SomeStemDeletes, PlanTargets, Precheck, FrozenFiles;
    UnblockedOps(files, profile, occupied, req, disk);
    UnblockedStems(files, profile, occupied, req, disk);
    forall p
      ensures PlanTargets(Precheck(req, disk).value, p) <==> SomeStemTargets(StemGroups(files), profile, occupied, p)
      ensures p in Precheck(req, disk).value.removes <==> SomeStemDeletes(StemGroups(files), profile, occupied, p)
    {
      MatchAt(files, profile, occupied, req, disk, p);
    }
  }

  /** Nothing the plan touches lies in the recovery zone of a soft run. */
  ghost predicate OutsideZone(files: seq<File>, plan: Executor.Plan) {
    plan.soft ==> forall p: Path :: p in PathsOf(files) || PlanTargets(plan, p) ==> !(Executor.RecoveryZone(plan.root) <= p)
  }

  lemma PlanOutsideZone(files: seq<File>, plan: Executor.Plan)
    requires OutsideZone(files, plan) && forall p :: p in plan.removes ==> p in PathsOf(files)
    ensures OffZone(plan)
  {
    hide PathsOf;
    assert forall i :: 0 <= i < |plan.encodes| ==> PlanTargets(plan, plan.encodes[i].target);
    assert forall j :: 0 <= j < |plan.removes| ==> plan.removes[j] in plan.removes;
  }

  /** A planned component meets everything the executor's theorems ask for. */
  lemma PlannedIsAdmitted(files: seq<File>, profile: Profile, occupied: set<Path>, req: Request, disk: Snapshot, now: map<Path, Content>)
    requires PlannedRequest(files, profile, occupied, req, disk) && Precheck(req, disk).Good?
    requires Mirrors(disk, now) && ParentsAreDirs(disk) && OutsideZone(files, Precheck(req, disk).value)
    ensures ExecutorStaging.Admitted(Precheck(req, disk).value, now)
  {
    hide PlannedRequest, ComponentOps, Precheck, Mirrors, ParentsAreDirs, OutsideZone, FrozenFiles, PathsOf;
    UnblockedOps(files, profile, occupied, req, disk);
    RemovesObserved(files, profile, occupied, req, disk);
    PlanOutsideZone(files, Precheck(req, disk).value);
    GateAdmits(req, disk, now);
  }

  lemma SuccessfulRun(files: seq<File>, profile: Profile, occupied: set<Path>, req: Request, disk: Snapshot, env: Env, w: World)
    requires PlannedRequest(files, profile, occupied, req, disk) && Precheck(req, disk).Good?
    requires Mirrors(disk, w.files) && ParentsAreDirs(disk) && OutsideZone(files, Precheck(req, disk).value)
    requires ExecutorStaging.NamesFree(env, Precheck(req, disk).value, w.files)
    requires Executor.RunComponent(env, Precheck(req, disk).value, w).report.status == Executor.Succeeded
    ensures RunLeft(files, Precheck(req, disk).value, Executor.RunComponent(env, Precheck(req, disk).value, w).w.files)
  {
    hide ComponentOps, Precheck, Mirrors, ParentsAreDirs, OutsideZone, ExecutorStaging.Admitted, ExecutorStaging.NamesFree, Executor.RunComponent,
         ExecutorOutcome.OneUpdate, ExecutorOutcome.Conserved, ExecutorOutcome.TellsTheTruth, LenientComponent, CheckRequest, FreshDisk, ExecutorProof.InZone, FilesOk, LanesOk;
    var plan := Precheck(req, disk).value;
    PlannedIsAdmitted(files, profile, occupied, req, disk, w.files);
    ExecutorOutcome.EveryRunIsGood(env, plan, w);
    OnTheDisk(files, occupied, req.root, disk, w.files, plan);
    SeparatePlan(plan, w.files);
    SuccessLeaves(files, plan, w.files, Executor.RunComponent(env, plan, w));
  }

  lemma ReplanSplit(files: seq<File>, profile: Profile, occupied: set<Path>, id: string, after: seq<File>, later: set<Path>)
    requires FilesOk(files) && LanesOk(profile) && LenientComponent(id, files, profile, occupied).block.None?
    requires RescannedStems(files, profile, occupied, after) && forall g :: g in after ==> IsAudio(g)
    ensures NothingLeft(after, profile, later)
  {
    hide LenientComponent, FilesOk, LanesOk, StemGroups, RescannedStem, NothingLeft, IsAudio;
    assert forall k :: 0 <= k < |StemGroups(after)| ==> RescannedStem([files][0], profile, occupied, StemGroups(after)[k]);
    ReplanComponents([files], [id], profile, occupied, after, later);
  }

  /** Plan an unchanged component, pass the gate, run it to success under any
      schedule of faults that allows it, scan, and plan again: nothing is left to
      do and nothing is blocked, in the files as one component and in each of the
      components they may have fallen apart into. */
  lemma PlanRunReplan(files: seq<File>, profile: Profile, occupied: set<Path>, req: Request, disk: Snapshot,
                      env: Env, w: World, after: seq<File>, later: set<Path>, newId: string)
    requires PlannedRequest(files, profile, occupied, req, disk) && Precheck(req, disk).Good?
    requires Mirrors(disk, w.files) && ParentsAreDirs(disk) && OutsideZone(files, Precheck(req, disk).value)
    requires ExecutorStaging.NamesFree(env, Precheck(req, disk).value, w.files)
    requires var run := Executor.RunComponent(env, Precheck(req, disk).value, w);
      run.report.status == Executor.Succeeded && LaterScan(files, profile, Precheck(req, disk).value, run.w.files, after)
    ensures NothingToPlan(newId, after, profile, later) && NothingLeft(after, profile, later)
  {
    hide ComponentOps, Precheck, Mirrors, ParentsAreDirs, OutsideZone, ExecutorStaging.NamesFree, Executor.RunComponent, LenientComponent,
         CheckRequest, FreshDisk, FilesOk, LanesOk, LaterScan, RunLeft, PlanMatches, RescannedStems, FrozenFiles;
    UnblockedOps(files, profile, occupied, req, disk);
    PlanDoesMatch(files, profile, occupied, req, disk);
    SuccessfulRun(files, profile, occupied, req, disk, env, w);
    AllStemsRescanned(files, profile, occupied, Precheck(req, disk).value, Executor.RunComponent(env, Precheck(req, disk).value, w).w.files, after);
    ReplanIsNoOp(files, profile, occupied, req.component.id, after, later, newId);
    AllSeenAudio(files, profile, occupied, Precheck(req, disk).value, Executor.RunComponent(env, Precheck(req, disk).value, w).w.files, after);
    ReplanSplit(files, profile, occupied, req.component.id, after, later);
  }

  /** With no failing call and no cancellation nothing of this has to be assumed:
      an unblocked plan passes the gate exactly when it removes no `.opus` file
      and no directory is in the way, its run then succeeds given fresh names and
      room for recovery, and planning again after a scan finds nothing to do. */
  lemma CalmRoundtrip(files: seq<File>, profile: Profile, occupied: set<Path>, req: Request, disk: Snapshot,
                      env: Env, w: World, after: seq<File>, later: set<Path>, newId: string)
    requires PlannedRequest(files, profile, occupied, req, disk)
    requires Mirrors(disk, w.files) && ParentsAreDirs(disk) && ExecutorCalm.Calm(env)
    ensures Precheck(req, disk).Good? <==>
      (forall op :: op in req.component.operations ==> !IsOpusRemoval(op)) && AllClear(files, req.component.operations, disk)
    ensures Precheck(req, disk).Good? ==>
      var plan := Precheck(req, disk).value; var run := Executor.RunComponent(env, plan, w);
      (OutsideZone(files, plan) && ExecutorStaging.NamesFree(env, plan, w.files) && ExecutorCalm.Room(plan, w.files) ==>
        && run.report.status == Executor.Succeeded
        && (LaterScan(files, profile, plan, run.w.files, after) ==> NothingToPlan(newId, after, profile, later) && NothingLeft(after, profile, later)))
  {
    hide NothingToPlan, NothingLeft, AllClear, IsOpusRemoval, PlannedRequest, Precheck, Mirrors, ParentsAreDirs, OutsideZone, ExecutorStaging.NamesFree, Executor.RunComponent, LenientComponent, LaterScan,
         ExecutorCalm.Room, ExecutorCalm.Calm, ExecutorStaging.Admitted;
    PlanPassesGate(files, profile, occupied, req, disk);
    if Precheck(req, disk).Bad? { return; }
    var plan := Precheck(req, disk).value;
    var run := Executor.RunComponent(env, plan, w);
    if OutsideZone(files, plan) && ExecutorStaging.NamesFree(env, plan, w.files) && ExecutorCalm.Room(plan, w.files) {
      PlannedIsAdmitted(files, profile, occupied, req, disk, w.files);
      ExecutorCalm.CalmRunSucceeds(env, plan, w);
      if LaterScan(files, profile, plan, run.w.files, after) {
        PlanRunReplan(files, profile, occupied, req, disk, env, w, after, later, newId);
      }
    }
  }

  lemma RemovesObserved(files: seq<File>, profile: Profile, occupied: set<Path>, req: Request, disk: Snapshot)
    requires PlannedRequest(files, profile, occupied, req, disk) && Precheck(req, disk).Good?
    requires ComponentOps(files, profile, occupied, req.component.id, req.component)
    ensures forall p :: p in Precheck(req, disk).value.removes ==> p in PathsOf(files)
  {
    hide LenientComponent, Precheck, FreshDisk, FrozenFiles, AllApart, Declared, Beside, PathsOf;
    forall p | p in Precheck(req, disk).value.removes ensures p in PathsOf(files) {
      PlanOfOps(req, disk, p);
      var op :| op in req.component.operations && op.kind.RemoveObsoleteKind? && op.source == p;
      RemoveOfComponent(files, profile, occupied, req.component.id, req.component, op);
    }
  }

  lemma OnTheDisk(files: seq<File>, occupied: set<Path>, root: Path, disk: Snapshot, now: map<Path, Content>, plan: Executor.Plan)
    requires FreshDisk(files, occupied, root, disk) && Mirrors(disk, now) && OutsideZone(files, plan)
    ensures forall f :: f in files ==> f.path in now && !ExecutorProof.InZone(ExecutorProof.ZoneOf(plan), f.path)
  {
    hide Beside, PlanTargets;
    forall f | f in files ensures f.path in now && !ExecutorProof.InZone(ExecutorProof.ZoneOf(plan), f.path) {
      assert f.path in PathsOf(files);
    }
  }

  lemma SeparatePlan(plan: Executor.Plan, files: map<Path, Content>)
    requires ExecutorStaging.Admitted(plan, files)
    ensures forall i, j :: 0 <= i < |plan.encodes| && 0 <= j < |plan.removes| ==> plan.encodes[i].target != plan.removes[j]
  {
  }
}
