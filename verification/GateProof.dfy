/** What passing the gate establishes: everything the executor relies on. */
module GateProof {
  import opened Disk
  import opened Planner
  import opened Gate
  import Executor
  import ExecutorProof
  import ExecutorStaging

  // ---------- whatever the gate lets through ----------

  /** The snapshot and the executor's disk describe the same tree. */
  ghost predicate Mirrors(disk: Snapshot, files: map<Path, Content>) {
    forall p: Path :: (p in disk <==> p in files)
      && (p in disk ==> (disk[p].Directory? <==> files[p].Folder?))
  }

  ghost predicate ParentsAreDirs(disk: Snapshot) {
    forall p: Path, k: nat :: p in disk && 0 < k < |p| ==> p[..k] in disk && disk[p[..k]].Directory?
  }

  lemma {:induction false} EncodesChecked(frozen: map<Path, Tuple>, variants: seq<Variant>, disk: Snapshot, encodes: seq<Executor.Encode>, k: nat)
    requires k <= |encodes| && CheckEncodes(frozen, variants, disk, encodes, k).Good?
    ensures var r := CheckEncodes(frozen, variants, disk, encodes, k).value;
      && |r| == k
      && forall i :: 0 <= i < k ==>
           && CheckEncode(frozen, variants, disk, encodes[i]).Good?
           && r[i] == encodes[i].(replace := CheckEncode(frozen, variants, disk, encodes[i]).value)
  {
    if k > 0 {
      EncodesChecked(frozen, variants, disk, encodes, k - 1);
    }
  }

  lemma {:induction false} RemovesChecked(frozen: map<Path, Tuple>, disk: Snapshot, removes: seq<Removal>, k: nat)
    requires k <= |removes| && CheckRemoves(frozen, disk, removes, k).None?
    ensures forall i :: 0 <= i < k ==> CheckFrozen(frozen, disk, removes[i].source).None?
  {
    if k > 0 {
      RemovesChecked(frozen, disk, removes, k - 1);
    }
  }

  /** What passed the disk checks: sources and removed files are regular files,
      and a target exists exactly when it is replaced. */
  lemma DiskChecked(req: Request, disk: Snapshot, c: Collected)
    requires CheckDisk(req, disk, c).Good?
    ensures var plan := CheckDisk(req, disk, c).value;
      && |plan.encodes| == |c.encodes| && plan.removes == RemovalPaths(c.removes)
      && plan.root == RecoveryRootOf(req) && plan.soft == req.soft
      && (forall i :: 0 <= i < |c.encodes| ==>
            && plan.encodes[i] == c.encodes[i].(replace := plan.encodes[i].replace)
            && c.encodes[i].source in disk && disk[c.encodes[i].source].Regular?
            && (if plan.encodes[i].replace then c.encodes[i].target in disk && disk[c.encodes[i].target].Regular?
                else c.encodes[i].target !in disk && c.encodes[i].target != []))
      && (forall j :: 0 <= j < |c.removes| ==> c.removes[j].source in disk && disk[c.removes[j].source].Regular?)
  {
    var frozen := Frozen(req.component.files);
    EncodesChecked(frozen, req.component.variants, disk, c.encodes, |c.encodes|);
    RemovesChecked(frozen, disk, c.removes, |c.removes|);
    hide CheckEncodes, CheckRemoves, Frozen;
  }

  /** The parts of a successful precheck. */
  lemma PrecheckParts(req: Request, disk: Snapshot)
    requires Precheck(req, disk).Good?
    ensures CheckRequest(req, disk).None? && SpecsOf(req.profile).Good?
    ensures var r := Collect(req.component.operations, |req.component.operations|, req.component.id, SpecsOf(req.profile).value);
      && r.Good? && NoConflicts(r.value) && DependenciesKnown(r.value) && PathsInside(r.value, req.root)
      && CheckDisk(req, disk, r.value) == Precheck(req, disk)
  {
    hide Collect, SpecsOf, NoConflicts, DependenciesKnown, PathsInside, CheckDisk, CheckRequest;
  }

  /** No output or obsolete file lies under the recovery directory of a soft run. */
  ghost predicate OffZone(plan: Executor.Plan) {
    plan.soft ==>
      && (forall i :: 0 <= i < |plan.encodes| ==> !(Executor.RecoveryZone(plan.root) <= plan.encodes[i].target))
      && (forall j :: 0 <= j < |plan.removes| ==> !(Executor.RecoveryZone(plan.root) <= plan.removes[j]))
  }

  /** A plan the gate lets through meets all the executor relies on exactly when
      nothing of it lies under the recovery directory, which the gate does not
      check. */
  lemma GateAdmits(req: Request, disk: Snapshot, files: map<Path, Content>)
    requires Precheck(req, disk).Good? && Mirrors(disk, files) && ParentsAreDirs(disk)
    ensures ExecutorStaging.Admitted(Precheck(req, disk).value, files) <==> OffZone(Precheck(req, disk).value)
  {
    PrecheckParts(req, disk);
    var plan := Precheck(req, disk).value;
    var c := Collect(req.component.operations, |req.component.operations|, req.component.id, SpecsOf(req.profile).value).value;
    DiskChecked(req, disk, c);
    RootDirs(req, disk, files);
    hide Collect, SpecsOf, Precheck, CheckDisk, DependenciesKnown, PathsInside, ParentsAreDirs, CheckRequest, ExecutorProof.RootThere;
    AdmittedParts(plan, c, disk, files);
  }

  lemma RootDirs(req: Request, disk: Snapshot, files: map<Path, Content>)
    requires CheckRequest(req, disk).None? && Mirrors(disk, files) && ParentsAreDirs(disk)
    ensures ExecutorProof.RootThere(RecoveryRootOf(req), files)
  {
    var root := RecoveryRootOf(req);
    assert root in disk && disk[root].Directory?;
    forall k: nat | 0 < k <= |root| ensures IsFolder(files, root[..k]) {
      assert root[..|root|] == root;
      assert root[..k] in disk && disk[root[..k]].Directory?;
    }
  }

  lemma AdmittedParts(plan: Executor.Plan, c: Collected, disk: Snapshot, files: map<Path, Content>)
    requires Mirrors(disk, files) && NoConflicts(c)
    requires |plan.encodes| == |c.encodes| && plan.removes == RemovalPaths(c.removes)
    requires forall i :: 0 <= i < |c.encodes| ==>
      && plan.encodes[i] == c.encodes[i].(replace := plan.encodes[i].replace)
      && c.encodes[i].source in disk && disk[c.encodes[i].source].Regular?
      && (if plan.encodes[i].replace then c.encodes[i].target in disk && disk[c.encodes[i].target].Regular?
          else c.encodes[i].target !in disk && c.encodes[i].target != [])
    requires forall j :: 0 <= j < |c.removes| ==> c.removes[j].source in disk && disk[c.removes[j].source].Regular?
    requires plan.soft ==> ExecutorProof.RootThere(plan.root, files)
    requires forall i :: 0 <= i < |c.encodes| ==> c.encodes[i].target != []
    ensures ExecutorStaging.Admitted(plan, files) <==> OffZone(plan)
  {
    hide ExecutorProof.RootThere;
  }
}
