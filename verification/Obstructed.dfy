/** A directory with the name of an output: the planner does not see it, since
    only files are listed, and the gate refuses the plan. */
module Obstructed {
  import opened Prelude
  import opened Text
  import opened Audio
  import opened Disk
  import opened Grouping
  import opened Planner
  import opened PlannerProof
  import opened PlanGate
  import opened PlanPasses
  import opened Gate
  import opened Nameless
  import opened Roundtrip

  function WavOf(root: Path, stem: string): Path { root + [stem + ".wav"] }

  function FlacOf(root: Path, stem: string): Path { root + [stem + ".flac"] }

  function WavFile(root: Path, stem: string): File { File(WavOf(root, stem), 1, 1, 0, None) }

  /** A source and, beside it, a directory where its output would go. */
  function Tree(root: Path, stem: string): Snapshot {
    map[root := Directory, FlacOf(root, stem) := Directory, WavOf(root, stem) := Regular(1, NANOS)]
  }

  function RequestFor(root: Path, stem: string): Request {
    var f := WavFile(root, stem);
    Request(root, [], false, LenientComponent("c", [f], FLAC_ONLY, {f.path}), FLAC_ONLY, true)
  }

  lemma WavFacts(root: Path, stem: string)
    requires stem != ""
    ensures Named(WavOf(root, stem)) && CodecAt(WavOf(root, stem)) == Some(Wav)
    ensures SameStemPath(WavOf(root, stem), ".flac") == FlacOf(root, stem) && Dir(WavOf(root, stem)) == root
    ensures WavOf(root, stem) != FlacOf(root, stem) && root < WavOf(root, stem) && root < FlacOf(root, stem)
  {
    var p, base := WavOf(root, stem), stem + ".wav";
    assert Base(p) == base && Dir(p) == root;
    ExtOfJoin(stem, ".wav");
    ExtOfJoin(stem, ".flac");
    LowerExt(Wav);
    assert Base(FlacOf(root, stem)) == stem + ".flac";
    assert ExtFor(Wav) == ".wav";
  }

  lemma OneStem(f: File)
    ensures StemGroups([f]) == [StemGroup(StemOf(f), [f])]
  {
    assert Stems([f]) == [StemOf(f)] by {
      assert StemOf(f) in Stems([f]);
      assert forall t :: t in Stems([f]) ==> t == StemOf(f);
    }
    assert OfStem([f], StemOf(f)) == [f];
  }

  lemma OneStemPlanned(files: seq<File>, g: StemGroup, profile: Profile, id: string, occupied: set<Path>)
    requires StemGroups(files) == [g] && LenientStem(g, profile, occupied).block.None?
    ensures var o := LenientComponent(id, files, profile, occupied); o.block.None? && o.id == id
  {
    hide StemGroups, LenientStem, Removals, Dedupe, OwnedAll, AppendAllUnique;
    assert PlanStems([g], 0, profile, occupied, id).block.None?;
    assert [g][0] == g;
    assert PlanStems([g], 1, profile, occupied, id).block.None?;
  }

  lemma OneStemTargets(g: StemGroup, profile: Profile, occupied: set<Path>, p: Path)
    requires Targeted(LenientStem(g, profile, occupied).ops, p)
    ensures SomeStemTargets([g], profile, occupied, p)
  {
    hide Targeted, LenientStem;
    assert [g][0] == g;
    assert Targeted(PlanAt([g], 0, profile, occupied).ops, p);
  }

  /** The component of one WAV file is planned and its target is the FLAC path. */
  lemma OnePlanned(f: File, id: string, occupied: set<Path>)
    requires Named(f.path) && CodecOf(f) == Some(Wav)
    ensures var o := LenientComponent(id, [f], FLAC_ONLY, occupied);
      o.block.None? && o.id == id && OpTargeting(o.operations, SameStemPath(f.path, ".flac"))
  {
    hide StemOf, StemGroups, LenientStem, LenientComponent, SameStemPath, CodecOf, Named, SomeStemTargets, OpTargeting, Targeted, LanesOk, FilesOk;
    var g := StemGroup(StemOf(f), [f]);
    OneStem(f);
    WavAlone(f, StemOf(f), occupied);
    OneStemPlanned([f], g, FLAC_ONLY, id, occupied);
    OneStemTargets(g, FLAC_ONLY, occupied, SameStemPath(f.path, ".flac"));
    OneFileOk(f);
    OpsOfStems([f], FLAC_ONLY, occupied, id, SameStemPath(f.path, ".flac"));
  }

  lemma NoOpus(files: seq<File>, profile: Profile, occupied: set<Path>, id: string, o: Outcome, op: Operation)
    requires ComponentOps(files, profile, occupied, id, o) && op in o.operations
    requires forall p :: p in PathsOf(files) ==> CodecAt(p) == Some(Wav)
    ensures !IsOpusRemoval(op)
  {
    hide Beside, Declared, PathsOf, AllApart;
  }

  lemma IsFresh(root: Path, stem: string)
    requires root != [] && stem != ""
    ensures var f := WavFile(root, stem); FreshDisk([f], {f.path}, root, Tree(root, stem))
  {
    WavFacts(root, stem);
    hide CodecAt, SameStemPath, StemAt, Named, FlacOf, WavOf;
    var f := WavFile(root, stem);
    assert f in [f];
  }

  lemma OneFileOk(f: File)
    requires Named(f.path)
    ensures FilesOk([f]) && LanesOk(FLAC_ONLY)
  {
  }

  lemma IsPlanned(root: Path, stem: string)
    requires root != [] && stem != ""
    ensures var f := WavFile(root, stem); PlannedRequest([f], FLAC_ONLY, {f.path}, RequestFor(root, stem), Tree(root, stem))
  {
    hide CodecAt, LenientComponent, SameStemPath, StemAt, FreshDisk, FilesOk, LanesOk, Named, FlacOf, WavOf;
    var f := WavFile(root, stem);
    WavFacts(root, stem);
    IsFresh(root, stem);
    OneFileOk(f);
    assert |root| < |f.path|;
    assert |root| < |FlacOf(root, stem)|;
    OnePlanned(f, "c", {f.path});
  }

  /** The plan is unblocked and removes no `.opus` file, the disk is what it was
      made from, and the gate refuses it. */
  lemma DirectoryInTheWay(root: Path, stem: string)
    requires root != [] && stem != ""
    ensures var f, req, disk := WavFile(root, stem), RequestFor(root, stem), Tree(root, stem);
      && PlannedRequest([f], FLAC_ONLY, {f.path}, req, disk)
      && req.component.block.None? && (forall op :: op in req.component.operations ==> !IsOpusRemoval(op))
      && Precheck(req, disk) == Bad(TargetConflict)
  {
    hide PlannedRequest, LenientComponent, SameStemPath, IsOpusRemoval, Precheck, CodecAt, Named, ComponentOps, FlacOf, WavOf;
    var f, req, disk := WavFile(root, stem), RequestFor(root, stem), Tree(root, stem);
    WavFacts(root, stem);
    OnePlanned(f, "c", {f.path});
    IsPlanned(root, stem);
    UnblockedOps([f], FLAC_ONLY, {f.path}, req, disk);
    forall op | op in req.component.operations ensures !IsOpusRemoval(op) {
      NoOpus([f], FLAC_ONLY, {f.path}, req.component.id, req.component, op);
    }
    var op :| op in req.component.operations && op.kind.EncodeKind? && op.target == FlacOf(root, stem);
    assert !Clear([f], disk, op.target);
    PlanPassesGate([f], FLAC_ONLY, {f.path}, req, disk);
  }
}
