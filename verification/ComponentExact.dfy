/** The plan of a component, said about the plans of its stems, and what it takes
    for a file to meet an encoded target. */
module ComponentExact {
  import opened Prelude
  import opened Text
  import opened Ordering
  import opened Audio
  import opened Disk
  import opened Grouping
  import opened Planner
  import opened PlannerProof
  import opened PlanGate
  import opened PlanPasses

  // ---------- meeting an encoded target ----------

  /** MP3 is judged by its measured rate alone, to within one kilobit; Opus by the
      same floor, or by the record that this very file was written for this target. */
  lemma MeetsTarget(f: File, kbps: int)
    requires kbps > 0
    ensures SatisfiedEncoded(f, Spec(Mp3, Some(kbps))) <==> CodecOf(f) == Some(Mp3) && f.bitrate >= 1000 * kbps - 1000
    ensures SatisfiedEncoded(f, Spec(Opus, Some(kbps))) <==>
      CodecOf(f) == Some(Opus) && (f.bitrate >= 1000 * kbps - 1000 || f.generated == Some(Credential(Opus, kbps, true, f.size, f.mtime)))
  {
    hide CodecOf;
  }

  /** AAC by a band that is wider where the encoder saturates, or by that record. */
  lemma MeetsAacTarget(f: File, kbps: int)
    requires kbps > 0
    ensures SatisfiedEncoded(f, Spec(Aac, Some(kbps))) <==>
      CodecOf(f) == Some(Aac)
      && ((if kbps <= 192 then 950 * kbps else 600 * kbps) <= f.bitrate <= 1100 * kbps
          || f.generated == Some(Credential(Aac, kbps, false, f.size, f.mtime)))
  {
    hide CodecOf;
    Percent(kbps, 95);
    Percent(kbps, 60);
    Percent(kbps, 110);
  }

  lemma Percent(kbps: int, part: int)
    ensures kbps * 1000 * part / 100 == 10 * part * kbps
  {
    assert kbps * 1000 * part == 100 * (10 * part * kbps);
  }

  /** An output beside a file has its directory and the display form of its stem,
      and the extension its codec is written with. */
  lemma OutputNames(dir: Path, stem: string, ext: string)
    requires IsExt(ext)
    ensures var p := dir + [stem + ext];
      && SameStemPath(p, ExtFor(Wav)) == dir + [stem + ".wav"] && SameStemPath(p, ExtFor(Flac)) == dir + [stem + ".flac"]
      && SameStemPath(p, ExtFor(Mp3)) == dir + [stem + ".mp3"] && SameStemPath(p, ExtFor(Aac)) == dir + [stem + ".m4a"]
      && SameStemPath(p, ExtFor(Opus)) == dir + [stem + ".opus"]
  {
    var p := dir + [stem + ext];
    assert Base(p) == stem + ext && Dir(p) == dir;
    ExtOfJoin(stem, ext);
  }

  // ---------- blocked components ----------

  predicate Blocks(groups: seq<StemGroup>, k: nat, profile: Profile, occupied: set<Path>)
    requires k < |groups|
  {
    LenientStem(groups[k], profile, occupied).block.Some?
  }

  /** The first of the first `n` stems that blocks. */
  predicate FirstBlock(groups: seq<StemGroup>, n: nat, k: nat, profile: Profile, occupied: set<Path>)
    requires n <= |groups|
  {
    k < n && Blocks(groups, k, profile, occupied) && forall j: nat :: j < k ==> !Blocks(groups, j, profile, occupied)
  }

  lemma {:induction false} StemsBlock(groups: seq<StemGroup>, n: nat, profile: Profile, occupied: set<Path>, id: string)
    requires n <= |groups|
    ensures var d := PlanStems(groups, n, profile, occupied, id);
      (d.block.None? <==> forall k: nat :: k < n ==> !Blocks(groups, k, profile, occupied)) && (d.block.None? ==> |d.variants| == n)
  {
    hide LenientStem;
    if n > 0 {
      StemsBlock(groups, n - 1, profile, occupied, id);
      assert Blocks(groups, n - 1, profile, occupied) <==> LenientStem(groups[n - 1], profile, occupied).block.Some?;
    }
  }

  lemma {:induction false} FirstBlockStays(groups: seq<StemGroup>, n: nat, k: nat, profile: Profile, occupied: set<Path>, id: string)
    requires n <= |groups| && FirstBlock(groups, n, k, profile, occupied)
    ensures var d := PlanStems(groups, n, profile, occupied, id);
      && d.block == LenientStem(groups[k], profile, occupied).block && |d.variants| == k + 1
      && d.variants[k] == Variant(groups[k].stem, LenientStem(groups[k], profile, occupied).decisions)
  {
    hide LenientStem;
    if k < n - 1 {
      FirstBlockStays(groups, n - 1, k, profile, occupied, id);
    } else {
      StemsBlock(groups, k, profile, occupied, id);
    }
  }

  /** A component is blocked exactly when one of its stems is; it then gives the
      reason of the first, shows its decisions last, and does nothing at all. */
  lemma BlockedComponent(files: seq<File>, profile: Profile, occupied: set<Path>, id: string, k: nat)
    requires k < |StemGroups(files)|
    ensures var o := LenientComponent(id, files, profile, occupied); var groups := StemGroups(files);
      && (o.block.None? <==> forall j: nat :: j < |groups| ==> LenientStem(groups[j], profile, occupied).block.None?)
      && (o.block.Some? ==> o.operations == [] && o.projected == [])
      && (FirstBlock(groups, |groups|, k, profile, occupied) ==>
            && o.block == LenientStem(groups[k], profile, occupied).block && |o.variants| == k + 1
            && o.variants[k] == Variant(groups[k].stem, LenientStem(groups[k], profile, occupied).decisions))
  {
    var groups := StemGroups(files);
    hide StemGroups, LenientStem, SortBy;
    StemsBlock(groups, |groups|, profile, occupied, id);
    if FirstBlock(groups, |groups|, k, profile, occupied) { FirstBlockStays(groups, |groups|, k, profile, occupied, id); }
    forall j: nat | j < |groups| ensures Blocks(groups, j, profile, occupied) <==> LenientStem(groups[j], profile, occupied).block.Some? {}
  }

  // ---------- the operations of a component ----------

  /** Some stem plans this encode, and the operation is it under the component's name. */
  ghost predicate StemEncodes(groups: seq<StemGroup>, profile: Profile, occupied: set<Path>, id: string, op: Operation) {
    exists k :: 0 <= k < |groups| && EncodesAt(groups[k], profile, occupied, id, op)
  }

  ghost predicate EncodesAt(group: StemGroup, profile: Profile, occupied: set<Path>, id: string, op: Operation) {
    exists o :: o in LenientStem(group, profile, occupied).ops
      && op == Operation(o.kind, o.phase, id, o.stem, o.source, o.target, o.dependsOn)
  }

  /** Some stem deletes this file, and the operation removes it after all targets. */
  ghost predicate StemRemoves(groups: seq<StemGroup>, profile: Profile, occupied: set<Path>, id: string, op: Operation) {
    exists k :: 0 <= k < |groups| && RemovesAt(groups[k], profile, occupied, id, op)
  }

  ghost predicate RemovesAt(group: StemGroup, profile: Profile, occupied: set<Path>, id: string, op: Operation) {
    exists d :: d in LenientStem(group, profile, occupied).decisions && d.Delete?
      && op == Operation(RemoveObsoleteKind, RemoveObsoleteAudio, id, group.stem, d.path, [], op.dependsOn)
  }

  lemma StemOpsAre(groups: seq<StemGroup>, profile: Profile, occupied: set<Path>, id: string, op: Operation, k: nat)
    requires k < |groups|
    ensures FromStem(groups, profile, occupied, id, op, k) <==> EncodesAt(groups[k], profile, occupied, id, op)
  {
    hide LenientStem;
    if EncodesAt(groups[k], profile, occupied, id, op) {
      var o :| o in LenientStem(groups[k], profile, occupied).ops && op == Operation(o.kind, o.phase, id, o.stem, o.source, o.target, o.dependsOn);
      assert op == Owned(o, id);
    }
  }

  /** What is known of the draft of an unblocked component. */
  lemma DraftOf(files: seq<File>, profile: Profile, occupied: set<Path>, id: string)
    requires FilesOk(files) && LanesOk(profile) && PlannedOps(files, profile, occupied, id).block.None?
    ensures var d, groups := PlannedOps(files, profile, occupied, id), StemGroups(files);
      && d.targets == OpTargets(d.ops) && TargetsDistinct(d.ops) && DraftOps(groups, |groups|, profile, occupied, id, d.ops)
      && |d.variants| == |groups|
      && forall k :: 0 <= k < |groups| ==> d.variants[k] == Variant(groups[k].stem, LenientStem(groups[k], profile, occupied).decisions)
  {
    hide StemGroups, LenientStem, GroupsOk, FilesOk, LanesOk, TargetsDistinct, DraftOps, PlanStems;
    GroupsAreOk(files);
    DraftIsSound(StemGroups(files), |StemGroups(files)|, profile, occupied, id);
  }

  lemma DraftEncodes(files: seq<File>, profile: Profile, occupied: set<Path>, id: string, op: Operation)
    requires FilesOk(files) && LanesOk(profile) && PlannedOps(files, profile, occupied, id).block.None?
    ensures op in PlannedOps(files, profile, occupied, id).ops <==> StemEncodes(StemGroups(files), profile, occupied, id, op)
  {
    hide StemGroups, LenientStem, PlannedOps, GroupsOk, FilesOk, LanesOk, TargetsDistinct, FromStem, EncodesAt;
    var groups := StemGroups(files);
    var ops := PlannedOps(files, profile, occupied, id).ops;
    DraftOf(files, profile, occupied, id);
    if op in ops {
      var k: nat :| k < |groups| && FromStem(groups, profile, occupied, id, op, k);
      StemOpsAre(groups, profile, occupied, id, op, k);
    }
    if StemEncodes(groups, profile, occupied, id, op) {
      var k: nat :| k < |groups| && EncodesAt(groups[k], profile, occupied, id, op);
      StemOpsAre(groups, profile, occupied, id, op, k);
      FromStemIn(groups, profile, occupied, id, op, k, ops);
    }
  }

  lemma FromStemIn(groups: seq<StemGroup>, profile: Profile, occupied: set<Path>, id: string, op: Operation, k: nat, ops: seq<Operation>)
    requires k < |groups| && FromStem(groups, profile, occupied, id, op, k) && DraftOps(groups, |groups|, profile, occupied, id, ops)
    ensures op in ops
  {
    hide LenientStem;
  }

  lemma RemovesAtIs(group: StemGroup, v: Variant, profile: Profile, occupied: set<Path>, id: string, op: Operation)
    requires v == Variant(group.stem, LenientStem(group, profile, occupied).decisions)
    ensures RemovesAt(group, profile, occupied, id, op) <==> op == RemoveOp(id, v.stem, op.source, op.dependsOn) && Deletes(v, op.source)
  {
    hide LenientStem;
  }

  lemma RemovalsAre(files: seq<File>, profile: Profile, occupied: set<Path>, id: string, op: Operation)
    requires FilesOk(files) && LanesOk(profile) && PlannedOps(files, profile, occupied, id).block.None?
    ensures var d := PlannedOps(files, profile, occupied, id); var removals := PlannedRemovals(files, profile, occupied, id);
      && (op in removals ==> RemovalFrom(d.variants, |d.variants|, id, d.targets, op))
      && (forall x :: 0 <= x < |d.variants| && Deletes(d.variants[x], op.source) && op == RemoveOp(id, d.variants[x].stem, op.source, d.targets) ==> op in removals)
  {
    hide StemGroups, LenientStem, PlanStems, GroupsOk, FilesOk, LanesOk, VariantsSound, Deletes, Removals, SourcesDistinct, RemovalFrom;
    var d := PlannedOps(files, profile, occupied, id);
    DraftOf(files, profile, occupied, id);
    VariantsAreSound(files, profile, occupied, id);
    RemovalsAreSound(StemGroups(files), d.variants, |d.variants|, id, d.targets);
  }

  lemma DraftRemoves(files: seq<File>, profile: Profile, occupied: set<Path>, id: string, op: Operation)
    requires FilesOk(files) && LanesOk(profile) && PlannedOps(files, profile, occupied, id).block.None?
    ensures op in PlannedRemovals(files, profile, occupied, id) <==>
      StemRemoves(StemGroups(files), profile, occupied, id, op) && op.dependsOn == PlannedOps(files, profile, occupied, id).targets
  {
    hide StemGroups, LenientStem, PlannedOps, PlannedRemovals, FilesOk, LanesOk, Deletes, RemovesAt, TargetsDistinct, DraftOps, OpTargets;
    var groups := StemGroups(files);
    var d := PlannedOps(files, profile, occupied, id);
    DraftOf(files, profile, occupied, id);
    RemovalsAre(files, profile, occupied, id, op);
    if op in PlannedRemovals(files, profile, occupied, id) {
      var x: nat :| x < |groups| && op == RemoveOp(id, d.variants[x].stem, op.source, d.targets) && Deletes(d.variants[x], op.source);
      RemovesAtIs(groups[x], d.variants[x], profile, occupied, id, op);
    }
    if StemRemoves(groups, profile, occupied, id, op) && op.dependsOn == d.targets {
      var x: nat :| x < |groups| && RemovesAt(groups[x], profile, occupied, id, op);
      RemovesAtIs(groups[x], d.variants[x], profile, occupied, id, op);
    }
  }

  /** The targets some operations depend on are exactly those of the encodes. */
  ghost predicate AllTargets(dependsOn: seq<Path>, operations: seq<Operation>) {
    && Distinct(dependsOn)
    && forall p :: p in dependsOn <==> exists e :: e in operations && e.kind.EncodeKind? && e.target == p
  }

  /** The operations of an unblocked component: the encodes of its stems and the
      removal of what they delete, nothing else, under the component's name, and
      every removal waits for every target. */
  lemma ComponentOperations(files: seq<File>, profile: Profile, occupied: set<Path>, id: string, op: Operation)
    requires FilesOk(files) && LanesOk(profile) && LenientComponent(id, files, profile, occupied).block.None?
    ensures var o := LenientComponent(id, files, profile, occupied); var groups := StemGroups(files);
      && (op.kind.EncodeKind? ==> (op in o.operations <==> StemEncodes(groups, profile, occupied, id, op)))
      && (!op.kind.EncodeKind? ==>
            (op in o.operations <==> StemRemoves(groups, profile, occupied, id, op) && op.dependsOn == PlannedOps(files, profile, occupied, id).targets))
      && AllTargets(PlannedOps(files, profile, occupied, id).targets, o.operations)
  {
    var o := LenientComponent(id, files, profile, occupied);
    var d := PlannedOps(files, profile, occupied, id);
    var removals := PlannedRemovals(files, profile, occupied, id);
    SortMembers(OpBefore, d.ops + removals);
    assert forall x :: x in o.operations <==> x in d.ops || x in removals;
    DraftOf(files, profile, occupied, id);
    hide StemGroups, LenientComponent, PlannedOps, PlannedRemovals, LanesOk, FilesOk, SortBy, DraftOps, PlanStems, GroupsOk, StemEncodes, StemRemoves, LenientStem;
    DraftEncodes(files, profile, occupied, id, op);
    DraftRemoves(files, profile, occupied, id, op);
    forall e | e in d.ops ensures e.kind.EncodeKind? { EncodesAreGood(files, profile, occupied, id, e); }
    forall e | e in removals ensures e.kind.RemoveObsoleteKind? { RemovalsAreGood(files, profile, occupied, id, e); }
    StemRemovesKind(StemGroups(files), profile, occupied, id, op);
    TargetsOf(d.ops, d.targets, o.operations, removals);
  }

  lemma StemRemovesKind(groups: seq<StemGroup>, profile: Profile, occupied: set<Path>, id: string, op: Operation)
    ensures StemRemoves(groups, profile, occupied, id, op) ==> op.kind.RemoveObsoleteKind?
  {
    hide LenientStem;
  }

  lemma TargetsOf(ops: seq<Operation>, targets: seq<Path>, operations: seq<Operation>, removals: seq<Operation>)
    requires targets == OpTargets(ops) && TargetsDistinct(ops)
    requires forall x :: x in operations <==> x in ops || x in removals
    requires (forall x :: x in ops ==> x.kind.EncodeKind?) && (forall x :: x in removals ==> x.kind.RemoveObsoleteKind?)
    ensures AllTargets(targets, operations)
  {
    forall p | p in targets ensures exists e :: e in operations && e.kind.EncodeKind? && e.target == p {
      var i :| 0 <= i < |targets| && targets[i] == p;
      assert ops[i] in operations && ops[i].target == p;
    }
    forall e | e in operations && e.kind.EncodeKind? ensures e.target in targets {
      var i :| 0 <= i < |ops| && ops[i] == e;
      assert targets[i] == e.target;
    }
  }

  // ---------- order, projection, observed files ----------

  predicate Apart(ops: seq<Operation>) {
    forall a, b :: a in ops && b in ops && a.phase == b.phase && Posix(a.source) == Posix(b.source) && Posix(a.target) == Posix(b.target) ==> a == b
  }

  /** Every encode comes before every removal. */
  lemma EncodesComeFirst(files: seq<File>, profile: Profile, occupied: set<Path>, id: string, i: nat, j: nat)
    requires FilesOk(files) && LanesOk(profile) && LenientComponent(id, files, profile, occupied).block.None?
    requires var ops := LenientComponent(id, files, profile, occupied).operations;
      i < |ops| && j < |ops| && ops[i].kind.EncodeKind? && ops[j].kind.RemoveObsoleteKind?
    ensures i < j
  {
    var ops := LenientComponent(id, files, profile, occupied).operations;
    PhaseOfKind(files, profile, occupied, id, ops[i]);
    PhaseOfKind(files, profile, occupied, id, ops[j]);
    hide LenientComponent, LanesOk, FilesOk, SortBy, OpBefore, PlannedOps, PlannedRemovals;
    PhasesSort(PlannedOps(files, profile, occupied, id).ops + PlannedRemovals(files, profile, occupied, id), i, j);
  }

  lemma PhaseOfKind(files: seq<File>, profile: Profile, occupied: set<Path>, id: string, op: Operation)
    requires FilesOk(files) && LanesOk(profile) && LenientComponent(id, files, profile, occupied).block.None?
    requires op in LenientComponent(id, files, profile, occupied).operations
    ensures if op.kind.EncodeKind? then op.phase.MaterializeOutputs? else op.kind.RemoveObsoleteKind? && op.phase.RemoveObsoleteAudio?
    ensures LenientComponent(id, files, profile, occupied).operations
         == SortBy(OpBefore, PlannedOps(files, profile, occupied, id).ops + PlannedRemovals(files, profile, occupied, id))
  {
    var d, removals := PlannedOps(files, profile, occupied, id), PlannedRemovals(files, profile, occupied, id);
    SortMembers(OpBefore, d.ops + removals);
    hide StemGroups, PlanStems, Removals, LanesOk, FilesOk, SortBy, OpBefore, GoodComponentEncode;
    if op in d.ops {
      EncodeHasPhase(files, profile, occupied, id, op);
    } else {
      RemovalsAreGood(files, profile, occupied, id, op);
    }
  }

  lemma EncodeHasPhase(files: seq<File>, profile: Profile, occupied: set<Path>, id: string, op: Operation)
    requires FilesOk(files) && LanesOk(profile) && PlannedOps(files, profile, occupied, id).block.None?
    requires op in PlannedOps(files, profile, occupied, id).ops
    ensures op.kind.EncodeKind? && op.phase.MaterializeOutputs?
  {
    hide PlannedOps;
    EncodesAreGood(files, profile, occupied, id, op);
  }

  predicate Ranked(ops: seq<Operation>) {
    forall i, j :: 0 <= i < j < |ops| ==> PhaseRank(ops[i].phase) <= PhaseRank(ops[j].phase)
  }

  lemma PhasesSort(all: seq<Operation>, i: nat, j: nat)
    requires i < |SortBy(OpBefore, all)| && j < |SortBy(OpBefore, all)|
    requires SortBy(OpBefore, all)[i].phase.MaterializeOutputs? && SortBy(OpBefore, all)[j].phase.RemoveObsoleteAudio?
    ensures i < j
  {
    SortRanks(all);
  }

  lemma {:induction false} InsertRanks(x: Operation, ops: seq<Operation>)
    requires Ranked(ops)
    ensures Ranked(InsertBy(OpBefore, x, ops))
  {
    hide StringLess, Posix;
    if ops != [] && OpBefore(ops[0], x) {
      InsertRanks(x, ops[1..]);
      var rest := InsertBy(OpBefore, x, ops[1..]);
      forall y | y in rest ensures PhaseRank(ops[0].phase) <= PhaseRank(y.phase) {
        assert y in multiset(rest);
        assert y == x || y in ops[1..];
      }
    }
  }

  lemma {:induction false} SortRanks(all: seq<Operation>)
    ensures Ranked(SortBy(OpBefore, all))
  {
    hide OpBefore;
    if all != [] {
      SortRanks(all[1..]);
      InsertRanks(all[0], SortBy(OpBefore, all[1..]));
    }
  }

  lemma {:induction false} FinalPathsAre(variants: seq<Variant>, p: Path)
    ensures p in FinalPaths(variants) <==> exists k :: 0 <= k < |variants| && Stays(variants[k].decisions, p)
  {
    if variants != [] {
      var init, last := variants[..|variants| - 1], variants[|variants| - 1];
      FinalPathsAre(init, p);
      AppendsAll(FinalPaths(init), StayingPaths(last.decisions), p);
      assert Stays(last.decisions, p) <==> p in StayingPaths(last.decisions);
      assert forall k :: 0 <= k < |init| ==> variants[k] == init[k];
    }
  }

  predicate Stays(decisions: seq<Decision>, p: Path) {
    exists d :: d in decisions && !d.Delete? && d.path == p
  }

  lemma {:induction false} AppendsAll(list: seq<Path>, more: seq<Path>, p: Path)
    ensures p in AppendAllUnique(list, more) <==> p in list || p in more
  {
    if more != [] {
      AppendsAll(list, more[..|more| - 1], p);
    }
  }

  /** What an unblocked component is to hold afterwards: exactly what its stems keep
      or encode. */
  lemma Projected(files: seq<File>, profile: Profile, occupied: set<Path>, id: string, p: Path)
    requires FilesOk(files) && LanesOk(profile) && LenientComponent(id, files, profile, occupied).block.None?
    ensures var groups := StemGroups(files);
      p in LenientComponent(id, files, profile, occupied).projected <==>
      exists k :: 0 <= k < |groups| && Stays(LenientStem(groups[k], profile, occupied).decisions, p)
  {
    hide StemGroups, LenientStem, LanesOk, FilesOk, SortBy, DraftOps, PlanStems, GroupsOk, FrozenFiles, Removals, Stays, FinalPaths, TargetsDistinct, OpTargets;
    var d := PlannedOps(files, profile, occupied, id);
    DraftOf(files, profile, occupied, id);
    SortMembers(PosixBefore, FinalPaths(d.variants));
    FinalPathsAre(d.variants, p);
  }

  /** The files of a component are recorded with the facts they were observed with,
      blocked or not. */
  lemma Observations(files: seq<File>, profile: Profile, occupied: set<Path>, id: string, t: Tuple)
    ensures t in LenientComponent(id, files, profile, occupied).files <==> exists f :: f in files && t == Tuple(f.path, f.size, f.mtime)
  {
    hide SortBy, StemGroups, PlanStems, Removals, FinalPaths;
    Frozen(files, t);
  }

  lemma Frozen(files: seq<File>, t: Tuple)
    ensures t in FrozenFiles(files) <==> exists f :: f in files && t == Tuple(f.path, f.size, f.mtime)
  {
    hide SortBy, TupleBefore;
    var raw := seq(|files|, k requires 0 <= k < |files| => Tuple(files[k].path, files[k].size, files[k].mtime));
    SortMembers(TupleBefore, raw);
    if exists f :: f in files && t == Tuple(f.path, f.size, f.mtime) {
      var f :| f in files && t == Tuple(f.path, f.size, f.mtime);
      var k :| 0 <= k < |files| && files[k] == f;
      assert raw[k] == t;
    }
  }
}
