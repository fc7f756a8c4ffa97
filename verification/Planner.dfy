/** The available_sources decision table: what each stem of a component keeps,
    encodes and removes, and the operations that follow. */
module Planner {
  import opened Prelude
  import opened Text
  import opened Ordering
  import opened Audio
  import opened Disk
  import opened Grouping

  const TOLERANCE := 1000
  const AAC_TIGHT_FLOOR := 95
  const AAC_SATURATED_FLOOR := 60
  const AAC_CEILING := 110
  const AAC_EXACT_ABOVE := 192000

  datatype Reason =
    | KeepLosslessTarget | KeepEncodedSatisfied | MaterializeLossless | MaterializeEncoded
    | ObsoleteLossless | ObsoleteEncoded | UnmetTarget | ConformanceUnconfirmed | AmbiguousSource

  datatype Decision = Keep(path: Path, reason: Reason) | Delete(path: Path, reason: Reason) | EncodeTo(path: Path, reason: Reason)

  datatype Block = SourceAmbiguous | TargetPathConflict

  datatype Kind = EncodeKind | RemoveObsoleteKind | OtherKind
  datatype Phase = MaterializeOutputs | ValidateOutputs | CommitOutputs | RemoveObsoleteAudio

  datatype Operation = Operation(
    kind: Kind, phase: Phase, component: string, stem: string,
    source: Path, target: Path, dependsOn: seq<Path>)

  datatype StemPlan = StemPlan(decisions: seq<Decision>, ops: seq<Operation>, targets: seq<Path>, block: Option<Block>)

  // ---------- the encoded-lane gate ----------

  function EncodingMode(c: Codec): bool { c.Opus? }

  predicate MeasuredSatisfies(bitrate: int, spec: Spec) {
    && spec.bitrate.Some? && spec.bitrate.value > 0
    && var target := spec.bitrate.value * 1000;
       match spec.codec
       case Mp3 => bitrate >= target - TOLERANCE
       case Opus => bitrate >= target - TOLERANCE
       case Aac =>
         var floor := if target > AAC_EXACT_ABOVE then AAC_SATURATED_FLOOR else AAC_TIGHT_FLOOR;
         target * floor / 100 <= bitrate <= target * AAC_CEILING / 100
       case _ => false
  }

  /** The credential proves this very file was generated for this target. */
  predicate Credited(f: File, spec: Spec) {
    && f.generated.Some?
    && var g := f.generated.value;
       && g.size == f.size && g.mtime == f.mtime && g.codec == spec.codec
       && spec.bitrate == Some(g.bitrate) && g.vbr == EncodingMode(spec.codec)
  }

  predicate SatisfiedEncoded(f: File, spec: Spec) {
    && HasCodec(f, spec.codec)
    && (MeasuredSatisfies(f.bitrate, spec) || (spec.codec != Mp3 && Credited(f, spec)))
  }

  /** The path beside `p` with its display stem and another extension. */
  function SameStemPath(p: Path, ext: string): Path {
    if p == [] then [ext] else Dir(p) + [TrimExt(Base(p)) + ext]
  }

  // ---------- one stem ----------

  function DeclaredLossless(files: seq<File>, profile: Profile): seq<File> {
    if profile.lossless.None? then []
    else Filter(files, (f: File) => IsLosslessFile(f) && HasCodec(f, profile.lossless.value.codec))
  }

  predicate DeclaredLossy(f: File, profile: Profile) {
    profile.encoded.Some? && !IsLosslessFile(f) && HasCodec(f, profile.encoded.value.codec)
  }

  function EncodedSatisfied(files: seq<File>, profile: Profile): seq<File> {
    Filter(files, (f: File) => DeclaredLossy(f, profile) && SatisfiedEncoded(f, profile.encoded.value))
  }

  function EncodedBelow(files: seq<File>, profile: Profile): seq<File> {
    Filter(files, (f: File) => DeclaredLossy(f, profile) && !SatisfiedEncoded(f, profile.encoded.value))
  }

  predicate WantsLossless(files: seq<File>, profile: Profile) {
    profile.lossless.Some? && DeclaredLossless(files, profile) == []
  }

  predicate WantsEncoded(files: seq<File>, profile: Profile) {
    profile.encoded.Some? && EncodedSatisfied(files, profile) == []
  }

  predicate NeedsOutput(files: seq<File>, profile: Profile) {
    WantsLossless(files, profile) || WantsEncoded(files, profile)
  }

  function LosslessOf(files: seq<File>, c: Codec): seq<File> {
    Filter(files, (f: File) => IsLosslessFile(f) && HasCodec(f, c))
  }

  /** The declared lossless codec first, then WAV, then FLAC. */
  function Sources(files: seq<File>, profile: Profile): seq<File> {
    var declared := DeclaredLossless(files, profile);
    if declared != [] then declared
    else if LosslessOf(files, Wav) != [] then LosslessOf(files, Wav)
    else LosslessOf(files, Flac)
  }

  function UnmetReason(f: File, profile: Profile): Reason {
    if DeclaredLossy(f, profile) && !SatisfiedEncoded(f, profile.encoded.value) then ConformanceUnconfirmed else UnmetTarget
  }

  function KeepAll(files: seq<File>, reason: File -> Reason): (r: seq<Decision>)
    ensures |r| == |files| && forall k :: 0 <= k < |r| ==> r[k] == Keep(files[k].path, reason(files[k]))
  {
    seq(|files|, k requires 0 <= k < |files| => Keep(files[k].path, reason(files[k])))
  }

  function EncodeOp(stem: string, source: Path, target: Path): Operation {
    Operation(EncodeKind, MaterializeOutputs, "", stem, source, target, [])
  }

  function ObsoleteReason(f: File): Reason {
    if IsLosslessFile(f) then ObsoleteLossless else ObsoleteEncoded
  }

  function PathsOf(files: seq<File>): set<Path> {
    set f | f in files :: f.path
  }

  function DeleteAll(files: seq<File>, spared: set<Path>): (r: seq<Decision>)
    ensures forall d :: d in r ==> d.Delete? && d.path !in spared && exists f :: f in files && f.path == d.path
    ensures forall f :: f in files && f.path !in spared ==> Delete(f.path, ObsoleteReason(f)) in r
  {
    if files == [] then []
    else
      var init, last := files[..|files| - 1], files[|files| - 1];
      assert files == init + [last];
      DeleteAll(init, spared) + if last.path in spared then [] else [Delete(last.path, ObsoleteReason(last))]
  }

  /** Where the declared encoded output goes: beside the source, or in place of
      the single file of that codec that does not satisfy it. */
  function EncodedTarget(files: seq<File>, profile: Profile): Path
    requires profile.encoded.Some? && Sources(files, profile) != []
  {
    var below := EncodedBelow(files, profile);
    SameStemPath(if |below| == 1 then below[0].path else Sources(files, profile)[0].path, ExtFor(profile.encoded.value.codec))
  }

  predicate Conflicts(files: seq<File>, profile: Profile, occupied: set<Path>)
    requires WantsEncoded(files, profile) ==> Sources(files, profile) != []
  {
    WantsEncoded(files, profile) && EncodedTarget(files, profile) in occupied && EncodedTarget(files, profile) !in PathsOf(files)
  }

  function LosslessPart(group: StemGroup, profile: Profile): StemPlan
    requires WantsLossless(group.files, profile) ==> Sources(group.files, profile) != []
  {
    if !WantsLossless(group.files, profile) then StemPlan([], [], [], None)
    else
      var source := Sources(group.files, profile)[0].path;
      var target := SameStemPath(source, ExtFor(profile.lossless.value.codec));
      StemPlan([EncodeTo(target, MaterializeLossless)], [EncodeOp(group.stem, source, target)], [target], None)
  }

  function EncodedPart(group: StemGroup, profile: Profile): StemPlan
    requires WantsEncoded(group.files, profile) ==> Sources(group.files, profile) != []
  {
    if !WantsEncoded(group.files, profile) then StemPlan([], [], [], None)
    else
      var source := Sources(group.files, profile)[0].path;
      var target := EncodedTarget(group.files, profile);
      StemPlan([EncodeTo(target, MaterializeEncoded)], [EncodeOp(group.stem, source, target)], [target], None)
  }

  function AppendUnique(list: seq<Path>, p: Path): seq<Path> {
    if p in list then list else list + [p]
  }

  function AppendAllUnique(list: seq<Path>, more: seq<Path>): seq<Path> {
    if more == [] then list
    else AppendUnique(AppendAllUnique(list, more[..|more| - 1]), more[|more| - 1])
  }

  /** A file is spared when it is kept or is where the encoded output goes. */
  function Spared(files: seq<File>, profile: Profile): set<Path>
    requires WantsEncoded(files, profile) ==> Sources(files, profile) != []
  {
    PathsOf(DeclaredLossless(files, profile)) + PathsOf(EncodedSatisfied(files, profile))
    + if WantsEncoded(files, profile) then {EncodedTarget(files, profile)} else {}
  }

  function Kept(files: seq<File>, profile: Profile): seq<Decision> {
    KeepAll(DeclaredLossless(files, profile), _ => KeepLosslessTarget)
    + KeepAll(EncodedSatisfied(files, profile), _ => KeepEncodedSatisfied)
  }

  function LenientStem(group: StemGroup, profile: Profile, occupied: set<Path>): StemPlan {
    var files := group.files;
    var sources := Sources(files, profile);
    if NeedsOutput(files, profile) && |sources| > 1 then
      StemPlan([Keep([group.stem], AmbiguousSource)], [], [], Some(SourceAmbiguous))
    else if NeedsOutput(files, profile) && sources == [] then
      StemPlan(KeepAll(files, (f: File) => UnmetReason(f, profile)), [], [], None)
    else
      var lossless := LosslessPart(group, profile);
      var kept := Kept(files, profile) + lossless.decisions;
      if Conflicts(files, profile, occupied) then StemPlan(kept, lossless.ops, lossless.targets, Some(TargetPathConflict))
      else
        var encoded := EncodedPart(group, profile);
        StemPlan(kept + encoded.decisions + DeleteAll(files, Spared(files, profile)),
                 lossless.ops + encoded.ops, lossless.targets + encoded.targets, None)
  }

  // ---------- one component ----------

  datatype Variant = Variant(stem: string, decisions: seq<Decision>)

  datatype Tuple = Tuple(path: Path, size: int, mtime: int)

  datatype Outcome = Outcome(
    id: string, block: Option<Block>, variants: seq<Variant>, operations: seq<Operation>,
    projected: seq<Path>, files: seq<Tuple>)

  /** The first decision about a path stands. */
  function Dedupe(decisions: seq<Decision>): (r: seq<Decision>)
    ensures forall d :: d in r ==> d in decisions
  {
    if decisions == [] then []
    else
      var init, last := decisions[..|decisions| - 1], decisions[|decisions| - 1];
      assert decisions == init + [last];
      var rest := Dedupe(init);
      if exists d :: d in rest && d.path == last.path then rest else rest + [last]
  }

  function Owned(op: Operation, id: string): Operation {
    op.(component := id)
  }

  function OwnedAll(ops: seq<Operation>, id: string): (r: seq<Operation>)
    ensures |r| == |ops| && forall k :: 0 <= k < |r| ==> r[k] == Owned(ops[k], id)
  {
    seq(|ops|, k requires 0 <= k < |ops| => Owned(ops[k], id))
  }

  /** The stems planned so far: their variants, encodes and targets. */
  datatype Draft = Draft(variants: seq<Variant>, ops: seq<Operation>, targets: seq<Path>, block: Option<Block>)

  function PlanStems(groups: seq<StemGroup>, k: nat, profile: Profile, occupied: set<Path>, id: string): Draft
    requires k <= |groups|
  {
    if k == 0 then Draft([], [], [], None)
    else
      var before := PlanStems(groups, k - 1, profile, occupied, id);
      if before.block.Some? then before
      else
        var p := LenientStem(groups[k - 1], profile, occupied);
        if p.block.Some? then
          Draft(before.variants + [Variant(groups[k - 1].stem, p.decisions)], [], [], p.block)
        else
          Draft(before.variants + [Variant(groups[k - 1].stem, Dedupe(p.decisions))],
                before.ops + OwnedAll(p.ops, id), AppendAllUnique(before.targets, p.targets), None)
  }

  function RemoveOp(id: string, stem: string, source: Path, targets: seq<Path>): Operation {
    Operation(RemoveObsoleteKind, RemoveObsoleteAudio, id, stem, source, [], targets)
  }

  function RemovalsOf(v: Variant, k: nat, id: string, targets: seq<Path>): (r: seq<Operation>)
    requires k <= |v.decisions|
  {
    if k == 0 then []
    else
      var d := v.decisions[k - 1];
      RemovalsOf(v, k - 1, id, targets) + if d.Delete? then [RemoveOp(id, v.stem, d.path, targets)] else []
  }

  function Removals(variants: seq<Variant>, k: nat, id: string, targets: seq<Path>): seq<Operation>
    requires k <= |variants|
  {
    if k == 0 then []
    else Removals(variants, k - 1, id, targets) + RemovalsOf(variants[k - 1], |variants[k - 1].decisions|, id, targets)
  }

  function PhaseRank(p: Phase): nat {
    match p
    case CommitOutputs => 0
    case MaterializeOutputs => 1
    case RemoveObsoleteAudio => 2
    case ValidateOutputs => 3
  }

  /** Phases by their names, then sources, then targets. */
  predicate OpBefore(a: Operation, b: Operation) {
    if a.phase != b.phase then PhaseRank(a.phase) < PhaseRank(b.phase)
    else if a.source != b.source then StringLess(Posix(a.source), Posix(b.source))
    else StringLess(Posix(a.target), Posix(b.target))
  }

  predicate TupleBefore(a: Tuple, b: Tuple) { StringLess(Posix(a.path), Posix(b.path)) }

  predicate PosixBefore(a: Path, b: Path) { StringLess(Posix(a), Posix(b)) }

  function FrozenFiles(files: seq<File>): seq<Tuple> {
    SortBy(TupleBefore, seq(|files|, k requires 0 <= k < |files| => Tuple(files[k].path, files[k].size, files[k].mtime)))
  }

  function FinalPaths(variants: seq<Variant>): seq<Path> {
    if variants == [] then []
    else
      var init, last := variants[..|variants| - 1], variants[|variants| - 1];
      AppendAllUnique(FinalPaths(init), StayingPaths(last.decisions))
  }

  /** Kept files and encode targets. */
  function StayingPaths(decisions: seq<Decision>): (r: seq<Path>)
    ensures forall p :: p in r <==> exists d :: d in decisions && !d.Delete? && d.path == p
  {
    if decisions == [] then []
    else
      var init, last := decisions[..|decisions| - 1], decisions[|decisions| - 1];
      assert decisions == init + [last];
      StayingPaths(init) + if last.Delete? then [] else [last.path]
  }

  function LenientComponent(id: string, files: seq<File>, profile: Profile, occupied: set<Path>): Outcome {
    var groups := StemGroups(files);
    var draft := PlanStems(groups, |groups|, profile, occupied, id);
    if draft.block.Some? then Outcome(id, draft.block, draft.variants, [], [], FrozenFiles(files))
    else
      Outcome(id, None, draft.variants,
              SortBy(OpBefore, draft.ops + Removals(draft.variants, |draft.variants|, id, draft.targets)),
              SortBy(PosixBefore, FinalPaths(draft.variants)), FrozenFiles(files))
  }
}
