/** The planner as it runs: a stem decision that is filled step by step, and
    loops over files, stems and variants, proved equal to the decision table. */
module PlannerRun {
  import opened Prelude
  import opened Ordering
  import opened Audio
  import opened Disk
  import opened Grouping
  import opened Planner

  class StemDecision {
    const stem: string
    var decisions: seq<Decision>
    var ops: seq<Operation>
    var targets: seq<Path>
    var block: Option<Block>

    constructor (stem: string)
      ensures this.stem == stem && View() == StemPlan([], [], [], None)
    {
      this.stem := stem;
      decisions, ops, targets, block := [], [], [], None;
    }

    function View(): StemPlan
      reads this
    {
      StemPlan(decisions, ops, targets, block)
    }

    method KeepFile(path: Path, reason: Reason)
      modifies this`decisions
      ensures decisions == old(decisions) + [Keep(path, reason)]
    {
      decisions := decisions + [Keep(path, reason)];
    }

    method DeleteFile(path: Path, reason: Reason)
      modifies this`decisions
      ensures decisions == old(decisions) + [Delete(path, reason)]
    {
      decisions := decisions + [Delete(path, reason)];
    }

    method EncodeFile(source: Path, target: Path, reason: Reason)
      modifies this`decisions, this`ops, this`targets
      ensures decisions == old(decisions) + [EncodeTo(target, reason)]
      ensures ops == old(ops) + [EncodeOp(stem, source, target)]
      ensures targets == old(targets) + [target]
    {
      decisions := decisions + [EncodeTo(target, reason)];
      ops := ops + [EncodeOp(stem, source, target)];
      targets := targets + [target];
    }

    method KeepEach(files: seq<File>, reason: Reason)
      modifies this`decisions
      ensures decisions == old(decisions) + KeepAll(files, _ => reason)
    {
      var k := 0;
      while k < |files|
        invariant 0 <= k <= |files|
        invariant decisions == old(decisions) + KeepAll(files, _ => reason)[..k]
      {
        KeepFile(files[k].path, reason);
        k := k + 1;
      }
    }
  }

  lemma {:induction false} FilterTwice(files: seq<File>, a: File -> bool, b: File -> bool)
    ensures Filter(Filter(files, a), b) == Filter(files, (f: File) => a(f) && b(f))
  {
    if files != [] {
      var init, last := files[..|files| - 1], files[|files| - 1];
      FilterTwice(init, a, b);
      if a(last) {
        assert Filter(files, a)[..|Filter(files, a)| - 1] == Filter(init, a);
      }
    }
  }

  lemma {:induction false} FilterSame(files: seq<File>, a: File -> bool, b: File -> bool)
    requires forall f :: f in files ==> a(f) == b(f)
    ensures Filter(files, a) == Filter(files, b)
  {
    if files != [] {
      FilterSame(files[..|files| - 1], a, b);
    }
  }

  lemma FilterStep(files: seq<File>, k: nat, keep: File -> bool)
    requires k < |files|
    ensures Filter(files[..k + 1], keep) == Filter(files[..k], keep) + if keep(files[k]) then [files[k]] else []
  {
    assert files[..k + 1][..k] == files[..k];
  }

  lemma NoFiles(keep: File -> bool)
    ensures Filter([], keep) == []
  {
  }

  /** The lossless files of a stem, and the others. */
  method Split(files: seq<File>) returns (lossless: seq<File>, encoded: seq<File>)
    ensures lossless == Filter(files, IsLosslessFile) && encoded == Filter(files, (f: File) => !IsLosslessFile(f))
  {
    lossless, encoded := [], [];
    for k := 0 to |files|
      invariant lossless == Filter(files[..k], IsLosslessFile)
      invariant encoded == Filter(files[..k], (f: File) => !IsLosslessFile(f))
    {
      FilterStep(files, k, IsLosslessFile);
      FilterStep(files, k, (f: File) => !IsLosslessFile(f));
      if IsLosslessFile(files[k]) {
        lossless := lossless + [files[k]];
      } else {
        encoded := encoded + [files[k]];
      }
    }
    assert files[..|files|] == files;
  }

  method WithCodec(files: seq<File>, c: Codec) returns (r: seq<File>)
    ensures r == Filter(files, (f: File) => HasCodec(f, c))
  {
    hide HasCodec, Filter;
    r := [];
    assert Filter(files[..0], (f: File) => HasCodec(f, c)) == [] by { NoFiles((f: File) => HasCodec(f, c)); }
    for k := 0 to |files|
      invariant r == Filter(files[..k], (f: File) => HasCodec(f, c))
    {
      FilterStep(files, k, (f: File) => HasCodec(f, c));
      if HasCodec(files[k], c) {
        r := r + [files[k]];
      }
    }
    assert files[..|files|] == files;
  }

  method SplitEncoded(spec: Spec, files: seq<File>) returns (satisfied: seq<File>, below: seq<File>)
    ensures satisfied == Filter(files, (f: File) => HasCodec(f, spec.codec) && SatisfiedEncoded(f, spec))
    ensures below == Filter(files, (f: File) => HasCodec(f, spec.codec) && !SatisfiedEncoded(f, spec))
  {
    satisfied, below := [], [];
    for k := 0 to |files|
      invariant satisfied == Filter(files[..k], (f: File) => HasCodec(f, spec.codec) && SatisfiedEncoded(f, spec))
      invariant below == Filter(files[..k], (f: File) => HasCodec(f, spec.codec) && !SatisfiedEncoded(f, spec))
    {
      FilterStep(files, k, (f: File) => HasCodec(f, spec.codec) && SatisfiedEncoded(f, spec));
      FilterStep(files, k, (f: File) => HasCodec(f, spec.codec) && !SatisfiedEncoded(f, spec));
      if HasCodec(files[k], spec.codec) {
        if SatisfiedEncoded(files[k], spec) {
          satisfied := satisfied + [files[k]];
        } else {
          below := below + [files[k]];
        }
      }
    }
    assert files[..|files|] == files;
  }

  lemma SplitLossless(files: seq<File>, c: Codec)
    ensures Filter(Filter(files, IsLosslessFile), (f: File) => HasCodec(f, c)) == LosslessOf(files, c)
  {
    hide IsLosslessFile, HasCodec;
    FilterTwice(files, IsLosslessFile, (f: File) => HasCodec(f, c));
    FilterSame(files, (f: File) => IsLosslessFile(f) && ((g: File) => HasCodec(g, c))(f), (f: File) => IsLosslessFile(f) && HasCodec(f, c));
  }

  lemma SplitLossy(files: seq<File>, profile: Profile)
    requires profile.encoded.Some?
    ensures var spec := profile.encoded.value; var lossy := Filter(files, (f: File) => !IsLosslessFile(f));
      && Filter(lossy, (f: File) => HasCodec(f, spec.codec) && SatisfiedEncoded(f, spec)) == EncodedSatisfied(files, profile)
      && Filter(lossy, (f: File) => HasCodec(f, spec.codec) && !SatisfiedEncoded(f, spec)) == EncodedBelow(files, profile)
  {
    var spec := profile.encoded.value;
    var a := (f: File) => !IsLosslessFile(f);
    var b, c := (f: File) => HasCodec(f, spec.codec) && SatisfiedEncoded(f, spec), (f: File) => HasCodec(f, spec.codec) && !SatisfiedEncoded(f, spec);
    FilterTwice(files, a, b);
    FilterTwice(files, a, c);
    hide SatisfiedEncoded, IsLosslessFile, HasCodec;
    FilterSame(files, (f: File) => a(f) && b(f), (f: File) => DeclaredLossy(f, profile) && SatisfiedEncoded(f, profile.encoded.value));
    FilterSame(files, (f: File) => a(f) && c(f), (f: File) => DeclaredLossy(f, profile) && !SatisfiedEncoded(f, profile.encoded.value));
  }

  lemma EmptyWhenNone(r: seq<File>)
    requires forall f :: f !in r
    ensures r == []
  {
    HasFirst(r);
  }

  lemma HasFirst(r: seq<File>)
    ensures r != [] ==> exists f :: f in r
  {
    if r != [] {
      assert r[0] in r;
    }
  }

  lemma NoEncodedLane(files: seq<File>, profile: Profile)
    requires profile.encoded.None?
    ensures EncodedSatisfied(files, profile) == [] && EncodedBelow(files, profile) == []
  {
    EmptyWhenNone(EncodedSatisfied(files, profile));
    EmptyWhenNone(EncodedBelow(files, profile));
  }

  method DeclaredFiles(files: seq<File>, profile: Profile) returns (lossless: seq<File>, satisfied: seq<File>, below: seq<File>, sources: seq<File>)
    ensures lossless == DeclaredLossless(files, profile) && sources == Sources(files, profile)
    ensures satisfied == EncodedSatisfied(files, profile) && below == EncodedBelow(files, profile)
  {
    var losslessFiles, encodedFiles := Split(files);
    lossless, satisfied, below := [], [], [];
    if profile.lossless.Some? {
      SplitLossless(files, profile.lossless.value.codec);
      lossless := WithCodec(losslessFiles, profile.lossless.value.codec);
    }
    if profile.encoded.Some? {
      SplitLossy(files, profile);
      satisfied, below := SplitEncoded(profile.encoded.value, encodedFiles);
    } else {
      NoEncodedLane(files, profile);
    }
    sources := QualifiedSources(files, losslessFiles, lossless);
  }

  /** The first of the declared codec, WAV and FLAC that has any file. */
  method QualifiedSources(ghost files: seq<File>, losslessFiles: seq<File>, declared: seq<File>) returns (sources: seq<File>)
    requires losslessFiles == Filter(files, IsLosslessFile)
    ensures sources == if declared != [] then declared
      else if LosslessOf(files, Wav) != [] then LosslessOf(files, Wav) else LosslessOf(files, Flac)
  {
    if declared != [] {
      return declared;
    }
    SplitLossless(files, Wav);
    SplitLossless(files, Flac);
    sources := WithCodec(losslessFiles, Wav);
    if sources == [] {
      sources := WithCodec(losslessFiles, Flac);
    }
  }

  lemma DeleteStep(files: seq<File>, k: nat, spared: set<Path>)
    requires k < |files|
    ensures DeleteAll(files[..k + 1], spared)
         == DeleteAll(files[..k], spared) + if files[k].path in spared then [] else [Delete(files[k].path, ObsoleteReason(files[k]))]
  {
    assert files[..k + 1][..k] == files[..k];
  }

  method PlanUnmet(d: StemDecision, files: seq<File>, profile: Profile)
    requires d.decisions == []
    modifies d`decisions
    ensures d.decisions == KeepAll(files, (f: File) => UnmetReason(f, profile))
  {
    for k := 0 to |files|
      invariant d.decisions == KeepAll(files, (f: File) => UnmetReason(f, profile))[..k]
    {
      d.KeepFile(files[k].path, UnmetReason(files[k], profile));
    }
  }

  method PlanStem(group: StemGroup, profile: Profile, occupied: set<Path>) returns (p: StemPlan)
    ensures p == LenientStem(group, profile, occupied)
  {
    hide SatisfiedEncoded, DeclaredLossless, EncodedSatisfied, EncodedBelow, Sources, UnmetReason, Kept, LosslessPart, EncodedPart, Conflicts, DeleteAll, Spared;
    var files := group.files;
    var d := new StemDecision(group.stem);
    var lossless, satisfied, below, sources := DeclaredFiles(files, profile);
    var needsOutput := (profile.lossless.Some? && lossless == []) || (profile.encoded.Some? && satisfied == []);
    if needsOutput && |sources| > 1 {
      d.KeepFile([group.stem], AmbiguousSource);
      d.block := Some(SourceAmbiguous);
    } else if needsOutput && sources == [] {
      PlanUnmet(d, files, profile);
    } else {
      PlanReached(d, group, profile, occupied, lossless, satisfied, below, sources);
    }
    p := d.View();
  }

  /** What LenientStem plans for a stem that can reach its declared shape. */
  ghost function ReachedPlan(group: StemGroup, profile: Profile, occupied: set<Path>): StemPlan
    requires NeedsOutput(group.files, profile) ==> Sources(group.files, profile) != []
  {
    var lossless, kept := LosslessPart(group, profile), Kept(group.files, profile) + LosslessPart(group, profile).decisions;
    if Conflicts(group.files, profile, occupied) then StemPlan(kept, lossless.ops, lossless.targets, Some(TargetPathConflict))
    else
      var encoded := EncodedPart(group, profile);
      StemPlan(kept + encoded.decisions + DeleteAll(group.files, Spared(group.files, profile)),
               lossless.ops + encoded.ops, lossless.targets + encoded.targets, None)
  }

  method PlanReached(d: StemDecision, group: StemGroup, profile: Profile, occupied: set<Path>,
                     lossless: seq<File>, satisfied: seq<File>, below: seq<File>, sources: seq<File>)
    requires d.View() == StemPlan([], [], [], None) && d.stem == group.stem
    requires lossless == DeclaredLossless(group.files, profile) && sources == Sources(group.files, profile)
    requires satisfied == EncodedSatisfied(group.files, profile) && below == EncodedBelow(group.files, profile)
    requires NeedsOutput(group.files, profile) ==> sources != []
    modifies d
    ensures d.View() == ReachedPlan(group, profile, occupied)
  {
    hide SatisfiedEncoded, DeclaredLossless, EncodedSatisfied, EncodedBelow, Sources, DeleteAll, SameStemPath, ExtFor, KeepAll;
    d.KeepEach(lossless, KeepLosslessTarget);
    d.KeepEach(satisfied, KeepEncodedSatisfied);
    assert d.decisions == Kept(group.files, profile);
    if profile.lossless.Some? && lossless == [] {
      d.EncodeFile(sources[0].path, SameStemPath(sources[0].path, ExtFor(profile.lossless.value.codec)), MaterializeLossless);
    }
    assert d.View() == StemPlan(Kept(group.files, profile) + LosslessPart(group, profile).decisions, LosslessPart(group, profile).ops, LosslessPart(group, profile).targets, None);
    PlanEncoded(d, group, profile, occupied, lossless, satisfied, below, sources);
  }

  method PlanEncoded(d: StemDecision, group: StemGroup, profile: Profile, occupied: set<Path>,
                     lossless: seq<File>, satisfied: seq<File>, below: seq<File>, sources: seq<File>)
    requires NeedsOutput(group.files, profile) ==> Sources(group.files, profile) != []
    requires d.stem == group.stem
    requires d.View() == StemPlan(Kept(group.files, profile) + LosslessPart(group, profile).decisions,
                                  LosslessPart(group, profile).ops, LosslessPart(group, profile).targets, None)
    requires lossless == DeclaredLossless(group.files, profile) && sources == Sources(group.files, profile)
    requires satisfied == EncodedSatisfied(group.files, profile) && below == EncodedBelow(group.files, profile)
    modifies d
    ensures d.View() == ReachedPlan(group, profile, occupied)
  {
    hide SatisfiedEncoded, DeclaredLossless, EncodedSatisfied, EncodedBelow, Sources, DeleteAll, SameStemPath, ExtFor, KeepAll, Kept, LosslessPart, PathsOf;
    var spared := PathsOf(lossless) + PathsOf(satisfied);
    if profile.encoded.Some? && satisfied == [] {
      var replaced := SameStemPath(if |below| == 1 then below[0].path else sources[0].path, ExtFor(profile.encoded.value.codec));
      if replaced in occupied && replaced !in PathsOf(group.files) {
        d.block := Some(TargetPathConflict);
        return;
      }
      d.EncodeFile(sources[0].path, replaced, MaterializeEncoded);
      spared := spared + {replaced};
    }
    assert spared == Spared(group.files, profile);
    DeleteObsolete(d, group.files, spared);
  }

  lemma DeleteNone(spared: set<Path>)
    ensures DeleteAll([], spared) == []
  {
  }

  method DeleteObsolete(d: StemDecision, files: seq<File>, spared: set<Path>)
    modifies d`decisions
    ensures d.decisions == old(d.decisions) + DeleteAll(files, spared)
  {
    hide ObsoleteReason, DeleteAll;
    assert DeleteAll(files[..0], spared) == [] by { DeleteNone(spared); }
    for k := 0 to |files|
      invariant d.decisions == old(d.decisions) + DeleteAll(files[..k], spared)
    {
      DeleteStep(files, k, spared);
      if files[k].path !in spared {
        d.DeleteFile(files[k].path, ObsoleteReason(files[k]));
      }
    }
    assert files[..|files|] == files;
  }

  // ---------- the component ----------

  lemma {:induction false} BlockStays(groups: seq<StemGroup>, k: nat, n: nat, profile: Profile, occupied: set<Path>, id: string)
    requires k <= n <= |groups| && PlanStems(groups, k, profile, occupied, id).block.Some?
    ensures PlanStems(groups, n, profile, occupied, id) == PlanStems(groups, k, profile, occupied, id)
  {
    hide LenientStem;
    if k < n {
      BlockStays(groups, k, n - 1, profile, occupied, id);
    }
  }

  /** Plans the stems in order and stops at the first that blocks. */
  method PlanAllStems(groups: seq<StemGroup>, profile: Profile, occupied: set<Path>, id: string) returns (draft: Draft)
    ensures draft == PlanStems(groups, |groups|, profile, occupied, id)
  {
    hide LenientStem;
    draft := Draft([], [], [], None);
    for k := 0 to |groups|
      invariant draft == PlanStems(groups, k, profile, occupied, id) && draft.block.None?
    {
      var p := PlanStem(groups[k], profile, occupied);
      if p.block.Some? {
        BlockStays(groups, k + 1, |groups|, profile, occupied, id);
        return Draft(draft.variants + [Variant(groups[k].stem, p.decisions)], [], [], p.block);
      }
      draft := Draft(draft.variants + [Variant(groups[k].stem, Dedupe(p.decisions))],
                     draft.ops + OwnedAll(p.ops, id), AppendAllUnique(draft.targets, p.targets), None);
    }
  }

  /** A removal for every deletion of every variant. */
  method CollectRemovals(variants: seq<Variant>, id: string, targets: seq<Path>) returns (ops: seq<Operation>)
    ensures ops == Removals(variants, |variants|, id, targets)
  {
    ops := [];
    for k := 0 to |variants|
      invariant ops == Removals(variants, k, id, targets)
    {
      var v := variants[k];
      ghost var before := ops;
      for j := 0 to |v.decisions|
        invariant ops == before + RemovalsOf(v, j, id, targets)
      {
        if v.decisions[j].Delete? {
          ops := ops + [RemoveOp(id, v.stem, v.decisions[j].path, targets)];
        }
      }
    }
  }

  method PlanComponent(id: string, files: seq<File>, profile: Profile, occupied: set<Path>) returns (o: Outcome)
    ensures o == LenientComponent(id, files, profile, occupied)
  {
    hide LenientStem, PlanStems, Removals, SortBy, StemGroups;
    var groups := GroupStems(files);
    var draft := PlanAllStems(groups, profile, occupied, id);
    if draft.block.Some? {
      return Outcome(id, draft.block, draft.variants, [], [], FrozenFiles(files));
    }
    var removals := CollectRemovals(draft.variants, id, draft.targets);
    return Outcome(id, None, draft.variants, SortBy(OpBefore, draft.ops + removals),
                   SortBy(PosixBefore, FinalPaths(draft.variants)), FrozenFiles(files));
  }
}
