/** Planning again after a successful run changes nothing: reached stems hold
    exactly their declared shape and unmet stems are as they were. */
module Replan {
  import opened Prelude
  import opened Ordering
  import opened Audio
  import opened Disk
  import opened Grouping
  import opened Planner
  import opened PlannerProof
  import opened PlanGate

  // ---------- what a rescan finds ----------

  /** A committed output as the next scan sees it: an encoded one carries the
      credential of its target, and an MP3 measures what it was written at. */
  predicate FreshOutput(f: File, profile: Profile) {
    && IsAudio(f)
    && (DeclaredLossy(f, profile) ==>
          var spec := profile.encoded.value;
          && spec.bitrate.Some?
          && f.generated == Some(Credential(spec.codec, spec.bitrate.value, EncodingMode(spec.codec), f.size, f.mtime))
          && (spec.codec.Mp3? ==> f.bitrate >= spec.bitrate.value * 1000 - TOLERANCE))
  }

  predicate DeletesPath(ds: seq<Decision>, p: Path) {
    exists d :: d in ds && d.Delete? && d.path == p
  }

  /** The files of a stem after its plan ran: what was not deleted or replaced
      is as it was, every target is a fresh output, and nothing else is there. */
  ghost predicate Rescanned(group: StemGroup, profile: Profile, p: StemPlan, after: seq<File>) {
    && (forall f :: f in group.files && !DeletesPath(p.decisions, f.path) && !Targeted(p.ops, f.path) ==> f in after)
    && (forall op :: op in p.ops ==> exists g :: g in after && g.path == op.target)
    && (forall g :: g in after ==>
          if Targeted(p.ops, g.path) then FreshOutput(g, profile) else g in group.files && !DeletesPath(p.decisions, g.path))
  }

  /** Every file is a declared output, and every declared output is there. */
  ghost predicate Shaped(files: seq<File>, profile: Profile) {
    && (forall f :: f in files ==>
          (profile.lossless.Some? && IsLosslessFile(f) && HasCodec(f, profile.lossless.value.codec))
          || (DeclaredLossy(f, profile) && SatisfiedEncoded(f, profile.encoded.value)))
    && (profile.lossless.Some? ==> exists f :: f in files && IsLosslessFile(f) && HasCodec(f, profile.lossless.value.codec))
    && (profile.encoded.Some? ==> exists f :: f in files && DeclaredLossy(f, profile) && SatisfiedEncoded(f, profile.encoded.value))
  }

  // ---------- a shaped stem needs nothing ----------

  lemma {:induction false} NothingDeleted(files: seq<File>, spared: set<Path>)
    requires forall f :: f in files ==> f.path in spared
    ensures DeleteAll(files, spared) == []
  {
    if files != [] {
      NothingDeleted(files[..|files| - 1], spared);
    }
  }

  lemma ShapedNeedsNothing(files: seq<File>, profile: Profile)
    requires Shaped(files, profile)
    ensures !WantsLossless(files, profile) && !WantsEncoded(files, profile)
  {
  }

  lemma ShapedIsFinal(group: StemGroup, profile: Profile, occupied: set<Path>)
    requires Shaped(group.files, profile)
    ensures var p := LenientStem(group, profile, occupied);
      p.block.None? && p.ops == [] && forall d :: d in p.decisions ==> d.Keep?
  {
    hide Shaped, DeclaredLossless, EncodedSatisfied, Sources, Spared, DeleteAll, SatisfiedEncoded, WantsLossless, WantsEncoded;
    ShapedNeedsNothing(group.files, profile);
    AllSpared(group.files, profile);
    NothingDeleted(group.files, Spared(group.files, profile));
  }

  lemma AllSpared(files: seq<File>, profile: Profile)
    requires Shaped(files, profile) && !WantsEncoded(files, profile)
    ensures forall f :: f in files ==> f.path in Spared(files, profile)
  {
  }

  // ---------- reached stems ----------

  lemma FreshIsSatisfied(f: File, profile: Profile)
    requires LanesOk(profile) && DeclaredLossy(f, profile) && FreshOutput(f, profile)
    ensures SatisfiedEncoded(f, profile.encoded.value)
  {
  }

  /** A committed target is a declared output. */
  lemma TargetIsDeclared(group: StemGroup, profile: Profile, op: Operation, f: File)
    requires LanesOk(profile) && GoodEncode(group, profile, op) && f.path == op.target && FreshOutput(f, profile)
    ensures (profile.lossless.Some? && IsLosslessFile(f) && HasCodec(f, profile.lossless.value.codec))
         || (DeclaredLossy(f, profile) && SatisfiedEncoded(f, profile.encoded.value))
  {
  }

  lemma ReachedPlan(group: StemGroup, profile: Profile, occupied: set<Path>)
    requires Reachable(group.files, profile) && !Conflicts(group.files, profile, occupied)
    ensures var p := LenientStem(group, profile, occupied);
      && p.decisions == ReachedDecisions(group, profile)
      && p.ops == LosslessPart(group, profile).ops + EncodedPart(group, profile).ops
  {
    hide Conflicts, Kept, DeleteAll, Spared;
  }

  lemma UnsparedIsDeleted(group: StemGroup, profile: Profile, f: File)
    requires Reachable(group.files, profile) && f in group.files
    requires !DeletesPath(ReachedDecisions(group, profile), f.path)
    ensures f.path in Spared(group.files, profile)
  {
    hide Sources, DeclaredLossless, EncodedSatisfied, Kept, EncodedTarget, WantsLossless, WantsEncoded, LosslessPart, EncodedPart, Spared, IsLosslessFile;
    var spared := Spared(group.files, profile);
    assert f.path !in spared ==> Delete(f.path, ObsoleteReason(f)) in DeleteAll(group.files, spared);
  }

  /** What is left alone in a reached stem is a declared output. */
  lemma SurvivorIsDeclared(group: StemGroup, profile: Profile, f: File)
    requires Reachable(group.files, profile) && f in group.files
    requires !DeletesPath(ReachedDecisions(group, profile), f.path)
    requires !Targeted(LosslessPart(group, profile).ops + EncodedPart(group, profile).ops, f.path)
    ensures f.path in PathsOf(DeclaredLossless(group.files, profile)) + PathsOf(EncodedSatisfied(group.files, profile))
  {
    hide Sources, DeclaredLossless, EncodedSatisfied, DeleteAll, Kept, EncodedTarget, ReachedDecisions, LosslessPart, IsLosslessFile, PathsOf, DeletesPath;
    UnsparedIsDeleted(group, profile, f);
    if WantsEncoded(group.files, profile) {
      assert EncodedPart(group, profile).ops[0] in LosslessPart(group, profile).ops + EncodedPart(group, profile).ops;
    }
  }

  /** A path is one file's path. */
  lemma SamePathSameFile(files: seq<File>, f: File, g: File)
    requires PathsDistinct(files) && f in files && g in files && f.path == g.path
    ensures f == g
  {
  }

  lemma ReachedIsShaped(group: StemGroup, profile: Profile, occupied: set<Path>, after: seq<File>)
    requires GroupOk(group) && LanesOk(profile) && Reachable(group.files, profile) && !Conflicts(group.files, profile, occupied)
    requires Rescanned(group, profile, LenientStem(group, profile, occupied), after)
    ensures Shaped(after, profile)
  {
    ReachedPlan(group, profile, occupied);
    hide LenientStem, Conflicts, GroupOk, LanesOk, SatisfiedEncoded, ReachedDecisions, LosslessPart, EncodedPart;
    var p := LenientStem(group, profile, occupied);
    forall g | g in after ensures Declares(g, profile) {
      if Targeted(p.ops, g.path) {
        var op :| op in p.ops && op.target == g.path;
        ReachedOpGood(group, profile, occupied, op);
        TargetIsDeclared(group, profile, op, g);
      } else {
        SurvivorDeclares(group, profile, g);
      }
    }
    LosslessPresent(group, profile, occupied, after);
    EncodedPresent(group, profile, occupied, after);
  }

  predicate Declares(f: File, profile: Profile) {
    || (profile.lossless.Some? && IsLosslessFile(f) && HasCodec(f, profile.lossless.value.codec))
    || (DeclaredLossy(f, profile) && SatisfiedEncoded(f, profile.encoded.value))
  }

  lemma ReachedOpGood(group: StemGroup, profile: Profile, occupied: set<Path>, op: Operation)
    requires GroupOk(group) && LanesOk(profile) && Reachable(group.files, profile) && !Conflicts(group.files, profile, occupied)
    requires op in LenientStem(group, profile, occupied).ops
    ensures GoodEncode(group, profile, op)
  {
    ReachedSound(group, profile, occupied);
    hide LenientStem, GoodEncode, GroupOk;
  }

  lemma SurvivorDeclares(group: StemGroup, profile: Profile, f: File)
    requires GroupOk(group) && Reachable(group.files, profile) && f in group.files
    requires !DeletesPath(ReachedDecisions(group, profile), f.path)
    requires !Targeted(LosslessPart(group, profile).ops + EncodedPart(group, profile).ops, f.path)
    ensures Declares(f, profile)
  {
    SurvivorIsDeclared(group, profile, f);
    hide ReachedDecisions, LosslessPart, EncodedPart, SatisfiedEncoded, Sources, NeedsOutput, WantsEncoded, WantsLossless;
    if f.path in PathsOf(DeclaredLossless(group.files, profile)) {
      var g :| g in DeclaredLossless(group.files, profile) && g.path == f.path;
      SamePathSameFile(group.files, f, g);
    } else {
      var g :| g in EncodedSatisfied(group.files, profile) && g.path == f.path;
      SamePathSameFile(group.files, f, g);
    }
  }

  /** A kept file survives: it is neither deleted nor a target. */
  lemma KeptSurvives(group: StemGroup, profile: Profile, occupied: set<Path>, f: File)
    requires GroupOk(group) && LanesOk(profile) && Reachable(group.files, profile) && !Conflicts(group.files, profile, occupied)
    requires f in DeclaredLossless(group.files, profile) || f in EncodedSatisfied(group.files, profile)
    ensures var p := LenientStem(group, profile, occupied); !DeletesPath(p.decisions, f.path) && !Targeted(p.ops, f.path)
  {
    var p := LenientStem(group, profile, occupied);
    ReachedPlan(group, profile, occupied);
    ReachedSound(group, profile, occupied);
    KeptDecision(group.files, profile, f);
    hide LenientStem, Conflicts, GroupOk, LanesOk, SatisfiedEncoded, LosslessPart, EncodedPart, DeclaredLossless, EncodedSatisfied, GoodEncode, Allowed, Observed;
    var k := Kept(group.files, profile);
    var i :| 0 <= i < |k| && k[i].Keep? && k[i].path == f.path;
    assert p.decisions[i] == k[i];
    OneDecisionEach(p.decisions, i);
    assert forall op :: op in p.ops ==> Decided(p.decisions, op.target);
  }

  lemma OneDecisionEach(ds: seq<Decision>, i: nat)
    requires DecisionsDistinct(ds) && i < |ds| && ds[i].Keep?
    ensures forall d :: d in ds && d.path == ds[i].path ==> d.Keep?
  {
  }

  lemma KeptDecision(files: seq<File>, profile: Profile, f: File)
    requires f in DeclaredLossless(files, profile) || f in EncodedSatisfied(files, profile)
    ensures exists i :: 0 <= i < |Kept(files, profile)| && Kept(files, profile)[i].Keep? && Kept(files, profile)[i].path == f.path
  {
    hide DeclaredLossless, EncodedSatisfied;
    var a, b := DeclaredLossless(files, profile), EncodedSatisfied(files, profile);
    assert Kept(files, profile) == KeepAll(a, _ => KeepLosslessTarget) + KeepAll(b, _ => KeepEncodedSatisfied);
    if f in a {
      var i :| 0 <= i < |a| && a[i] == f;
      assert Kept(files, profile)[i].path == f.path;
    } else {
      var i :| 0 <= i < |b| && b[i] == f;
      assert Kept(files, profile)[|a| + i].path == f.path;
    }
  }

  lemma LosslessPresent(group: StemGroup, profile: Profile, occupied: set<Path>, after: seq<File>)
    requires GroupOk(group) && LanesOk(profile) && Reachable(group.files, profile) && !Conflicts(group.files, profile, occupied)
    requires Rescanned(group, profile, LenientStem(group, profile, occupied), after)
    ensures profile.lossless.Some? ==> exists f :: f in after && IsLosslessFile(f) && HasCodec(f, profile.lossless.value.codec)
  {
    ReachedPlan(group, profile, occupied);
    hide LenientStem, Conflicts, SatisfiedEncoded, ReachedDecisions, FreshOutput;
    if profile.lossless.Some? {
      if WantsLossless(group.files, profile) {
        LosslessTargetFree(group, profile);
        var op := LosslessPart(group, profile).ops[0];
        assert op in LenientStem(group, profile, occupied).ops;
        var g :| g in after && g.path == op.target;
      } else {
        var f := DeclaredLossless(group.files, profile)[0];
        assert f in DeclaredLossless(group.files, profile);
        KeptSurvives(group, profile, occupied, f);
        assert f in after;
      }
    }
  }

  lemma EncodedPresent(group: StemGroup, profile: Profile, occupied: set<Path>, after: seq<File>)
    requires GroupOk(group) && LanesOk(profile) && Reachable(group.files, profile) && !Conflicts(group.files, profile, occupied)
    requires Rescanned(group, profile, LenientStem(group, profile, occupied), after)
    ensures profile.encoded.Some? ==> exists f :: f in after && DeclaredLossy(f, profile) && SatisfiedEncoded(f, profile.encoded.value)
  {
    ReachedPlan(group, profile, occupied);
    hide LenientStem, Conflicts, ReachedDecisions;
    if profile.encoded.Some? {
      if WantsEncoded(group.files, profile) {
        EncodedTargetGood(group, profile);
        var op := EncodedPart(group, profile).ops[0];
        assert op in LenientStem(group, profile, occupied).ops;
        var g :| g in after && g.path == op.target;
        assert Targeted(LenientStem(group, profile, occupied).ops, g.path);
        FreshIsSatisfied(g, profile);
      } else {
        var f := EncodedSatisfied(group.files, profile)[0];
        assert f in EncodedSatisfied(group.files, profile);
        KeptSurvives(group, profile, occupied, f);
        assert f in after;
      }
    }
  }

  // ---------- unmet stems ----------

  ghost predicate SameFiles(a: seq<File>, b: seq<File>) {
    forall f :: f in a <==> f in b
  }

  /** What a stem needs and can be built from depends on its files, not on their
      order. */
  lemma UnmetStaysUnmet(a: seq<File>, b: seq<File>, profile: Profile)
    requires SameFiles(a, b) && NeedsOutput(a, profile) && Sources(a, profile) == []
    ensures NeedsOutput(b, profile) && Sources(b, profile) == []
  {
    NoneOf(a, b, profile);
    hide Filter, SatisfiedEncoded, IsLosslessFile;
  }

  lemma NoneOf(a: seq<File>, b: seq<File>, profile: Profile)
    requires SameFiles(a, b)
    ensures DeclaredLossless(a, profile) == [] ==> DeclaredLossless(b, profile) == []
    ensures EncodedSatisfied(a, profile) == [] ==> EncodedSatisfied(b, profile) == []
    ensures forall c :: LosslessOf(a, c) == [] ==> LosslessOf(b, c) == []
  {
    hide SatisfiedEncoded, IsLosslessFile, DeclaredLossy;
    NothingMore(DeclaredLossless(a, profile), DeclaredLossless(b, profile));
    NothingMore(EncodedSatisfied(a, profile), EncodedSatisfied(b, profile));
    forall c | LosslessOf(a, c) == [] ensures LosslessOf(b, c) == [] {
      NothingMore(LosslessOf(a, c), LosslessOf(b, c));
    }
  }

  lemma NothingMore(a: seq<File>, b: seq<File>)
    requires forall f :: f in b ==> f in a
    ensures a == [] ==> b == []
  {
    assert b != [] ==> b[0] in b;
  }

  lemma UnmetUntouched(group: StemGroup, profile: Profile, occupied: set<Path>, after: seq<File>)
    requires NeedsOutput(group.files, profile) && Sources(group.files, profile) == []
    requires Rescanned(group, profile, LenientStem(group, profile, occupied), after)
    ensures SameFiles(group.files, after)
  {
  }

  // ---------- every stem ----------

  /** Planning a stem again after its plan ran: nothing to do and nothing
      blocked; a reached stem is exactly its declared shape, an unmet one holds
      exactly what it held. */
  lemma ReplanStem(group: StemGroup, profile: Profile, occupied: set<Path>, after: seq<File>, later: set<Path>)
    requires GroupOk(group) && LanesOk(profile) && LenientStem(group, profile, occupied).block.None?
    requires Rescanned(group, profile, LenientStem(group, profile, occupied), after)
    ensures var q := LenientStem(StemGroup(group.stem, after), profile, later);
      q.block.None? && q.ops == [] && forall d :: d in q.decisions ==> d.Keep?
    ensures if Reachable(group.files, profile) then Shaped(after, profile) else SameFiles(group.files, after)
  {
    hide Rescanned, Shaped, SameFiles, GroupOk, Sources, NeedsOutput, Conflicts;
    if Reachable(group.files, profile) {
      NoConflict(group, profile, occupied);
      ReachedIsShaped(group, profile, occupied, after);
      ShapedIsFinal(StemGroup(group.stem, after), profile, later);
    } else {
      NotReachable(group, profile, occupied);
      UnmetUntouched(group, profile, occupied, after);
      UnmetStaysUnmet(group.files, after, profile);
    }
  }

  lemma NoConflict(group: StemGroup, profile: Profile, occupied: set<Path>)
    requires Reachable(group.files, profile) && LenientStem(group, profile, occupied).block.None?
    ensures !Conflicts(group.files, profile, occupied)
  {
    hide Conflicts, Sources, NeedsOutput;
  }

  lemma NotReachable(group: StemGroup, profile: Profile, occupied: set<Path>)
    requires !Reachable(group.files, profile) && LenientStem(group, profile, occupied).block.None?
    ensures NeedsOutput(group.files, profile) && Sources(group.files, profile) == []
  {
    hide Conflicts, Sources, NeedsOutput;
  }

  // ---------- a whole component ----------

  /** Every stem of the rescanned component is what the plan of some stem of the
      original component left. */
  ghost predicate RescannedStems(files: seq<File>, profile: Profile, occupied: set<Path>, after: seq<File>) {
    forall k :: 0 <= k < |StemGroups(after)| ==> RescannedStem(files, profile, occupied, StemGroups(after)[k])
  }

  ghost predicate RescannedStem(files: seq<File>, profile: Profile, occupied: set<Path>, group: StemGroup) {
    exists j: nat :: j < |StemGroups(files)| && StemGroups(files)[j].stem == group.stem
      && Rescanned(StemGroups(files)[j], profile, LenientStem(StemGroups(files)[j], profile, occupied), group.files)
  }

  lemma {:induction false} NoStemBlocks(groups: seq<StemGroup>, n: nat, profile: Profile, occupied: set<Path>, id: string, k: nat)
    requires k < n <= |groups| && PlanStems(groups, n, profile, occupied, id).block.None?
    ensures LenientStem(groups[k], profile, occupied).block.None?
  {
    hide LenientStem;
    if k < n - 1 {
      NoStemBlocks(groups, n - 1, profile, occupied, id, k);
    }
  }

  lemma {:induction false} QuietStems(groups: seq<StemGroup>, n: nat, profile: Profile, occupied: set<Path>, id: string)
    requires n <= |groups|
    requires forall k :: 0 <= k < n ==> QuietStem(groups[k], profile, occupied)
    ensures var d := PlanStems(groups, n, profile, occupied, id);
      && d.block.None? && d.ops == [] && |d.variants| == n
      && forall k :: 0 <= k < n ==> forall x :: x in d.variants[k].decisions ==> x.Keep?
  {
    hide LenientStem;
    if n > 0 {
      QuietStems(groups, n - 1, profile, occupied, id);
    }
  }

  ghost predicate QuietStem(group: StemGroup, profile: Profile, occupied: set<Path>) {
    var p := LenientStem(group, profile, occupied);
    p.block.None? && p.ops == [] && forall d :: d in p.decisions ==> d.Keep?
  }

  lemma {:induction false} NoRemovalsOf(v: Variant, k: nat, id: string, targets: seq<Path>)
    requires k <= |v.decisions| && forall d :: d in v.decisions ==> d.Keep?
    ensures RemovalsOf(v, k, id, targets) == []
  {
    if k > 0 {
      NoRemovalsOf(v, k - 1, id, targets);
      assert v.decisions[k - 1] in v.decisions;
    }
  }

  lemma {:induction false} NoRemovals(variants: seq<Variant>, k: nat, id: string, targets: seq<Path>)
    requires k <= |variants| && forall i :: 0 <= i < k ==> forall d :: d in variants[i].decisions ==> d.Keep?
    ensures Removals(variants, k, id, targets) == []
  {
    if k > 0 {
      NoRemovals(variants, k - 1, id, targets);
      NoRemovalsOf(variants[k - 1], |variants[k - 1].decisions|, id, targets);
    }
  }

  /** Plan, run, scan, plan again: the second plan has no operation and no block. */
  lemma ReplanIsNoOp(files: seq<File>, profile: Profile, occupied: set<Path>, id: string, after: seq<File>, later: set<Path>, newId: string)
    requires FilesOk(files) && LanesOk(profile) && LenientComponent(id, files, profile, occupied).block.None?
    requires RescannedStems(files, profile, occupied, after)
    ensures var o := LenientComponent(newId, after, profile, later); o.block.None? && o.operations == []
  {
    hide LenientStem, FilesOk, LanesOk, StemGroups, RescannedStem, LenientComponent;
    forall k | 0 <= k < |StemGroups(after)| ensures FromPlan([files], profile, occupied, StemGroups(after)[k]) {
      assert RescannedStem([files][0], profile, occupied, StemGroups(after)[k]);
    }
    QuietPart([files], [id], profile, occupied, after, later, newId);
  }

  lemma NothingToDo(id: string, files: seq<File>, profile: Profile, occupied: set<Path>, d: Draft)
    requires d == PlanStems(StemGroups(files), |StemGroups(files)|, profile, occupied, id) && d.block.None?
    requires d.ops + Removals(d.variants, |d.variants|, id, d.targets) == [] && SortBy(OpBefore, []) == []
    ensures var o := LenientComponent(id, files, profile, occupied); o.block.None? && o.operations == []
  {
    hide StemGroups, PlanStems, Removals, SortBy;
  }

  lemma SortNothing()
    ensures SortBy(OpBefore, []) == []
  {
  }

  lemma ReplanOne(files: seq<File>, profile: Profile, occupied: set<Path>, id: string, group: StemGroup, later: set<Path>)
    requires FilesOk(files) && LanesOk(profile) && LenientComponent(id, files, profile, occupied).block.None?
    requires RescannedStem(files, profile, occupied, group)
    ensures QuietStem(group, profile, later)
  {
    var groups := StemGroups(files);
    GroupsAreOk(files);
    hide LenientStem, LanesOk, StemGroups, Rescanned, Shaped, SameFiles, GroupOk, Reachable;
    var j: nat :| j < |groups| && groups[j].stem == group.stem && Rescanned(groups[j], profile, LenientStem(groups[j], profile, occupied), group.files);
    NoStemBlocks(groups, |groups|, profile, occupied, id, j);
    ReplanStem(groups[j], profile, occupied, group.files, later);
    assert group == StemGroup(groups[j].stem, group.files);
  }

  // ---------- a whole partition ----------

  /** Every stem of these files is what the plan of some stem of one of the
      original components left. */
  ghost predicate FromPlans(olds: seq<seq<File>>, profile: Profile, occupied: set<Path>, files: seq<File>) {
    forall k :: 0 <= k < |StemGroups(files)| ==> FromPlan(olds, profile, occupied, StemGroups(files)[k])
  }

  ghost predicate FromPlan(olds: seq<seq<File>>, profile: Profile, occupied: set<Path>, group: StemGroup) {
    exists m: nat :: m < |olds| && RescannedStem(olds[m], profile, occupied, group)
  }

  ghost predicate Unblocked(olds: seq<seq<File>>, ids: seq<string>, profile: Profile, occupied: set<Path>) {
    && |ids| == |olds|
    && forall m :: 0 <= m < |olds| ==> FilesOk(olds[m]) && LenientComponent(ids[m], olds[m], profile, occupied).block.None?
  }

  lemma QuietPart(olds: seq<seq<File>>, ids: seq<string>, profile: Profile, occupied: set<Path>, part: seq<File>, later: set<Path>, newId: string)
    requires LanesOk(profile) && Unblocked(olds, ids, profile, occupied) && FromPlans(olds, profile, occupied, part)
    ensures var o := LenientComponent(newId, part, profile, later); o.block.None? && o.operations == []
  {
    var now := StemGroups(part);
    hide LenientStem, FilesOk, LanesOk, StemGroups, RescannedStem, QuietStem, SortBy, LenientComponent;
    forall k | 0 <= k < |now| ensures QuietStem(now[k], profile, later) {
      assert FromPlan(olds, profile, occupied, now[k]);
      var m: nat :| m < |olds| && RescannedStem(olds[m], profile, occupied, now[k]);
      ReplanOne(olds[m], profile, occupied, ids[m], now[k], later);
    }
    QuietStems(now, |now|, profile, later, newId);
    var d := PlanStems(now, |now|, profile, later, newId);
    NoRemovals(d.variants, |d.variants|, newId, d.targets);
    assert d.ops + Removals(d.variants, |d.variants|, newId, d.targets) == [];
    SortNothing();
    NothingToDo(newId, part, profile, later, d);
  }

  /** The stems of a part that leaves none behind are stems of the whole. */
  lemma PartFromPlans(olds: seq<seq<File>>, profile: Profile, occupied: set<Path>, after: seq<File>, part: seq<File>)
    requires FromPlans(olds, profile, occupied, after) && WholeStems(part, after)
    ensures FromPlans(olds, profile, occupied, part)
  {
    hide StemGroups, StemOf, FromPlan, RescannedStem;
    forall k | 0 <= k < |StemGroups(part)| ensures FromPlan(olds, profile, occupied, StemGroups(part)[k]) {
      SameGroup(after, part, k);
      var j: nat :| j < |StemGroups(after)| && SameGroups(StemGroups(after)[j], StemGroups(part)[k]);
      SamePlan(olds, profile, occupied, StemGroups(after)[j], StemGroups(part)[k]);
    }
  }

  ghost predicate SameGroups(a: StemGroup, b: StemGroup) {
    a.stem == b.stem && SameFiles(a.files, b.files)
  }

  lemma SameGroup(after: seq<File>, part: seq<File>, k: nat)
    requires WholeStems(part, after) && k < |StemGroups(part)|
    ensures exists j: nat :: j < |StemGroups(after)| && SameGroups(StemGroups(after)[j], StemGroups(part)[k])
  {
    hide StemGroups, StemOf;
    StemHasMember(part, k);
    var f :| f in part && StemOf(f) == StemGroups(part)[k].stem;
    GroupsCover(after, f);
    var j: nat :| j < |StemGroups(after)| && StemGroups(after)[j].stem == StemOf(f);
    GroupsWithin(after, j);
    GroupsWithin(part, k);
  }

  lemma SamePlan(olds: seq<seq<File>>, profile: Profile, occupied: set<Path>, a: StemGroup, b: StemGroup)
    requires FromPlan(olds, profile, occupied, a) && a.stem == b.stem && SameFiles(a.files, b.files)
    ensures FromPlan(olds, profile, occupied, b)
  {
    hide RescannedStem;
    var m: nat :| m < |olds| && RescannedStem(olds[m], profile, occupied, a);
    SameRescan(olds[m], profile, occupied, a, b);
  }

  lemma SameRescan(files: seq<File>, profile: Profile, occupied: set<Path>, a: StemGroup, b: StemGroup)
    requires RescannedStem(files, profile, occupied, a) && a.stem == b.stem && SameFiles(a.files, b.files)
    ensures RescannedStem(files, profile, occupied, b)
  {
    hide StemGroups, LenientStem, FreshOutput;
    var j: nat :| j < |StemGroups(files)| && StemGroups(files)[j].stem == a.stem
      && Rescanned(StemGroups(files)[j], profile, LenientStem(StemGroups(files)[j], profile, occupied), a.files);
    assert Rescanned(StemGroups(files)[j], profile, LenientStem(StemGroups(files)[j], profile, occupied), b.files);
  }

  lemma StemHasMember(files: seq<File>, k: nat)
    requires k < |StemGroups(files)|
    ensures exists f :: f in files && StemOf(f) == StemGroups(files)[k].stem
  {
    var stems := SortBy(StringLess, Stems(files));
    SortMembers(StringLess, Stems(files));
    assert stems[k] in stems;
  }

  ghost predicate NothingToPlan(id: string, files: seq<File>, profile: Profile, occupied: set<Path>) {
    var o := LenientComponent(id, files, profile, occupied); o.block.None? && o.operations == []
  }

  /** However the search lists the components of these files, none has anything
      to do. */
  ghost predicate NothingLeft(files: seq<File>, profile: Profile, occupied: set<Path>) {
    forall components, k, id :: AreComponents(Filter(files, IsAudio), components) && 0 <= k < |components| ==>
      NothingToPlan(id, components[k], profile, occupied)
  }

  lemma {:induction false} AllAudio(files: seq<File>)
    requires forall f :: f in files ==> IsAudio(f)
    ensures Filter(files, IsAudio) == files
  {
    hide IsAudio;
    if files != [] {
      AllAudio(files[..|files| - 1]);
      assert files == files[..|files| - 1] + [files[|files| - 1]];
    }
  }

  /** Planning a whole partition again: removals may have disconnected its files,
      but none of the components they now form has anything to do. */
  lemma ReplanComponents(olds: seq<seq<File>>, ids: seq<string>, profile: Profile, occupied: set<Path>, after: seq<File>, later: set<Path>)
    requires LanesOk(profile) && Unblocked(olds, ids, profile, occupied) && FromPlans(olds, profile, occupied, after)
    requires forall f :: f in after ==> IsAudio(f)
    ensures NothingLeft(after, profile, later)
  {
    hide LanesOk, Unblocked, FromPlans, AreComponents, WholeStems, LenientComponent, IsAudio;
    AllAudio(after);
    forall components, k, id | AreComponents(Filter(after, IsAudio), components) && 0 <= k < |components|
      ensures NothingToPlan(id, components[k], profile, later)
    {
      ComponentsKeepStems(after, components, k);
      PartFromPlans(olds, profile, occupied, after, components[k]);
      QuietPart(olds, ids, profile, occupied, components[k], later, id);
    }
  }
}
