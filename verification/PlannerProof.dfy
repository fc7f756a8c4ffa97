/** What the planner's operations are, stem by stem and for a whole component. */
module PlannerProof {
  import opened Prelude
  import opened Text
  import opened Audio
  import opened Disk
  import opened Grouping
  import opened Planner

  // ---------- hypotheses ----------

  /** The lossless lane holds a lossless codec, the encoded lane a lossy one. */
  predicate LanesOk(profile: Profile) {
    && (profile.lossless.Some? ==> IsLossless(profile.lossless.value.codec))
    && (profile.encoded.Some? ==>
          && !IsLossless(profile.encoded.value.codec)
          && profile.encoded.value.bitrate.Some? && profile.encoded.value.bitrate.value > 0)
  }

  /** A recognised audio path whose name is more than an extension. */
  predicate Named(p: Path) {
    p != [] && CodecAt(p).Some? && |Base(p)| > |Ext(Base(p))|
  }

  ghost predicate GroupOk(group: StemGroup) {
    && (forall f :: f in group.files ==> Named(f.path) && StemOf(f) == group.stem)
    && PathsDistinct(group.files)
  }

  predicate PathsDistinct(files: seq<File>) {
    forall i, j :: 0 <= i < j < |files| ==> files[i].path != files[j].path
  }

  // ---------- derived paths ----------

  lemma LowerExt(c: Codec)
    ensures ToLower(ExtFor(c)) == ExtFor(c)
  {
  }

  /** A derived path keeps the directory and the stem and has the codec asked for. */
  lemma DerivedPath(p: Path, c: Codec)
    requires Named(p)
    ensures var t := SameStemPath(p, ExtFor(c));
      && t != [] && Dir(t) == Dir(p) && StemAt(t) == StemAt(p) && ExtOf(t) == ExtFor(c) && CodecAt(t) == Some(c) && Named(t)
  {
    var stem, e := TrimExt(Base(p)), ExtFor(c);
    var t := SameStemPath(p, e);
    assert Base(t) == stem + e && Dir(t) == Dir(p);
    ExtOfJoin(stem, e);
    LowerExt(c);
  }

  /** Sources are lossless files of the stem, and never of a missing codec. */
  lemma SourcesAreLossless(files: seq<File>, profile: Profile)
    requires LanesOk(profile)
    ensures forall f :: f in Sources(files, profile) ==> f in files && IsLosslessFile(f)
    ensures forall f :: f in Sources(files, profile) && WantsLossless(files, profile) ==> !HasCodec(f, profile.lossless.value.codec)
  {
  }

  /** An encode of a stem: from one of its lossless files, to a path of the same
      directory and stem with the extension of a declared output. */
  ghost predicate GoodEncode(group: StemGroup, profile: Profile, op: Operation) {
    && op == EncodeOp(group.stem, op.source, op.target)
    && (exists f :: f in group.files && f.path == op.source && IsLosslessFile(f))
    && op.target != [] && StemAt(op.target) == group.stem && Named(op.target)
    && (exists f :: f in group.files && f.path != [] && Dir(f.path) == Dir(op.target))
    && ((profile.lossless.Some? && ExtOf(op.target) == ExtFor(profile.lossless.value.codec) && CodecAt(op.target) == Some(profile.lossless.value.codec)
         && op.target !in PathsOf(group.files))
        || (profile.encoded.Some? && ExtOf(op.target) == ExtFor(profile.encoded.value.codec) && CodecAt(op.target) == Some(profile.encoded.value.codec)))
  }

  /** When the declared lossless output is missing, no file has its codec. */
  lemma MissingIsAbsent(files: seq<File>, profile: Profile, target: Path)
    requires LanesOk(profile) && WantsLossless(files, profile) && CodecAt(target) == Some(profile.lossless.value.codec)
    ensures target !in PathsOf(files)
  {
  }

  /** The target of a missing lossless output is no file of the stem. */
  lemma LosslessTargetFree(group: StemGroup, profile: Profile)
    requires GroupOk(group) && LanesOk(profile) && WantsLossless(group.files, profile) && Sources(group.files, profile) != []
    ensures var op := LosslessPart(group, profile).ops[0];
      && GoodEncode(group, profile, op) && CodecAt(op.target) == Some(profile.lossless.value.codec)
      && op.target !in PathsOf(group.files)
  {
    var files := group.files;
    SourcesAreLossless(files, profile);
    var source := Sources(files, profile)[0];
    assert source in Sources(files, profile);
    DerivedPath(source.path, profile.lossless.value.codec);
    MissingIsAbsent(files, profile, SameStemPath(source.path, ExtFor(profile.lossless.value.codec)));
    hide Sources, WantsLossless, ExtFor, SameStemPath, CodecAt, StemAt, ExtOf, PathsOf, IsLosslessFile;
  }

  lemma EncodedTargetGood(group: StemGroup, profile: Profile)
    requires GroupOk(group) && LanesOk(profile) && WantsEncoded(group.files, profile) && Sources(group.files, profile) != []
    ensures var op := EncodedPart(group, profile).ops[0];
      && GoodEncode(group, profile, op) && CodecAt(op.target) == Some(profile.encoded.value.codec)
      && op.target == EncodedTarget(group.files, profile)
  {
    var files := group.files;
    SourcesAreLossless(files, profile);
    assert Sources(files, profile)[0] in Sources(files, profile);
    var below := EncodedBelow(files, profile);
    if |below| == 1 {
      assert below[0] in below;
      DerivedPath(below[0].path, profile.encoded.value.codec);
    } else {
      DerivedPath(Sources(files, profile)[0].path, profile.encoded.value.codec);
    }
  }

  // ---------- the decisions of a stem ----------

  predicate DecisionsDistinct(ds: seq<Decision>) {
    forall i, j :: 0 <= i < j < |ds| ==> ds[i].path != ds[j].path
  }

  function DecisionPaths(ds: seq<Decision>): set<Path> {
    set d | d in ds :: d.path
  }

  lemma JoinDecisions(a: seq<Decision>, b: seq<Decision>)
    requires DecisionsDistinct(a) && DecisionsDistinct(b) && DecisionPaths(a) !! DecisionPaths(b)
    ensures DecisionsDistinct(a + b) && DecisionPaths(a + b) == DecisionPaths(a) + DecisionPaths(b)
  {
    forall i, j | 0 <= i < j < |a + b| ensures (a + b)[i].path != (a + b)[j].path {
      if i < |a| <= j {
        assert a[i] in a && b[j - |a|] in b;
        assert a[i].path in DecisionPaths(a) && b[j - |a|].path in DecisionPaths(b);
      } else if |a| <= i {
        assert b[i - |a|].path != b[j - |a|].path;
      }
    }
  }

  lemma {:induction false} FilterDistinct(files: seq<File>, keep: File -> bool)
    requires PathsDistinct(files)
    ensures PathsDistinct(Filter(files, keep))
  {
    if files != [] {
      var init, last := files[..|files| - 1], files[|files| - 1];
      FilterDistinct(init, keep);
      forall f | f in Filter(init, keep) ensures f.path != last.path {
        assert f in init;
      }
    }
  }

  lemma KeepAllPaths(files: seq<File>, reason: File -> Reason)
    requires PathsDistinct(files)
    ensures DecisionsDistinct(KeepAll(files, reason)) && DecisionPaths(KeepAll(files, reason)) == PathsOf(files)
    ensures forall d :: d in KeepAll(files, reason) ==> d.Keep?
  {
  }

  lemma PathsGrow(files: seq<File>, last: File)
    ensures PathsOf(files + [last]) == PathsOf(files) + {last.path}
  {
  }

  lemma OneDecision(d: Decision)
    ensures DecisionPaths([d]) == {d.path} && DecisionsDistinct([d])
  {
    assert d in [d];
  }

  lemma {:induction false} DeleteAllPaths(files: seq<File>, spared: set<Path>)
    requires PathsDistinct(files)
    ensures DecisionsDistinct(DeleteAll(files, spared)) && DecisionPaths(DeleteAll(files, spared)) == PathsOf(files) - spared
  {
    if files == [] {
      assert DeleteAll(files, spared) == [];
    } else {
      var init, last := files[..|files| - 1], files[|files| - 1];
      assert files == init + [last];
      DeleteAllPaths(init, spared);
      assert last.path !in PathsOf(init);
      PathsGrow(init, last);
      hide PathsOf, ObsoleteReason, DecisionsDistinct, DecisionPaths;
      if last.path !in spared {
        var d := Delete(last.path, ObsoleteReason(last));
        OneDecision(d);
        JoinDecisions(DeleteAll(init, spared), [d]);
      }
    }
  }

  /** What an unblocked stem plans. */
  ghost predicate StemSound(group: StemGroup, profile: Profile, occupied: set<Path>, p: StemPlan) {
    && OpsGood(group, profile, occupied, p.ops) && OpsDecided(p.ops, p.decisions) && Observed(group, p.decisions)
    && DecisionsDistinct(p.decisions) && p.targets == OpTargets(p.ops)
  }

  ghost predicate OpsGood(group: StemGroup, profile: Profile, occupied: set<Path>, ops: seq<Operation>) {
    && (forall op :: op in ops ==> GoodEncode(group, profile, op) && Allowed(group, profile, occupied, op.target))
    && (forall i, j :: 0 <= i < j < |ops| ==> ops[i].target != ops[j].target)
  }

  /** Encode decisions and encode operations name the same targets. */
  ghost predicate OpsDecided(ops: seq<Operation>, ds: seq<Decision>) {
    && (forall op :: op in ops ==> Decided(ds, op.target))
    && (forall d :: d in ds && d.EncodeTo? ==> Targeted(ops, d.path))
  }

  predicate Decided(ds: seq<Decision>, target: Path) {
    exists d :: d in ds && d.EncodeTo? && d.path == target
  }

  predicate Targeted(ops: seq<Operation>, target: Path) {
    exists op :: op in ops && op.target == target
  }

  /** What is kept or deleted was observed. */
  ghost predicate Observed(group: StemGroup, ds: seq<Decision>) {
    forall d :: d in ds && !d.EncodeTo? ==> d.path in PathsOf(group.files)
  }

  /** A target is free, the stem's own file, or the missing lossless output. */
  ghost predicate Allowed(group: StemGroup, profile: Profile, occupied: set<Path>, target: Path) {
    target in PathsOf(group.files) || target !in occupied || MissingLossless(group, profile, target)
  }

  ghost predicate MissingLossless(group: StemGroup, profile: Profile, target: Path) {
    WantsLossless(group.files, profile) && CodecAt(target) == Some(profile.lossless.value.codec)
  }

  function OpTargets(ops: seq<Operation>): (r: seq<Path>)
    ensures |r| == |ops| && forall k :: 0 <= k < |r| ==> r[k] == ops[k].target
  {
    seq(|ops|, k requires 0 <= k < |ops| => ops[k].target)
  }

  /** The stem can be brought to its declared shape. */
  predicate Reachable(files: seq<File>, profile: Profile) {
    NeedsOutput(files, profile) ==> |Sources(files, profile)| == 1
  }

  lemma UnmetSound(group: StemGroup, profile: Profile, occupied: set<Path>)
    requires GroupOk(group) && NeedsOutput(group.files, profile) && Sources(group.files, profile) == []
    ensures StemSound(group, profile, occupied, LenientStem(group, profile, occupied))
  {
    var reason := (f: File) => UnmetReason(f, profile);
    hide NeedsOutput, Sources, UnmetReason;
    KeepAllPaths(group.files, reason);
    var p := LenientStem(group, profile, occupied);
    assert p.decisions == KeepAll(group.files, reason) && p.ops == [] && p.targets == OpTargets([]);
    forall d | d in p.decisions ensures d.path in PathsOf(group.files) {
      assert d.path in DecisionPaths(p.decisions);
    }
  }

  /** Kept files and planned targets never meet. */
  lemma KeptApart(files: seq<File>, profile: Profile)
    requires LanesOk(profile) && PathsDistinct(files)
    ensures DecisionsDistinct(Kept(files, profile))
    ensures DecisionPaths(Kept(files, profile)) == PathsOf(DeclaredLossless(files, profile)) + PathsOf(EncodedSatisfied(files, profile))
    ensures DecisionPaths(Kept(files, profile)) <= PathsOf(files)
    ensures forall d :: d in Kept(files, profile) ==> d.Keep?
  {
    var a, b := DeclaredLossless(files, profile), EncodedSatisfied(files, profile);
    if profile.lossless.Some? {
      FilterDistinct(files, (f: File) => IsLosslessFile(f) && HasCodec(f, profile.lossless.value.codec));
    }
    FilterDistinct(files, (f: File) => DeclaredLossy(f, profile) && SatisfiedEncoded(f, profile.encoded.value));
    KeepAllPaths(a, _ => KeepLosslessTarget);
    KeepAllPaths(b, _ => KeepEncodedSatisfied);
    forall f, g | f in a && g in b ensures f.path != g.path {
      assert IsLosslessFile(f) && !IsLosslessFile(g);
    }
    hide DeclaredLossless, EncodedSatisfied, IsLosslessFile;
    JoinDecisions(KeepAll(a, _ => KeepLosslessTarget), KeepAll(b, _ => KeepEncodedSatisfied));
  }

  lemma EncodedTargetApart(group: StemGroup, profile: Profile)
    requires GroupOk(group) && LanesOk(profile) && WantsEncoded(group.files, profile) && Sources(group.files, profile) != []
    ensures EncodedTarget(group.files, profile) !in PathsOf(DeclaredLossless(group.files, profile)) + PathsOf(EncodedSatisfied(group.files, profile))
    ensures CodecAt(EncodedTarget(group.files, profile)) == Some(profile.encoded.value.codec)
  {
    EncodedTargetGood(group, profile);
    hide Sources, EncodedTarget, SatisfiedEncoded, GoodEncode;
    forall f | f in DeclaredLossless(group.files, profile) ensures f.path != EncodedTarget(group.files, profile) {
      assert IsLosslessFile(f);
    }
  }

  /** The decisions of a stem that is brought to its declared shape. */
  function ReachedDecisions(group: StemGroup, profile: Profile): seq<Decision>
    requires Reachable(group.files, profile)
  {
    Kept(group.files, profile) + LosslessPart(group, profile).decisions + EncodedPart(group, profile).decisions
    + DeleteAll(group.files, Spared(group.files, profile))
  }

  lemma NoDecisions()
    ensures DecisionPaths([]) == {} && DecisionsDistinct([])
  {
  }

  lemma PartPaths(group: StemGroup, profile: Profile)
    requires GroupOk(group) && LanesOk(profile) && Reachable(group.files, profile)
    ensures var l, e := LosslessPart(group, profile).decisions, EncodedPart(group, profile).decisions; var files := group.files;
      && DecisionsDistinct(l) && DecisionsDistinct(e) && DecisionPaths(l) !! DecisionPaths(e)
      && DecisionPaths(l) !! PathsOf(files)
      && DecisionPaths(e) !! PathsOf(DeclaredLossless(files, profile)) + PathsOf(EncodedSatisfied(files, profile))
      && Spared(files, profile) == PathsOf(DeclaredLossless(files, profile)) + PathsOf(EncodedSatisfied(files, profile)) + DecisionPaths(e)
  {
    hide Sources, EncodedTarget, SatisfiedEncoded, GoodEncode, CodecAt, SameStemPath, PathsOf, DecisionPaths, DecisionsDistinct, GroupOk, DeclaredLossless, EncodedSatisfied;
    NoDecisions();
    if WantsLossless(group.files, profile) {
      LosslessTargetFree(group, profile);
      OneDecision(LosslessPart(group, profile).decisions[0]);
    }
    if WantsEncoded(group.files, profile) {
      EncodedTargetApart(group, profile);
      OneDecision(EncodedPart(group, profile).decisions[0]);
    }
  }

  lemma ReachedDistinct(group: StemGroup, profile: Profile)
    requires GroupOk(group) && LanesOk(profile) && Reachable(group.files, profile)
    ensures DecisionsDistinct(ReachedDecisions(group, profile))
  {
    var files := group.files;
    var k, l, e := Kept(files, profile), LosslessPart(group, profile).decisions, EncodedPart(group, profile).decisions;
    var d := DeleteAll(files, Spared(files, profile));
    KeptApart(files, profile);
    PartPaths(group, profile);
    DeleteAllPaths(files, Spared(files, profile));
    hide DecisionsDistinct, DecisionPaths, PathsOf, Kept, DeleteAll, LosslessPart, EncodedPart, Spared, Sources, DeclaredLossless, EncodedSatisfied;
    JoinDecisions(k, l);
    JoinDecisions(k + l, e);
    JoinDecisions(k + l + e, d);
  }

  /** A lane contributes nothing, or one good encode and its decision. */
  ghost predicate PartSound(group: StemGroup, profile: Profile, occupied: set<Path>, part: StemPlan) {
    && |part.ops| == |part.decisions| == |part.targets| <= 1
    && (part.ops != [] ==>
          && GoodEncode(group, profile, part.ops[0])
          && part.decisions[0].EncodeTo? && part.decisions[0].path == part.targets[0] == part.ops[0].target
          && Allowed(group, profile, occupied, part.ops[0].target))
  }

  lemma LosslessPartSound(group: StemGroup, profile: Profile, occupied: set<Path>)
    requires GroupOk(group) && LanesOk(profile) && Reachable(group.files, profile)
    ensures PartSound(group, profile, occupied, LosslessPart(group, profile))
  {
    if WantsLossless(group.files, profile) {
      LosslessTargetFree(group, profile);
    }
    hide Sources, GoodEncode, CodecAt, SameStemPath, PathsOf, GroupOk;
  }

  lemma EncodedPartSound(group: StemGroup, profile: Profile, occupied: set<Path>)
    requires GroupOk(group) && LanesOk(profile) && Reachable(group.files, profile) && !Conflicts(group.files, profile, occupied)
    ensures PartSound(group, profile, occupied, EncodedPart(group, profile))
  {
    if WantsEncoded(group.files, profile) {
      EncodedTargetGood(group, profile);
    }
    hide Sources, GoodEncode, CodecAt, SameStemPath, PathsOf, GroupOk, EncodedTarget, MissingLossless;
  }

  lemma ReachedSound(group: StemGroup, profile: Profile, occupied: set<Path>)
    requires GroupOk(group) && LanesOk(profile) && Reachable(group.files, profile) && !Conflicts(group.files, profile, occupied)
    ensures StemSound(group, profile, occupied, LenientStem(group, profile, occupied))
  {
    var p := LenientStem(group, profile, occupied);
    var l, e := LosslessPart(group, profile), EncodedPart(group, profile);
    ReachedDistinct(group, profile);
    LosslessPartSound(group, profile, occupied);
    EncodedPartSound(group, profile, occupied);
    PartPaths(group, profile);
    KeptApart(group.files, profile);
    DeletesObserved(group.files, Spared(group.files, profile));
    assert p.decisions == ReachedDecisions(group, profile) && p.ops == l.ops + e.ops && p.targets == l.targets + e.targets;
    hide LenientStem, LosslessPart, EncodedPart, Kept, DeleteAll, Spared, GoodEncode, DecisionsDistinct, Conflicts, MissingLossless, Allowed, GroupOk, StemSound, PartSound;
    JoinParts(group, profile, occupied, Kept(group.files, profile), l, e, DeleteAll(group.files, Spared(group.files, profile)), p);
  }

  lemma JoinParts(group: StemGroup, profile: Profile, occupied: set<Path>, kept: seq<Decision>, l: StemPlan, e: StemPlan, gone: seq<Decision>, p: StemPlan)
    requires PartSound(group, profile, occupied, l) && PartSound(group, profile, occupied, e)
    requires DecisionPaths(l.decisions) !! DecisionPaths(e.decisions)
    requires p.decisions == kept + l.decisions + e.decisions + gone && p.ops == l.ops + e.ops && p.targets == l.targets + e.targets
    requires DecisionsDistinct(p.decisions)
    requires DecisionPaths(kept) <= PathsOf(group.files) && (forall d :: d in kept ==> d.Keep?)
    requires forall d :: d in gone ==> d.Delete? && d.path in PathsOf(group.files)
    ensures StemSound(group, profile, occupied, p)
  {
    hide PartSound, OpsGood, OpsDecided, Observed, DecisionsDistinct, DecisionPaths, PathsOf;
    PartsGood(group, profile, occupied, l, e);
    PartsDecided(group, profile, occupied, kept, l, e, gone);
    PartsObserved(group, profile, occupied, kept, l, e, gone);
    PartTargets(group, profile, occupied, l);
    PartTargets(group, profile, occupied, e);
    assert OpTargets(p.ops) == OpTargets(l.ops) + OpTargets(e.ops);
  }

  lemma PartTargets(group: StemGroup, profile: Profile, occupied: set<Path>, part: StemPlan)
    requires PartSound(group, profile, occupied, part)
    ensures part.targets == OpTargets(part.ops)
  {
    hide GoodEncode, Allowed;
  }

  lemma PartsGood(group: StemGroup, profile: Profile, occupied: set<Path>, l: StemPlan, e: StemPlan)
    requires PartSound(group, profile, occupied, l) && PartSound(group, profile, occupied, e)
    requires DecisionPaths(l.decisions) !! DecisionPaths(e.decisions)
    ensures OpsGood(group, profile, occupied, l.ops + e.ops)
  {
    hide GoodEncode, Allowed;
    if l.ops != [] && e.ops != [] {
      assert l.decisions[0] in l.decisions && e.decisions[0] in e.decisions;
      assert l.ops[0].target in DecisionPaths(l.decisions) && e.ops[0].target in DecisionPaths(e.decisions);
    }
  }

  lemma PartsDecided(group: StemGroup, profile: Profile, occupied: set<Path>, kept: seq<Decision>, l: StemPlan, e: StemPlan, gone: seq<Decision>)
    requires PartSound(group, profile, occupied, l) && PartSound(group, profile, occupied, e)
    requires (forall d :: d in kept ==> d.Keep?) && (forall d :: d in gone ==> d.Delete?)
    ensures OpsDecided(l.ops + e.ops, kept + l.decisions + e.decisions + gone)
  {
    hide GoodEncode, Allowed;
    var ops, ds := l.ops + e.ops, kept + l.decisions + e.decisions + gone;
    forall op | op in ops ensures Decided(ds, op.target) {
      var d := if op in l.ops then l.decisions[0] else e.decisions[0];
      assert d in ds;
    }
    forall d | d in ds && d.EncodeTo? ensures Targeted(ops, d.path) {
      var op := if d in l.decisions then l.ops[0] else e.ops[0];
      assert op in ops;
    }
  }

  lemma PartsObserved(group: StemGroup, profile: Profile, occupied: set<Path>, kept: seq<Decision>, l: StemPlan, e: StemPlan, gone: seq<Decision>)
    requires PartSound(group, profile, occupied, l) && PartSound(group, profile, occupied, e)
    requires DecisionPaths(kept) <= PathsOf(group.files) && forall d :: d in gone ==> d.path in PathsOf(group.files)
    ensures Observed(group, kept + l.decisions + e.decisions + gone)
  {
    hide GoodEncode, Allowed, PathsOf;
    forall d | d in kept + l.decisions + e.decisions + gone && !d.EncodeTo? ensures d.path in PathsOf(group.files) {
      assert d in kept ==> d.path in DecisionPaths(kept);
    }
  }

  lemma DeletesObserved(files: seq<File>, spared: set<Path>)
    ensures forall d :: d in DeleteAll(files, spared) ==> d.Delete? && d.path in PathsOf(files)
  {
  }

  /** Every unblocked stem plan is sound. */
  lemma EveryStemSound(group: StemGroup, profile: Profile, occupied: set<Path>)
    requires GroupOk(group) && LanesOk(profile) && LenientStem(group, profile, occupied).block.None?
    ensures StemSound(group, profile, occupied, LenientStem(group, profile, occupied))
  {
    hide StemSound, GroupOk, LanesOk, PathsOf, EncodedTarget, WantsLossless, WantsEncoded;
    if NeedsOutput(group.files, profile) && Sources(group.files, profile) == [] {
      UnmetSound(group, profile, occupied);
    } else {
      ReachedSound(group, profile, occupied);
    }
  }
}
