/** The decision table, said about the files of a stem and the plan that comes out
    of them, without the planner's own lists. */
module PlannerExact {
  import opened Prelude
  import opened Text
  import opened Audio
  import opened Disk
  import opened Grouping
  import opened Planner
  import opened PlannerProof

  // ---------- the files of a stem ----------

  /** A file in the declared lossless codec. */
  predicate HoldsLossless(f: File, profile: Profile) {
    profile.lossless.Some? && IsLosslessFile(f) && HasCodec(f, profile.lossless.value.codec)
  }

  /** A lossy file in the declared codec that meets its target, or does not. */
  predicate Meets(f: File, profile: Profile) {
    profile.encoded.Some? && !IsLosslessFile(f) && HasCodec(f, profile.encoded.value.codec) && SatisfiedEncoded(f, profile.encoded.value)
  }

  predicate FallsShort(f: File, profile: Profile) {
    profile.encoded.Some? && !IsLosslessFile(f) && HasCodec(f, profile.encoded.value.codec) && !SatisfiedEncoded(f, profile.encoded.value)
  }

  predicate MissesLossless(files: seq<File>, profile: Profile) {
    profile.lossless.Some? && forall f :: f in files ==> !HoldsLossless(f, profile)
  }

  predicate MissesEncoded(files: seq<File>, profile: Profile) {
    profile.encoded.Some? && forall f :: f in files ==> !Meets(f, profile)
  }

  /** The file to encode from: in the declared lossless codec if there is any,
      else WAV if there is any, else FLAC. */
  predicate Preferred(f: File, files: seq<File>, profile: Profile) {
    && f in files
    && if exists g :: g in files && HoldsLossless(g, profile) then HoldsLossless(f, profile)
       else if exists g :: g in files && HasCodec(g, Wav) then HasCodec(f, Wav)
       else HasCodec(f, Flac)
  }

  /** Beside a file: in its directory, with its display name and the codec's
      extension. */
  predicate BesideAs(target: Path, p: Path, c: Codec) {
    p != [] && target == Dir(p) + [TrimExt(Base(p)) + ExtFor(c)]
  }

  /** Where the missing encoded output goes: in place of the only file that falls
      short of it, or beside the source. */
  ghost predicate EncodedGoesTo(target: Path, src: File, files: seq<File>, profile: Profile) {
    profile.encoded.Some? &&
    if exists f :: OnlyShort(f, files, profile) then
      exists f :: OnlyShort(f, files, profile) && BesideAs(target, f.path, profile.encoded.value.codec)
    else BesideAs(target, src.path, profile.encoded.value.codec)
  }

  predicate OnlyShort(f: File, files: seq<File>, profile: Profile) {
    f in files && FallsShort(f, profile) && forall g :: g in files && FallsShort(g, profile) ==> g == f
  }

  // ---------- the planner's lists ----------

  lemma ListsAre(files: seq<File>, profile: Profile)
    ensures forall f :: f in DeclaredLossless(files, profile) <==> f in files && HoldsLossless(f, profile)
    ensures forall f :: f in EncodedSatisfied(files, profile) <==> f in files && Meets(f, profile)
    ensures forall f :: f in EncodedBelow(files, profile) <==> f in files && FallsShort(f, profile)
    ensures forall f :: f in Sources(files, profile) <==> Preferred(f, files, profile)
    ensures WantsLossless(files, profile) <==> MissesLossless(files, profile)
    ensures WantsEncoded(files, profile) <==> MissesEncoded(files, profile)
  {
    MemberLists(files, profile);
    SourceList(files, profile);
    hide IsLosslessFile, HasCodec, SatisfiedEncoded, DeclaredLossless, EncodedSatisfied, EncodedBelow, Sources, Preferred;
    assert DeclaredLossless(files, profile) == [] || DeclaredLossless(files, profile)[0] in DeclaredLossless(files, profile);
    assert EncodedSatisfied(files, profile) == [] || EncodedSatisfied(files, profile)[0] in EncodedSatisfied(files, profile);
  }

  lemma MemberLists(files: seq<File>, profile: Profile)
    ensures forall f :: f in DeclaredLossless(files, profile) <==> f in files && HoldsLossless(f, profile)
    ensures forall f :: f in EncodedSatisfied(files, profile) <==> f in files && Meets(f, profile)
    ensures forall f :: f in EncodedBelow(files, profile) <==> f in files && FallsShort(f, profile)
    ensures forall f, c :: f in LosslessOf(files, c) <==> f in files && IsLosslessFile(f) && HasCodec(f, c)
  {
    hide IsLosslessFile, HasCodec, SatisfiedEncoded;
  }

  lemma SourceList(files: seq<File>, profile: Profile)
    ensures forall f :: f in Sources(files, profile) <==> Preferred(f, files, profile)
  {
    MemberLists(files, profile);
    hide CodecAt, SatisfiedEncoded, DeclaredLossless, LosslessOf;
    assert DeclaredLossless(files, profile) == [] || DeclaredLossless(files, profile)[0] in DeclaredLossless(files, profile);
    assert LosslessOf(files, Wav) == [] || LosslessOf(files, Wav)[0] in LosslessOf(files, Wav);
  }

  lemma ListsDistinct(files: seq<File>, profile: Profile)
    requires PathsDistinct(files)
    ensures PathsDistinct(Sources(files, profile)) && PathsDistinct(EncodedBelow(files, profile))
  {
    hide IsLosslessFile, HasCodec, SatisfiedEncoded;
    if profile.lossless.Some? {
      FilterDistinct(files, (f: File) => IsLosslessFile(f) && HasCodec(f, profile.lossless.value.codec));
    }
    FilterDistinct(files, (f: File) => IsLosslessFile(f) && HasCodec(f, Wav));
    FilterDistinct(files, (f: File) => IsLosslessFile(f) && HasCodec(f, Flac));
    FilterDistinct(files, (f: File) => DeclaredLossy(f, profile) && !SatisfiedEncoded(f, profile.encoded.value));
  }

  /** A list of some distinct files, counted by what is in it. */
  lemma CountMany(list: seq<File>, member: File -> bool)
    requires PathsDistinct(list) && forall f :: f in list <==> member(f)
    ensures |list| > 1 <==> exists f, g :: member(f) && member(g) && f != g
  {
    if |list| > 1 {
      assert list[0] in list && list[1] in list && list[0].path != list[1].path;
      assert member(list[0]) && member(list[1]) && list[0] != list[1];
    }
    forall f, g | member(f) && member(g) && f != g ensures |list| > 1 {
      assert f in list && g in list;
    }
  }

  lemma CountOne(list: seq<File>, member: File -> bool, f: File)
    requires PathsDistinct(list) && forall f :: f in list <==> member(f)
    requires member(f) && forall g :: member(g) ==> g == f
    ensures list == [f]
  {
    assert f in list;
    forall i | 0 <= i < |list| ensures list[i] == f {
      assert list[i] in list && member(list[i]);
    }
    assert |list| <= 1 || list[0].path != list[1].path;
    assert |list| == 1;
  }

  lemma Count(list: seq<File>, member: File -> bool)
    requires PathsDistinct(list) && forall f :: f in list <==> member(f)
    ensures |list| > 1 <==> exists f, g :: member(f) && member(g) && f != g
    ensures list == [] <==> forall f :: !member(f)
    ensures forall f :: member(f) && (forall g :: member(g) ==> g == f) ==> list == [f]
    ensures |list| == 1 ==> member(list[0]) && forall g :: member(g) ==> g == list[0]
  {
    CountMany(list, member);
    hide PathsDistinct;
    if list != [] { assert list[0] in list && member(list[0]); }
    forall f | member(f) && (forall g :: member(g) ==> g == f) ensures list == [f] { CountOne(list, member, f); }
    if |list| == 1 {
      forall g | member(g) ensures g == list[0] { assert g in list; }
    }
  }

  lemma SourcesCount(files: seq<File>, profile: Profile)
    requires PathsDistinct(files)
    ensures var list := Sources(files, profile);
      && (|list| > 1 <==> exists f, g :: Preferred(f, files, profile) && Preferred(g, files, profile) && f != g)
      && (list == [] <==> forall f :: !Preferred(f, files, profile))
      && (forall f :: OnlySource(f, files, profile) ==> list == [f])
  {
    hide Sources, Preferred, PathsDistinct;
    ListsAre(files, profile);
    ListsDistinct(files, profile);
    Count(Sources(files, profile), (f: File) => Preferred(f, files, profile));
    forall f | OnlySource(f, files, profile) ensures Sources(files, profile) == [f] {
      InFiles(files, profile);
    }
  }

  lemma InFiles(files: seq<File>, profile: Profile)
    ensures forall f :: Preferred(f, files, profile) ==> f in files
  {
  }

  lemma BelowCount(files: seq<File>, profile: Profile)
    requires PathsDistinct(files)
    ensures var list := EncodedBelow(files, profile);
      && (|list| == 1 <==> exists f :: OnlyShort(f, files, profile))
      && (forall f :: OnlyShort(f, files, profile) ==> list == [f])
  {
    hide EncodedBelow, FallsShort, PathsDistinct;
    ListsAre(files, profile);
    ListsDistinct(files, profile);
    Count(EncodedBelow(files, profile), (f: File) => f in files && FallsShort(f, profile));
    var list := EncodedBelow(files, profile);
    if |list| == 1 { assert OnlyShort(list[0], files, profile); }
  }

  // ---------- the table ----------

  predicate Misses(files: seq<File>, profile: Profile) {
    MissesLossless(files, profile) || MissesEncoded(files, profile)
  }

  /** The one file to encode from. */
  predicate OnlySource(f: File, files: seq<File>, profile: Profile) {
    Preferred(f, files, profile) && forall g :: g in files && Preferred(g, files, profile) ==> g == f
  }

  /** Something is missing and there are several files to encode it from: the stem
      is blocked and nothing is planned for it. */
  lemma AmbiguousBlocks(group: StemGroup, profile: Profile, occupied: set<Path>)
    requires PathsDistinct(group.files) && Misses(group.files, profile)
    ensures var p := LenientStem(group, profile, occupied);
      p.block == Some(SourceAmbiguous) <==> exists f, g :: Preferred(f, group.files, profile) && Preferred(g, group.files, profile) && f != g
    ensures var p := LenientStem(group, profile, occupied);
      p.block == Some(SourceAmbiguous) ==> p.ops == [] && p.targets == [] && p.decisions == [Keep([group.stem], AmbiguousSource)]
  {
    hide Sources, WantsLossless, WantsEncoded, MissesLossless, MissesEncoded, Preferred, Conflicts, DeleteAll, Spared, Kept, LosslessPart, EncodedPart, PathsDistinct;
    ListsAre(group.files, profile);
    SourcesCount(group.files, profile);
  }

  /** Nothing to encode what is missing from: every file is kept and the stem is
      reported unmet. */
  lemma UnmetKeepsAll(group: StemGroup, profile: Profile, occupied: set<Path>)
    requires PathsDistinct(group.files) && Misses(group.files, profile) && forall f :: f in group.files ==> !Preferred(f, group.files, profile)
    ensures var p := LenientStem(group, profile, occupied); var files := group.files;
      && p.block == None && p.ops == [] && p.targets == [] && |p.decisions| == |files|
      && forall k :: 0 <= k < |files| ==>
        p.decisions[k] == Keep(files[k].path, if FallsShort(files[k], profile) then ConformanceUnconfirmed else UnmetTarget)
  {
    hide PathsDistinct, Preferred, DeclaredLossless, EncodedSatisfied, Sources, WantsLossless, WantsEncoded, MissesLossless, MissesEncoded, HasCodec, IsLosslessFile, SatisfiedEncoded;
    ListsAre(group.files, profile);
    InFiles(group.files, profile);
    SourcesCount(group.files, profile);
  }

  /** What a stem that can be brought to its declared shape needs: its source, and
      where its missing outputs go. */
  ghost predicate Placed(files: seq<File>, profile: Profile, src: File, lossless: Path, encoded: Path) {
    && (Misses(files, profile) ==> OnlySource(src, files, profile))
    && (MissesLossless(files, profile) ==> BesideAs(lossless, src.path, profile.lossless.value.codec))
    && (MissesEncoded(files, profile) ==> EncodedGoesTo(encoded, src, files, profile))
  }

  /** The encoded target is taken by something that is no file of the stem. */
  predicate TakenByAnother(files: seq<File>, profile: Profile, occupied: set<Path>, encoded: Path) {
    MissesEncoded(files, profile) && encoded in occupied && forall f :: f in files ==> f.path != encoded
  }

  predicate KeepsOrMakes(d: Decision, files: seq<File>, profile: Profile, lossless: Path, encoded: Path) {
    || (exists f :: f in files && HoldsLossless(f, profile) && d == Keep(f.path, KeepLosslessTarget))
    || (exists f :: f in files && Meets(f, profile) && d == Keep(f.path, KeepEncodedSatisfied))
    || (MissesLossless(files, profile) && d == EncodeTo(lossless, MaterializeLossless))
    || (MissesEncoded(files, profile) && d == EncodeTo(encoded, MaterializeEncoded))
  }

  /** A file goes when it is neither of a declared output nor replaced in place. */
  predicate Goes(f: File, files: seq<File>, profile: Profile, encoded: Path) {
    !HoldsLossless(f, profile) && !Meets(f, profile) && !(MissesEncoded(files, profile) && f.path == encoded)
  }

  predicate Removes(d: Decision, files: seq<File>, profile: Profile, encoded: Path) {
    exists f :: f in files && Goes(f, files, profile, encoded) && d == Delete(f.path, if IsLosslessFile(f) then ObsoleteLossless else ObsoleteEncoded)
  }

  lemma TargetsAre(files: seq<File>, profile: Profile, src: File, lossless: Path, encoded: Path)
    requires PathsDistinct(files) && Placed(files, profile, src, lossless, encoded) && Misses(files, profile)
    ensures Sources(files, profile) == [src]
    ensures MissesLossless(files, profile) ==> lossless == SameStemPath(src.path, ExtFor(profile.lossless.value.codec))
    ensures MissesEncoded(files, profile) ==> encoded == EncodedTarget(files, profile)
  {
    hide Preferred, FallsShort, Meets, HoldsLossless, PathsDistinct, EncodedBelow, Sources, MissesLossless, MissesEncoded, OnlySource, OnlyShort;
    SourcesCount(files, profile);
    BelowCount(files, profile);
  }

  /** A stem that can be brought to its declared shape: it is blocked exactly when
      its encoded target is taken by another; otherwise its operations encode what
      is missing from the source to its place, and nothing else. */
  lemma ReachedIsPlanned(group: StemGroup, profile: Profile, occupied: set<Path>, src: File, lossless: Path, encoded: Path)
    requires PathsDistinct(group.files) && Placed(group.files, profile, src, lossless, encoded)
    ensures var p := LenientStem(group, profile, occupied); var taken := TakenByAnother(group.files, profile, occupied, encoded);
      && p.block == (if taken then Some(TargetPathConflict) else None)
      && p.ops == (if MissesLossless(group.files, profile) then [EncodeOp(group.stem, src.path, lossless)] else [])
                  + (if MissesEncoded(group.files, profile) && !taken then [EncodeOp(group.stem, src.path, encoded)] else [])
      && p.targets == OpTargets(p.ops)
  {
    hide Preferred, FallsShort, Meets, HoldsLossless, PathsDistinct, EncodedBelow, Sources, WantsLossless, WantsEncoded, MissesLossless, MissesEncoded, EncodedTarget, SameStemPath, Kept, DeleteAll, Spared, EncodedGoesTo, BesideAs, OnlySource;
    ListsAre(group.files, profile);
    if Misses(group.files, profile) { TargetsAre(group.files, profile, src, lossless, encoded); }
  }

  lemma NoConflictThen(group: StemGroup, profile: Profile, occupied: set<Path>)
    requires LenientStem(group, profile, occupied).block == None && (Misses(group.files, profile) ==> exists f :: Preferred(f, group.files, profile))
    ensures Reachable(group.files, profile)
    ensures LenientStem(group, profile, occupied).decisions == ReachedDecisions(group, profile)
  {
    ListsAre(group.files, profile);
    hide Preferred, Kept, DeleteAll, Spared, EncodedTarget, SameStemPath, WantsLossless, WantsEncoded, MissesLossless, MissesEncoded, Sources;
    if Misses(group.files, profile) {
      var f :| Preferred(f, group.files, profile);
      assert f in Sources(group.files, profile);
    }
  }

  /** And its decisions keep what holds a declared output, make what is missing,
      and remove every other file that is not replaced in place: these and no
      others. */
  lemma ReachedDecides(group: StemGroup, profile: Profile, occupied: set<Path>, src: File, lossless: Path, encoded: Path, d: Decision)
    requires PathsDistinct(group.files) && Placed(group.files, profile, src, lossless, encoded)
    requires !TakenByAnother(group.files, profile, occupied, encoded)
    ensures d in LenientStem(group, profile, occupied).decisions <==>
      KeepsOrMakes(d, group.files, profile, lossless, encoded) || Removes(d, group.files, profile, encoded)
  {
    hide Preferred, FallsShort, Meets, HoldsLossless, PathsDistinct, EncodedBelow, Sources, WantsLossless, WantsEncoded, MissesLossless, MissesEncoded,
         EncodedTarget, SameStemPath, LenientStem, EncodedGoesTo, BesideAs, KeepsOrMakes, Removes, Kept, Spared, DeleteAll, LosslessPart, EncodedPart;
    ReachedIsPlanned(group, profile, occupied, src, lossless, encoded);
    if Misses(group.files, profile) { TargetsAre(group.files, profile, src, lossless, encoded); }
    ListsAre(group.files, profile);
    NoConflictThen(group, profile, occupied);
    KeptAre(group.files, profile, d);
    PartsAre(group, profile, src, lossless, encoded, d);
    GoneAre(group.files, profile, encoded, d);
    KindsOf(group.files, profile, lossless, encoded, d);
  }

  lemma KeptAre(files: seq<File>, profile: Profile, d: Decision)
    ensures d in Kept(files, profile) <==>
      || (exists f :: f in files && HoldsLossless(f, profile) && d == Keep(f.path, KeepLosslessTarget))
      || (exists f :: f in files && Meets(f, profile) && d == Keep(f.path, KeepEncodedSatisfied))
  {
    hide HoldsLossless, Meets, DeclaredLossless, EncodedSatisfied;
    ListsAre(files, profile);
    var a, b := DeclaredLossless(files, profile), EncodedSatisfied(files, profile);
    KeepAllHas(a, KeepLosslessTarget, d);
    KeepAllHas(b, KeepEncodedSatisfied, d);
  }

  lemma KeepAllHas(files: seq<File>, reason: Reason, d: Decision)
    ensures d in KeepAll(files, _ => reason) <==> exists f :: f in files && d == Keep(f.path, reason)
  {
    var all := KeepAll(files, _ => reason);
    if f :| f in files && d == Keep(f.path, reason) {
      var k :| 0 <= k < |files| && files[k] == f;
      assert all[k] == d;
    }
    if d in all {
      var k :| 0 <= k < |all| && all[k] == d;
      assert files[k] in files;
    }
  }

  lemma PartsAre(group: StemGroup, profile: Profile, src: File, lossless: Path, encoded: Path, d: Decision)
    requires Reachable(group.files, profile) && (MissesLossless(group.files, profile) <==> WantsLossless(group.files, profile)) && (MissesEncoded(group.files, profile) <==> WantsEncoded(group.files, profile))
    requires Misses(group.files, profile) ==> Sources(group.files, profile) == [src]
    requires MissesLossless(group.files, profile) ==> lossless == SameStemPath(src.path, ExtFor(profile.lossless.value.codec))
    requires MissesEncoded(group.files, profile) ==> encoded == EncodedTarget(group.files, profile)
    ensures d in LosslessPart(group, profile).decisions <==> MissesLossless(group.files, profile) && d == EncodeTo(lossless, MaterializeLossless)
    ensures d in EncodedPart(group, profile).decisions <==> MissesEncoded(group.files, profile) && d == EncodeTo(encoded, MaterializeEncoded)
  {
    hide Sources, WantsLossless, WantsEncoded, MissesLossless, MissesEncoded, EncodedTarget, SameStemPath;
  }

  lemma GoneAre(files: seq<File>, profile: Profile, encoded: Path, d: Decision)
    requires PathsDistinct(files) && (WantsEncoded(files, profile) ==> Sources(files, profile) != [])
    requires WantsEncoded(files, profile) ==> encoded == EncodedTarget(files, profile)
    ensures d in DeleteAll(files, Spared(files, profile)) <==> Removes(d, files, profile, encoded)
  {
    ListsAre(files, profile);
    hide HoldsLossless, Meets, DeclaredLossless, EncodedSatisfied, EncodedTarget, WantsEncoded, MissesEncoded, IsLosslessFile, Sources;
    forall f | f in files ensures f.path in Spared(files, profile) <==> !Goes(f, files, profile, encoded) {
      forall g | g in files && g.path == f.path ensures g == f {
        var i :| 0 <= i < |files| && files[i] == f;
        var j :| 0 <= j < |files| && files[j] == g;
      }
    }
    DeleteAllIs(files, Spared(files, profile), d);
  }

  lemma {:induction false} DeleteAllIs(files: seq<File>, spared: set<Path>, d: Decision)
    ensures d in DeleteAll(files, spared) <==> exists f :: f in files && f.path !in spared && d == Delete(f.path, ObsoleteReason(f))
  {
    hide ObsoleteReason;
    if files != [] {
      var init, last := files[..|files| - 1], files[|files| - 1];
      assert files == init + [last];
      assert DeleteAll(files, spared) == DeleteAll(init, spared) + if last.path in spared then [] else [Delete(last.path, ObsoleteReason(last))];
      hide DeleteAll;
      DeleteAllIs(init, spared, d);
    }
  }

  lemma KindsOf(files: seq<File>, profile: Profile, lossless: Path, encoded: Path, d: Decision)
    ensures KeepsOrMakes(d, files, profile, lossless, encoded) <==>
      || (exists f :: f in files && HoldsLossless(f, profile) && d == Keep(f.path, KeepLosslessTarget))
      || (exists f :: f in files && Meets(f, profile) && d == Keep(f.path, KeepEncodedSatisfied))
      || (MissesLossless(files, profile) && d == EncodeTo(lossless, MaterializeLossless))
      || (MissesEncoded(files, profile) && d == EncodeTo(encoded, MaterializeEncoded))
  {
    hide HoldsLossless, Meets, MissesLossless, MissesEncoded;
  }

  /** The only file that falls short of the encoded output is replaced in place:
      the output goes beside it under its name, and when the file already has the
      codec's extension, to that very path, which no decision deletes. */
  lemma ReplacedInPlace(group: StemGroup, profile: Profile, occupied: set<Path>, f: File)
    requires PathsDistinct(group.files) && LanesOk(profile) && MissesEncoded(group.files, profile) && OnlyShort(f, group.files, profile)
    requires LenientStem(group, profile, occupied).block == None && exists g :: Preferred(g, group.files, profile)
    ensures var p := LenientStem(group, profile, occupied); var codec := profile.encoded.value.codec;
      && (exists op :: op in p.ops && BesideAs(op.target, f.path, codec))
      && (Ext(Base(f.path)) == ExtFor(codec) ==>
            (exists op :: op in p.ops && op.target == f.path) && forall d :: d in p.decisions && d.path == f.path ==> !d.Delete?)
  {
    hide Preferred, FallsShort, Meets, HoldsLossless, PathsDistinct, EncodedBelow, Sources, WantsLossless, WantsEncoded, MissesLossless, MissesEncoded, LenientStem, SatisfiedEncoded,
         KeepsOrMakes, Removes, OnlySource, EncodedGoesTo, OnlyShort, TakenByAnother, ExtFor;
    MissingNames(group.files, profile);
    var files, codec := group.files, profile.encoded.value.codec;
    OneSource(group, profile, occupied);
    var src :| OnlySource(src, files, profile);
    AudioPath(src, f, files, profile);
    var lossless := if profile.lossless.Some? then Dir(src.path) + [TrimExt(Base(src.path)) + ExtFor(profile.lossless.value.codec)] else [];
    var encoded := Dir(f.path) + [TrimExt(Base(f.path)) + ExtFor(codec)];
    InPlace(encoded, src, f, files, profile);
    assert Placed(files, profile, src, lossless, encoded);
    ReachedIsPlanned(group, profile, occupied, src, lossless, encoded);
    var p := LenientStem(group, profile, occupied);
    assert EncodeOp(group.stem, src.path, encoded) in p.ops;
    if Ext(Base(f.path)) == ExtFor(codec) {
      assert Base(f.path) == TrimExt(Base(f.path)) + Ext(Base(f.path));
      assert encoded == f.path;
      forall d | d in p.decisions && d.path == f.path ensures !d.Delete? {
        ReachedDecides(group, profile, occupied, src, lossless, encoded, d);
        NotRemoved(files, profile, encoded, lossless, d);
      }
    }
  }

  lemma InPlace(target: Path, src: File, f: File, files: seq<File>, profile: Profile)
    requires profile.encoded.Some? && OnlyShort(f, files, profile) && BesideAs(target, f.path, profile.encoded.value.codec)
    ensures EncodedGoesTo(target, src, files, profile)
  {
    hide FallsShort, BesideAs, ExtFor;
  }

  lemma MissingNames(files: seq<File>, profile: Profile)
    ensures MissesLossless(files, profile) ==> profile.lossless.Some?
    ensures MissesEncoded(files, profile) ==> profile.encoded.Some?
  {
  }

  lemma NotRemoved(files: seq<File>, profile: Profile, encoded: Path, lossless: Path, d: Decision)
    requires MissesEncoded(files, profile) && d.path == encoded && (KeepsOrMakes(d, files, profile, lossless, encoded) || Removes(d, files, profile, encoded))
    ensures !d.Delete?
  {
    hide HoldsLossless, Meets;
  }

  lemma AudioPath(src: File, f: File, files: seq<File>, profile: Profile)
    requires OnlySource(src, files, profile) && OnlyShort(f, files, profile)
    ensures src.path != [] && f.path != []
  {
    hide SatisfiedEncoded;
  }

  lemma OneSource(group: StemGroup, profile: Profile, occupied: set<Path>)
    requires PathsDistinct(group.files) && Misses(group.files, profile) && LenientStem(group, profile, occupied).block == None
    requires exists g :: Preferred(g, group.files, profile)
    ensures exists src :: OnlySource(src, group.files, profile)
  {
    AmbiguousBlocks(group, profile, occupied);
    hide Preferred, LenientStem, PathsDistinct;
    var g :| Preferred(g, group.files, profile);
    assert OnlySource(g, group.files, profile);
  }
}
