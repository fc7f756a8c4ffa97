/** Files named by their extension alone: the grouping takes the whole name as
    the stem, while the derived target drops it. */
module Nameless {
  import opened Prelude
  import opened Text
  import opened Audio
  import opened Disk
  import opened Grouping
  import opened Planner
  import opened PlannerProof

  /** A target derived for another codec stays in its source's stem exactly when
      the source's name is more than an extension. */
  lemma TargetKeepsStem(p: Path, c: Codec)
    requires p != [] && CodecAt(p).Some? && CodecAt(p) != Some(c)
    ensures StemAt(SameStemPath(p, ExtFor(c))) == StemAt(p) <==> Named(p)
  {
    var e := ExtFor(c);
    if Named(p) {
      DerivedPath(p, c);
    } else {
      assert Ext(Base(p)) == Base(p) && TrimExt(Base(p)) == "";
      assert Base(SameStemPath(p, e)) == e;
      ExtOfJoin("", e);
      assert "" + e == e;
      LowerExt(c);
    }
  }

  lemma NamelessIs(p: Path, c: Codec)
    requires p != [] && Base(p) == ExtFor(c)
    ensures CodecAt(p) == Some(c) && StemAt(p) == ExtFor(c)
  {
    assert "" + ExtFor(c) == ExtFor(c);
    ExtOfJoin("", ExtFor(c));
    LowerExt(c);
  }

  lemma NamelessTarget(p: Path, c: Codec)
    requires p != [] && Base(p) == ExtFor(c)
    ensures SameStemPath(p, ".flac") == Dir(p) + [".flac"]
  {
    assert "" + ExtFor(c) == ExtFor(c) && "" + ".flac" == ".flac";
    ExtOfJoin("", ExtFor(c));
  }

  const FLAC_ONLY := Profile(Some(Spec(Flac, None)), None)

  /** Without a name the lossless target of one stem can be the kept file of
      another, and neither stem is blocked: that lane has no occupied check. */
  lemma KeptFileIsTarget(wav: File, flac: File, occupied: set<Path>)
    requires wav.path != [] && flac.path != [] && Base(wav.path) == ".wav" && Base(flac.path) == ".flac"
    requires Dir(wav.path) == Dir(flac.path)
    ensures StemOf(wav) != StemOf(flac)
    ensures var p := LenientStem(StemGroup(StemOf(wav), [wav]), FLAC_ONLY, occupied);
      p.block == None && EncodeTo(flac.path, MaterializeLossless) in p.decisions
    ensures var p := LenientStem(StemGroup(StemOf(flac), [flac]), FLAC_ONLY, occupied);
      p.block == None && Keep(flac.path, KeepLosslessTarget) in p.decisions
  {
    hide LenientStem, SameStemPath, CodecAt, StemAt;
    NamelessIs(wav.path, Wav);
    NamelessIs(flac.path, Flac);
    NamelessTarget(wav.path, Wav);
    assert flac.path == Dir(flac.path) + [".flac"];
    WavAlone(wav, StemOf(wav), occupied);
    FlacAlone(flac, StemOf(flac), occupied);
  }

  lemma WavAlone(f: File, stem: string, occupied: set<Path>)
    requires CodecOf(f) == Some(Wav)
    ensures var p := LenientStem(StemGroup(stem, [f]), FLAC_ONLY, occupied);
      p.block == None && EncodeTo(SameStemPath(f.path, ".flac"), MaterializeLossless) in p.decisions
      && Targeted(p.ops, SameStemPath(f.path, ".flac"))
  {
    hide CodecAt, SameStemPath, DeleteAll;
    assert DeclaredLossless([f], FLAC_ONLY) == [];
    assert LosslessOf([f], Wav) == [f];
    LossyFree([f]);
    hide Filter;
    var part := LosslessPart(StemGroup(stem, [f]), FLAC_ONLY);
    assert part.decisions == [EncodeTo(SameStemPath(f.path, ".flac"), MaterializeLossless)];
    assert part.ops == [EncodeOp(stem, f.path, SameStemPath(f.path, ".flac"))];
  }

  lemma FlacAlone(f: File, stem: string, occupied: set<Path>)
    requires CodecOf(f) == Some(Flac)
    ensures var p := LenientStem(StemGroup(stem, [f]), FLAC_ONLY, occupied);
      p.block == None && Keep(f.path, KeepLosslessTarget) in p.decisions
  {
    hide CodecAt, SameStemPath, DeleteAll;
    assert DeclaredLossless([f], FLAC_ONLY) == [f];
    LossyFree([f]);
    assert Kept([f], FLAC_ONLY)[0] == Keep(f.path, KeepLosslessTarget);
  }

  lemma {:induction false} LossyFree(files: seq<File>)
    ensures EncodedSatisfied(files, FLAC_ONLY) == []
  {
    if files != [] {
      LossyFree(files[..|files| - 1]);
    }
  }
}
