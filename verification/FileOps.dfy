/** Planning and applying a batch of file operations: items named twice or below
    another selected item are skipped, the rest run until the first failure. */
module FileOps {
  import opened Prelude

  // ---------- paths as requested ----------

  function Split(s: string): (r: seq<string>)
    ensures r != []
  {
    if s == [] then [""]
    else
      var rest := Split(s[1..]);
      if s[0] == '/' then [""] + rest else [[s[0]] + rest[0]] + rest[1..]
  }

  function Join(segments: seq<string>): string
    requires segments != []
  {
    if |segments| == 1 then segments[0] else segments[0] + "/" + Join(segments[1..])
  }

  predicate DrivePath(s: string) {
    |s| >= 2 && s[1] == ':' && ('a' <= s[0] <= 'z' || 'A' <= s[0] <= 'Z')
  }

  /** A library-relative path: a plain chain of names, or refused. */
  function RelPath(s: string): Option<string> {
    if s == "" || '\0' in s || '\\' in s || s[0] == '/' || DrivePath(s) then None
    else if exists seg :: seg in Split(s) && (seg == "" || seg == "." || seg == "..") then None
    else Some(Join(Split(s)))
  }

  lemma {:induction false} JoinSplit(s: string)
    ensures Join(Split(s)) == s
  {
    if s != [] {
      JoinSplit(s[1..]);
      var rest := Split(s[1..]);
      if s[0] == '/' {
        assert Split(s)[1..] == rest;
      } else if |rest| > 1 {
        assert Split(s)[1..] == rest[1..];
      }
    }
  }

  /** The cleaned form of a source: its relative form, or the source as it is. */
  function Cleaned(s: string): string {
    if RelPath(s).Some? then RelPath(s).value else s
  }

  /** Cleaning never changes a path: what is not already clean is refused. */
  lemma CleanedIsSource(s: string)
    ensures Cleaned(s) == s
  {
    JoinSplit(s);
  }

  function TrimSlash(s: string): string {
    if s != "" && s[|s| - 1] == '/' then s[..|s| - 1] else s
  }

  /** `candidate` is strictly below `ancestor`. */
  predicate IsDescendant(candidate: string, ancestor: string) {
    ancestor != "" && candidate != ancestor && TrimSlash(ancestor) + "/" <= candidate
  }

  lemma {:induction false} SplitJoined(a: string, b: string)
    ensures Split(a + "/" + b) == Split(a) + Split(b)
  {
    hide Split;
    var s := a + "/" + b;
    SplitStep(s);
    if a == [] {
      assert s[0] == '/' && s[1..] == b;
    } else {
      SplitJoined(a[1..], b);
      SplitStep(a);
      assert s[0] == a[0] && s[1..] == a[1..] + "/" + b;
      var rest, more := Split(a[1..]), Split(b);
      assert (rest + more)[0] == rest[0] && (rest + more)[1..] == rest[1..] + more;
      assert a[0] == '/' ==> [""] + (rest + more) == ([""] + rest) + more;
      assert a[0] != '/' ==> [[a[0]] + rest[0]] + (rest[1..] + more) == ([[a[0]] + rest[0]] + rest[1..]) + more;
    }
  }

  lemma SplitStep(s: string)
    ensures Split("") == [""]
    ensures s != [] ==> var rest := Split(s[1..]); Split(s) == if s[0] == '/' then [""] + rest else [[s[0]] + rest[0]] + rest[1..]
  {
  }

  /** The names of a path: none holds a slash, and joined they are the path. */
  lemma {:induction false} SplitIsNames(s: string)
    ensures forall name :: name in Split(s) ==> '/' !in name
    ensures Join(Split(s)) == s
  {
    JoinSplit(s);
    if s != [] {
      SplitIsNames(s[1..]);
      var rest := Split(s[1..]);
      assert forall name :: name in rest[1..] ==> name in rest;
    }
  }

  lemma {:induction false} JoinAppend(a: seq<string>, b: seq<string>)
    requires a != [] && b != []
    ensures Join(a + b) == Join(a) + "/" + Join(b)
  {
    if |a| > 1 {
      JoinAppend(a[1..], b);
      assert (a + b)[1..] == a[1..] + b;
    } else {
      assert (a + b)[1..] == b;
    }
  }

  lemma BelowMeansNames(a: string, c: string)
    ensures a + "/" <= c <==> Split(a) < Split(c)
  {
    if a + "/" <= c {
      var b := c[|a| + 1..];
      assert c == a + "/" + b;
      SplitJoined(a, b);
    }
    if Split(a) < Split(c) {
      var rest := Split(c)[|Split(a)|..];
      assert Split(c) == Split(a) + rest;
      JoinAppend(Split(a), rest);
      JoinSplit(a);
      JoinSplit(c);
    }
  }

  /** A path is below another when its names go on from the other's: a directory
      whose name another one's name begins with covers nothing of it. */
  lemma DescendantMeansNames(c: string, a: string)
    ensures a != "" && a[|a| - 1] != '/' ==> (IsDescendant(c, a) <==> Split(a) < Split(c))
    ensures IsDescendant(c, a + "/") <==> c != a + "/" && Split(a) < Split(c)
    ensures !IsDescendant(c, "")
  {
    BelowMeansNames(a, c);
    var b := a + "/";
    assert b[|b| - 1] == '/' && b[..|b| - 1] == a;
  }

  lemma DescendantIsLonger(c: string, a: string)
    requires IsDescendant(c, a)
    ensures |c| > |a|
  {
  }

  lemma DescendantTrans(c: string, b: string, a: string)
    requires IsDescendant(c, b) && IsDescendant(b, a)
    ensures IsDescendant(c, a)
  {
  }

  // ---------- the plan ----------

  datatype Skip = Duplicate | CoveredByParent
  datatype Planned = Planned(source: string, skip: Option<Skip>)

  predicate Covered(sources: seq<string>, i: nat)
    requires i < |sources|
  {
    exists j :: 0 <= j < |sources| && j != i && IsDescendant(sources[i], sources[j])
  }

  predicate AppliedBefore(plan: seq<Planned>, source: string) {
    exists j :: 0 <= j < |plan| && plan[j].skip.None? && plan[j].source == source
  }

  function Decide(sources: seq<string>, plan: seq<Planned>, i: nat): Option<Skip>
    requires i < |sources|
  {
    if AppliedBefore(plan, sources[i]) then Some(Duplicate)
    else if Covered(sources, i) then Some(CoveredByParent)
    else None
  }

  function PlanOf(sources: seq<string>, k: nat): (plan: seq<Planned>)
    requires k <= |sources|
    ensures |plan| == k && forall i :: 0 <= i < k ==> plan[i].source == sources[i]
  {
    if k == 0 then []
    else
      var before := PlanOf(sources, k - 1);
      before + [Planned(sources[k - 1], Decide(sources, before, k - 1))]
  }

  method CleanSources(items: seq<string>) returns (cleaned: seq<string>)
    ensures cleaned == items
  {
    hide RelPath;
    cleaned := [];
    for i := 0 to |items|
      invariant cleaned == items[..i]
    {
      CleanedIsSource(items[i]);
      var rel := RelPath(items[i]);
      cleaned := cleaned + [if rel.Some? then rel.value else items[i]];
    }
  }

  lemma NothingApplied(source: string)
    ensures !AppliedBefore([], source)
  {
  }

  method PlanItems(items: seq<string>) returns (plan: seq<Planned>)
    ensures plan == PlanOf(items, |items|)
  {
    hide Covered, AppliedBefore;
    var cleaned := CleanSources(items);
    forall s ensures !AppliedBefore([], s) { NothingApplied(s); }
    plan := [];
    var seen: set<string> := {};
    for i := 0 to |items|
      invariant plan == PlanOf(items, i)
      invariant forall s :: s in seen <==> AppliedBefore(plan, s)
    {
      ghost var before := plan;
      if cleaned[i] in seen {
        plan := plan + [Planned(items[i], Some(Duplicate))];
        OneMore(before, plan[i]);
      } else {
        var covered := CoveredByAnother(cleaned, i);
        plan := plan + [Planned(items[i], if covered then Some(CoveredByParent) else None)];
        OneMore(before, plan[i]);
        if !covered {
          seen := seen + {cleaned[i]};
        }
      }
    }
  }

  method CoveredByAnother(cleaned: seq<string>, i: nat) returns (covered: bool)
    requires i < |cleaned|
    ensures covered == Covered(cleaned, i)
  {
    for j := 0 to |cleaned|
      invariant forall k :: 0 <= k < j && k != i ==> !IsDescendant(cleaned[i], cleaned[k])
    {
      if i != j && IsDescendant(cleaned[i], cleaned[j]) {
        return true;
      }
    }
    return false;
  }

  lemma OneMore(plan: seq<Planned>, p: Planned)
    ensures forall s :: AppliedBefore(plan + [p], s) <==> AppliedBefore(plan, s) || (p.skip.None? && p.source == s)
  {
    var more := plan + [p];
    forall s ensures AppliedBefore(more, s) <==> AppliedBefore(plan, s) || (p.skip.None? && p.source == s) {
      if AppliedBefore(plan, s) {
        var j :| 0 <= j < |plan| && plan[j].skip.None? && plan[j].source == s;
        assert more[j] == plan[j];
      }
      assert more[|plan|] == p;
    }
  }

  // ---------- what the plan means ----------

  lemma {:induction false} PlanDecides(sources: seq<string>, k: nat, i: nat)
    requires i < k <= |sources|
    ensures PlanOf(sources, k)[..i] == PlanOf(sources, i)
    ensures PlanOf(sources, k)[i].skip == Decide(sources, PlanOf(sources, i), i)
  {
    if i < k - 1 {
      PlanDecides(sources, k - 1, i);
      assert PlanOf(sources, k)[..i] == PlanOf(sources, k - 1)[..i];
    } else {
      assert PlanOf(sources, k)[..i] == PlanOf(sources, i);
    }
  }

  lemma EarlierApplied(sources: seq<string>, i: nat, j: nat)
    requires i < j < |sources|
    requires PlanOf(sources, |sources|)[i].skip.None? && PlanOf(sources, |sources|)[j].skip.None?
    ensures sources[i] != sources[j]
  {
    hide Covered, PlanOf;
    PlanDecides(sources, |sources|, j);
    assert PlanOf(sources, |sources|)[..j][i] == PlanOf(sources, |sources|)[i];
    assert PlanOf(sources, j)[i].skip.None? && PlanOf(sources, j)[i].source == sources[i];
  }

  /** Applied items are pairwise distinct and none lies below any requested path. */
  lemma AppliedAreIndependent(sources: seq<string>, i: nat, j: nat)
    requires i < |sources| && j < |sources| && i != j
    requires PlanOf(sources, |sources|)[i].skip.None?
    ensures !IsDescendant(sources[i], sources[j])
    ensures PlanOf(sources, |sources|)[j].skip.None? ==> sources[i] != sources[j]
  {
    hide PlanOf, IsDescendant, AppliedBefore;
    PlanDecides(sources, |sources|, i);
    if PlanOf(sources, |sources|)[j].skip.None? {
      if i < j { EarlierApplied(sources, i, j); } else { EarlierApplied(sources, j, i); }
    }
  }

  predicate Applied(sources: seq<string>, j: nat)
    requires j < |sources|
  {
    PlanOf(sources, |sources|)[j].skip.None?
  }

  /** Every requested path is applied itself or lies below one that is. */
  lemma {:induction false} EveryItemIsCovered(sources: seq<string>, i: nat) returns (j: nat)
    requires i < |sources|
    ensures j < |sources| && Applied(sources, j)
    ensures sources[i] == sources[j] || IsDescendant(sources[i], sources[j])
    decreases |sources[i]|
  {
    var plan := PlanOf(sources, |sources|);
    PlanDecides(sources, |sources|, i);
    match plan[i].skip
    case None => j := i;
    case Some(Duplicate) =>
      var k :| 0 <= k < i && PlanOf(sources, i)[k].skip.None? && PlanOf(sources, i)[k].source == sources[i];
      assert plan[..i][k] == plan[k];
      j := k;
    case Some(CoveredByParent) =>
      var k :| 0 <= k < |sources| && k != i && IsDescendant(sources[i], sources[k]);
      DescendantIsLonger(sources[i], sources[k]);
      j := EveryItemIsCovered(sources, k);
      if sources[k] != sources[j] {
        DescendantTrans(sources[i], sources[k], sources[j]);
      }
  }

  /** The item was asked for earlier under the same path. */
  predicate Repeated(sources: seq<string>, i: nat)
    requires i < |sources|
  {
    exists j :: 0 <= j < i && sources[j] == sources[i]
  }

  lemma {:induction false} FirstIsApplied(sources: seq<string>, i: nat) returns (j: nat)
    requires i < |sources| && !Covered(sources, i)
    ensures j <= i && Applied(sources, j) && sources[j] == sources[i] && (Repeated(sources, i) ==> j < i)
  {
    PlanDecides(sources, |sources|, i);
    if Repeated(sources, i) {
      var k :| 0 <= k < i && sources[k] == sources[i];
      assert !Covered(sources, k);
      j := FirstIsApplied(sources, k);
    } else {
      assert !AppliedBefore(PlanOf(sources, i), sources[i]);
      j := i;
    }
  }

  /** Which items a batch applies, and why the others are skipped: an item below
      another requested path is covered by it, of the others the first of each path
      is applied and its repetitions are duplicates. */
  lemma PlanIsExact(sources: seq<string>, i: nat)
    requires i < |sources|
    ensures PlanOf(sources, |sources|)[i] == Planned(sources[i],
              if Covered(sources, i) then Some(CoveredByParent) else if Repeated(sources, i) then Some(Duplicate) else None)
  {
    PlanDecides(sources, |sources|, i);
    var plan := PlanOf(sources, i);
    if !Covered(sources, i) && Repeated(sources, i) {
      var k := FirstIsApplied(sources, i);
      assert PlanOf(sources, |sources|)[..i][k] == PlanOf(sources, |sources|)[k];
    }
    if AppliedBefore(plan, sources[i]) {
      var k :| 0 <= k < i && plan[k].skip.None? && plan[k].source == sources[i];
      assert PlanOf(sources, |sources|)[..i][k] == PlanOf(sources, |sources|)[k];
      forall j | 0 <= j < |sources| ensures !IsDescendant(sources[i], sources[j]) {
        if j != k { AppliedAreIndependent(sources, k, j); }
      }
    }
  }

  // ---------- applying ----------

  datatype ItemStatus = Ok | Failed | Skipped(why: Skip) | NotAttempted
  datatype Counts = Counts(succeeded: nat, failed: nat, untouched: nat)

  /** Applies in order until the first failure; `works` says which item would. */
  function Outcomes(plan: seq<Planned>, works: nat -> bool, k: nat): (r: seq<ItemStatus>)
    requires k <= |plan|
    ensures |r| == k
  {
    if k == 0 then []
    else
      var before := Outcomes(plan, works, k - 1);
      before + [match plan[k - 1].skip
                case Some(why) => Skipped(why)
                case None => if Failed in before then NotAttempted else if works(k - 1) then Ok else Failed]
  }

  method Apply(plan: seq<Planned>, works: nat -> bool) returns (items: seq<ItemStatus>, counts: Counts)
    ensures items == Outcomes(plan, works, |plan|)
    ensures counts == Counts(|Having(items, OK)|, |Having(items, FAILED)|, |Having(items, UNTOUCHED)|)
    ensures counts.succeeded + counts.failed + counts.untouched == |plan|
    ensures counts.failed <= 1 && (counts.failed == 1 <==> Failed in items)
  {
    items := [];
    var stopped := false;
    for k := 0 to |plan|
      invariant items == Outcomes(plan, works, k)
      invariant stopped <==> Failed in items
      invariant forall i, j :: 0 <= i < j < k && items[i].Failed? ==> !items[j].Failed?
    {
      if plan[k].skip.Some? {
        items := items + [Skipped(plan[k].skip.value)];
      } else if stopped {
        items := items + [NotAttempted];
      } else if works(k) {
        items := items + [Ok];
      } else {
        items := items + [Failed];
        stopped := true;
      }
    }
    counts := Count(items);
  }

  /** The items that ended in one of these ways. */
  function Having(items: seq<ItemStatus>, ends: set<ItemStatus>): set<nat> {
    set i: nat | i < |items| && items[i] in ends
  }

  const OK := {Ok}
  const FAILED: set<ItemStatus> := {Failed}
  const UNTOUCHED := {Skipped(Duplicate), Skipped(CoveredByParent), NotAttempted}

  lemma HavingNext(items: seq<ItemStatus>, i: nat, ends: set<ItemStatus>)
    requires i < |items|
    ensures |Having(items[..i + 1], ends)| == |Having(items[..i], ends)| + if items[i] in ends then 1 else 0
  {
    var was := Having(items[..i], ends);
    assert forall k: nat :: k in Having(items[..i + 1], ends) <==> k in was || (k == i && items[i] in ends);
    assert Having(items[..i + 1], ends) == if items[i] in ends then was + {i} else was;
  }

  method Count(items: seq<ItemStatus>) returns (counts: Counts)
    requires forall i, j :: 0 <= i < j < |items| && items[i].Failed? ==> !items[j].Failed?
    ensures counts == Counts(|Having(items, OK)|, |Having(items, FAILED)|, |Having(items, UNTOUCHED)|)
    ensures counts.succeeded + counts.failed + counts.untouched == |items|
    ensures counts.failed <= 1 && (counts.failed == 1 <==> Failed in items)
  {
    counts := Counts(0, 0, 0);
    for i := 0 to |items|
      invariant counts == Counts(|Having(items[..i], OK)|, |Having(items[..i], FAILED)|, |Having(items[..i], UNTOUCHED)|)
      invariant counts.succeeded + counts.failed + counts.untouched == i
      invariant counts.failed <= 1 && (counts.failed == 1 <==> exists j :: 0 <= j < i && items[j].Failed?)
    {
      HavingNext(items, i, OK);
      HavingNext(items, i, FAILED);
      HavingNext(items, i, UNTOUCHED);
      assert items[i] in UNTOUCHED <==> items[i].Skipped? || items[i].NotAttempted? by {
        if items[i].Skipped? { assert items[i].why == Duplicate || items[i].why == CoveredByParent; }
      }
      match items[i]
      case Ok => counts := Counts(counts.succeeded + 1, counts.failed, counts.untouched);
      case Failed => counts := Counts(counts.succeeded, counts.failed + 1, counts.untouched);
      case _ => counts := Counts(counts.succeeded, counts.failed, counts.untouched + 1);
    }
    assert items[..|items|] == items;
  }

  /** No item that is to be applied fails before this one. */
  predicate AllWorkBefore(plan: seq<Planned>, works: nat -> bool, i: nat)
    requires i <= |plan|
  {
    forall j: nat :: j < i && plan[j].skip.None? ==> works(j)
  }

  lemma {:induction false} FailedBefore(plan: seq<Planned>, works: nat -> bool, k: nat)
    requires k <= |plan|
    ensures Failed in Outcomes(plan, works, k) <==> !AllWorkBefore(plan, works, k)
  {
    if k > 0 {
      FailedBefore(plan, works, k - 1);
      var before := Outcomes(plan, works, k - 1);
      var r := Outcomes(plan, works, k);
      assert r == before + [r[k - 1]];
      assert Failed in r <==> Failed in before || r[k - 1] == Failed;
    }
  }

  /** How every item of a batch ends, from what was planned for it and what would
      work. */
  lemma {:induction false} OutcomesAreExact(plan: seq<Planned>, works: nat -> bool, k: nat, i: nat)
    requires i < k <= |plan|
    ensures Outcomes(plan, works, k)[i] ==
      if plan[i].skip.Some? then Skipped(plan[i].skip.value)
      else if !AllWorkBefore(plan, works, i) then NotAttempted
      else if works(i) then Ok
      else Failed
  {
    if i < k - 1 {
      OutcomesAreExact(plan, works, k - 1, i);
    } else {
      FailedBefore(plan, works, i);
    }
  }

  /** Everything applied before the failure went through; nothing after it was
      tried. */
  lemma {:induction false} StopsAtFirstFailure(plan: seq<Planned>, works: nat -> bool, k: nat, f: nat, i: nat)
    requires f < k <= |plan| && i < k && Outcomes(plan, works, k)[f] == Failed
    ensures i < f ==> !Outcomes(plan, works, k)[i].Failed? && !Outcomes(plan, works, k)[i].NotAttempted?
    ensures i > f ==> Outcomes(plan, works, k)[i].NotAttempted? || Outcomes(plan, works, k)[i].Skipped?
  {
    var before := Outcomes(plan, works, k - 1);
    if f == k - 1 {
      OutcomeBefore(plan, works, k - 1, i);
    } else if i < k - 1 {
      StopsAtFirstFailure(plan, works, k - 1, f, i);
    } else {
      assert before[f] == Failed;
    }
  }

  lemma {:induction false} OutcomeBefore(plan: seq<Planned>, works: nat -> bool, k: nat, i: nat)
    requires k <= |plan| && Failed !in Outcomes(plan, works, k)
    ensures i < k ==> !Outcomes(plan, works, k)[i].Failed? && !Outcomes(plan, works, k)[i].NotAttempted?
  {
    if k > 0 && i < k {
      var before := Outcomes(plan, works, k - 1);
      assert Outcomes(plan, works, k) == before + [Outcomes(plan, works, k)[k - 1]];
      if i < k - 1 {
        OutcomeBefore(plan, works, k - 1, i);
      }
    }
  }
}
