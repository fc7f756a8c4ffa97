/** Every run of the commit stage, whatever fails and whenever it is canceled:
    the disk ends as an exact prefix of the plan, and no media is lost. */
module ExecutorRuns {
  import opened Prelude
  import opened Disk
  import opened Executor
  import opened ExecutorProof

  // ---------- the reference: landings without faults ----------

  function Landed(files: Files, encodes: seq<Encode>, temps: seq<Path>, k: nat): Files
    requires k <= |encodes| == |temps|
  {
    if k == 0 then files
    else Renamed(Landed(files, encodes, temps, k - 1), temps[k - 1], encodes[k - 1].target)
  }

  /** The disk after the first `k` landings and the first `m` removals. */
  function Shape(files: Files, plan: Plan, temps: seq<Path>, k: nat, m: nat): Files
    requires k <= |plan.encodes| == |temps| && m <= |plan.removes|
  {
    Landed(files, plan.encodes, temps, k) - set j: nat | j < m :: plan.removes[j]
  }

  function TempSet(temps: seq<Path>): set<Path> {
    set i: nat | i < |temps| && temps[i] != [] :: temps[i]
  }

  function AsideSet(env: Env, encodes: seq<Encode>): set<Path> {
    set i: nat | i < |encodes| :: AsidePath(env, encodes[i].target, i)
  }

  // ---------- what the gate and the fresh names guarantee ----------

  /** No two operations of the plan touch the same path. */
  ghost predicate Separate(plan: Plan) {
    && (forall i, j :: 0 <= i < j < |plan.encodes| ==> plan.encodes[i].target != plan.encodes[j].target)
    && (forall i, j :: 0 <= i < j < |plan.removes| ==> plan.removes[i] != plan.removes[j])
    && (forall i, j :: 0 <= i < |plan.encodes| && 0 <= j < |plan.removes| ==> plan.encodes[i].target != plan.removes[j])
  }

  /** A target exists exactly when it is a declared replacement. */
  ghost predicate TargetsKnown(plan: Plan, files: Files) {
    forall i :: 0 <= i < |plan.encodes| ==>
      if plan.encodes[i].replace then IsFile(files, plan.encodes[i].target) else plan.encodes[i].target !in files
  }

  ghost predicate TempsApart(plan: Plan, temps: seq<Path>) {
    && |temps| == |plan.encodes|
    && (forall i, j :: 0 <= i < j < |temps| && temps[i] != [] ==> temps[i] != temps[j])
    && (forall i :: 0 <= i < |temps| ==> TempApart(plan, temps[i]))
  }

  ghost predicate TempApart(plan: Plan, t: Path) {
    t != [] ==>
      && (forall j :: 0 <= j < |plan.encodes| ==> plan.encodes[j].target != t)
      && (forall j :: 0 <= j < |plan.removes| ==> plan.removes[j] != t)
      && !InZone(ZoneOf(plan), t)
  }

  ghost predicate AsidesApart(env: Env, plan: Plan, temps: seq<Path>, files: Files) {
    forall i :: 0 <= i < |plan.encodes| ==> AsideApart(plan, temps, files, AsidePath(env, plan.encodes[i].target, i))
  }

  ghost predicate AsideApart(plan: Plan, temps: seq<Path>, files: Files, a: Path) {
    && a !in files && a !in TempSet(temps) && a != []
    && (forall j :: 0 <= j < |plan.encodes| ==> plan.encodes[j].target != a)
  }

  /** Soft runs: the recovery root exists and nothing frozen lies in the zone. */
  ghost predicate ZoneClear(plan: Plan, files: Files) {
    plan.soft ==>
      && RootThere(plan.root, files)
      && (forall j :: 0 <= j < |plan.encodes| ==> !InZone(ZoneOf(plan), plan.encodes[j].target))
      && (forall j :: 0 <= j < |plan.removes| ==> !InZone(ZoneOf(plan), plan.removes[j]))
  }

  ghost predicate Ready(job: Job, files: Files) {
    && Separate(job.plan) && TargetsKnown(job.plan, files)
    && TempsApart(job.plan, job.temps) && AsidesApart(job.env, job.plan, job.temps, files)
    && ZoneClear(job.plan, files)
    && (forall j :: 0 <= j < |job.plan.removes| ==> IsFile(files, job.plan.removes[j]))
  }

  // ---------- what the reference looks like ----------

  /** Every staged output is on the disk. */
  ghost predicate Staged(temps: seq<Path>, files: Files) {
    forall i :: 0 <= i < |temps| ==> temps[i] != [] && IsFile(files, temps[i])
  }

  lemma {:induction false} LandedAway(files: Files, encodes: seq<Encode>, temps: seq<Path>, k: nat, p: Path)
    requires k <= |encodes| == |temps|
    requires forall i :: 0 <= i < k ==> encodes[i].target != p && temps[i] != p
    ensures p in Landed(files, encodes, temps, k) <==> p in files
    ensures p in files ==> Landed(files, encodes, temps, k)[p] == files[p]
  {
    if k > 0 {
      LandedAway(files, encodes, temps, k - 1, p);
    }
  }

  /** The reference at a landed target: it holds the staged output, whose staged
      path is gone. */
  lemma {:induction false} LandedAt(files: Files, plan: Plan, temps: seq<Path>, k: nat, i: nat)
    requires Separate(plan) && TempsApart(plan, temps) && Staged(temps, files) && i < k <= |plan.encodes|
    ensures var f := Landed(files, plan.encodes, temps, k); var target := plan.encodes[i].target;
      target in f && f[target] == files[temps[i]] && temps[i] !in f
  {
    if i == k - 1 {
      assert forall j :: 0 <= j < i ==> plan.encodes[j].target != temps[i] && temps[j] != temps[i];
      LandedAway(files, plan.encodes, temps, i, temps[i]);
      assert TempApart(plan, temps[i]);
    } else {
      LandedAt(files, plan, temps, k - 1, i);
      assert TempApart(plan, temps[i]) && TempApart(plan, temps[k - 1]);
    }
  }

  // ---------- the invariant of the commit stage ----------

  /** The old outputs replaced by the first `k` landings. */
  function Replaced(encodes: seq<Encode>, k: nat): seq<Path>
    requires k <= |encodes|
  {
    if k == 0 then []
    else Replaced(encodes, k - 1) + if encodes[k - 1].replace then [encodes[k - 1].target] else []
  }

  function Victims(plan: Plan, k: nat, m: nat): seq<Path>
    requires k <= |plan.encodes| && m <= |plan.removes|
  {
    Replaced(plan.encodes, k) + plan.removes[..m]
  }

  /** Each victim of a soft run has its own file in the zone, holding exactly
      what it held; none of those files was there before. */
  ghost predicate Parked(zone: Option<Path>, before: Files, now: Files, victims: seq<Path>, recovery: seq<Path>) {
    && |recovery| == |victims| && Distinct(recovery)
    && (forall x :: 0 <= x < |recovery| ==>
          && InZone(zone, recovery[x]) && recovery[x] !in before
          && recovery[x] in now && victims[x] in before && now[recovery[x]] == before[victims[x]])
  }

  ghost predicate Sound(job: Job, before: Files, p: Progress, k: nat, m: nat)
    requires k <= |job.plan.encodes| == |job.temps| && m <= |job.plan.removes|
  {
    && p.committed == Targets(job.plan.encodes)[..k] && p.removed == job.plan.removes[..m]
    && Agrees(ZoneOf(job.plan), p.w.files, Shape(before, job.plan, job.temps, k, m), {})
    && ZoneKept(ZoneOf(job.plan), before, p.w.files, p.recovery)
    && (if job.plan.soft then Parked(ZoneOf(job.plan), before, p.w.files, Victims(job.plan, k, m), p.recovery)
        else p.recovery == [])
  }

  function LooseEnds(job: Job, k: nat): set<Path> {
    TempSet(job.temps) + AsideSet(job.env, job.plan.encodes)
    + if k < |job.plan.encodes| then {job.plan.encodes[k].target} else {}
  }

  /** Hard runs may drop a replaced output once its replacement has landed, and
      an obsolete file. */
  function Ignored(job: Job, k: nat, m: nat): set<Path>
    requires k <= |job.plan.encodes| && m <= |job.plan.removes|
  {
    TempSet(job.temps)
    + if job.plan.soft then {}
      else (set i: nat | i < k :: job.plan.encodes[i].target) + (set j: nat | j < m :: job.plan.removes[j])
  }

  /** What still holds when an operation failed half way. */
  ghost predicate Loose(job: Job, before: Files, p: Progress, k: nat, m: nat)
    requires k <= |job.plan.encodes| == |job.temps| && m <= |job.plan.removes|
  {
    && p.committed == Targets(job.plan.encodes)[..k] && p.removed == job.plan.removes[..m]
    && (m > 0 ==> k == |job.plan.encodes|)
    && Agrees(ZoneOf(job.plan), p.w.files, Shape(before, job.plan, job.temps, k, m), LooseEnds(job, k))
    && Carries(Ignored(job, k, m), before, p.w.files, p.recovery)
    && (forall r :: r in p.recovery ==> r !in TempSet(job.temps))
  }

  lemma ShapeAway(job: Job, before: Files, k: nat, m: nat, p: Path)
    requires k <= |job.plan.encodes| == |job.temps| && m <= |job.plan.removes|
    requires forall i :: 0 <= i < k ==> job.plan.encodes[i].target != p && job.temps[i] != p
    requires forall j :: 0 <= j < m ==> job.plan.removes[j] != p
    ensures var f := Shape(before, job.plan, job.temps, k, m);
      (p in f <==> p in before) && (p in f ==> f[p] == before[p])
  {
    LandedAway(before, job.plan.encodes, job.temps, k, p);
  }

  lemma {:induction false} ReplacedHas(encodes: seq<Encode>, k: nat, i: nat)
    requires i < k <= |encodes| && encodes[i].replace
    ensures encodes[i].target in Replaced(encodes, k)
  {
    if i < k - 1 {
      ReplacedHas(encodes, k - 1, i);
    }
  }

  lemma SoundCarries(job: Job, before: Files, p: Progress, k: nat, m: nat)
    requires k <= |job.plan.encodes| == |job.temps| && m <= |job.plan.removes|
    requires Ready(job, before) && Staged(job.temps, before) && Sound(job, before, p, k, m)
    ensures Carries(Ignored(job, k, m), before, p.w.files, p.recovery)
  {
    forall q: Path | IsFile(before, q) && q !in Ignored(job, k, m)
      ensures SameAt(before, p.w.files, q) || KeptAt(before[q], p.w.files, p.recovery)
    {
      if i :| 0 <= i < k && job.plan.encodes[i].target == q {
        ReplacedHas(job.plan.encodes, k, i);
        assert q in Victims(job.plan, k, m);
        VictimKept(job, before, p, k, m, q);
      } else if j :| 0 <= j < m && job.plan.removes[j] == q {
        assert job.plan.removes[..m][j] == q;
        assert q in Victims(job.plan, k, m);
        VictimKept(job, before, p, k, m, q);
      } else {
        assert forall i :: 0 <= i < k ==> job.temps[i] in TempSet(job.temps);
        ShapeAway(job, before, k, m, q);
      }
    }
  }

  lemma VictimKept(job: Job, before: Files, p: Progress, k: nat, m: nat, q: Path)
    requires k <= |job.plan.encodes| == |job.temps| && m <= |job.plan.removes|
    requires job.plan.soft && q in Victims(job.plan, k, m) && q in before
    requires Parked(ZoneOf(job.plan), before, p.w.files, Victims(job.plan, k, m), p.recovery)
    ensures KeptAt(before[q], p.w.files, p.recovery)
  {
    var x :| 0 <= x < |Victims(job.plan, k, m)| && Victims(job.plan, k, m)[x] == q;
    assert p.recovery[x] in p.recovery;
  }

  lemma SoundIsLoose(job: Job, before: Files, p: Progress, k: nat, m: nat)
    requires k <= |job.plan.encodes| == |job.temps| && m <= |job.plan.removes|
    requires Ready(job, before) && Staged(job.temps, before) && Sound(job, before, p, k, m)
    requires m > 0 ==> k == |job.plan.encodes|
    ensures Loose(job, before, p, k, m)
  {
    SoundCarries(job, before, p, k, m);
    hide Carries;
    forall r | r in p.recovery ensures r !in TempSet(job.temps) {
      assert job.plan.soft && InZone(ZoneOf(job.plan), r);
      assert forall i :: 0 <= i < |job.temps| ==> TempApart(job.plan, job.temps[i]);
    }
  }

  // ---------- one commit ----------

  /** What committing output `i` needs of the disk it finds. */
  ghost predicate Poised(job: Job, files: Files, i: nat)
    requires i < |job.plan.encodes| == |job.temps|
  {
    var e := job.plan.encodes[i]; var aside := AsidePath(job.env, e.target, i); var zone := ZoneOf(job.plan);
    && job.temps[i] != e.target && !InZone(zone, job.temps[i]) && !InZone(zone, e.target)
    && aside !in files && aside != job.temps[i] && aside != e.target
    && (!e.replace ==> e.target !in files)
    && (job.plan.soft ==> RootThere(job.plan.root, files))
  }

  function Dropped(job: Job, i: nat, landed: bool): set<Path>
    requires i < |job.plan.encodes| == |job.temps|
  {
    {job.temps[i]} + if landed && !job.plan.soft then {job.plan.encodes[i].target} else {}
  }

  ghost predicate OutputLanded(job: Job, a: Files, b: Files, i: nat, recovery: seq<Path>)
    requires i < |job.plan.encodes| == |job.temps|
  {
    var e := job.plan.encodes[i];
    && Agrees(ZoneOf(job.plan), b, Renamed(a, job.temps[i], e.target), {})
    && if e.replace && job.plan.soft then
         && |recovery| == 1 && InZone(ZoneOf(job.plan), recovery[0]) && recovery[0] !in a
         && e.target in a && recovery[0] in b && b[recovery[0]] == a[e.target]
       else recovery == []
  }

  ghost predicate OutputEffect(job: Job, a: Files, i: nat, l: Landing)
    requires i < |job.plan.encodes| == |job.temps|
  {
    var target := job.plan.encodes[i].target; var aside := AsidePath(job.env, target, i); var zone := ZoneOf(job.plan);
    && (l.ok ==> l.landed && OutputLanded(job, a, l.w.files, i, l.recovery))
    && (l.landed ==> Agrees(zone, l.w.files, Renamed(a, job.temps[i], target), {aside}))
    && (!l.landed ==> Agrees(zone, l.w.files, a, {aside, target}))
    && ZoneKept(zone, a, l.w.files, l.recovery)
    && Carries(Dropped(job, i, l.landed), a, l.w.files, l.recovery)
    && (forall r :: r in l.recovery ==> if job.plan.soft then InZone(zone, r) else r == aside)
  }

  lemma FreshOutput(job: Job, w: World, i: nat)
    requires i < |job.plan.encodes| == |job.temps| && Poised(job, w.files, i) && !job.plan.encodes[i].replace
    ensures OutputEffect(job, w.files, i, CommitOutput(job, w, i))
  {
  }

  lemma SoftCarries(zone: Option<Path>, a: Files, b: Files, temp: Path, target: Path, kept: seq<Path>, landed: bool)
    requires temp != target && !InZone(zone, target)
    requires ZoneKept(zone, a, b, kept)
    requires if landed then CommittedSoft(zone, a, b, temp, target, kept) else BackedOut(zone, a, b, target, kept)
    requires forall r :: r in kept ==> InZone(zone, r)
    ensures Carries({temp}, a, b, kept)
  {
  }

  lemma SoftOutput(job: Job, w: World, i: nat)
    requires i < |job.plan.encodes| == |job.temps| && Poised(job, w.files, i)
    requires job.plan.encodes[i].replace && job.plan.soft
    ensures OutputEffect(job, w.files, i, CommitOutput(job, w, i))
  {
    var temp, target, zone := job.temps[i], job.plan.encodes[i].target, ZoneOf(job.plan);
    CommitSoftEffect(job.env, w, job.plan.root, temp, target);
    CommitSoftParks(job.env, w, job.plan.root, temp, target);
    hide CommitSoft, ZoneKept, Carries, RootThere, AsidePath;
    var l := CommitOutput(job, w, i);
    SoftCarries(zone, w.files, l.w.files, temp, target, l.recovery, l.landed);
  }

  lemma CommitSoftParks(env: Env, w: World, root: Path, temp: Path, target: Path)
    requires RootThere(root, w.files) && !(RecoveryZone(root) <= target)
    ensures forall r :: r in CommitSoft(env, w, root, temp, target).recovery ==> RecoveryZone(root) <= r
  {
    SoftRemoveEffect(env, w, root, target);
    hide SoftRemove, Agrees, ZoneKept;
  }

  lemma HardOutput(job: Job, w: World, i: nat)
    requires i < |job.plan.encodes| == |job.temps| && Poised(job, w.files, i)
    requires job.plan.encodes[i].replace && !job.plan.soft
    ensures OutputEffect(job, w.files, i, CommitOutput(job, w, i))
  {
    var target := job.plan.encodes[i].target;
    CommitHardEffect(job.env, w, job.temps[i], target, AsidePath(job.env, target, i));
    hide CommitHard;
    var l := CommitOutput(job, w, i);
    forall q: Path | IsFile(w.files, q) && q !in Dropped(job, i, l.landed)
      ensures SameAt(w.files, l.w.files, q) || KeptAt(w.files[q], l.w.files, l.recovery)
    {
      if q == target && l.recovery != [] {
        assert l.recovery[0] in l.recovery;
      }
    }
  }

  lemma AnyOutput(job: Job, w: World, i: nat)
    requires i < |job.plan.encodes| == |job.temps| && Poised(job, w.files, i)
    ensures OutputEffect(job, w.files, i, CommitOutput(job, w, i))
  {
    hide OutputEffect, Poised, CommitOutput;
    if !job.plan.encodes[i].replace {
      FreshOutput(job, w, i);
    } else if job.plan.soft {
      SoftOutput(job, w, i);
    } else {
      HardOutput(job, w, i);
    }
  }

  lemma SoundIsPoised(job: Job, before: Files, p: Progress, i: nat)
    requires i < |job.plan.encodes| == |job.temps|
    requires Ready(job, before) && Staged(job.temps, before) && Sound(job, before, p, i, 0)
    ensures Poised(job, p.w.files, i)
    ensures job.temps[i] in p.w.files && p.w.files[job.temps[i]] == before[job.temps[i]]
  {
    var target := job.plan.encodes[i].target;
    var aside := AsidePath(job.env, target, i);
    assert TempApart(job.plan, job.temps[i]) && AsideApart(job.plan, job.temps, before, aside);
    forall j | 0 <= j < i ensures job.temps[j] != target && job.temps[j] != aside {
      assert TempApart(job.plan, job.temps[j]) && job.temps[j] in TempSet(job.temps);
    }
    assert job.temps[i] in TempSet(job.temps);
    ShapeAway(job, before, i, 0, target);
    ShapeAway(job, before, i, 0, aside);
    ShapeAway(job, before, i, 0, job.temps[i]);
    if job.plan.soft {
      RootStays(job, before, p, i, 0);
    }
  }

  lemma RootStays(job: Job, before: Files, p: Progress, k: nat, m: nat)
    requires k <= |job.plan.encodes| == |job.temps| && m <= |job.plan.removes| && job.plan.soft
    requires Ready(job, before) && Staged(job.temps, before)
    requires Agrees(ZoneOf(job.plan), p.w.files, Shape(before, job.plan, job.temps, k, m), {})
    ensures RootThere(job.plan.root, p.w.files)
  {
    forall x: nat | 0 < x <= |job.plan.root| ensures IsFolder(p.w.files, job.plan.root[..x]) {
      assert IsFolder(before, job.plan.root[..x]);
      ShapeAway(job, before, k, m, job.plan.root[..x]);
    }
  }

  // ---------- one step of the commit stage ----------

  function AfterOutput(job: Job, p: Progress, i: nat, l: Landing): Progress
    requires i < |job.plan.encodes|
  {
    Progress(l.w, if l.landed then p.committed + [job.plan.encodes[i].target] else p.committed,
             p.removed, p.recovery + l.recovery)
  }

  lemma AgreesRenamed(zone: Option<Path>, a: Files, b: Files, temp: Path, target: Path)
    requires Agrees(zone, a, b, {}) && !InZone(zone, temp) && !InZone(zone, target)
    ensures Agrees(zone, Renamed(a, temp, target), Renamed(b, temp, target), {})
  {
  }

  lemma AgreesTrans(zone: Option<Path>, a: Files, b: Files, c: Files, x: set<Path>, y: set<Path>)
    requires Agrees(zone, a, b, x) && Agrees(zone, b, c, {}) && x <= y
    ensures Agrees(zone, a, c, y)
  {
  }

  lemma NextShape(job: Job, before: Files, i: nat)
    requires i < |job.plan.encodes| == |job.temps|
    ensures Shape(before, job.plan, job.temps, i + 1, 0)
         == Renamed(Shape(before, job.plan, job.temps, i, 0), job.temps[i], job.plan.encodes[i].target)
  {
    assert Shape(before, job.plan, job.temps, i, 0) == Landed(before, job.plan.encodes, job.temps, i);
  }

  lemma ZoneKeptTrans(zone: Option<Path>, a: Files, b: Files, c: Files, r1: seq<Path>, r2: seq<Path>)
    requires ZoneKept(zone, a, b, r1) && ZoneKept(zone, b, c, r2)
    requires forall r :: r in r1 ==> r in b
    ensures ZoneKept(zone, a, c, r1 + r2)
  {
  }

  /** Parking one more victim keeps the ones parked before. */
  lemma ParkOne(zone: Option<Path>, before: Files, a: Files, b: Files, victims: seq<Path>, recovery: seq<Path>, victim: Path, r: Path)
    requires Parked(zone, before, a, victims, recovery) && ZoneKept(zone, before, a, recovery) && ZoneKept(zone, a, b, [r])
    requires InZone(zone, r) && r !in a && r in b && victim in before && b[r] == before[victim]
    ensures Parked(zone, before, b, victims + [victim], recovery + [r])
    ensures ZoneKept(zone, before, b, recovery + [r])
  {
    assert forall x :: 0 <= x < |recovery| ==> InZone(zone, recovery[x]) && recovery[x] in b && b[recovery[x]] == a[recovery[x]];
    ZoneKeptTrans(zone, before, a, b, recovery, [r]);
  }

  lemma ParkNone(zone: Option<Path>, before: Files, a: Files, b: Files, victims: seq<Path>, recovery: seq<Path>)
    requires Parked(zone, before, a, victims, recovery) && ZoneKept(zone, before, a, recovery) && ZoneKept(zone, a, b, [])
    ensures Parked(zone, before, b, victims, recovery)
    ensures ZoneKept(zone, before, b, recovery)
  {
    assert forall x :: 0 <= x < |recovery| ==> InZone(zone, recovery[x]) && recovery[x] in b && b[recovery[x]] == a[recovery[x]];
  }

  lemma CommittedGrows(encodes: seq<Encode>, i: nat)
    requires i < |encodes|
    ensures Targets(encodes)[..i + 1] == Targets(encodes)[..i] + [encodes[i].target]
  {
  }

  lemma TargetAsBefore(job: Job, before: Files, p: Progress, i: nat)
    requires i < |job.plan.encodes| == |job.temps|
    requires Ready(job, before) && Staged(job.temps, before) && Sound(job, before, p, i, 0)
    ensures var t := job.plan.encodes[i].target; t in p.w.files ==> t in before && p.w.files[t] == before[t]
  {
    var target := job.plan.encodes[i].target;
    forall j | 0 <= j < i ensures job.temps[j] != target {
      assert TempApart(job.plan, job.temps[j]);
    }
    ShapeAway(job, before, i, 0, target);
  }

  lemma VictimsGrow(plan: Plan, i: nat)
    requires i < |plan.encodes|
    ensures Victims(plan, i + 1, 0) == Victims(plan, i, 0) + if plan.encodes[i].replace then [plan.encodes[i].target] else []
  {
    assert plan.removes[..0] == [];
  }

  lemma ParksGrow(job: Job, before: Files, p: Progress, i: nat, b: Files, recovery: seq<Path>)
    requires i < |job.plan.encodes| == |job.temps| && job.plan.soft
    requires Ready(job, before) && Staged(job.temps, before) && Sound(job, before, p, i, 0)
    requires OutputLanded(job, p.w.files, b, i, recovery) && ZoneKept(ZoneOf(job.plan), p.w.files, b, recovery)
    ensures Parked(ZoneOf(job.plan), before, b, Victims(job.plan, i + 1, 0), p.recovery + recovery)
    ensures ZoneKept(ZoneOf(job.plan), before, b, p.recovery + recovery)
  {
    TargetAsBefore(job, before, p, i);
    VictimsGrow(job.plan, i);
    var zone, victims := ZoneOf(job.plan), Victims(job.plan, i, 0);
    hide Ready, Staged, Parked, ZoneKept, Agrees, Shape, Victims;
    if job.plan.encodes[i].replace {
      assert recovery == [recovery[0]];
      ParkOne(zone, before, p.w.files, b, victims, p.recovery, job.plan.encodes[i].target, recovery[0]);
    } else {
      ParkNone(zone, before, p.w.files, b, victims, p.recovery);
      assert p.recovery + recovery == p.recovery;
      assert victims + [] == victims;
    }
  }

  lemma CommitStepShape(job: Job, before: Files, p: Progress, i: nat, l: Landing)
    requires i < |job.plan.encodes| == |job.temps|
    requires Poised(job, p.w.files, i) && Sound(job, before, p, i, 0) && OutputEffect(job, p.w.files, i, l) && l.ok
    ensures Agrees(ZoneOf(job.plan), l.w.files, Shape(before, job.plan, job.temps, i + 1, 0), {})
  {
  }

  lemma CommitStepOk(job: Job, before: Files, p: Progress, i: nat, l: Landing)
    requires i < |job.plan.encodes| == |job.temps|
    requires Ready(job, before) && Staged(job.temps, before) && Sound(job, before, p, i, 0)
    requires OutputEffect(job, p.w.files, i, l) && l.ok
    ensures Sound(job, before, AfterOutput(job, p, i, l), i + 1, 0)
  {
    hide Ready, Staged, Agrees, Shape, Parked, Victims, Carries, Renamed, Targets, AsidePath, Poised, ZoneKept, InZone;
    SoundIsPoised(job, before, p, i);
    CommittedGrows(job.plan.encodes, i);
    CommitStepShape(job, before, p, i, l);
    if job.plan.soft {
      ParksGrow(job, before, p, i, l.w.files, l.recovery);
    } else {
      HardZone(job.plan, before, l.w.files, p.recovery + l.recovery);
    }
  }

  lemma HardZone(plan: Plan, a: Files, b: Files, recovery: seq<Path>)
    requires !plan.soft
    ensures ZoneKept(ZoneOf(plan), a, b, recovery)
  {
  }

  lemma CommitStepStopped(job: Job, before: Files, p: Progress, i: nat, l: Landing)
    requires i < |job.plan.encodes| == |job.temps|
    requires Ready(job, before) && Staged(job.temps, before) && Sound(job, before, p, i, 0)
    requires OutputEffect(job, p.w.files, i, l)
    ensures Loose(job, before, AfterOutput(job, p, i, l), if l.landed then i + 1 else i, 0)
  {
    var zone := ZoneOf(job.plan);
    SoundIsPoised(job, before, p, i);
    SoundIsLoose(job, before, p, i, 0);
    StoppedAgrees(job, before, p, i, l);
    StoppedCarries(job, before, p, i, l);
    StoppedRecovery(job, before, p, i, l);
    CommittedGrows(job.plan.encodes, i);
    hide Ready, Staged, Agrees, Shape, Sound, Carries, OutputEffect, Poised;
  }

  lemma StoppedAgrees(job: Job, before: Files, p: Progress, i: nat, l: Landing)
    requires i < |job.plan.encodes| == |job.temps|
    requires Poised(job, p.w.files, i) && Sound(job, before, p, i, 0)
    requires OutputEffect(job, p.w.files, i, l)
    ensures var k := if l.landed then i + 1 else i;
      Agrees(ZoneOf(job.plan), l.w.files, Shape(before, job.plan, job.temps, k, 0), LooseEnds(job, k))
  {
    var zone := ZoneOf(job.plan);
    var temp, target := job.temps[i], job.plan.encodes[i].target;
    assert AsidePath(job.env, target, i) in AsideSet(job.env, job.plan.encodes);
    NextShape(job, before, i);
    AgreesRenamed(zone, p.w.files, Shape(before, job.plan, job.temps, i, 0), temp, target);
    hide Agrees, Carries, ZoneKept, Shape, Renamed, AsidePath, TempSet, AsideSet, OutputLanded;
    if l.landed {
      AgreesTrans(zone, l.w.files, Renamed(p.w.files, temp, target), Shape(before, job.plan, job.temps, i + 1, 0),
                  {AsidePath(job.env, target, i)}, LooseEnds(job, i + 1));
    } else {
      AgreesTrans(zone, l.w.files, p.w.files, Shape(before, job.plan, job.temps, i, 0),
                  {AsidePath(job.env, target, i), target}, LooseEnds(job, i));
    }
  }

  lemma StoppedRecovery(job: Job, before: Files, p: Progress, i: nat, l: Landing)
    requires i < |job.plan.encodes| == |job.temps|
    requires Ready(job, before) && Loose(job, before, p, i, 0) && OutputEffect(job, p.w.files, i, l)
    ensures forall r :: r in p.recovery + l.recovery ==> r !in TempSet(job.temps)
  {
  }

  lemma StoppedCarries(job: Job, before: Files, p: Progress, i: nat, l: Landing)
    requires i < |job.plan.encodes| == |job.temps|
    requires Loose(job, before, p, i, 0) && Sound(job, before, p, i, 0) && Staged(job.temps, before)
    requires OutputEffect(job, p.w.files, i, l)
    ensures Carries(Ignored(job, if l.landed then i + 1 else i, 0), before, l.w.files, p.recovery + l.recovery)
  {
    var k := if l.landed then i + 1 else i;
    assert job.temps[i] in TempSet(job.temps);
    assert Dropped(job, i, l.landed) <= Ignored(job, k, 0);
    assert Ignored(job, i, 0) + Ignored(job, k, 0) == Ignored(job, k, 0);
    CarriesMore(Dropped(job, i, l.landed), Ignored(job, k, 0), p.w.files, l.w.files, l.recovery);
    assert forall r :: r in p.recovery ==> job.plan.soft;
    CarriesThrough(Ignored(job, i, 0), before, p.w.files, p.recovery, Ignored(job, k, 0), l.w.files, l.recovery);
  }

  lemma CarriesMore(x: set<Path>, y: set<Path>, a: Files, b: Files, kept: seq<Path>)
    requires Carries(x, a, b, kept) && x <= y
    ensures Carries(y, a, b, kept)
  {
  }
}
