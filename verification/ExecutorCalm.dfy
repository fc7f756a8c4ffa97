/** A run in which no call fails and nothing is canceled succeeds: the executor
    never gets in its own way. */
module ExecutorCalm {
  import opened Prelude
  import opened Text
  import opened Disk
  import opened Executor
  import opened ExecutorProof
  import opened ExecutorRuns
  import opened ExecutorTheorems
  import opened ExecutorStaging
  import opened ExecutorOutcome
  import opened ExecutorStatus

  /** Nothing fails from outside. */
  ghost predicate Calm(env: Env) {
    && (forall t: nat :: env.weather(t) == Fine && !env.canceled(t))
    && (forall i: nat :: env.encodes(i) == Clean)
  }

  /** No call of this stretch of the run fails from outside. */
  ghost predicate FineUntil(env: Env, from: nat, to: nat) {
    forall t: nat :: from <= t < to ==> env.weather(t) == Fine
  }

  // ---------- names in the recovery directory ----------

  /** The n-th name a removed file may get in the recovery directory. */
  function NameAt(root: Path, v: Path, n: nat): Path
    requires root < v
  {
    RecoveryDir(root, v) + [RecoveryName(Base(v), n)]
  }

  lemma NamesDiffer(base: string, m: nat, n: nat)
    requires RecoveryName(base, m) == RecoveryName(base, n)
    ensures m == n
  {
    var stem, ext := TrimExt(base), Ext(base);
    assert base == stem + ext;
    if m > 0 && n > 0 {
      var a, b := RecoveryName(base, m), RecoveryName(base, n);
      assert Decimal(m) == a[|stem| + 1..|a| - |ext|] == b[|stem| + 1..|b| - |ext|] == Decimal(n);
      DecimalInjective(m, n);
    }
  }

  lemma PlacesDiffer(root: Path, v: Path, m: nat, n: nat)
    requires root < v && NameAt(root, v, m) == NameAt(root, v, n)
    ensures m == n
  {
    hide RecoveryName, RecoveryDir;
    assert RecoveryName(Base(v), m) == NameAt(root, v, m)[|RecoveryDir(root, v)|];
    NamesDiffer(Base(v), m, n);
  }

  lemma InTheZone(root: Path, v: Path, n: nat)
    requires root < v
    ensures RecoveryZone(root) <= RecoveryDir(root, v) < NameAt(root, v, n)
  {
  }

  function AllVictims(plan: Plan): seq<Path> {
    Victims(plan, |plan.encodes|, |plan.removes|)
  }

  /** Two victims that may want the same name. */
  ghost predicate Rival(root: Path, u: Path, v: Path, limit: nat) {
    root < u && root < v && exists m: nat, n: nat :: m <= limit && n <= limit && NameAt(root, u, m) == NameAt(root, v, n)
  }

  ghost function Rivals(root: Path, all: seq<Path>, v: Path, limit: nat): set<Path> {
    set u | u in all && u != v && Rival(root, u, v, limit)
  }

  function Taken(root: Path, files: Files, v: Path, limit: nat): set<nat>
    requires root < v
  {
    set n: nat | n <= limit && NameAt(root, v, n) in files
  }

  /** What a soft run replaces or removes lies below the recovery root; none of
      its names stands where a recovery directory must be; and of its first
      names more are free than rivals could take. */
  ghost predicate RoomWithin(root: Path, all: seq<Path>, files: Files, limit: nat) {
    && (forall v :: v in all ==> RoomFor(root, all, files, v, limit))
    && (forall u, v, n: nat :: u in all && v in all && n <= limit && root < u && root < v ==> !(NameAt(root, u, n) <= RecoveryDir(root, v)))
  }

  ghost predicate RoomFor(root: Path, all: seq<Path>, files: Files, v: Path, limit: nat) {
    && root < v && (forall p :: p in Ancestors(RecoveryDir(root, v)) ==> !IsFile(files, p))
    && |Taken(root, files, v, limit)| + |Rivals(root, all, v, limit)| <= limit
  }

  /** There is such a number of names within the executor's own limit. */
  ghost predicate Room(plan: Plan, files: Files) {
    plan.soft ==> exists limit: nat :: limit <= MAX_RECOVERY_NAMES && RoomWithin(plan.root, AllVictims(plan), files, limit)
  }

  /** When every victim's own name is free, and none lies below another, there is
      room without any number. */
  lemma OwnNamesSuffice(plan: Plan, files: Files)
    requires plan.soft ==> forall v :: v in AllVictims(plan) ==>
      plan.root < v && NameAt(plan.root, v, 0) !in files && forall p :: p in Ancestors(RecoveryDir(plan.root, v)) ==> !IsFile(files, p)
    requires plan.soft ==> forall u, v :: u in AllVictims(plan) && v in AllVictims(plan) ==> !(u < v)
    ensures Room(plan, files)
  {
    if plan.soft {
      var root, all := plan.root, AllVictims(plan);
      hide AllVictims, RecoveryName, RecoveryDir;
      forall v | v in all ensures RoomFor(root, all, files, v, 0) {
        assert Taken(root, files, v, 0) == {};
        forall u | u in all && u != v ensures !Rival(root, u, v, 0) {
          if NameAt(root, u, 0) == NameAt(root, v, 0) { MirrorsDiffer(root, u, v); }
        }
        assert Rivals(root, all, v, 0) == {};
      }
      forall u, v, n: nat | u in all && v in all && n <= 0 && root < u && root < v ensures !(NameAt(root, u, n) <= RecoveryDir(root, v)) {
        if NameAt(root, u, 0) <= RecoveryDir(root, v) { MirrorsNest(root, u, v); }
      }
      assert RoomWithin(root, all, files, 0);
    }
  }

  lemma MirrorIs(root: Path, v: Path)
    requires root < v
    ensures NameAt(root, v, 0) == RecoveryZone(root) + v[|root|..]
  {
    assert v[|root|..|v| - 1] + [v[|v| - 1]] == v[|root|..];
  }

  /** One own name lies on the way to another only if the files do. */
  lemma MirrorsNest(root: Path, u: Path, v: Path)
    requires root < u && root < v && NameAt(root, u, 0) <= RecoveryDir(root, v)
    ensures u < v
  {
    MirrorIs(root, u);
    var zone := RecoveryZone(root);
    assert RecoveryDir(root, v) == zone + v[|root|..|v| - 1];
    assert |u| < |v|;
    forall k | 0 <= k < |u| ensures u[k] == v[k] {
      if k >= |root| {
        assert u[k] == u[|root|..][k - |root|] == NameAt(root, u, 0)[k - |root| + |zone|] == RecoveryDir(root, v)[k - |root| + |zone|];
      } else {
        assert u[k] == root[k] == v[k];
      }
    }
  }

  lemma MirrorsDiffer(root: Path, u: Path, v: Path)
    requires root < u && root < v && NameAt(root, u, 0) == NameAt(root, v, 0)
    ensures u == v
  {
    MirrorIs(root, u);
    MirrorIs(root, v);
    assert u == root + u[|root|..] && v == root + v[|root|..];
    assert u[|root|..] == NameAt(root, u, 0)[|RecoveryZone(root)|..] == v[|root|..];
  }

  // ---------- parking ----------

  /** What is new in the zone: the files parked for `gone`, each under one of its
      first names, and the directories on the way to them. */
  ghost predicate Tidy(root: Path, before: Files, now: Files, gone: seq<Path>, recovery: seq<Path>, limit: nat) {
    NamedFor(root, gone, recovery, limit) && OnlyParked(root, before, now, gone, recovery)
  }

  ghost predicate NamedFor(root: Path, gone: seq<Path>, recovery: seq<Path>, limit: nat) {
    |recovery| == |gone| && forall x :: 0 <= x < |gone| ==> PlaceOf(root, gone[x], recovery[x], limit)
  }

  ghost predicate PlaceOf(root: Path, u: Path, r: Path, limit: nat) {
    root < u && exists n: nat :: n <= limit && r == NameAt(root, u, n)
  }

  ghost predicate OnlyParked(root: Path, before: Files, now: Files, gone: seq<Path>, recovery: seq<Path>) {
    forall p: Path :: RecoveryZone(root) <= p && p in now && p !in before ==> p in recovery || (now[p].Folder? && OnTheWay(root, gone, p))
  }

  ghost predicate OnTheWay(root: Path, gone: seq<Path>, p: Path) {
    exists u :: u in gone && root < u && p in Ancestors(RecoveryDir(root, u))
  }

  function NamesIn(root: Path, v: Path, recovery: seq<Path>, limit: nat): set<nat>
    requires root < v
  {
    set n: nat | n <= limit && NameAt(root, v, n) in recovery
  }

  /** Each rival parked so far took at most one of the names. */
  lemma {:induction false} RivalsTake(root: Path, v: Path, gone: seq<Path>, recovery: seq<Path>, limit: nat)
    requires root < v && v !in gone && Distinct(gone) && NamedFor(root, gone, recovery, limit)
    ensures |NamesIn(root, v, recovery, limit)| <= |Rivals(root, gone, v, limit)|
  {
    hide RecoveryName, RecoveryDir, NamesIn, Rivals;
    if gone == [] {
      NoNames(root, v, limit);
    } else {
      var k := |gone| - 1;
      assert gone == gone[..k] + [gone[k]] && recovery == recovery[..k] + [recovery[k]];
      assert gone[k] !in gone[..k];
      NamedPrefix(root, gone, recovery, k, limit);
      RivalsTake(root, v, gone[..k], recovery[..k], limit);
      OneName(root, v, recovery[..k], recovery[k], limit);
      OneRival(root, v, gone[..k], gone[k], limit);
    }
  }

  lemma NamedPrefix(root: Path, gone: seq<Path>, recovery: seq<Path>, k: nat, limit: nat)
    requires NamedFor(root, gone, recovery, limit) && k <= |gone|
    ensures NamedFor(root, gone[..k], recovery[..k], limit)
  {
    hide PlaceOf;
  }

  lemma NamedMore(root: Path, gone: seq<Path>, recovery: seq<Path>, v: Path, dest: Path, limit: nat)
    requires NamedFor(root, gone, recovery, limit) && PlaceOf(root, v, dest, limit)
    ensures NamedFor(root, gone + [v], recovery + [dest], limit)
  {
    hide PlaceOf;
  }

  lemma NoNames(root: Path, v: Path, limit: nat)
    requires root < v
    ensures NamesIn(root, v, [], limit) == {}
  {
  }

  lemma OneName(root: Path, v: Path, recovery: seq<Path>, r: Path, limit: nat)
    requires root < v
    ensures |NamesIn(root, v, recovery + [r], limit)| <=
      |NamesIn(root, v, recovery, limit)| + if exists n: nat :: n <= limit && NameAt(root, v, n) == r then 1 else 0
  {
    hide RecoveryName, RecoveryDir;
    var names, more := NamesIn(root, v, recovery, limit), NamesIn(root, v, recovery + [r], limit);
    if n: nat :| n <= limit && NameAt(root, v, n) == r {
      forall x | x in more ensures x in names + {n} {
        if NameAt(root, v, x) == r { PlacesDiffer(root, v, x, n); }
      }
      SubsetCount(more, names + {n});
    } else {
      SubsetCount(more, names);
    }
  }

  lemma OneRival(root: Path, v: Path, gone: seq<Path>, u: Path, limit: nat)
    requires u != v && u !in gone
    ensures |Rivals(root, gone + [u], v, limit)| == |Rivals(root, gone, v, limit)| + if Rival(root, u, v, limit) then 1 else 0
  {
    hide Rival;
    var rivals := Rivals(root, gone, v, limit);
    assert Rivals(root, gone + [u], v, limit) == rivals + if Rival(root, u, v, limit) then {u} else {};
  }

  lemma SubsetCount<T>(a: set<T>, b: set<T>)
    requires a <= b
    ensures |a| <= |b|
  {
    assert b == a + (b - a);
  }

  function Numbers(limit: nat): (r: set<nat>)
    ensures |r| == limit + 1 && forall n: nat :: n in r <==> n <= limit
  {
    if limit == 0 then {0} else Numbers(limit - 1) + {limit}
  }

  lemma FreeNumber(a: set<nat>, b: set<nat>, limit: nat) returns (n: nat)
    requires |a| + |b| <= limit
    ensures n <= limit && n !in a && n !in b
  {
    if Numbers(limit) <= a + b {
      SubsetCount(Numbers(limit), a + b);
      assert false;
    }
    n :| n in Numbers(limit) && n !in a + b;
  }

  /** The next victim is one of all and none of the earlier ones. */
  ghost predicate Next(root: Path, all: seq<Path>, gone: seq<Path>, v: Path) {
    v in all && v !in gone && Distinct(gone) && forall u :: u in gone ==> u in all
  }

  /** One of the next victim's first names is free, and the way to it clear. */
  lemma PlaceFree(root: Path, all: seq<Path>, before: Files, now: Files, gone: seq<Path>, recovery: seq<Path>, v: Path, limit: nat) returns (n: nat)
    requires Next(root, all, gone, v) && RoomWithin(root, all, before, limit) && Tidy(root, before, now, gone, recovery, limit)
    ensures root < v && n <= limit && NameAt(root, v, n) !in WithFolders(now, Ancestors(RecoveryDir(root, v)))
  {
    hide RecoveryName, RecoveryDir, Rival, NamedFor, Distinct;
    assert RoomFor(root, all, before, v, limit);
    RivalsTake(root, v, gone, recovery, limit);
    SubsetCount(Rivals(root, gone, v, limit), Rivals(root, all, v, limit));
    n := FreeNumber(Taken(root, before, v, limit), NamesIn(root, v, recovery, limit), limit);
    InTheZone(root, v, n);
    assert forall u :: u in gone && root < u ==> NameAt(root, v, n) !in Ancestors(RecoveryDir(root, u));
  }

  lemma WayFree(root: Path, all: seq<Path>, before: Files, now: Files, gone: seq<Path>, recovery: seq<Path>, v: Path, limit: nat)
    requires Next(root, all, gone, v) && RoomWithin(root, all, before, limit) && Tidy(root, before, now, gone, recovery, limit)
    requires RootThere(root, now) && root < v
    requires forall p: Path :: RecoveryZone(root) <= p && p in before ==> p in now && now[p] == before[p]
    ensures forall p :: p in Ancestors(RecoveryDir(root, v)) ==> !IsFile(now, p)
  {
    hide RecoveryName, Rival, Taken, Rivals, Distinct;
    var dir := RecoveryDir(root, v);
    assert RoomFor(root, all, before, v, limit);
    forall p | p in Ancestors(dir) ensures !IsFile(now, p) {
      var k: nat :| 0 < k <= |dir| && p == dir[..k];
      if !(RecoveryZone(root) <= p) {
        assert root == dir[..|root|];
        assert p == root[..k];
      } else {
        assert forall x :: 0 <= x < |gone| ==> gone[x] in gone && recovery[x] != p;
      }
    }
  }

  lemma {:induction false} CalmFreeName(env: Env, w: World, dir: Path, base: string, attempt: nat, n: nat)
    requires attempt <= n <= MAX_RECOVERY_NAMES && dir + [RecoveryName(base, n)] !in w.files
    requires FineUntil(env, w.clock, FreeName(env, w, dir, base, attempt).w.clock)
    ensures var r := FreeName(env, w, dir, base, attempt);
      r.w.files == w.files && exists k: nat :: k <= n && r.dest == Some(dir + [RecoveryName(base, k)]) && dir + [RecoveryName(base, k)] !in w.files
    decreases n - attempt
  {
    hide RecoveryName;
    var candidate := dir + [RecoveryName(base, attempt)];
    var look := Inspect(env, w, candidate);
    FreeNameTime(env, look.w, dir, base, attempt + 1);
    if candidate in w.files {
      CalmFreeName(env, look.w, dir, base, attempt + 1, n);
    }
  }

  /** The calls of a soft removal lie within it. */
  lemma PartsOfSoftRemove(env: Env, w: World, root: Path, v: Path)
    requires root < v
    ensures var made := MkdirAll(env, w, RecoveryDir(root, v)); var end := SoftRemove(env, w, root, v).w.clock;
      && w.clock < end
      && (made.err == Fine ==>
            var name := FreeName(env, made.w, RecoveryDir(root, v), Base(v), 0);
            name.w.clock <= end && (name.dest.Some? ==> name.w.clock < end))
  {
    hide RecoveryDir;
    var made := MkdirAll(env, w, RecoveryDir(root, v));
    var name := FreeName(env, made.w, RecoveryDir(root, v), Base(v), 0);
    FreeNameTime(env, made.w, RecoveryDir(root, v), Base(v), 0);
    if name.dest.Some? { RenameRetryTime(env, name.w, v, name.dest.value, 1); }
  }

  lemma CalmSoftRemove(env: Env, w: World, root: Path, all: seq<Path>, before: Files, gone: seq<Path>, recovery: seq<Path>, v: Path, limit: nat)
    requires FineUntil(env, w.clock, SoftRemove(env, w, root, v).w.clock) && limit <= MAX_RECOVERY_NAMES && RootThere(root, w.files)
    requires Next(root, all, gone, v) && RoomWithin(root, all, before, limit) && Tidy(root, before, w.files, gone, recovery, limit)
    requires forall p: Path :: RecoveryZone(root) <= p && p in before ==> p in w.files && w.files[p] == before[p]
    requires IsFile(w.files, v) && !(RecoveryZone(root) <= v)
    ensures root < v
    ensures var r := SoftRemove(env, w, root, v);
      && r.dest.Some? && PlaceOf(root, v, r.dest.value, limit)
      && r.w.files == Renamed(WithFolders(w.files, Ancestors(RecoveryDir(root, v))), v, r.dest.value)
  {
    hide Tidy, RootThere, Next, RoomWithin, RecoveryName, RecoveryDir;
    var n := PlaceFree(root, all, before, w.files, gone, recovery, v, limit);
    WayFree(root, all, before, w.files, gone, recovery, v, limit);
    var dir := RecoveryDir(root, v);
    var made := MkdirAll(env, w, dir);
    PartsOfSoftRemove(env, w, root, v);
    CalmFreeName(env, made.w, dir, Base(v), 0, n);
    var k: nat :| k <= n && FreeName(env, made.w, dir, Base(v), 0).dest == Some(dir + [RecoveryName(Base(v), k)]);
    assert NameAt(root, v, k) == dir + [RecoveryName(Base(v), k)];
  }

  lemma TidyAfter(root: Path, before: Files, now: Files, gone: seq<Path>, recovery: seq<Path>, v: Path, dest: Path, limit: nat)
    requires root < v && Tidy(root, before, now, gone, recovery, limit) && !(RecoveryZone(root) <= v)
    requires PlaceOf(root, v, dest, limit)
    ensures Tidy(root, before, Renamed(WithFolders(now, Ancestors(RecoveryDir(root, v))), v, dest), gone + [v], recovery + [dest], limit)
  {
    hide RecoveryName, RecoveryDir, NamedFor, PlaceOf;
    NamedMore(root, gone, recovery, v, dest, limit);
    var next := Renamed(WithFolders(now, Ancestors(RecoveryDir(root, v))), v, dest);
    forall p: Path | RecoveryZone(root) <= p && p in next && p !in before
      ensures p in recovery + [dest] || (next[p].Folder? && OnTheWay(root, gone + [v], p))
    {
      if p != dest && p !in now {
        assert v in gone + [v];
      } else if p != dest && p !in recovery {
        var u :| u in gone && root < u && p in Ancestors(RecoveryDir(root, u));
        assert u in gone + [v];
      }
    }
  }

  // ---------- committing ----------

  /** Room within a number of names the executor tries. */
  ghost predicate Roomy(plan: Plan, files: Files, limit: nat) {
    plan.soft ==> limit <= MAX_RECOVERY_NAMES && RoomWithin(plan.root, AllVictims(plan), files, limit)
  }

  ghost predicate InOrder(job: Job, before: Files, p: Progress, k: nat, m: nat, limit: nat)
    requires k <= |job.plan.encodes| == |job.temps| && m <= |job.plan.removes|
  {
    && Sound(job, before, p, k, m)
    && (job.plan.soft ==> Tidy(job.plan.root, before, p.w.files, Victims(job.plan, k, m), p.recovery, limit))
  }

  lemma TargetStill(job: Job, before: Files, p: Progress, i: nat)
    requires i < |job.plan.encodes| == |job.temps| && job.plan.encodes[i].replace
    requires Ready(job, before) && Staged(job.temps, before) && Sound(job, before, p, i, 0)
    ensures var t := job.plan.encodes[i].target; IsFile(p.w.files, t) && !InZone(ZoneOf(job.plan), t)
  {
    var t := job.plan.encodes[i].target;
    assert forall x :: 0 <= x < i ==> TempApart(job.plan, job.temps[x]);
    ShapeAway(job, before, i, 0, t);
  }

  lemma FreshTidy(root: Path, before: Files, now: Files, gone: seq<Path>, recovery: seq<Path>, from: Path, to: Path, limit: nat)
    requires Tidy(root, before, now, gone, recovery, limit) && !(RecoveryZone(root) <= to)
    ensures Tidy(root, before, Renamed(now, from, to), gone, recovery, limit)
  {
    hide NamedFor, OnTheWay;
  }

  lemma {:induction false} ReplacedOnly(encodes: seq<Encode>, k: nat, p: Path)
    requires k <= |encodes| && p in Replaced(encodes, k)
    ensures exists i :: 0 <= i < k && encodes[i].replace && encodes[i].target == p
  {
    if p in Replaced(encodes, k - 1) {
      ReplacedOnly(encodes, k - 1, p);
    }
  }

  lemma {:induction false} ReplacedDistinct(plan: Plan, k: nat)
    requires k <= |plan.encodes| && Separate(plan)
    ensures Distinct(Replaced(plan.encodes, k))
  {
    if k > 0 {
      ReplacedDistinct(plan, k - 1);
      if plan.encodes[k - 1].target in Replaced(plan.encodes, k - 1) {
        ReplacedOnly(plan.encodes, k - 1, plan.encodes[k - 1].target);
      }
    }
  }

  lemma NextVictim(plan: Plan, i: nat)
    requires i < |plan.encodes| && plan.encodes[i].replace && Separate(plan)
    ensures Next(plan.root, AllVictims(plan), Victims(plan, i, 0), plan.encodes[i].target)
  {
    ReplacedHas(plan.encodes, |plan.encodes|, i);
    ReplacedDistinct(plan, i);
    assert plan.encodes[i].target in AllVictims(plan);
    assert Victims(plan, i, 0) == Replaced(plan.encodes, i);
    forall u | u in Victims(plan, i, 0) ensures u in AllVictims(plan) && u != plan.encodes[i].target {
      ReplacedOnly(plan.encodes, i, u);
      var x :| 0 <= x < i && plan.encodes[x].replace && plan.encodes[x].target == u;
      ReplacedHas(plan.encodes, |plan.encodes|, x);
    }
  }

  /** The disk after parking the next replaced output. */
  ghost predicate ParkedNext(root: Path, t: Path, now: Files, after: Files, dest: Path) {
    && RecoveryZone(root) <= dest && t !in after
    && forall q :: q in now && q != t ==> q in after && (q != dest ==> after[q] == now[q])
  }

  lemma ParkIsPart(job: Job, w: World, i: nat)
    requires i < |job.plan.encodes| == |job.temps| && job.plan.encodes[i].replace && job.plan.soft
    ensures var parked := SoftRemove(job.env, w, job.plan.root, job.plan.encodes[i].target); var l := CommitOutput(job, w, i);
      parked.w.clock <= l.w.clock && (parked.dest.Some? ==> parked.w.clock < l.w.clock)
  {
    hide SoftRemove;
  }

  lemma CalmPark(job: Job, before: Files, p: Progress, i: nat, limit: nat)
    requires i < |job.plan.encodes| == |job.temps| && job.plan.encodes[i].replace && job.plan.soft
    requires FineUntil(job.env, p.w.clock, CommitOutput(job, Tick(p.w), i).w.clock) && Ready(job, before) && Staged(job.temps, before) && Roomy(job.plan, before, limit)
    requires InOrder(job, before, p, i, 0, limit)
    ensures var root, t := job.plan.root, job.plan.encodes[i].target; var parked := SoftRemove(job.env, Tick(p.w), root, t);
      && parked.dest.Some? && ParkedNext(root, t, p.w.files, parked.w.files, parked.dest.value)
      && Tidy(root, before, parked.w.files, Victims(job.plan, i + 1, 0), p.recovery + [parked.dest.value], limit)
  {
    hide Tidy, RootThere, Sound, Staged, RoomWithin, SoftRemove, AllVictims, Victims, NameAt, ZoneKept, Next;
    var root, t, gone := job.plan.root, job.plan.encodes[i].target, Victims(job.plan, i, 0);
    SoundIsPoised(job, before, p, i);
    TargetStill(job, before, p, i);
    NextVictim(job.plan, i);
    ZoneStill(job, before, p, i, 0);
    VictimsGrow(job.plan, i);
    ParkIsPart(job, Tick(p.w), i);
    CalmSoftRemove(job.env, Tick(p.w), root, AllVictims(job.plan), before, gone, p.recovery, t, limit);
    var dest := SoftRemove(job.env, Tick(p.w), root, t).dest.value;
    var k: nat :| k <= limit && dest == NameAt(root, t, k);
    InTheZone(root, t, k);
    TidyAfter(root, before, p.w.files, gone, p.recovery, t, dest, limit);
  }

  lemma ZoneStill(job: Job, before: Files, p: Progress, k: nat, m: nat)
    requires k <= |job.plan.encodes| == |job.temps| && m <= |job.plan.removes| && job.plan.soft && Sound(job, before, p, k, m)
    ensures forall q: Path :: RecoveryZone(job.plan.root) <= q && q in before ==> q in p.w.files && p.w.files[q] == before[q]
  {
  }

  lemma CalmSoftOutput(job: Job, before: Files, p: Progress, i: nat, limit: nat)
    requires i < |job.plan.encodes| == |job.temps| && job.plan.encodes[i].replace && job.plan.soft
    requires FineUntil(job.env, p.w.clock, CommitOutput(job, Tick(p.w), i).w.clock) && Ready(job, before) && Staged(job.temps, before) && Roomy(job.plan, before, limit)
    requires InOrder(job, before, p, i, 0, limit)
    ensures var l := CommitOutput(job, Tick(p.w), i);
      l.ok && Tidy(job.plan.root, before, l.w.files, Victims(job.plan, i + 1, 0), p.recovery + l.recovery, limit)
  {
    hide Tidy, RootThere, Ready, Sound, SoftRemove, AllVictims, Victims, RoomWithin, NameAt;
    SoundIsPoised(job, before, p, i);
    CalmPark(job, before, p, i, limit);
    ParkIsPart(job, Tick(p.w), i);
    SoftRemoveTime(job.env, Tick(p.w), job.plan.root, job.plan.encodes[i].target);
    var root, t := job.plan.root, job.plan.encodes[i].target;
    var parked := SoftRemove(job.env, Tick(p.w), root, t);
    FreshTidy(root, before, parked.w.files, Victims(job.plan, i + 1, 0), p.recovery + [parked.dest.value], job.temps[i], t, limit);
  }

  lemma CalmOutput(job: Job, before: Files, p: Progress, i: nat, limit: nat)
    requires i < |job.plan.encodes| == |job.temps|
    requires FineUntil(job.env, p.w.clock, CommitOutput(job, Tick(p.w), i).w.clock) && Ready(job, before) && Staged(job.temps, before) && Roomy(job.plan, before, limit)
    requires InOrder(job, before, p, i, 0, limit)
    ensures var l := CommitOutput(job, Tick(p.w), i);
      l.ok && (job.plan.soft ==> Tidy(job.plan.root, before, l.w.files, Victims(job.plan, i + 1, 0), p.recovery + l.recovery, limit))
  {
    hide Tidy, Ready, Sound, RoomWithin, Victims, RootThere;
    SoundIsPoised(job, before, p, i);
    var e := job.plan.encodes[i];
    if e.replace && job.plan.soft {
      CalmSoftOutput(job, before, p, i, limit);
    } else if e.replace {
      TargetStill(job, before, p, i);
    } else {
      VictimsGrow(job.plan, i);
      assert Victims(job.plan, i, 0) + [] == Victims(job.plan, i, 0) && p.recovery + [] == p.recovery;
      if job.plan.soft {
        FreshTidy(job.plan.root, before, p.w.files, Victims(job.plan, i, 0), p.recovery, job.temps[i], e.target, limit);
      }
    }
  }

  lemma {:induction false} CalmCommit(job: Job, before: Files, p: Progress, i: nat, limit: nat)
    requires i <= |job.plan.encodes| == |job.temps|
    requires FineUntil(job.env, p.w.clock, CommitFrom(job, p, i).w.clock) && Ready(job, before) && Staged(job.temps, before) && Roomy(job.plan, before, limit)
    requires InOrder(job, before, p, i, 0, limit)
    ensures CommitFrom(job, p, i).report.status != Failed
    decreases |job.plan.encodes| - i
  {
    hide Ready, Staged, Sound, Roomy, Tidy, CommitOutput, Poised, OutputEffect, RemoveFrom, Victims, Stop, FineUntil;
    if i == |job.plan.encodes| {
      CalmRemove(job, before, p, 0, limit);
    } else if job.env.canceled(p.w.clock) {
      StopStatus(job, Ticked(p), Canceled, CommitStage);
    } else {
      var l := CommitOutput(job, Tick(p.w), i);
      var next := AfterOutput(job, p, i, l);
      CommitCause(job, next, i + 1);
      OutputTime(job, Tick(p.w), i);
      OutputIsPart(job, p, i);
      CalmOutput(job, before, p, i, limit);
      TickedSound(job, before, p, i, 0);
      SoundIsPoised(job, before, Ticked(p), i);
      AnyOutput(job, Tick(p.w), i);
      CommitStepOk(job, before, Ticked(p), i, l);
      LandsWhenOk(job, before, Tick(p.w), i, l);
      FineLater(job.env, p.w.clock, next.w.clock, CommitFrom(job, p, i).w.clock);
      CalmCommit(job, before, next, i + 1, limit);
    }
  }

  lemma FineLater(env: Env, from: nat, mid: nat, to: nat)
    requires FineUntil(env, from, to) && from <= mid
    ensures FineUntil(env, mid, to)
  {
  }

  lemma FineEarlier(env: Env, from: nat, mid: nat, to: nat)
    requires FineUntil(env, from, to) && mid <= to
    ensures FineUntil(env, from, mid)
  {
  }

  /** One output's calls lie within the commit. */
  lemma OutputIsPart(job: Job, p: Progress, i: nat)
    requires i < |job.plan.encodes| == |job.temps| && !job.env.canceled(p.w.clock) && FineUntil(job.env, p.w.clock, CommitFrom(job, p, i).w.clock)
    ensures FineUntil(job.env, p.w.clock, CommitOutput(job, Tick(p.w), i).w.clock)
  {
    hide CommitOutput, Stop, FineUntil;
    var l := CommitOutput(job, Tick(p.w), i);
    var q := AfterOutput(job, p, i, l);
    StopTime(job, q, Failed, CommitStage);
    CommitCause(job, q, i + 1);
    FineEarlier(job.env, p.w.clock, l.w.clock, CommitFrom(job, p, i).w.clock);
  }

  // ---------- removing ----------

  lemma NextRemoved(plan: Plan, j: nat)
    requires j < |plan.removes| && Separate(plan)
    ensures Next(plan.root, AllVictims(plan), Victims(plan, |plan.encodes|, j), plan.removes[j])
  {
    var n, v := |plan.encodes|, plan.removes[j];
    assert plan.removes[..|plan.removes|] == plan.removes && v in AllVictims(plan);
    ReplacedDistinct(plan, n);
    forall u | u in Victims(plan, n, j) ensures u in AllVictims(plan) && u != v {
      if u in Replaced(plan.encodes, n) {
        ReplacedOnly(plan.encodes, n, u);
      } else {
        var x :| 0 <= x < j && plan.removes[x] == u;
        assert plan.removes[x] in AllVictims(plan);
      }
    }
    VictimsDistinct(plan, j);
  }

  lemma VictimsDistinct(plan: Plan, j: nat)
    requires j <= |plan.removes| && Separate(plan)
    ensures Distinct(Victims(plan, |plan.encodes|, j))
  {
    var kept, gone := Replaced(plan.encodes, |plan.encodes|), plan.removes[..j];
    ReplacedDistinct(plan, |plan.encodes|);
    forall a, b | a in kept && b in gone ensures a != b {
      ReplacedOnly(plan.encodes, |plan.encodes|, a);
    }
    forall x, y | 0 <= x < y < |kept + gone| ensures (kept + gone)[x] != (kept + gone)[y] {
      assert x < |kept| ==> (kept + gone)[x] in kept;
      assert y >= |kept| ==> (kept + gone)[y] in gone;
    }
  }

  lemma CalmRemoval(job: Job, before: Files, p: Progress, j: nat, limit: nat)
    requires |job.plan.encodes| == |job.temps| && j < |job.plan.removes|
    requires FineUntil(job.env, p.w.clock, RemoveObsolete(job.env, Tick(p.w), job.plan, job.plan.removes[j]).w.clock) && Ready(job, before) && Staged(job.temps, before) && Roomy(job.plan, before, limit)
    requires InOrder(job, before, p, |job.plan.encodes|, j, limit)
    ensures var c := RemoveObsolete(job.env, Tick(p.w), job.plan, job.plan.removes[j]);
      c.ok && (job.plan.soft ==> Tidy(job.plan.root, before, c.w.files, Victims(job.plan, |job.plan.encodes|, j + 1), p.recovery + c.recovery, limit))
  {
    var n, v := |job.plan.encodes|, job.plan.removes[j];
    ObsoleteAsBefore(job, before, p, j);
    if job.plan.soft {
      var root, gone := job.plan.root, Victims(job.plan, n, j);
      RootStays(job, before, p, n, j);
      NextRemoved(job.plan, j);
      ZoneStill(job, before, p, n, j);
      VictimsRemoved(job.plan, j);
      hide Tidy, RootThere, Sound, Staged, RoomWithin, SoftRemove, AllVictims, Victims, NameAt, ZoneKept, Next;
      CalmSoftRemove(job.env, Tick(p.w), root, AllVictims(job.plan), before, gone, p.recovery, v, limit);
      TidyAfter(root, before, p.w.files, gone, p.recovery, v, SoftRemove(job.env, Tick(p.w), root, v).dest.value, limit);
    }
  }

  lemma {:induction false} CalmRemove(job: Job, before: Files, p: Progress, j: nat, limit: nat)
    requires |job.plan.encodes| == |job.temps| && j <= |job.plan.removes|
    requires FineUntil(job.env, p.w.clock, RemoveFrom(job, p, j).w.clock) && Ready(job, before) && Staged(job.temps, before) && Roomy(job.plan, before, limit)
    requires InOrder(job, before, p, |job.plan.encodes|, j, limit)
    ensures RemoveFrom(job, p, j).report.status != Failed
    decreases |job.plan.removes| - j
  {
    hide Ready, Staged, Sound, Roomy, Tidy, RemoveObsolete, Victims, Stop, FineUntil;
    if j < |job.plan.removes| {
      if job.env.canceled(p.w.clock) {
        StopStatus(job, Ticked(p), Canceled, RemoveStage);
      } else {
        var source := job.plan.removes[j];
        var c := RemoveObsolete(job.env, Tick(p.w), job.plan, source);
        var next := AfterRemoval(p, source, c);
        RemoveCause(job, next, j + 1);
        ObsoleteTime(job.env, Tick(p.w), job.plan, source);
        RemovalIsPart(job, p, j);
        CalmRemoval(job, before, p, j, limit);
        if job.plan.soft { SoftRemovalOk(job, before, p, j); } else { HardRemovalOk(job, before, p, j); }
        FineLater(job.env, p.w.clock, next.w.clock, RemoveFrom(job, p, j).w.clock);
        CalmRemove(job, before, next, j + 1, limit);
      }
    }
  }

  lemma RemovalIsPart(job: Job, p: Progress, j: nat)
    requires j < |job.plan.removes| && !job.env.canceled(p.w.clock) && FineUntil(job.env, p.w.clock, RemoveFrom(job, p, j).w.clock)
    ensures FineUntil(job.env, p.w.clock, RemoveObsolete(job.env, Tick(p.w), job.plan, job.plan.removes[j]).w.clock)
  {
    hide RemoveObsolete, Stop, FineUntil;
    var c := RemoveObsolete(job.env, Tick(p.w), job.plan, job.plan.removes[j]);
    StopTime(job, Progress(c.w, p.committed, p.removed, p.recovery), Failed, RemoveStage);
    RemoveCause(job, AfterRemoval(p, job.plan.removes[j], c), j + 1);
    FineEarlier(job.env, p.w.clock, c.w.clock, RemoveFrom(job, p, j).w.clock);
  }

  // ---------- the whole run ----------

  lemma {:induction false} CalmValidate(job: Job, before: Files, p: Progress, i: nat, limit: nat)
    requires i <= |job.plan.encodes| == |job.temps|
    requires FineUntil(job.env, p.w.clock, ValidateFrom(job, p, i).w.clock) && Ready(job, before) && Staged(job.temps, before) && Roomy(job.plan, before, limit)
    requires forall x :: 0 <= x < |job.temps| ==> before[job.temps[x]].Encoded? && before[job.temps[x]].spec.codec == job.plan.encodes[x].spec.codec
    requires p.w.files == before && p.committed == [] && p.removed == [] && p.recovery == []
    ensures ValidateFrom(job, p, i).report.status != Failed
    decreases |job.plan.encodes| - i
  {
    hide Ready, Roomy, Sound, CommitFrom, Stop;
    if i == |job.plan.encodes| {
      StartLoose(job, before, p);
      CalmCommit(job, before, p, 0, limit);
    } else if job.env.canceled(p.w.clock) {
      StopStatus(job, Ticked(p), Canceled, ValidateStage);
    } else {
      var q := Ticked(Ticked(p));
      ValidateCause(job, q, i + 1);
      StopTime(job, Ticked(q), Failed, ValidateStage);
      StopTime(job, Ticked(q), Canceled, ValidateStage);
      CalmValidate(job, before, q, i + 1, limit);
    }
  }

  /** Staging leaves the zone and the way to it as they were. */
  lemma RoomWhileStaged(env: Env, plan: Plan, files: Files, shop: Shop, limit: nat)
    requires Admitted(plan, files) && NamesFree(env, plan, files) && Explained(env, plan, files, shop) && Roomy(plan, files, limit)
    ensures Roomy(plan, shop.files, limit)
  {
    hide Admitted, NamesFree, Explained, Separate, AllVictims, Rivals, Rival, NameAt, Taken;
    if plan.soft {
      var all := AllVictims(plan);
      forall v | v in all ensures RoomFor(plan.root, all, shop.files, v, limit) {
        SameTaken(env, plan, files, shop, v, limit);
        forall p | p in Ancestors(RecoveryDir(plan.root, v)) ensures !IsFile(shop.files, p) {
          WayIsClear(env, plan, files, shop, v, p);
        }
      }
    }
  }

  lemma SameTaken(env: Env, plan: Plan, files: Files, shop: Shop, v: Path, limit: nat)
    requires Admitted(plan, files) && NamesFree(env, plan, files) && Explained(env, plan, files, shop) && plan.soft && plan.root < v
    ensures Taken(plan.root, shop.files, v, limit) == Taken(plan.root, files, v, limit)
  {
    hide Admitted, NamesFree, Explained, NameAt;
    forall n: nat | n <= limit ensures NameAt(plan.root, v, n) in shop.files <==> NameAt(plan.root, v, n) in files {
      InTheZone(plan.root, v, n);
      ZoneStays(env, plan, files, shop, NameAt(plan.root, v, n));
    }
  }

  lemma WayIsClear(env: Env, plan: Plan, files: Files, shop: Shop, v: Path, p: Path)
    requires Admitted(plan, files) && NamesFree(env, plan, files) && Explained(env, plan, files, shop) && plan.soft
    requires plan.root < v && p in Ancestors(RecoveryDir(plan.root, v)) && !IsFile(files, p)
    ensures !IsFile(shop.files, p)
  {
    hide NamesFree, Explained;
    StagingReady(env, plan, files, shop);
    var root, dir := plan.root, RecoveryDir(plan.root, v);
    var k: nat :| 0 < k <= |dir| && p == dir[..k];
    if RecoveryZone(root) <= p {
      ZoneStays(env, plan, files, shop, p);
    } else {
      assert root == dir[..|root|];
      assert p == root[..k];
    }
  }

  lemma LimitOf(plan: Plan, files: Files) returns (limit: nat)
    requires Room(plan, files)
    ensures Roomy(plan, files, limit)
  {
    hide RoomWithin;
    limit := 0;
    if plan.soft {
      limit :| limit <= MAX_RECOVERY_NAMES && RoomWithin(plan.root, AllVictims(plan), files, limit);
    }
  }

  lemma CalmCommitAll(env: Env, plan: Plan, files: Files, shop: Shop, clock: nat)
    requires Admitted(plan, files) && NamesFree(env, plan, files) && Room(plan, files)
    requires Explained(env, plan, files, shop) && AllEncoded(shop)
    requires ShopFits(plan, shop) && FineUntil(env, clock, CommitAll(Job(env, plan, shop.temps), World(shop.files, clock)).w.clock)
    ensures CommitAll(Job(env, plan, shop.temps), World(shop.files, clock)).report.status != Failed
  {
    hide FineUntil, Admitted, NamesFree, Explained, Room, Roomy, Ready, Staged, ValidateFrom;
    StagingReady(env, plan, files, shop);
    AllStaged(env, plan, files, shop);
    var limit := LimitOf(plan, files);
    RoomWhileStaged(env, plan, files, shop, limit);
    forall x | 0 <= x < |plan.encodes|
      ensures shop.temps[x] in shop.files && shop.files[shop.temps[x]].Encoded? && shop.files[shop.temps[x]].spec == plan.encodes[x].spec
    {
      EncodedTemps(env, plan, files, shop, x);
    }
    CalmValidate(Job(env, plan, shop.temps), shop.files, Progress(World(shop.files, clock), [], [], []), 0, limit);
  }

  lemma {:induction false} CalmSerial(env: Env, plan: Plan, files: Files, shop: Shop, clock: nat, i: nat)
    requires Admitted(plan, files) && NamesFree(env, plan, files) && Room(plan, files)
    requires Explained(env, plan, files, shop) && i <= |plan.encodes| && SerialAt(plan, shop, i)
    requires forall k: nat :: k < |plan.encodes| ==> !EncodeBroken(env, k)
    requires FineUntil(env, clock, EncodeFrom(env, plan, shop, clock, i).w.clock)
    ensures EncodeFrom(env, plan, shop, clock, i).report.status != Failed
    decreases |plan.encodes| - i
  {
    hide NamesFree, Explained, Room, CommitAll, EncodeOne, FineUntil;
    if i == |plan.encodes| {
      CalmCommitAll(env, plan, files, shop, clock);
    } else {
      EncodeOneExplained(env, plan, files, shop, i);
      if env.encodes(i) == Clean {
        CalmSerial(env, plan, files, EncodeOne(env, plan, shop, i), clock, i + 1);
      } else {
        assert !EncodeBroken(env, i) && !Succeeds(env, plan, files, i);
        assert EncodeOne(env, plan, shop, i).tasks[i] == Finished(false);
      }
    }
  }

  /** A commit of complete staging fails only when one of its calls failed from
      outside. */
  lemma CommitFailureHasACause(env: Env, plan: Plan, files: Files, shop: Shop, clock: nat)
    requires Admitted(plan, files) && NamesFree(env, plan, files) && Room(plan, files)
    requires Explained(env, plan, files, shop) && AllEncoded(shop) && ShopFits(plan, shop)
    ensures var run := CommitAll(Job(env, plan, shop.temps), World(shop.files, clock));
      run.report.status == Failed ==> exists t: nat :: clock <= t < run.w.clock && env.weather(t) != Fine
  {
    hide Admitted, NamesFree, Explained, Room, AllEncoded, CommitAll;
    if FineUntil(env, clock, CommitAll(Job(env, plan, shop.temps), World(shop.files, clock)).w.clock) {
      CalmCommitAll(env, plan, files, shop, clock);
    }
  }

  /** A run of an admitted plan with room in the recovery zone fails only when one
      of its calls failed from outside, or an encode ended unclean. */
  lemma FailureHasACause(env: Env, plan: Plan, w: World)
    requires Admitted(plan, w.files) && NamesFree(env, plan, w.files) && Room(plan, w.files)
    requires RunComponent(env, plan, w).report.status == Failed
    ensures (exists t: nat :: w.clock <= t < RunComponent(env, plan, w).w.clock && env.weather(t) != Fine)
      || exists k: nat :: k < |plan.encodes| && EncodeBroken(env, k)
  {
    hide Admitted, NamesFree, Explained, Room;
    OpenExplained(env, plan, w.files);
    if FineUntil(env, w.clock, RunComponent(env, plan, w).w.clock) && forall k: nat :: k < |plan.encodes| ==> !EncodeBroken(env, k) {
      CalmSerial(env, plan, w.files, OpenShop(plan, w.files), w.clock, 0);
    }
  }

  /** When no call fails and nothing is canceled, an admitted plan with room in
      the recovery zone runs to success. */
  lemma CalmRunSucceeds(env: Env, plan: Plan, w: World)
    requires Calm(env) && Admitted(plan, w.files) && NamesFree(env, plan, w.files) && Room(plan, w.files)
    ensures RunComponent(env, plan, w).report.status == Succeeded
  {
    hide Admitted, NamesFree, Room, RunComponent;
    if RunComponent(env, plan, w).report.status == Failed {
      FailureHasACause(env, plan, w);
    } else if RunComponent(env, plan, w).report.status == Canceled {
      RunCanceledIsSeen(env, plan, w);
    }
  }
}
