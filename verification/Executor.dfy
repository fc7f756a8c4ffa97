/** One component run: outputs are staged beside their targets, validated,
    committed in frozen order, and only then the obsolete files are removed.
    Every operation is a function of the disk; the methods of
    `PreparedComponent` run them step by step and are proved equal to them. */
module Executor {
  import opened Prelude
  import opened Text
  import opened Audio
  import opened Disk

  datatype Encode = Encode(source: Path, target: Path, spec: Spec, replace: bool)

  /** A component that passed the gate. `root` is the recovery root. */
  datatype Plan = Plan(root: Path, soft: bool, encodes: seq<Encode>, removes: seq<Path>)

  /** A plan with the staged path of each output; `[]` until it is assigned. */
  datatype Job = Job(env: Env, plan: Plan, temps: seq<Path>)

  datatype RunStatus = Succeeded | Failed | Canceled
  datatype Stage = MaterializeStage | ValidateStage | CommitStage | RemoveStage

  datatype Report = Report(
    status: RunStatus, stage: Option<Stage>,
    committed: seq<Path>, removed: seq<Path>, remaining: seq<Path>, recovery: seq<Path>)

  datatype Run = Run(w: World, report: Report)

  const RECOVERY_DIR := "Delete"
  const MAX_RECOVERY_NAMES: nat := 100
  const MAX_RENAMES: nat := 3

  // ---------- names ----------

  function Beside(p: Path, suffix: string): Path {
    if p == [] then [suffix] else Dir(p) + [Base(p) + suffix]
  }

  function TempPath(env: Env, target: Path, i: nat): Path {
    Beside(target, ".tmp." + env.temp(i))
  }

  function AsidePath(env: Env, target: Path, i: nat): Path {
    Beside(target, ".tmp-old." + env.aside(i))
  }

  /** The base itself first, then the stem, a number and the extension. */
  function RecoveryName(base: string, attempt: nat): string {
    if attempt == 0 then base else TrimExt(base) + "." + Decimal(attempt) + Ext(base)
  }

  function RecoveryZone(root: Path): Path {
    root + [RECOVERY_DIR]
  }

  function RecoveryDir(root: Path, source: Path): Path
    requires root < source
  {
    RecoveryZone(root) + source[|root|..|source| - 1]
  }

  // ---------- soft removal ----------

  datatype Parking = Parking(w: World, dest: Option<Path>)

  function FreeName(env: Env, w: World, dir: Path, base: string, attempt: nat): Parking
    decreases MAX_RECOVERY_NAMES + 1 - attempt
  {
    if attempt > MAX_RECOVERY_NAMES then Parking(w, None)
    else
      var candidate := dir + [RecoveryName(base, attempt)];
      var look := Inspect(env, w, candidate);
      if look.err == Missing then Parking(look.w, Some(candidate))
      else if look.err != Fine then Parking(look.w, None)
      else FreeName(env, look.w, dir, base, attempt + 1)
  }

  /** Locked files are tried again; anything else fails at once. */
  function RenameRetry(env: Env, w: World, from: Path, to: Path, attempt: nat): Call
    decreases MAX_RENAMES - attempt
  {
    var call := Rename(env, w, from, to);
    if call.err == Busy && attempt < MAX_RENAMES then RenameRetry(env, call.w, from, to, attempt + 1) else call
  }

  function SoftRemove(env: Env, w: World, root: Path, source: Path): Parking {
    if !(root < source) then Parking(w, None)
    else
      var dir := RecoveryDir(root, source);
      var made := MkdirAll(env, w, dir);
      if made.err != Fine then Parking(made.w, None)
      else
        var name := FreeName(env, made.w, dir, Base(source), 0);
        if name.dest.None? then name
        else
          var moved := RenameRetry(env, name.w, source, name.dest.value, 1);
          Parking(moved.w, if moved.err == Fine then name.dest else None)
  }

  // ---------- committing one output ----------

  /** `landed`: the target holds the new output; `ok`: nothing went wrong. */
  datatype Landing = Landing(w: World, recovery: seq<Path>, landed: bool, ok: bool)

  function CommitFresh(env: Env, w: World, temp: Path, target: Path): Landing {
    var put := Rename(env, w, temp, target);
    Landing(put.w, [], put.err == Fine, put.err == Fine)
  }

  function CommitSoft(env: Env, w: World, root: Path, temp: Path, target: Path): Landing {
    var parked := SoftRemove(env, w, root, target);
    if parked.dest.None? then Landing(parked.w, [], false, false)
    else
      var put := Rename(env, parked.w, temp, target);
      if put.err == Fine then Landing(put.w, [parked.dest.value], true, true)
      else
        var back := Rename(env, put.w, parked.dest.value, target);
        Landing(back.w, if back.err == Fine then [] else [parked.dest.value], false, false)
  }

  function CommitHard(env: Env, w: World, temp: Path, target: Path, aside: Path): Landing {
    var saved := Rename(env, w, target, aside);
    if saved.err != Fine then Landing(saved.w, [], false, false)
    else
      var put := Rename(env, saved.w, temp, target);
      if put.err == Fine then
        var gone := Remove(env, put.w, aside);
        Landing(gone.w, if gone.err == Fine then [] else [aside], true, gone.err == Fine)
      else
        var back := Rename(env, put.w, aside, target);
        Landing(back.w, if back.err == Fine then [] else [aside], false, false)
  }

  function CommitOutput(job: Job, w: World, i: nat): Landing
    requires i < |job.plan.encodes| == |job.temps|
  {
    var e := job.plan.encodes[i];
    if !e.replace then CommitFresh(job.env, w, job.temps[i], e.target)
    else if job.plan.soft then CommitSoft(job.env, w, job.plan.root, job.temps[i], e.target)
    else CommitHard(job.env, w, job.temps[i], e.target, AsidePath(job.env, e.target, i))
  }

  datatype Clearing = Clearing(w: World, recovery: seq<Path>, ok: bool)

  function RemoveObsolete(env: Env, w: World, plan: Plan, source: Path): Clearing {
    if plan.soft then
      var parked := SoftRemove(env, w, plan.root, source);
      Clearing(parked.w, if parked.dest.Some? then [parked.dest.value] else [], parked.dest.Some?)
    else
      var gone := Remove(env, w, source);
      Clearing(gone.w, [], gone.err == Fine)
  }

  // ---------- stopping ----------

  datatype Sweep = Sweep(w: World, left: seq<Path>)

  /** Removes every assigned staged path; one that is gone already is fine. */
  function CleanupFrom(env: Env, w: World, temps: seq<Path>, i: nat): Sweep
    requires i <= |temps|
    decreases |temps| - i
  {
    if i == |temps| then Sweep(w, [])
    else if temps[i] == [] then CleanupFrom(env, w, temps, i + 1)
    else
      var gone := Remove(env, w, temps[i]);
      var rest := CleanupFrom(env, gone.w, temps, i + 1);
      Sweep(rest.w, (if gone.err == Fine || gone.err == Missing then [] else [temps[i]]) + rest.left)
  }

  function Rest<T>(s: seq<T>, k: nat): seq<T> {
    if k <= |s| then s[k..] else []
  }

  function Targets(encodes: seq<Encode>): (r: seq<Path>)
    ensures |r| == |encodes|
    ensures forall i :: 0 <= i < |encodes| ==> r[i] == encodes[i].target
  {
    seq(|encodes|, i requires 0 <= i < |encodes| => encodes[i].target)
  }

  /** Targets not committed, then files not removed, in frozen order. */
  function Remaining(plan: Plan, committed: nat, removed: nat): seq<Path> {
    Rest(Targets(plan.encodes), committed) + Rest(plan.removes, removed)
  }

  /** What a run has done so far. */
  datatype Progress = Progress(w: World, committed: seq<Path>, removed: seq<Path>, recovery: seq<Path>)

  function Stop(job: Job, p: Progress, status: RunStatus, stage: Stage): Run {
    var swept := CleanupFrom(job.env, p.w, job.temps, 0);
    Run(swept.w, Report(status, Some(stage), p.committed, p.removed,
                        Remaining(job.plan, |p.committed|, |p.removed|), p.recovery + swept.left))
  }

  // ---------- the commit stage ----------

  /** A staged output must still read as audio of its declared codec. */
  predicate Probed(env: Env, w: World, temp: Path, spec: Spec) {
    && env.weather(w.clock) == Fine
    && temp in w.files && w.files[temp].Encoded? && w.files[temp].spec.codec == spec.codec
  }

  function Ticked(p: Progress): Progress {
    Progress(Tick(p.w), p.committed, p.removed, p.recovery)
  }

  function RemoveFrom(job: Job, p: Progress, j: nat): Run
    requires j <= |job.plan.removes|
    decreases |job.plan.removes| - j
  {
    if j == |job.plan.removes| then
      Run(p.w, Report(Succeeded, None, p.committed, p.removed, [], p.recovery))
    else if job.env.canceled(p.w.clock) then Stop(job, Ticked(p), Canceled, RemoveStage)
    else
      var source := job.plan.removes[j];
      var c := RemoveObsolete(job.env, Tick(p.w), job.plan, source);
      if !c.ok then Stop(job, Progress(c.w, p.committed, p.removed, p.recovery), Failed, RemoveStage)
      else RemoveFrom(job, Progress(c.w, p.committed, p.removed + [source], p.recovery + c.recovery), j + 1)
  }

  function CommitFrom(job: Job, p: Progress, i: nat): Run
    requires i <= |job.plan.encodes| == |job.temps|
    decreases |job.plan.encodes| - i
  {
    if i == |job.plan.encodes| then RemoveFrom(job, p, 0)
    else if job.env.canceled(p.w.clock) then Stop(job, Ticked(p), Canceled, CommitStage)
    else
      var l := CommitOutput(job, Tick(p.w), i);
      var q := Progress(l.w, if l.landed then p.committed + [job.plan.encodes[i].target] else p.committed,
                        p.removed, p.recovery + l.recovery);
      if !l.ok then Stop(job, q, Failed, CommitStage) else CommitFrom(job, q, i + 1)
  }

  function ValidateFrom(job: Job, p: Progress, i: nat): Run
    requires i <= |job.plan.encodes| == |job.temps|
    decreases |job.plan.encodes| - i
  {
    if i == |job.plan.encodes| then CommitFrom(job, p, 0)
    else if job.env.canceled(p.w.clock) then Stop(job, Ticked(p), Canceled, ValidateStage)
    else if Probed(job.env, Tick(p.w), job.temps[i], job.plan.encodes[i].spec) then
      ValidateFrom(job, Ticked(Ticked(p)), i + 1)
    else
      var q := Ticked(Ticked(p));
      Stop(job, Ticked(q), if job.env.canceled(q.w.clock) then Canceled else Failed, ValidateStage)
  }

  function CommitAll(job: Job, w: World): Run
    requires |job.plan.encodes| == |job.temps|
  {
    ValidateFrom(job, Progress(w, [], [], []), 0)
  }

  // ---------- staging ----------

  datatype Task = Idle | Working | Finished(ok: bool)

  /** The staging area while encodes run, possibly concurrently. */
  datatype Shop = Shop(files: map<Path, Content>, temps: seq<Path>, tasks: seq<Task>)

  predicate ShopFits(plan: Plan, shop: Shop) {
    |plan.encodes| == |shop.temps| == |shop.tasks|
  }

  function Begin(env: Env, plan: Plan, shop: Shop, i: nat): Shop
    requires ShopFits(plan, shop) && i < |plan.encodes|
  {
    var fate := env.encodes(i);
    var temp := TempPath(env, plan.encodes[i].target, i);
    if fate == NotStarted then Shop(shop.files, shop.temps, shop.tasks[i := Finished(false)])
    else Shop(if fate.Nothing? then shop.files else shop.files[temp := Partial],
              shop.temps[i := temp], shop.tasks[i := Working])
  }

  function End(env: Env, plan: Plan, shop: Shop, i: nat): Shop
    requires ShopFits(plan, shop) && i < |plan.encodes|
  {
    var e := plan.encodes[i];
    if env.encodes(i) == Clean && IsFile(shop.files, e.source) then
      Shop(shop.files[shop.temps[i] := Encoded(shop.files[e.source], e.spec)], shop.temps, shop.tasks[i := Finished(true)])
    else Shop(shop.files, shop.temps, shop.tasks[i := Finished(false)])
  }

  function EncodeOne(env: Env, plan: Plan, shop: Shop, i: nat): (next: Shop)
    requires ShopFits(plan, shop) && i < |plan.encodes|
    ensures ShopFits(plan, next)
  {
    var begun := Begin(env, plan, shop, i);
    if begun.tasks[i].Working? then End(env, plan, begun, i) else begun
  }

  /** Why a component did not commit: canceled or failed, while staging. */
  function CauseOf(env: Env, i: nat): RunStatus {
    var fate := env.encodes(i);
    if fate == NotStarted || ((fate.Nothing? || fate.Torn?) && fate.canceled) then Canceled else Failed
  }

  function Discard(job: Job, w: World, cause: RunStatus): Run {
    var swept := CleanupFrom(job.env, w, job.temps, 0);
    Run(swept.w, Report(cause, Some(MaterializeStage), [], [], Remaining(job.plan, 0, 0), swept.left))
  }

  /** The serial run: encodes in order, the first failure discards everything. */
  function EncodeFrom(env: Env, plan: Plan, shop: Shop, clock: nat, i: nat): Run
    requires ShopFits(plan, shop) && i <= |plan.encodes|
    decreases |plan.encodes| - i
  {
    if i == |plan.encodes| then CommitAll(Job(env, plan, shop.temps), World(shop.files, clock))
    else
      var next := EncodeOne(env, plan, shop, i);
      if next.tasks[i] == Finished(true) then EncodeFrom(env, plan, next, clock, i + 1)
      else Discard(Job(env, plan, next.temps), World(next.files, clock), CauseOf(env, i))
  }

  function OpenShop(plan: Plan, files: map<Path, Content>): (shop: Shop)
    ensures ShopFits(plan, shop)
  {
    Shop(files, seq(|plan.encodes|, _ => []), seq(|plan.encodes|, _ => Idle))
  }

  function RunComponent(env: Env, plan: Plan, w: World): Run {
    EncodeFrom(env, plan, OpenShop(plan, w.files), w.clock, 0)
  }
}
