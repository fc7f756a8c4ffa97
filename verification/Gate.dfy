/** The gate a frozen component passes before any file is created: its
    operations, their conflicts and dependencies, its paths and the disk facts
    of every file it refers to. */
module Gate {
  import opened Prelude
  import opened Audio
  import opened Disk
  import opened Grouping
  import opened Planner
  import Executor

  const NANOS := 1_000_000_000

  /** What is on the disk: a regular file with its size and its modification
      time in nanoseconds, a directory, or anything else. */
  datatype Node = Regular(size: int, nanos: int) | Directory | Special

  type Snapshot = map<Path, Node>

  datatype GateError =
    | InvalidRequest | ComponentBlocked | UnsupportedOp | TargetConflict | InvalidDependency
    | PathUnsafe | FileChanged | ToolsUnavailable

  /** `recoveryRoot` is `[]` when the member root serves as one. */
  datatype Request = Request(root: Path, recoveryRoot: Path, soft: bool, component: Outcome, profile: Profile, ready: bool)

  datatype Removal = Removal(source: Path, dependsOn: seq<Path>)
  datatype Collected = Collected(encodes: seq<Executor.Encode>, removes: seq<Removal>)

  /** The extensions a removal may have; `.opus` is not among them. */
  predicate Removable(ext: string) {
    ext == ".wav" || ext == ".flac" || ext == ".mp3" || ext == ".m4a" || ext == ".aac"
  }

  // ---------- the request ----------

  function RecoveryRootOf(req: Request): Path {
    if req.recoveryRoot == [] then req.root else req.recoveryRoot
  }

  function CheckRequest(req: Request, disk: Snapshot): Option<GateError> {
    if req.root == [] || req.root !in disk || !disk[req.root].Directory? then Some(InvalidRequest)
    else if req.recoveryRoot != [] && (req.recoveryRoot !in disk || !disk[req.recoveryRoot].Directory?) then Some(InvalidRequest)
    else if req.component.id == "" then Some(InvalidRequest)
    else if req.component.block.Some? then Some(ComponentBlocked)
    else None
  }

  function AddSpec(specs: map<string, Spec>, spec: Option<Spec>): Result<map<string, Spec>, GateError> {
    if spec.None? then Good(specs)
    else
      var ext := ExtFor(spec.value.codec);
      if ext in specs then Bad(InvalidRequest)
      else if !spec.value.Lossless() && !(spec.value.bitrate.Some? && spec.value.bitrate.value > 0) then Bad(InvalidRequest)
      else Good(specs[ext := spec.value])
  }

  /** The declared outputs by extension; each extension names one of them. */
  function SpecsOf(profile: Profile): Result<map<string, Spec>, GateError> {
    match AddSpec(map[], profile.lossless)
    case Bad(e) => Bad(e)
    case Good(specs) => AddSpec(specs, profile.encoded)
  }

  // ---------- the operations ----------

  function CheckOp(op: Operation, id: string, specs: map<string, Spec>): Option<GateError> {
    if op.component != id then Some(UnsupportedOp)
    else
      match op.kind
      case EncodeKind =>
        if !op.phase.MaterializeOutputs? || op.source == [] || op.target == [] then Some(UnsupportedOp)
        else if ExtOf(op.target) !in specs then Some(UnsupportedOp)
        else if op.source == op.target then Some(TargetConflict)
        else None
      case RemoveObsoleteKind =>
        if !op.phase.RemoveObsoleteAudio? || op.source == [] || op.target != [] then Some(UnsupportedOp)
        else if !Removable(ExtOf(op.source)) then Some(UnsupportedOp)
        else None
      case OtherKind => Some(UnsupportedOp)
  }

  function Collect(ops: seq<Operation>, k: nat, id: string, specs: map<string, Spec>): Result<Collected, GateError>
    requires k <= |ops|
  {
    if k == 0 then Good(Collected([], []))
    else
      match Collect(ops, k - 1, id, specs)
      case Bad(e) => Bad(e)
      case Good(c) =>
        var op := ops[k - 1];
        match CheckOp(op, id, specs)
        case Some(e) => Bad(e)
        case None =>
          if op.kind.EncodeKind? then
            Good(Collected(c.encodes + [Executor.Encode(op.source, op.target, specs[ExtOf(op.target)], false)], c.removes))
          else Good(Collected(c.encodes, c.removes + [Removal(op.source, op.dependsOn)]))
  }

  // ---------- conflicts and dependencies ----------

  predicate NoConflicts(c: Collected) {
    && (forall i, j :: 0 <= i < j < |c.encodes| ==> c.encodes[i].target != c.encodes[j].target)
    && (forall i, j :: 0 <= i < |c.encodes| && 0 <= j < |c.encodes| ==> c.encodes[i].source != c.encodes[j].target)
    && (forall i, j :: 0 <= i < |c.removes| && 0 <= j < |c.encodes| ==> c.removes[i].source != c.encodes[j].target)
    && (forall i, j :: 0 <= i < j < |c.removes| ==> c.removes[i].source != c.removes[j].source)
  }

  predicate IsTarget(encodes: seq<Executor.Encode>, p: Path) {
    exists j :: 0 <= j < |encodes| && encodes[j].target == p
  }

  predicate DependenciesKnown(c: Collected) {
    forall i, d :: 0 <= i < |c.removes| && d in c.removes[i].dependsOn ==> IsTarget(c.encodes, d)
  }

  predicate PathsInside(c: Collected, root: Path) {
    && (forall i :: 0 <= i < |c.encodes| ==> root < c.encodes[i].source && root < c.encodes[i].target)
    && (forall i :: 0 <= i < |c.removes| ==> root < c.removes[i].source)
  }

  // ---------- disk facts ----------

  /** The last tuple of a path counts. */
  function Frozen(files: seq<Tuple>): map<Path, Tuple> {
    if files == [] then map[] else Frozen(files[..|files| - 1])[files[|files| - 1].path := files[|files| - 1]]
  }

  predicate Declared(variants: seq<Variant>, target: Path) {
    exists i, d :: 0 <= i < |variants| && d in variants[i].decisions && d.EncodeTo? && d.path == target
  }

  /** A frozen file must still be the file that was planned for. */
  function CheckFrozen(frozen: map<Path, Tuple>, disk: Snapshot, p: Path): Option<GateError> {
    if p !in frozen || p !in disk || !disk[p].Regular? then Some(FileChanged)
    else
      var t, n := frozen[p], disk[p];
      if t.size > 0 && n.size != t.size then Some(FileChanged)
      else if t.mtime > 0 && (n.nanos - t.mtime * NANOS > NANOS || t.mtime * NANOS - n.nanos > NANOS) then Some(FileChanged)
      else None
  }

  function CheckFree(disk: Snapshot, p: Path): Option<GateError> {
    if p in disk then Some(TargetConflict)
    else if p == [] || Dir(p) !in disk || !disk[Dir(p)].Directory? then Some(TargetConflict)
    else None
  }

  /** Whether an encode replaces a frozen file, or why it may not run. */
  function CheckEncode(frozen: map<Path, Tuple>, variants: seq<Variant>, disk: Snapshot, e: Executor.Encode): Result<bool, GateError> {
    match CheckFrozen(frozen, disk, e.source)
    case Some(err) => Bad(err)
    case None =>
      if e.target in frozen then
        if !Declared(variants, e.target) then Bad(TargetConflict)
        else
          match CheckFrozen(frozen, disk, e.target)
          case Some(err) => Bad(err)
          case None => Good(true)
      else
        match CheckFree(disk, e.target)
        case Some(err) => Bad(err)
        case None => Good(false)
  }

  function CheckEncodes(frozen: map<Path, Tuple>, variants: seq<Variant>, disk: Snapshot, encodes: seq<Executor.Encode>, k: nat): Result<seq<Executor.Encode>, GateError>
    requires k <= |encodes|
  {
    if k == 0 then Good([])
    else
      match CheckEncodes(frozen, variants, disk, encodes, k - 1)
      case Bad(err) => Bad(err)
      case Good(done) =>
        match CheckEncode(frozen, variants, disk, encodes[k - 1])
        case Bad(err) => Bad(err)
        case Good(replace) => Good(done + [encodes[k - 1].(replace := replace)])
  }

  function CheckRemoves(frozen: map<Path, Tuple>, disk: Snapshot, removes: seq<Removal>, k: nat): Option<GateError>
    requires k <= |removes|
  {
    if k == 0 then None
    else
      match CheckRemoves(frozen, disk, removes, k - 1)
      case Some(err) => Some(err)
      case None => CheckFrozen(frozen, disk, removes[k - 1].source)
  }

  function RemovalPaths(removes: seq<Removal>): (r: seq<Path>)
    ensures |r| == |removes| && forall k :: 0 <= k < |r| ==> r[k] == removes[k].source
  {
    seq(|removes|, k requires 0 <= k < |removes| => removes[k].source)
  }

  function CheckDisk(req: Request, disk: Snapshot, c: Collected): Result<Executor.Plan, GateError> {
    var frozen := Frozen(req.component.files);
    match CheckEncodes(frozen, req.component.variants, disk, c.encodes, |c.encodes|)
    case Bad(err) => Bad(err)
    case Good(encodes) =>
      match CheckRemoves(frozen, disk, c.removes, |c.removes|)
      case Some(err) => Bad(err)
      case None =>
        if encodes != [] && !req.ready then Bad(ToolsUnavailable)
        else Good(Executor.Plan(RecoveryRootOf(req), req.soft, encodes, RemovalPaths(c.removes)))
  }

  /** The whole gate: the first check that fails answers. */
  function Precheck(req: Request, disk: Snapshot): Result<Executor.Plan, GateError> {
    match CheckRequest(req, disk)
    case Some(err) => Bad(err)
    case None =>
      match SpecsOf(req.profile)
      case Bad(err) => Bad(err)
      case Good(specs) =>
        var ops := req.component.operations;
        match Collect(ops, |ops|, req.component.id, specs)
        case Bad(err) => Bad(err)
        case Good(c) =>
          if !NoConflicts(c) then Bad(TargetConflict)
          else if !DependenciesKnown(c) then Bad(InvalidDependency)
          else if !PathsInside(c, req.root) then Bad(PathUnsafe)
          else CheckDisk(req, disk, c)
  }

  // ---------- the gate as it runs ----------

  class PlannedComponent {
    const req: Request
    var encodes: seq<Executor.Encode>
    var removes: seq<Removal>

    constructor (req: Request)
      ensures this.req == req && encodes == [] && removes == []
    {
      this.req, this.encodes, this.removes := req, [], [];
    }

    function View(): Collected
      reads this
    {
      Collected(encodes, removes)
    }

    method CollectOperations(specs: map<string, Spec>) returns (err: Option<GateError>)
      requires encodes == [] && removes == []
      modifies this
      ensures var ops := req.component.operations;
        Collect(ops, |ops|, req.component.id, specs) == if err.Some? then Bad(err.value) else Good(View())
    {
      var ops := req.component.operations;
      for k := 0 to |ops|
        invariant Collect(ops, k, req.component.id, specs) == Good(View())
      {
        var op := ops[k];
        err := CheckOp(op, req.component.id, specs);
        if err.Some? {
          StaysBad(ops, k + 1, |ops|, req.component.id, specs);
          return;
        }
        if op.kind.EncodeKind? {
          encodes := encodes + [Executor.Encode(op.source, op.target, specs[ExtOf(op.target)], false)];
        } else {
          removes := removes + [Removal(op.source, op.dependsOn)];
        }
      }
      err := None;
    }

    /** Walks the targets, the sources and the removals with a set of targets. */
    method ValidateConflicts() returns (ok: bool)
      ensures ok == NoConflicts(View())
    {
      var targets: set<Path> := {};
      for i := 0 to |encodes|
        invariant targets == set x | 0 <= x < i :: encodes[x].target
        invariant forall x, y :: 0 <= x < y < i ==> encodes[x].target != encodes[y].target
      {
        if encodes[i].target in targets {
          return false;
        }
        targets := targets + {encodes[i].target};
      }
      for i := 0 to |encodes|
        invariant forall x, y :: 0 <= x < i && 0 <= y < |encodes| ==> encodes[x].source != encodes[y].target
      {
        if encodes[i].source in targets {
          return false;
        }
      }
      var removed: set<Path> := {};
      for i := 0 to |removes|
        invariant removed == set x | 0 <= x < i :: removes[x].source
        invariant forall x, y :: 0 <= x < i && 0 <= y < |encodes| ==> removes[x].source != encodes[y].target
        invariant forall x, y :: 0 <= x < y < i ==> removes[x].source != removes[y].source
      {
        if removes[i].source in targets || removes[i].source in removed {
          return false;
        }
        removed := removed + {removes[i].source};
      }
      return true;
    }

    method ValidateDependencies() returns (ok: bool)
      ensures ok == DependenciesKnown(View())
    {
      var targets: set<Path> := {};
      for i := 0 to |encodes|
        invariant targets == set x | 0 <= x < i :: encodes[x].target
      {
        targets := targets + {encodes[i].target};
      }
      assert forall p :: p in targets <==> IsTarget(encodes, p);
      for i := 0 to |removes|
        invariant forall x, d :: 0 <= x < i && d in removes[x].dependsOn ==> IsTarget(encodes, d)
      {
        var deps := removes[i].dependsOn;
        for j := 0 to |deps|
          invariant forall d :: d in deps[..j] ==> IsTarget(encodes, d)
        {
          if deps[j] !in targets {
            assert deps[j] in removes[i].dependsOn && !IsTarget(encodes, deps[j]);
            return false;
          }
          assert deps[..j + 1] == deps[..j] + [deps[j]];
        }
        assert deps[..|deps|] == deps;
      }
      return true;
    }

    /** Verifies the frozen facts and marks the encodes that replace a file. */
    method CheckDiskFacts(disk: Snapshot) returns (err: Option<GateError>)
      modifies this
      ensures var frozen := Frozen(req.component.files);
        && removes == old(removes)
        && (err.Some? ==> (CheckEncodes(frozen, req.component.variants, disk, old(encodes), |old(encodes)|) == Bad(err.value)
              || (CheckEncodes(frozen, req.component.variants, disk, old(encodes), |old(encodes)|).Good? && CheckRemoves(frozen, disk, removes, |removes|) == err)))
        && (err.None? ==>
              && CheckEncodes(frozen, req.component.variants, disk, old(encodes), |old(encodes)|) == Good(encodes)
              && CheckRemoves(frozen, disk, removes, |removes|).None?)
    {
      var frozen := Frozen(req.component.files);
      var variants := req.component.variants;
      ghost var before := encodes;
      for i := 0 to |encodes|
        invariant |encodes| == |before| && encodes[i..] == before[i..] && removes == old(removes)
        invariant CheckEncodes(frozen, variants, disk, before, i) == Good(encodes[..i])
      {
        var found := CheckEncode(frozen, variants, disk, encodes[i]);
        assert encodes[i] == before[i];
        if found.Bad? {
          EncodesStayBad(frozen, variants, disk, before, i + 1, |before|);
          return Some(found.error);
        }
        ghost var marked := encodes[..i];
        encodes := encodes[i := encodes[i].(replace := found.value)];
        assert encodes[..i + 1] == marked + [encodes[i]];
      }
      assert encodes[..|encodes|] == encodes;
      for i := 0 to |removes|
        invariant CheckRemoves(frozen, disk, removes, i).None?
      {
        err := CheckFrozen(frozen, disk, removes[i].source);
        if err.Some? {
          RemovesStayBad(frozen, disk, removes, i + 1, |removes|);
          return;
        }
      }
      err := None;
    }
  }

  lemma {:induction false} StaysBad(ops: seq<Operation>, k: nat, n: nat, id: string, specs: map<string, Spec>)
    requires k <= n <= |ops| && Collect(ops, k, id, specs).Bad?
    ensures Collect(ops, n, id, specs) == Collect(ops, k, id, specs)
  {
    if k < n {
      StaysBad(ops, k, n - 1, id, specs);
    }
  }

  lemma {:induction false} EncodesStayBad(frozen: map<Path, Tuple>, variants: seq<Variant>, disk: Snapshot, encodes: seq<Executor.Encode>, k: nat, n: nat)
    requires k <= n <= |encodes| && CheckEncodes(frozen, variants, disk, encodes, k).Bad?
    ensures CheckEncodes(frozen, variants, disk, encodes, n) == CheckEncodes(frozen, variants, disk, encodes, k)
  {
    if k < n {
      EncodesStayBad(frozen, variants, disk, encodes, k, n - 1);
    }
  }

  lemma {:induction false} RemovesStayBad(frozen: map<Path, Tuple>, disk: Snapshot, removes: seq<Removal>, k: nat, n: nat)
    requires k <= n <= |removes| && CheckRemoves(frozen, disk, removes, k).Some?
    ensures CheckRemoves(frozen, disk, removes, n) == CheckRemoves(frozen, disk, removes, k)
  {
    if k < n {
      RemovesStayBad(frozen, disk, removes, k, n - 1);
    }
  }

  /** The gate, check by check in the program's order. */
  method RunPrecheck(req: Request, disk: Snapshot) returns (r: Result<Executor.Plan, GateError>)
    ensures r == Precheck(req, disk)
  {
    var bad := CheckRequest(req, disk);
    if bad.Some? {
      return Bad(bad.value);
    }
    var specs := SpecsOf(req.profile);
    if specs.Bad? {
      return Bad(specs.error);
    }
    var plan := new PlannedComponent(req);
    var err := plan.CollectOperations(specs.value);
    if err.Some? {
      return Bad(err.value);
    }
    ghost var c := plan.View();
    var ok := plan.ValidateConflicts();
    if !ok {
      return Bad(TargetConflict);
    }
    ok := plan.ValidateDependencies();
    if !ok {
      return Bad(InvalidDependency);
    }
    if !PathsInside(plan.View(), req.root) {
      return Bad(PathUnsafe);
    }
    err := plan.CheckDiskFacts(disk);
    if err.Some? {
      return Bad(err.value);
    }
    if plan.encodes != [] && !req.ready {
      return Bad(ToolsUnavailable);
    }
    return Good(Executor.Plan(RecoveryRootOf(req), req.soft, plan.encodes, RemovalPaths(plan.removes)));
  }
}
