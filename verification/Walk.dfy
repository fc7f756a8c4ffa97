/** The parallel directory walk: a coordinator that owns all work accounting, a
    pool of workers that only read directories, and two bounded channels. */
module Walk {
  import opened Disk

  /** A directory tree; a file has no children. */
  datatype Tree = Tree(name: string, dir: bool, size: int, mtime: int, children: seq<Tree>)

  /** One emitted entry. */
  datatype Entry = Entry(path: Path, parent: Path, name: string, dir: bool, size: int, mtime: int)

  /** A directory to read, with what is in it. */
  datatype Item = Item(path: Path, children: seq<Tree>)

  function EntryOf(at: Path, t: Tree): Entry {
    Entry(at + [t.name], at, t.name, t.dir, t.size, t.mtime)
  }

  function ItemOf(at: Path, t: Tree): Item {
    Item(at + [t.name], t.children)
  }

  /** Every proper descendant of a directory, once. */
  function Below(at: Path, children: seq<Tree>): multiset<Entry>
    decreases children, 0
  {
    if children == [] then multiset{}
    else multiset{EntryOf(at, children[0])} + Under(at, children[0]) + Below(at, children[1..])
  }

  function Under(at: Path, t: Tree): multiset<Entry>
    decreases t, 1
  {
    if t.dir then Below(at + [t.name], t.children) else multiset{}
  }

  function Work(i: Item): multiset<Entry> { Below(i.path, i.children) }

  function WorkAll(items: seq<Item>): multiset<Entry> {
    if items == [] then multiset{} else WorkAll(items[..|items| - 1]) + Work(items[|items| - 1])
  }

  // ---------- the machine ----------

  datatype Answer = Subdirs(items: seq<Item>) | Error(code: int)

  datatype Worker =
    | Idle
    | Reading(item: Item, at: nat, subdirs: seq<Item>)
    | Reporting(answer: Answer)
    | Gone
  {
    predicate Busy() { Reading? || Reporting? }
  }

  datatype Ending = Complete | Failed(code: int) | Canceled

  datatype Phase = Running | Closing(end: Ending) | Done(end: Ending)

  datatype State = State(
    limit: nat, queued: seq<Item>, jobs: seq<Item>, workers: seq<Worker>, results: seq<Answer>,
    pending: int, emitted: multiset<Entry>, canceled: bool, phase: Phase)

  datatype Action =
    | Send | Receive | SeeCancel | Finish
    | Take(w: nat) | Emit(w: nat) | Fail(w: nat, code: int) | EndOfDir(w: nat) | Report(w: nat) | Quit(w: nat)
    | Cancel

  function Start(root: Item, workers: nat): State {
    State(2 * workers, [root], [], seq(workers, _ => Idle), [], 1, multiset{}, false, Running)
  }

  predicate AllGone(workers: seq<Worker>) {
    forall k :: 0 <= k < |workers| ==> workers[k].Gone?
  }

  predicate Enabled(s: State, a: Action) {
    match a
    case Send => s.phase.Running? && s.queued != [] && |s.jobs| < s.limit
    case Receive => s.phase.Running? && s.results != []
    case SeeCancel => s.phase.Running? && s.canceled
    case Finish => s.phase.Closing? && AllGone(s.workers)
    case Take(w) => w < |s.workers| && s.workers[w].Idle? && s.jobs != []
    case Emit(w) => w < |s.workers| && s.workers[w].Reading? && s.workers[w].at < |s.workers[w].item.children|
    case Fail(w, _) => w < |s.workers| && s.workers[w].Reading?
    case EndOfDir(w) => w < |s.workers| && s.workers[w].Reading? && s.workers[w].at == |s.workers[w].item.children|
    case Report(w) => w < |s.workers| && s.workers[w].Reporting? && |s.results| < s.limit
    case Quit(w) => w < |s.workers| && !s.workers[w].Gone? && (s.canceled || (s.workers[w].Idle? && s.phase.Closing? && s.jobs == []))
    case Cancel => !s.canceled && !s.phase.Done?
  }

  function Received(s: State): State
    requires s.results != []
  {
    match s.results[0]
    case Error(code) => State(s.limit, s.queued, s.jobs, s.workers, s.results[1..], s.pending - 1, s.emitted, true, Closing(Failed(code)))
    case Subdirs(items) =>
      var pending := s.pending - 1 + |items|;
      State(s.limit, s.queued + items, s.jobs, s.workers, s.results[1..], pending, s.emitted, s.canceled,
            if pending > 0 then Running else Closing(Complete))
  }

  function WorkerNext(s: State, a: Action): State
    requires Enabled(s, a) && (a.Take? || a.Emit? || a.Fail? || a.EndOfDir? || a.Report? || a.Quit?)
  {
    var worker := s.workers[a.w];
    match a
    case Take(w) => s.(jobs := s.jobs[1..], workers := s.workers[w := Reading(s.jobs[0], 0, [])])
    case Emit(w) =>
      var t := worker.item.children[worker.at];
      s.(emitted := s.emitted + multiset{EntryOf(worker.item.path, t)},
         workers := s.workers[w := Reading(worker.item, worker.at + 1,
           if t.dir then worker.subdirs + [ItemOf(worker.item.path, t)] else worker.subdirs)])
    case Fail(w, code) => s.(workers := s.workers[w := Reporting(Error(code))])
    case EndOfDir(w) => s.(workers := s.workers[w := Reporting(Subdirs(worker.subdirs))])
    case Report(w) =>
      s.(results := s.results + [worker.answer], workers := s.workers[w := if worker.answer.Error? then Gone else Idle])
    case Quit(w) => s.(workers := s.workers[w := Gone])
  }

  function Next(s: State, a: Action): State
    requires Enabled(s, a)
  {
    match a
    case Send => s.(queued := s.queued[1..], jobs := s.jobs + [s.queued[0]])
    case Receive => Received(s)
    case SeeCancel => s.(phase := Closing(Canceled))
    case Finish => s.(phase := Done(if s.phase.end.Complete? && s.canceled then Canceled else s.phase.end))
    case Cancel => s.(canceled := true)
    case _ => WorkerNext(s, a)
  }

  ghost predicate Reaches(s: State, actions: seq<Action>, t: State)
    decreases actions
  {
    if actions == [] then s == t
    else Enabled(s, actions[0]) && Reaches(Next(s, actions[0]), actions[1..], t)
  }

  // ---------- accounting ----------

  function BusyCount(workers: seq<Worker>): nat {
    if workers == [] then 0
    else BusyCount(workers[..|workers| - 1]) + if workers[|workers| - 1].Busy() then 1 else 0
  }

  function WorkOf(w: Worker): multiset<Entry> {
    match w
    case Reading(item, at, subdirs) => (if at <= |item.children| then Below(item.path, item.children[at..]) else multiset{}) + WorkAll(subdirs)
    case Reporting(Subdirs(items)) => WorkAll(items)
    case _ => multiset{}
  }

  function WorkOfAll(workers: seq<Worker>): multiset<Entry> {
    if workers == [] then multiset{} else WorkOfAll(workers[..|workers| - 1]) + WorkOf(workers[|workers| - 1])
  }

  function WorkIn(answers: seq<Answer>): multiset<Entry> {
    if answers == [] then multiset{}
    else WorkIn(answers[..|answers| - 1]) + if answers[|answers| - 1].Subdirs? then WorkAll(answers[|answers| - 1].items) else multiset{}
  }

  // ---------- sums over the machine ----------

  lemma {:induction false} WorkAllJoin(a: seq<Item>, b: seq<Item>)
    ensures WorkAll(a + b) == WorkAll(a) + WorkAll(b)
  {
    if b == [] {
      assert a + b == a;
    } else {
      assert (a + b)[..|a + b| - 1] == a + b[..|b| - 1];
      WorkAllJoin(a, b[..|b| - 1]);
    }
  }

  lemma {:induction false} WorkInJoin(a: seq<Answer>, b: seq<Answer>)
    ensures WorkIn(a + b) == WorkIn(a) + WorkIn(b)
  {
    if b == [] {
      assert a + b == a;
    } else {
      assert (a + b)[..|a + b| - 1] == a + b[..|b| - 1];
      WorkInJoin(a, b[..|b| - 1]);
    }
  }

  lemma WorkAllHead(items: seq<Item>)
    requires items != []
    ensures WorkAll(items) == Work(items[0]) + WorkAll(items[1..])
  {
    assert items == [items[0]] + items[1..];
    WorkAllJoin([items[0]], items[1..]);
    WorkAllOne(items[0]);
  }

  lemma WorkAllOne(i: Item)
    ensures WorkAll([i]) == Work(i)
  {
    assert [i][..0] == [];
  }

  lemma WorkInHead(answers: seq<Answer>)
    requires answers != []
    ensures WorkIn(answers) == WorkIn([answers[0]]) + WorkIn(answers[1..])
  {
    assert answers == [answers[0]] + answers[1..];
    WorkInJoin([answers[0]], answers[1..]);
  }

  lemma WorkInOne(a: Answer)
    ensures WorkIn([a]) == if a.Subdirs? then WorkAll(a.items) else multiset{}
  {
    assert [a][..0] == [];
  }

  lemma Swap<T>(a: multiset<T>, b: multiset<T>, c: multiset<T>, d: multiset<T>, l: multiset<T>)
    requires a + b == c + d
    ensures a + l + b == c + l + d
  {
    assert a + l + b == a + b + l;
    assert c + l + d == c + d + l;
  }

  /** Replacing one worker changes the sums by that worker only. */
  lemma {:induction false} WorkerChange(workers: seq<Worker>, w: nat, v: Worker)
    requires w < |workers|
    ensures WorkOfAll(workers[w := v]) + WorkOf(workers[w]) == WorkOfAll(workers) + WorkOf(v)
    ensures BusyCount(workers[w := v]) + (if workers[w].Busy() then 1 else 0) == BusyCount(workers) + (if v.Busy() then 1 else 0)
  {
    hide WorkOf;
    var n := |workers|;
    if w == n - 1 {
      assert workers[w := v][..n - 1] == workers[..n - 1];
    } else {
      var init, last := workers[..n - 1], WorkOf(workers[n - 1]);
      assert workers[w := v][..n - 1] == init[w := v];
      WorkerChange(init, w, v);
      Swap(WorkOfAll(init[w := v]), WorkOf(workers[w]), WorkOfAll(init), WorkOf(v), last);
    }
  }

  lemma {:induction false} NoneBusy(workers: seq<Worker>)
    requires BusyCount(workers) == 0
    ensures WorkOfAll(workers) == multiset{}
    ensures forall w :: 0 <= w < |workers| ==> !workers[w].Busy()
  {
    if workers != [] {
      NoneBusy(workers[..|workers| - 1]);
    }
  }

  // ---------- the invariant ----------

  predicate HasError(answers: seq<Answer>) {
    exists k :: 0 <= k < |answers| && answers[k].Error?
  }

  predicate Failing(w: Worker) { w.Reporting? && w.answer.Error? }

  /** No failure is on its way to the coordinator. */
  predicate Clean(s: State) {
    !HasError(s.results) && forall w :: 0 <= w < |s.workers| ==> !Failing(s.workers[w])
  }

  /** Every pending directory is queued, in the job channel, being read, or its
      answer is in the result channel. */
  predicate Counted(s: State) {
    s.pending == |s.queued| + |s.jobs| + BusyCount(s.workers) + |s.results|
  }

  /** What was emitted and what is still to come are the whole tree. */
  ghost predicate Summed(s: State, root: Item) {
    s.emitted + WorkAll(s.queued) + WorkAll(s.jobs) + WorkOfAll(s.workers) + WorkIn(s.results) == Work(root)
  }

  predicate Sane(s: State) {
    && s.limit >= 2 && |s.jobs| <= s.limit && |s.results| <= s.limit && 2 * |s.workers| == s.limit
    && (forall w :: 0 <= w < |s.workers| && s.workers[w].Reading? ==> s.workers[w].at <= |s.workers[w].item.children|)
  }

  /** A worker leaves the running pool only after handing in a failure. */
  predicate Manned(s: State) {
    (exists w :: 0 <= w < |s.workers| && s.workers[w].Gone?) ==> HasError(s.results) || s.phase != Running
  }

  ghost predicate AtPhase(s: State) {
    match s.phase
    case Running => !s.canceled ==> s.pending > 0
    case Closing(end) => if end.Complete? then !s.canceled ==> s.pending == 0 && Clean(s) else s.canceled
    case Done(end) => AllGone(s.workers) && if end.Complete? then !s.canceled && s.pending == 0 && Clean(s) else s.canceled
  }

  /** Until the context is canceled all work is counted, and unless a failure is
      on its way nothing has been lost. */
  ghost predicate Inv(s: State, root: Item) {
    && Sane(s) && AtPhase(s)
    && (!s.canceled ==> Counted(s) && Manned(s))
    && (!s.canceled && Clean(s) ==> Summed(s, root))
  }

  lemma StartInv(root: Item, workers: nat)
    requires workers >= 1
    ensures Inv(Start(root, workers), root)
  {
    var s := Start(root, workers);
    IdleSums(s.workers);
    WorkAllOne(root);
    assert WorkAll([]) == multiset{} && WorkIn([]) == multiset{};
  }

  lemma {:induction false} IdleSums(workers: seq<Worker>)
    requires forall w :: 0 <= w < |workers| ==> workers[w].Idle?
    ensures BusyCount(workers) == 0 && WorkOfAll(workers) == multiset{}
  {
    if workers != [] {
      IdleSums(workers[..|workers| - 1]);
    }
  }

  // ---------- every step keeps it ----------

  /** The sum is unchanged when what left one place arrived at another. */
  lemma Transfer<T>(e: multiset<T>, q: multiset<T>, j: multiset<T>, w: multiset<T>, r: multiset<T>,
                    e': multiset<T>, q': multiset<T>, j': multiset<T>, w': multiset<T>, r': multiset<T>)
    requires forall x :: e[x] + q[x] + j[x] + w[x] + r[x] == e'[x] + q'[x] + j'[x] + w'[x] + r'[x]
    ensures e + q + j + w + r == e' + q' + j' + w' + r'
  {
  }

  lemma SendSum(s: State)
    requires Enabled(s, Send)
    ensures var t := Next(s, Send);
      s.emitted + WorkAll(s.queued) + WorkAll(s.jobs) + WorkOfAll(s.workers) + WorkIn(s.results)
      == t.emitted + WorkAll(t.queued) + WorkAll(t.jobs) + WorkOfAll(t.workers) + WorkIn(t.results)
  {
    hide WorkOfAll, WorkIn, WorkAll, Work;
    var t := Next(s, Send);
    WorkAllHead(s.queued);
    WorkAllJoin(s.jobs, [s.queued[0]]);
    WorkAllOne(s.queued[0]);
    Transfer(s.emitted, WorkAll(s.queued), WorkAll(s.jobs), WorkOfAll(s.workers), WorkIn(s.results),
             t.emitted, WorkAll(t.queued), WorkAll(t.jobs), WorkOfAll(t.workers), WorkIn(t.results));
  }

  lemma SendInv(s: State, root: Item)
    requires Inv(s, root) && Enabled(s, Send)
    ensures Inv(Next(s, Send), root)
  {
    hide WorkOfAll, WorkIn, BusyCount, WorkAll, Work;
    SendSum(s);
  }

  lemma ReceiveSum(s: State)
    requires s.results != [] && s.results[0].Subdirs?
    ensures WorkAll(s.queued) + WorkIn(s.results) == WorkAll(s.queued + s.results[0].items) + WorkIn(s.results[1..])
  {
    WorkInHead(s.results);
    WorkInOne(s.results[0]);
    WorkAllJoin(s.queued, s.results[0].items);
    hide WorkAll, WorkIn;
  }

  lemma ReceiveInv(s: State, root: Item)
    requires Inv(s, root) && Enabled(s, Receive)
    ensures Inv(Next(s, Receive), root)
  {
    hide WorkOfAll, BusyCount, Work, WorkAll, WorkIn;
    var t := Next(s, Receive);
    if s.results[0].Subdirs? {
      ReceiveSum(s);
      Transfer(s.emitted, WorkAll(s.queued), WorkAll(s.jobs), WorkOfAll(s.workers), WorkIn(s.results),
               t.emitted, WorkAll(t.queued), WorkAll(t.jobs), WorkOfAll(t.workers), WorkIn(t.results)) by {
        forall x ensures WorkAll(s.queued)[x] + WorkIn(s.results)[x] == WorkAll(t.queued)[x] + WorkIn(t.results)[x] {
          assert (WorkAll(s.queued) + WorkIn(s.results))[x] == (WorkAll(t.queued) + WorkIn(t.results))[x];
        }
      }
      TailErrors(s.results);
      if !s.canceled && t.pending == 0 {
        NoneBusy(s.workers);
      }
    }
  }

  lemma TailErrors(answers: seq<Answer>)
    requires answers != [] && answers[0].Subdirs?
    ensures HasError(answers[1..]) <==> HasError(answers)
  {
  }

  /** A worker's step, as the sums see it. */
  lemma WorkerSum(s: State, t: State, w: nat)
    requires w < |s.workers| == |t.workers| && t.workers == s.workers[w := t.workers[w]] && t.queued == s.queued
    requires s.emitted + WorkAll(s.jobs) + WorkOf(s.workers[w]) + WorkIn(s.results)
          == t.emitted + WorkAll(t.jobs) + WorkOf(t.workers[w]) + WorkIn(t.results)
    ensures s.emitted + WorkAll(s.queued) + WorkAll(s.jobs) + WorkOfAll(s.workers) + WorkIn(s.results)
         == t.emitted + WorkAll(t.queued) + WorkAll(t.jobs) + WorkOfAll(t.workers) + WorkIn(t.results)
  {
    hide WorkOfAll, Work, WorkAll, WorkIn, WorkOf, BusyCount;
    var v := t.workers[w];
    WorkerChange(s.workers, w, v);
    forall x
      ensures s.emitted[x] + WorkAll(s.queued)[x] + WorkAll(s.jobs)[x] + WorkOfAll(s.workers)[x] + WorkIn(s.results)[x]
           == t.emitted[x] + WorkAll(t.queued)[x] + WorkAll(t.jobs)[x] + WorkOfAll(t.workers)[x] + WorkIn(t.results)[x]
    {
      assert (WorkOfAll(t.workers) + WorkOf(s.workers[w]))[x] == (WorkOfAll(s.workers) + WorkOf(v))[x];
      assert (s.emitted + WorkAll(s.jobs) + WorkOf(s.workers[w]) + WorkIn(s.results))[x]
          == (t.emitted + WorkAll(t.jobs) + WorkOf(v) + WorkIn(t.results))[x];
    }
    Transfer(s.emitted, WorkAll(s.queued), WorkAll(s.jobs), WorkOfAll(s.workers), WorkIn(s.results),
             t.emitted, WorkAll(t.queued), WorkAll(t.jobs), WorkOfAll(t.workers), WorkIn(t.results));
  }

  /** What a worker's step keeps, given that it balances its own work. */
  lemma WorkerInv(s: State, t: State, root: Item, w: nat)
    requires Inv(s, root) && w < |s.workers| && !s.workers[w].Gone?
    requires t == s.(workers := t.workers, jobs := t.jobs, results := t.results, emitted := t.emitted)
    requires |t.workers| == |s.workers| && t.workers == s.workers[w := t.workers[w]] && Sane(t)
    requires !s.phase.Done?
    requires |t.jobs| + |t.results| + (if t.workers[w].Busy() then 1 else 0) == |s.jobs| + |s.results| + (if s.workers[w].Busy() then 1 else 0)
    requires t.workers[w].Gone? ==> HasError(t.results) || !s.phase.Running?
    requires HasError(s.results) ==> HasError(t.results)
    requires Clean(t) ==> !Failing(s.workers[w])
    requires Clean(t) ==>
      s.emitted + WorkAll(s.jobs) + WorkOf(s.workers[w]) + WorkIn(s.results)
      == t.emitted + WorkAll(t.jobs) + WorkOf(t.workers[w]) + WorkIn(t.results)
    requires s.pending == 0 && s.phase.Closing? && s.phase.end.Complete? && !s.canceled ==> Clean(t)
    ensures Inv(t, root)
  {
    hide WorkOfAll, Work, WorkAll, WorkIn, WorkOf;
    WorkerChange(s.workers, w, t.workers[w]);
    hide BusyCount;
    if Clean(t) {
      WorkerSum(s, t, w);
      assert Clean(s) by {
        forall k | 0 <= k < |s.workers| ensures !Failing(s.workers[k]) {
          assert k != w ==> t.workers[k] == s.workers[k];
        }
      }
    }
  }

  lemma TakeInv(s: State, root: Item, w: nat)
    requires Inv(s, root) && Enabled(s, Take(w))
    ensures Inv(Next(s, Take(w)), root)
  {
    hide WorkOfAll, Work, WorkAll, WorkIn, Below, BusyCount;
    WorkAllHead(s.jobs);
    ReadingAll(s.jobs[0]);
    IdleWhenDone(s, root, w);
    hide WorkOf;
    WorkerInv(s, Next(s, Take(w)), root, w);
  }

  lemma ReadingAll(i: Item)
    ensures WorkOf(Reading(i, 0, [])) == Work(i)
  {
    assert i.children[0..] == i.children;
  }

  /** Once nothing is pending no worker has anything in hand and no job waits. */
  lemma IdleWhenDone(s: State, root: Item, w: nat)
    requires Inv(s, root) && w < |s.workers| && (s.workers[w].Busy() || s.jobs != [])
    ensures s.phase.Closing? && s.phase.end.Complete? ==> s.canceled
    ensures s.phase.Done? && !s.workers[w].Gone? ==> false
  {
    hide WorkOf, Work, WorkAll, WorkIn, Below;
    if !s.canceled && s.pending == 0 {
      NoneBusy(s.workers);
    }
  }

  lemma BelowStep(i: Item, at: nat)
    requires at < |i.children|
    ensures Below(i.path, i.children[at..]) == multiset{EntryOf(i.path, i.children[at])} + Under(i.path, i.children[at]) + Below(i.path, i.children[at + 1..])
  {
    assert i.children[at..][0] == i.children[at] && i.children[at..][1..] == i.children[at + 1..];
  }

  lemma SubdirsStep(subdirs: seq<Item>, path: Path, t: Tree)
    ensures WorkAll(if t.dir then subdirs + [ItemOf(path, t)] else subdirs) == WorkAll(subdirs) + Under(path, t)
  {
  }

  lemma EmitWork(i: Item, at: nat, subdirs: seq<Item>)
    requires at < |i.children|
    ensures var t := i.children[at];
      WorkOf(Reading(i, at, subdirs))
      == multiset{EntryOf(i.path, t)} + WorkOf(Reading(i, at + 1, if t.dir then subdirs + [ItemOf(i.path, t)] else subdirs))
  {
    hide Below, WorkAll, Under, EntryOf;
    var t := i.children[at];
    BelowStep(i, at);
    SubdirsStep(subdirs, i.path, t);
    Regroup(multiset{EntryOf(i.path, t)}, Under(i.path, t), Below(i.path, i.children[at + 1..]), WorkAll(subdirs));
  }

  lemma Regroup<T>(a: multiset<T>, b: multiset<T>, c: multiset<T>, d: multiset<T>)
    ensures (a + b + c) + d == a + (c + (d + b))
  {
  }

  lemma EmitInv(s: State, root: Item, w: nat)
    requires Inv(s, root) && Enabled(s, Emit(w))
    ensures Inv(Next(s, Emit(w)), root)
  {
    hide WorkOfAll, Work, WorkAll, WorkIn, Below, WorkOf, BusyCount;
    var v := s.workers[w];
    EmitWork(v.item, v.at, v.subdirs);
    IdleWhenDone(s, root, w);
    WorkerInv(s, Next(s, Emit(w)), root, w);
  }

  lemma NothingLeft(i: Item, at: nat, subdirs: seq<Item>)
    requires at == |i.children|
    ensures WorkOf(Reading(i, at, subdirs)) == WorkOf(Reporting(Subdirs(subdirs)))
  {
    hide WorkAll;
    assert i.children[at..] == [];
  }

  lemma EndOfDirInv(s: State, root: Item, w: nat)
    requires Inv(s, root) && Enabled(s, EndOfDir(w))
    ensures Inv(Next(s, EndOfDir(w)), root)
  {
    hide WorkOfAll, Work, WorkAll, WorkIn, Below, WorkOf, BusyCount;
    NothingLeft(s.workers[w].item, s.workers[w].at, s.workers[w].subdirs);
    IdleWhenDone(s, root, w);
    WorkerInv(s, Next(s, EndOfDir(w)), root, w);
  }

  lemma FailInv(s: State, root: Item, w: nat, code: int)
    requires Inv(s, root) && Enabled(s, Fail(w, code))
    ensures Inv(Next(s, Fail(w, code)), root)
  {
    hide WorkOfAll, Work, WorkAll, WorkIn, Below, WorkOf, BusyCount;
    IdleWhenDone(s, root, w);
    assert Failing(Next(s, Fail(w, code)).workers[w]);
    WorkerInv(s, Next(s, Fail(w, code)), root, w);
  }

  lemma ReportInv(s: State, root: Item, w: nat)
    requires Inv(s, root) && Enabled(s, Report(w))
    ensures Inv(Next(s, Report(w)), root)
  {
    hide WorkOfAll, Work, WorkAll, WorkIn, Below, BusyCount;
    var t, a := Next(s, Report(w)), s.workers[w].answer;
    IdleWhenDone(s, root, w);
    WorkInJoin(s.results, [a]);
    WorkInOne(a);
    assert t.results[|s.results|] == a;
    assert HasError(s.results) ==> HasError(t.results) by {
      if HasError(s.results) {
        var k :| 0 <= k < |s.results| && s.results[k].Error?;
        assert t.results[k].Error?;
      }
    }
    WorkerInv(s, t, root, w);
  }

  lemma QuitInv(s: State, root: Item, w: nat)
    requires Inv(s, root) && Enabled(s, Quit(w))
    ensures Inv(Next(s, Quit(w)), root)
  {
    hide WorkOfAll, Work, WorkAll, WorkIn, Below, BusyCount;
    if !s.canceled {
      WorkerInv(s, Next(s, Quit(w)), root, w);
    }
  }

  lemma FinishInv(s: State, root: Item)
    requires Inv(s, root) && (Enabled(s, Finish) || Enabled(s, SeeCancel) || Enabled(s, Cancel))
    ensures Enabled(s, Finish) ==> Inv(Next(s, Finish), root)
    ensures Enabled(s, SeeCancel) ==> Inv(Next(s, SeeCancel), root)
    ensures Enabled(s, Cancel) ==> Inv(Next(s, Cancel), root)
  {
    hide WorkOfAll, Work, WorkAll, WorkIn, Below, BusyCount, WorkOf;
  }

  lemma StepInv(s: State, root: Item, a: Action)
    requires Inv(s, root) && Enabled(s, a)
    ensures Inv(Next(s, a), root)
  {
    hide Inv, Next;
    match a
    case Send => SendInv(s, root);
    case Receive => ReceiveInv(s, root);
    case Take(w) => TakeInv(s, root, w);
    case Emit(w) => EmitInv(s, root, w);
    case Fail(w, code) => FailInv(s, root, w, code);
    case EndOfDir(w) => EndOfDirInv(s, root, w);
    case Report(w) => ReportInv(s, root, w);
    case Quit(w) => QuitInv(s, root, w);
    case _ => FinishInv(s, root);
  }

  lemma {:induction false} RunInv(s: State, root: Item, actions: seq<Action>, t: State)
    requires Inv(s, root) && Reaches(s, actions, t)
    ensures Inv(t, root)
    decreases actions
  {
    hide Inv, Next, Enabled;
    if actions != [] {
      StepInv(s, root, actions[0]);
      RunInv(Next(s, actions[0]), root, actions[1..], t);
    }
  }

  // ---------- the promises ----------

  /** A walk that ends without an error has emitted every proper descendant of
      the root exactly once, whatever the interleaving. */
  lemma CompleteWalkIsExact(root: Item, workers: nat, actions: seq<Action>, t: State)
    requires workers >= 1 && Reaches(Start(root, workers), actions, t) && t.phase == Done(Complete)
    ensures t.emitted == Work(root)
  {
    StartInv(root, workers);
    RunInv(Start(root, workers), root, actions, t);
    NoneBusy(t.workers);
    assert WorkAll([]) == multiset{} && WorkIn([]) == multiset{};
    hide Below;
  }

  /** Work accounting: until a cancellation, the pending count is exactly the
      directories queued, in the job channel, being read and in the result
      channel; the loop runs while there are any. */
  lemma PendingIsExact(root: Item, workers: nat, actions: seq<Action>, t: State)
    requires workers >= 1 && Reaches(Start(root, workers), actions, t) && !t.canceled
    ensures t.pending == |t.queued| + |t.jobs| + BusyCount(t.workers) + |t.results|
    ensures t.phase.Running? <==> t.pending > 0
    ensures t.limit == 2 * workers && |t.jobs| <= 2 * workers && |t.results| <= 2 * workers
  {
    StartInv(root, workers);
    RunInv(Start(root, workers), root, actions, t);
    LimitStays(Start(root, workers), actions, t);
    hide WorkOfAll, Work, WorkAll, WorkIn, Below, BusyCount, WorkOf, Reaches;
  }

  lemma {:induction false} LimitStays(s: State, actions: seq<Action>, t: State)
    requires Reaches(s, actions, t)
    ensures t.limit == s.limit
    decreases actions
  {
    if actions != [] {
      LimitStays(Next(s, actions[0]), actions[1..], t);
    }
  }
}
