/** What each component did, stored row by row: counters recomputed from the
    rows, retried writes, and the view rebuilt from the worklist and the rows. */
module Results {
  import opened Prelude

  datatype Unit = Unit(index: int, id: string, root: string, operations: nat)

  datatype Status = Pending | Succeeded | Failed | Canceled

  datatype Facts = Facts(
    stage: string, committed: seq<string>, removed: seq<string>, remaining: seq<string>, recovery: seq<string>,
    code: string, message: string, synced: bool, syncError: string)

  /** A stored row; `facts` is absent when what was stored cannot be read. */
  datatype Row = Row(index: int, status: Status, completed: nat, facts: Option<Facts>)

  /** One component of the report or the view. */
  datatype Entry = Entry(unit: Unit, status: Status, completed: nat, facts: Facts)

  const NO_FACTS := Facts("", [], [], [], [], "", "", false, "")
  const ATTEMPTS: nat := 3

  function RowOf(e: Entry): Row { Row(e.unit.index, e.status, e.completed, Some(e.facts)) }

  function Blank(u: Unit): Entry { Entry(u, Pending, 0, NO_FACTS) }

  /** A row adds what the component observed; an unreadable one is a failure. */
  function ApplyRow(e: Entry, r: Row): Entry {
    match r.facts
    case Some(facts) => Entry(e.unit, r.status, r.completed, facts)
    case None =>
      Entry(e.unit, Failed, r.completed, e.facts.(code := "RESULT_UNREADABLE", message := "the recorded component result could not be read"))
  }

  // ---------- counters ----------

  /** The session row: its result rows and the counters kept beside them. */
  datatype Session = Session(rows: map<int, Row>, components: nat, operations: nat, position: int)

  function Done(rows: map<int, Row>): nat {
    |set i | i in rows && rows[i].status != Pending|
  }

  ghost function Total(rows: map<int, Row>): nat {
    SumOver(rows, rows.Keys)
  }

  ghost function AnyOf<T(!new)>(s: set<T>): (x: T)
    requires s != {}
    ensures x in s
  {
    var x :| x in s;
    x
  }

  ghost function SumOver(rows: map<int, Row>, keys: set<int>): nat
    requires keys <= rows.Keys
  {
    if keys == {} then 0
    else
      var i := AnyOf(keys);
      rows[i].completed + SumOver(rows, keys - {i})
  }

  /** The sum does not depend on the order the rows are added in. */
  lemma {:induction false} SumTakes(rows: map<int, Row>, keys: set<int>, i: int)
    requires keys <= rows.Keys && i in keys
    ensures SumOver(rows, keys) == rows[i].completed + SumOver(rows, keys - {i})
    decreases |keys|
  {
    var j := AnyOf(keys);
    if i != j {
      SumTakes(rows, keys - {j}, i);
      SumTakes(rows, keys - {i}, j);
      assert keys - {j} - {i} == keys - {i} - {j};
    }
  }

  lemma {:induction false} SumFrame(rows: map<int, Row>, others: map<int, Row>, keys: set<int>)
    requires keys <= rows.Keys && keys <= others.Keys && forall i :: i in keys ==> rows[i] == others[i]
    ensures SumOver(rows, keys) == SumOver(others, keys)
    decreases |keys|
  {
    if keys != {} {
      var i := AnyOf(keys);
      SumTakes(rows, keys, i);
      SumTakes(others, keys, i);
      SumFrame(rows, others, keys - {i});
    }
  }

  /** One boundary write: the row is replaced whole, the counters are recomputed
      from the rows, and the session moves on, all in one transaction. */
  ghost function Save(s: Session, r: Row, position: int): Session {
    var rows := s.rows[r.index := r];
    Session(rows, Done(rows), Total(rows), position)
  }

  const START := Session(map[], 0, 0, 0)

  ghost predicate Counted(s: Session) {
    s.components == Done(s.rows) && s.operations == Total(s.rows)
  }

  datatype Event = Saved(row: Row, position: int) | Moved(position: int)

  ghost function After(s: Session, events: seq<Event>): Session {
    if events == [] then s
    else
      var before := After(s, events[..|events| - 1]);
      match events[|events| - 1]
      case Saved(row, position) => Save(before, row, position)
      case Moved(position) => before.(position := position)
  }

  /** Whatever boundaries a run wrote, the counters are the count and the sum of
      its rows. */
  lemma {:induction false} CountersAreExact(events: seq<Event>)
    ensures Counted(After(START, events))
  {
    if events != [] {
      CountersAreExact(events[..|events| - 1]);
    }
  }

  /** Replaying a write changes nothing, and rewriting a component counts its
      last result only. */
  lemma SaveIsIdempotent(s: Session, r: Row, position: int)
    ensures Save(Save(s, r, position), r, position) == Save(s, r, position)
    ensures Counted(s) ==>
      Save(s, r, position).operations == s.operations + r.completed - (if r.index in s.rows then s.rows[r.index].completed else 0)
  {
    var rows := s.rows[r.index := r];
    assert rows[r.index := r] == rows;
    var rest := s.rows.Keys - {r.index};
    assert rows.Keys - {r.index} == rest;
    SumTakes(rows, rows.Keys, r.index);
    SumFrame(rows, s.rows, rest);
    if r.index in s.rows {
      SumTakes(s.rows, s.rows.Keys, r.index);
    } else {
      assert rest == s.rows.Keys;
    }
  }

  // ---------- retried writes ----------

  /** One attempt: it commits, it is refused, or it answers an error although it
      may have committed. */
  datatype Attempt = Commits | Refused | Unclear(durable: bool)

  ghost function Tried(s: Session, r: Row, position: int, attempts: seq<Attempt>): Session
    decreases |attempts|
  {
    if attempts == [] then s
    else
      var a := attempts[0];
      var next := if a.Commits? || (a.Unclear? && a.durable) then Save(s, r, position) else s;
      if a.Commits? then next else Tried(next, r, position, attempts[1..])
  }

  /** However the attempts fare, the session is as before or as after one write,
      and after a reported success it is the latter. */
  lemma {:induction false} RetriesWriteOnce(s: Session, r: Row, position: int, attempts: seq<Attempt>)
    ensures Tried(s, r, position, attempts) == s || Tried(s, r, position, attempts) == Save(s, r, position)
    ensures Commits in attempts ==> Tried(s, r, position, attempts) == Save(s, r, position)
    decreases |attempts|
  {
    if attempts != [] && !attempts[0].Commits? {
      SaveIsIdempotent(s, r, position);
      hide Save;
      RetriesWriteOnce(if attempts[0] == Unclear(true) then Save(s, r, position) else s, r, position, attempts[1..]);
    }
  }

  /** What a run leaves: the position of its last event, and of each component the
      last row saved for it. */
  lemma {:induction false} AfterIsExact(events: seq<Event>, k: nat)
    requires k < |events|
    ensures k == |events| - 1 ==> After(START, events).position == events[k].position
    ensures events[k].Saved? && (forall j :: k < j < |events| && events[j].Saved? ==> events[j].row.index != events[k].row.index) ==>
      events[k].row.index in After(START, events).rows && After(START, events).rows[events[k].row.index] == events[k].row
    decreases |events|
  {
    var before, last := events[..|events| - 1], events[|events| - 1];
    if k < |before| && events[k].Saved? {
      assert forall j :: 0 <= j < |before| ==> before[j] == events[j];
      AfterIsExact(before, k);
    }
  }

  lemma {:induction false} RowsWereSaved(events: seq<Event>, i: int)
    requires i in After(START, events).rows
    ensures exists k :: 0 <= k < |events| && events[k].Saved? && events[k].row.index == i
  {
    var before := events[..|events| - 1];
    if i in After(START, before).rows {
      RowsWereSaved(before, i);
      var k :| 0 <= k < |before| && before[k].Saved? && before[k].row.index == i;
      assert events[k] == before[k];
    }
  }

  predicate Over(row: Row) { row.status in {Status.Succeeded, Status.Failed, Status.Canceled} }

  /** A write counts a component that is over now, and no longer counts what was
      stored for it before. */
  lemma SaveCounts(s: Session, r: Row, position: int)
    requires Counted(s)
    ensures Save(s, r, position).components ==
      s.components + (if Over(r) then 1 else 0) - (if r.index in s.rows && Over(s.rows[r.index]) then 1 else 0)
  {
    var rows := s.rows[r.index := r];
    CountMoves((set i | i in s.rows && s.rows[i].status != Pending), (set i | i in rows && rows[i].status != Pending), r.index);
  }

  lemma CountMoves(was: set<int>, now: set<int>, i: int)
    requires was - {i} == now - {i}
    ensures |now| == |was| + (if i in now then 1 else 0) - (if i in was then 1 else 0)
  {
    assert was == if i in was then was - {i} + {i} else was - {i};
    assert now == if i in now then now - {i} + {i} else now - {i};
  }

  class SessionRow {
    ghost var session: Session

    ghost constructor ()
      ensures session == Session(map[], 0, 0, 0)
    {
      session := Session(map[], 0, 0, 0);
    }

    /** Tries the boundary write three times: it succeeds exactly when one of them
        reports success, and then, or when one that reported an error went through
        all the same, the row is written once. */
    method Persist(r: Row, position: int, attempts: nat -> Attempt) returns (ok: bool)
      modifies this
      ensures ok <==> attempts(0).Commits? || attempts(1).Commits? || attempts(2).Commits?
      ensures session == if ok || exists k: nat :: k < 3 && attempts(k) == Unclear(true) then Save(old(session), r, position) else old(session)
    {
      for k := 0 to ATTEMPTS
        invariant forall j: nat :: j < k ==> !attempts(j).Commits?
        invariant session == if exists j: nat :: j < k && attempts(j) == Unclear(true) then Save(old(session), r, position) else old(session)
      {
        SaveIsIdempotent(old(session), r, position);
        var a := attempts(k);
        if a.Commits? || (a.Unclear? && a.durable) {
          session := Save(session, r, position);
        }
        if a.Commits? {
          return true;
        }
      }
      return false;
    }
  }

  // ---------- the view ----------

  function ViewOf(units: seq<Unit>, rows: map<int, Row>): (view: seq<Entry>)
    ensures |view| == |units|
    ensures forall k :: 0 <= k < |units| ==>
      view[k] == if units[k].index in rows then ApplyRow(Blank(units[k]), rows[units[k].index]) else Blank(units[k])
  {
    seq(|units|, k requires 0 <= k < |units| =>
      if units[k].index in rows then ApplyRow(Blank(units[k]), rows[units[k].index]) else Blank(units[k]))
  }

  predicate IndexesAscend(units: seq<Unit>) {
    forall i, j :: 0 <= i < j < |units| ==> units[i].index < units[j].index
  }

  /** A finished component as the worker recorded it, and whether the write of
      it was durable in the end. */
  datatype Write = Write(at: nat, entry: Entry, durable: bool)

  function Report(units: seq<Unit>, writes: seq<Write>): (r: seq<Entry>)
    ensures |r| == |units|
  {
    if writes == [] then seq(|units|, k requires 0 <= k < |units| => Blank(units[k]))
    else
      var before, w := Report(units, writes[..|writes| - 1]), writes[|writes| - 1];
      if w.at < |units| then before[w.at := w.entry] else before
  }

  function Stored(writes: seq<Write>): map<int, Row> {
    if writes == [] then map[]
    else
      var before, w := Stored(writes[..|writes| - 1]), writes[|writes| - 1];
      if w.durable then before[w.entry.unit.index := RowOf(w.entry)] else before
  }

  /** The last write of component `k` was durable, or there was none. */
  predicate LastWriteKept(writes: seq<Write>, k: nat) {
    if writes == [] then true
    else if writes[|writes| - 1].at == k then writes[|writes| - 1].durable
    else LastWriteKept(writes[..|writes| - 1], k)
  }

  predicate WritesFit(units: seq<Unit>, writes: seq<Write>) {
    forall i :: 0 <= i < |writes| ==> writes[i].at < |units| && writes[i].entry.unit == units[writes[i].at]
  }

  /** The view rebuilt from the worklist and the rows is the worker's report,
      component by component, wherever the last write was kept. */
  lemma {:induction false} ViewIsReport(units: seq<Unit>, writes: seq<Write>, k: nat)
    requires IndexesAscend(units) && WritesFit(units, writes) && k < |units| && LastWriteKept(writes, k)
    ensures ViewOf(units, Stored(writes))[k] == Report(units, writes)[k]
  {
    if writes != [] {
      var before, w := writes[..|writes| - 1], writes[|writes| - 1];
      assert forall i :: 0 <= i < |before| ==> before[i] == writes[i];
      if w.at != k {
        ViewIsReport(units, before, k);
        assert units[w.at].index != units[k].index;
      }
    }
  }

  /** The view of a component shows the last write of it that was kept, whatever
      the later ones were. */
  lemma {:induction false} ViewShowsLastKept(units: seq<Unit>, writes: seq<Write>, k: nat, m: nat)
    requires IndexesAscend(units) && WritesFit(units, writes) && k < |units| && m < |writes|
    requires writes[m].at == k && writes[m].durable && forall j :: m < j < |writes| && writes[j].at == k ==> !writes[j].durable
    ensures ViewOf(units, Stored(writes))[k] == writes[m].entry
  {
    var before, w := writes[..|writes| - 1], writes[|writes| - 1];
    assert forall i :: 0 <= i < |before| ==> before[i] == writes[i];
    if m < |before| {
      ViewShowsLastKept(units, before, k, m);
      assert w.at != k ==> units[w.at].index != units[k].index;
    }
  }

  /** Without a kept write it is pending. */
  lemma {:induction false} ViewShowsPending(units: seq<Unit>, writes: seq<Write>, k: nat)
    requires IndexesAscend(units) && WritesFit(units, writes) && k < |units|
    requires forall j :: 0 <= j < |writes| && writes[j].at == k ==> !writes[j].durable
    ensures ViewOf(units, Stored(writes))[k] == Entry(units[k], Pending, 0, Facts("", [], [], [], [], "", "", false, ""))
  {
    if writes != [] {
      var before, w := writes[..|writes| - 1], writes[|writes| - 1];
      assert forall i :: 0 <= i < |before| ==> before[i] == writes[i];
      ViewShowsPending(units, before, k);
      assert w.at != k ==> units[w.at].index != units[k].index;
    }
  }

  /** The worker's report shows its last write, kept or not. */
  lemma {:induction false} ReportShowsLast(units: seq<Unit>, writes: seq<Write>, m: nat)
    requires WritesFit(units, writes) && m < |writes| && forall j :: m < j < |writes| ==> writes[j].at != writes[m].at
    ensures writes[m].at < |units| && Report(units, writes)[writes[m].at] == writes[m].entry
  {
    var before := writes[..|writes| - 1];
    assert forall i :: 0 <= i < |before| ==> before[i] == writes[i];
    if m < |before| { ReportShowsLast(units, before, m); }
  }

  /** A stored result that cannot be read is shown as a failure of its component. */
  lemma UnreadableIsFailed(units: seq<Unit>, rows: map<int, Row>, k: nat)
    requires k < |units| && units[k].index in rows && rows[units[k].index].facts.None?
    ensures var e := ViewOf(units, rows)[k];
      && e.unit == units[k] && e.status == Failed && e.completed == rows[units[k].index].completed && e.facts.code == "RESULT_UNREADABLE"
      && e.facts.committed == [] && e.facts.removed == [] && e.facts.remaining == [] && e.facts.recovery == [] && !e.facts.synced
  {
  }

  // ---------- pages ----------

  datatype Page = Page(from: int, limit: int)

  function UnitsFrom(units: seq<Unit>, from: int): (r: seq<Unit>)
    ensures forall u :: u in r <==> u in units && u.index >= from
  {
    if units == [] then []
    else
      assert units == units[..|units| - 1] + [units[|units| - 1]];
      UnitsFrom(units[..|units| - 1], from) + if units[|units| - 1].index >= from then [units[|units| - 1]] else []
  }

  function Take<T>(s: seq<T>, limit: int): seq<T> {
    if limit > 0 && limit < |s| then s[..limit] else s
  }

  /** The page of the worklist; the zero page is the whole run. */
  function PageOf(units: seq<Unit>, page: Page): seq<Unit> {
    if page.from <= 0 && page.limit <= 0 then units else Take(UnitsFrom(units, page.from), page.limit)
  }

  method PageUnits(units: seq<Unit>, page: Page) returns (paged: seq<Unit>)
    ensures paged == PageOf(units, page)
  {
    if page.from <= 0 && page.limit <= 0 {
      return units;
    }
    paged := [];
    var k := 0;
    while k < |units|
      invariant 0 <= k <= |units|
      invariant paged == Take(UnitsFrom(units[..k], page.from), page.limit)
      invariant page.limit > 0 ==> |paged| <= page.limit
    {
      assert units[..k + 1][..k] == units[..k];
      if units[k].index >= page.from {
        if page.limit > 0 && |paged| >= page.limit {
          FullPageStays(units, k, page);
          return;
        }
        paged := paged + [units[k]];
      }
      k := k + 1;
    }
    assert units[..|units|] == units;
  }

  lemma {:induction false} FullPageStays(units: seq<Unit>, k: nat, page: Page)
    requires k <= |units| && page.limit > 0 && |UnitsFrom(units[..k], page.from)| >= page.limit
    ensures Take(UnitsFrom(units, page.from), page.limit) == Take(UnitsFrom(units[..k], page.from), page.limit)
    decreases |units|
  {
    if k < |units| {
      assert units[..|units| - 1][..k] == units[..k];
      FullPageStays(units[..|units| - 1], k, page);
    } else {
      assert units[..k] == units;
    }
  }

  /** The row query: rows from an index on, in index order, with its own limit. */
  ghost predicate Listing(rows: map<int, Row>, from: int, keys: seq<int>) {
    && (forall i, j :: 0 <= i < j < |keys| ==> keys[i] < keys[j])
    && (forall i :: i in keys <==> i in rows && i >= from)
  }

  function Selected(rows: map<int, Row>, keys: seq<int>): map<int, Row> {
    map i | i in rows && i in keys :: rows[i]
  }

  /** The view of a page: its units, and only the rows the limited query gave. */
  function PagedView(units: seq<Unit>, rows: map<int, Row>, page: Page, keys: seq<int>): seq<Entry> {
    ViewOf(PageOf(units, page), Selected(rows, Take(keys, page.limit)))
  }

  function EntriesFrom(view: seq<Entry>, from: int): seq<Entry> {
    if view == [] then []
    else EntriesFrom(view[..|view| - 1], from) + if view[|view| - 1].unit.index >= from then [view[|view| - 1]] else []
  }

  /** The page of the full view. */
  function SliceOf(view: seq<Entry>, page: Page): seq<Entry> {
    if page.from <= 0 && page.limit <= 0 then view else Take(EntriesFrom(view, page.from), page.limit)
  }

  lemma {:induction false} UnitsFromAscend(units: seq<Unit>, from: int)
    requires IndexesAscend(units)
    ensures IndexesAscend(UnitsFrom(units, from))
  {
    if units != [] {
      UnitsFromAscend(units[..|units| - 1], from);
      forall u | u in UnitsFrom(units[..|units| - 1], from) ensures u.index < units[|units| - 1].index {
        assert u in units[..|units| - 1];
      }
    }
  }

  /** In two ascending lists, one part of the other, nothing comes later in the
      part than in the whole. */
  lemma {:induction false} PartComesFirst(part: seq<int>, units: seq<Unit>, i: nat, k: nat)
    requires IndexesAscend(units) && i < |part| && k < |units| && part[i] == units[k].index
    requires forall x, y :: 0 <= x < y < |part| ==> part[x] < part[y]
    requires forall x :: 0 <= x < |part| ==> exists m :: 0 <= m < |units| && units[m].index == part[x]
    ensures i <= k
  {
    if i > 0 {
      var m :| 0 <= m < |units| && units[m].index == part[i - 1];
      PartComesFirst(part, units, i - 1, m);
    }
  }

  /** The limited row query always brings the rows of the page. */
  lemma PageHasItsRows(units: seq<Unit>, rows: map<int, Row>, page: Page, keys: seq<int>, k: nat)
    requires IndexesAscend(units) && Listing(rows, page.from, keys)
    requires forall i :: i in rows ==> exists m :: 0 <= m < |units| && units[m].index == i
    requires k < |Take(UnitsFrom(units, page.from), page.limit)|
    ensures var i := Take(UnitsFrom(units, page.from), page.limit)[k].index; i in rows ==> i in Take(keys, page.limit)
  {
    hide IndexesAscend, UnitsFrom;
    var us := UnitsFrom(units, page.from);
    var i := us[k].index;
    UnitsFromAscend(units, page.from);
    if i in rows {
      assert us[k] in us;
      var x :| 0 <= x < |keys| && keys[x] == i;
      forall y | 0 <= y < |keys| ensures exists m :: 0 <= m < |us| && us[m].index == keys[y] {
        assert keys[y] in keys;
        var m :| 0 <= m < |units| && units[m].index == keys[y];
        assert units[m] in us;
      }
      PartComesFirst(keys, us, x, k);
    }
  }

  lemma {:induction false} ViewFrom(units: seq<Unit>, rows: map<int, Row>, from: int)
    ensures EntriesFrom(ViewOf(units, rows), from) == ViewOf(UnitsFrom(units, from), rows)
  {
    if units != [] {
      var n := |units| - 1;
      ViewFrom(units[..n], rows, from);
      assert ViewOf(units, rows)[..n] == ViewOf(units[..n], rows);
      assert ViewOf(units, rows)[n].unit == units[n];
    }
  }

  /** Any page is that slice of the full view, although the row query applies a
      limit of its own: with ascending unit indexes and rows of units only. */
  lemma PageIsSlice(units: seq<Unit>, rows: map<int, Row>, page: Page, keys: seq<int>)
    requires IndexesAscend(units) && Listing(rows, page.from, keys)
    requires forall i :: i in rows ==> exists m :: 0 <= m < |units| && units[m].index == i
    requires forall i :: i in rows ==> i >= 0
    ensures PagedView(units, rows, page, keys) == SliceOf(ViewOf(units, rows), page)
  {
    if page.from <= 0 && page.limit <= 0 {
      forall i | i in rows ensures i in keys {}
      assert Selected(rows, keys) == rows;
    } else {
      PagedRows(units, rows, page, keys);
      ViewFrom(units, rows, page.from);
      TakeView(UnitsFrom(units, page.from), rows, page.limit);
    }
  }

  lemma PagedRows(units: seq<Unit>, rows: map<int, Row>, page: Page, keys: seq<int>)
    requires IndexesAscend(units) && Listing(rows, page.from, keys)
    requires forall i :: i in rows ==> exists m :: 0 <= m < |units| && units[m].index == i
    ensures var us := Take(UnitsFrom(units, page.from), page.limit); ViewOf(us, Selected(rows, Take(keys, page.limit))) == ViewOf(us, rows)
  {
  }

  lemma TakeView(units: seq<Unit>, rows: map<int, Row>, limit: int)
    ensures ViewOf(Take(units, limit), rows) == Take(ViewOf(units, rows), limit)
  {
  }

  lemma AscendDown(units: seq<Unit>, k: nat)
    requires IndexesAscend(units) && k < |units|
    ensures IndexesAscend(units[..|units| - 1]) && units[k].index <= units[|units| - 1].index
  {
  }

  lemma {:induction false} UnitsFromIsTail(units: seq<Unit>, from: int) returns (lo: nat)
    requires IndexesAscend(units)
    ensures lo <= |units| && UnitsFrom(units, from) == units[lo..]
    ensures (forall k :: 0 <= k < lo ==> units[k].index < from) && (forall k :: lo <= k < |units| ==> units[k].index >= from)
  {
    hide IndexesAscend, UnitsFrom;
    UnitsFromStep(units, from);
    if units == [] {
      lo := 0;
    } else {
      var n := |units| - 1;
      AscendDown(units, n);
      var m := UnitsFromIsTail(units[..n], from);
      if m < n { AscendDown(units, m); }
      lo := if units[n].index < from then n + 1 else m;
      CutOne(units, m);
      forall k | 0 <= k < n ensures units[k] == units[..n][k] {}
    }
  }

  lemma UnitsFromStep(units: seq<Unit>, from: int)
    ensures units == [] ==> UnitsFrom(units, from) == []
    ensures units != [] ==> UnitsFrom(units, from) == UnitsFrom(units[..|units| - 1], from) + if units[|units| - 1].index >= from then [units[|units| - 1]] else []
  {
  }

  lemma CutOne(units: seq<Unit>, m: nat)
    requires m < |units|
    ensures units[..|units| - 1][m..] + [units[|units| - 1]] == units[m..]
    ensures m == |units| - 1 ==> units[..|units| - 1][m..] == []
  {
  }

  lemma ViewPart(units: seq<Unit>, rows: map<int, Row>, lo: nat, hi: nat)
    requires lo <= hi <= |units|
    ensures ViewOf(units[lo..hi], rows) == ViewOf(units, rows)[lo..hi]
  {
  }

  lemma AllRows(rows: map<int, Row>, from: int, keys: seq<int>)
    requires Listing(rows, from, keys) && from <= 0 && forall i :: i in rows ==> i >= 0
    ensures Selected(rows, keys) == rows
  {
    forall i | i in rows ensures i in keys {}
  }

  /** A page shows a window of the run: from the first component whose index is not
      below `from`, as many as the limit allows, and all of them without one. */
  lemma PageIsWindow(units: seq<Unit>, rows: map<int, Row>, page: Page, keys: seq<int>) returns (lo: nat, hi: nat)
    requires IndexesAscend(units) && Listing(rows, page.from, keys)
    requires forall i :: i in rows ==> exists m :: 0 <= m < |units| && units[m].index == i
    requires forall i :: i in rows ==> i >= 0
    ensures lo <= hi <= |units| && PageOf(units, page) == units[lo..hi] && PagedView(units, rows, page, keys) == ViewOf(units, rows)[lo..hi]
    ensures page.from <= 0 && page.limit <= 0 ==> lo == 0 && hi == |units|
    ensures page.from > 0 || page.limit > 0 ==>
      && (forall k :: 0 <= k < lo ==> units[k].index < page.from) && (forall k :: lo <= k < |units| ==> units[k].index >= page.from)
      && hi == (if 0 < page.limit < |units| - lo then lo + page.limit else |units|)
  {
    hide ViewOf, IndexesAscend, Listing, Selected, UnitsFrom;
    if page.from <= 0 && page.limit <= 0 {
      lo, hi := 0, |units|;
      AllRows(rows, page.from, keys);
    } else {
      PagedRows(units, rows, page, keys);
      lo := UnitsFromIsTail(units, page.from);
      hi := if 0 < page.limit < |units| - lo then lo + page.limit else |units|;
      assert PageOf(units, page) == units[lo..hi];
    }
    ViewPart(units, rows, lo, hi);
  }
}
