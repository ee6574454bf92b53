/**
  The bounded execution log: each append inserts a row, deletes the rows older than the cutoff text and
  deletes all but the newest rows; a query reads the newest matching rows.  The table is compared with the
  unbounded history of everything ever appended.
 */
module ExecutionLog {
  import opened Wrappers
  import opened Texts
  import opened Timestamps

  const MAX_ROWS: nat := 10_000
  const RETENTION := 30 * 86_400 * 1_000_000   // thirty days, in microseconds

  datatype Event = Event(
    level: string, result: string, phase: string, feature: string, target: string, message: string,
    correlation: Option<string>, operation: Option<string>, awsAction: Option<string>, errorCode: Option<string>)

  datatype Row = Row(id: nat, at: string, event: Event)

  // ---- newest first ----------------------------------------------------------------------------

  /** ORDER BY occurred_at DESC, id DESC */
  predicate Newer(a: Row, b: Row) {
    Before(b.at, a.at) || (a.at == b.at && b.id < a.id)
  }

  predicate NewestFirst(rows: seq<Row>) {
    forall i, j | 0 <= i < j < |rows| :: Newer(rows[i], rows[j])
  }

  function Insert(r: Row, sorted: seq<Row>): (all: seq<Row>)
    ensures |all| == |sorted| + 1 && forall x :: x in all <==> x == r || x in sorted
  {
    if sorted == [] || Newer(r, sorted[0]) then [r] + sorted else [sorted[0]] + Insert(r, sorted[1..])
  }

  /** The rows of a SELECT without a limit. */
  function Sorted(rows: seq<Row>): (all: seq<Row>)
    ensures |all| == |rows| && forall x :: x in all <==> x in rows
  {
    if rows == [] then []
    else
      assert rows == rows[..|rows| - 1] + [rows[|rows| - 1]];
      Insert(rows[|rows| - 1], Sorted(rows[..|rows| - 1]))
  }

  function Keep(rows: seq<Row>, p: Row -> bool): (kept: seq<Row>)
    ensures |kept| <= |rows| && forall x :: x in kept <==> x in rows && p(x)
  {
    if rows == [] then [] else (if p(rows[0]) then [rows[0]] else []) + Keep(rows[1..], p)
  }

  function Take(rows: seq<Row>, n: nat): seq<Row> {
    if n < |rows| then rows[..n] else rows
  }

  function Ids(rows: seq<Row>): set<nat> {
    set r | r in rows :: r.id
  }

  predicate DistinctIds(rows: seq<Row>) {
    forall i, j | 0 <= i < j < |rows| :: rows[i].id != rows[j].id
  }

  lemma NewerTrans(a: Row, b: Row, c: Row)
    requires Newer(a, b) && Newer(b, c)
    ensures Newer(a, c)
  {
    if Before(b.at, a.at) && Before(c.at, b.at) { BeforeTrans(c.at, b.at, a.at); }
  }

  lemma NewerTotal(a: Row, b: Row)
    requires a.id != b.id
    ensures Newer(a, b) || Newer(b, a)
    ensures !(Newer(a, b) && Newer(b, a))
  {
    BeforeTotal(a.at, b.at);
    NotBeforeItself(a.at);
  }

  lemma InsertKeepsOrder(r: Row, sorted: seq<Row>)
    requires NewestFirst(sorted) && r.id !in Ids(sorted)
    ensures NewestFirst(Insert(r, sorted))
  {
    if sorted != [] {
      NewerTotal(r, sorted[0]);
      if Newer(r, sorted[0]) {
        NewerThanAll(r, sorted);
      } else {
        InsertKeepsOrder(r, sorted[1..]);
        var rest := Insert(r, sorted[1..]);
        forall j | 0 <= j < |rest| ensures Newer(sorted[0], rest[j]) {
          assert rest[j] in rest;
        }
      }
    }
  }

  lemma NewerThanAll(r: Row, sorted: seq<Row>)
    requires NewestFirst(sorted) && sorted != [] && Newer(r, sorted[0])
    ensures forall j | 0 <= j < |sorted| :: Newer(r, sorted[j])
  {
    forall j | 0 <= j < |sorted| ensures Newer(r, sorted[j]) {
      if j > 0 { NewerTrans(r, sorted[0], sorted[j]); }
    }
  }

  lemma {:induction false} SortedIsNewestFirst(rows: seq<Row>)
    requires DistinctIds(rows)
    ensures NewestFirst(Sorted(rows))
    decreases |rows|
  {
    if rows != [] {
      SortedIsNewestFirst(rows[..|rows| - 1]);
      InsertKeepsOrder(rows[|rows| - 1], Sorted(rows[..|rows| - 1]));
    }
  }

  // ---- selections commute with sorting ------------------------------------------------------------

  lemma KeepOfNone(rows: seq<Row>, p: Row -> bool)
    requires forall x | x in rows :: !p(x)
    ensures Keep(rows, p) == []
  {
  }

  lemma KeepCons(x: Row, rest: seq<Row>, p: Row -> bool)
    ensures Keep([x] + rest, p) == (if p(x) then [x] else []) + Keep(rest, p)
  {
    assert ([x] + rest)[1..] == rest;
  }

  lemma KeepHead(x: Row, rest: seq<Row>, p: Row -> bool)
    requires p(x)
    ensures Keep([x] + rest, p) == [x] + Keep(rest, p)
  {
    KeepCons(x, rest, p);
  }

  lemma NewerThanKept(r: Row, sorted: seq<Row>, p: Row -> bool)
    requires NewestFirst(sorted) && (sorted == [] || Newer(r, sorted[0]))
    ensures Insert(r, Keep(sorted, p)) == [r] + Keep(sorted, p)
  {
    var kept := Keep(sorted, p);
    if kept != [] {
      NewerThanAll(r, sorted);
      assert kept[0] in kept;
    }
  }

  lemma {:induction false} KeepInsert(r: Row, sorted: seq<Row>, p: Row -> bool)
    requires NewestFirst(sorted)
    ensures Keep(Insert(r, sorted), p) == if p(r) then Insert(r, Keep(sorted, p)) else Keep(sorted, p)
    decreases |sorted|
  {
    if sorted == [] || Newer(r, sorted[0]) {
      KeepCons(r, sorted, p);
      NewerThanKept(r, sorted, p);
      assert [] + Keep(sorted, p) == Keep(sorted, p);
    } else {
      var s0, tail := sorted[0], sorted[1..];
      KeepInsert(r, tail, p);
      KeepCons(s0, Insert(r, tail), p);
      var kept := Keep(tail, p);
      assert ([s0] + kept)[1..] == kept;
      assert [] + kept == kept && [] + Insert(r, kept) == Insert(r, kept);
    }
  }

  lemma {:induction false} KeepSnoc(rows: seq<Row>, r: Row, p: Row -> bool)
    ensures Keep(rows + [r], p) == Keep(rows, p) + if p(r) then [r] else []
    decreases |rows|
  {
    if rows == [] {
      assert [] + [r] == [r] && [r][1..] == [];
    } else {
      assert (rows + [r])[1..] == rows[1..] + [r];
      KeepSnoc(rows[1..], r, p);
    }
  }

  lemma SortedSnoc(rows: seq<Row>, r: Row)
    ensures Sorted(rows + [r]) == Insert(r, Sorted(rows))
  {
    assert (rows + [r])[..|rows|] == rows;
  }

  /** Selecting and then sorting is sorting and then selecting. */
  lemma {:induction false} KeepSorted(rows: seq<Row>, p: Row -> bool)
    requires DistinctIds(rows)
    ensures Sorted(Keep(rows, p)) == Keep(Sorted(rows), p)
    decreases |rows|
  {
    if rows != [] {
      var front, last := rows[..|rows| - 1], rows[|rows| - 1];
      assert rows == front + [last];
      KeepSorted(front, p);
      KeepSnoc(front, last, p);
      SortedIsNewestFirst(front);
      KeepInsert(last, Sorted(front), p);
      if p(last) {
        SortedSnoc(Keep(front, p), last);
      } else {
        assert Keep(front, p) + [] == Keep(front, p);
      }
    }
  }

  lemma {:induction false} TakeInsert(r: Row, rows: seq<Row>, n: nat)
    ensures Take(Insert(r, Take(rows, n)), n) == Take(Insert(r, rows), n)
    decreases |rows|
  {
    if n < |rows| && n > 0 {
      assert Take(rows, n)[0] == rows[0] && Take(rows, n)[1..] == Take(rows[1..], n - 1);
      if Newer(r, rows[0]) {
        assert ([r] + rows)[..n] == ([r] + rows[..n])[..n];
      } else {
        TakeInsert(r, rows[1..], n - 1);
        TakeCons(rows[0], Insert(r, rows[1..]), n);
        TakeCons(rows[0], Insert(r, Take(rows[1..], n - 1)), n);
      }
    }
  }

  lemma TakeCons(x: Row, rest: seq<Row>, n: nat)
    requires n > 0
    ensures Take([x] + rest, n) == [x] + Take(rest, n - 1)
  {
  }

  /** Newest first, nothing after a row that is too old is recent enough. */
  lemma OldStaysOld(rows: seq<Row>, cutoff: string)
    requires NewestFirst(rows) && rows != [] && Before(rows[0].at, cutoff)
    ensures forall x | x in rows :: Before(x.at, cutoff)
  {
    forall x | x in rows ensures Before(x.at, cutoff) {
      var j :| 0 <= j < |rows| && rows[j] == x;
      if j > 0 && x.at != rows[0].at { BeforeTrans(x.at, rows[0].at, cutoff); }
    }
  }

  /** The rows a cutoff lets live are the first ones, newest first. */
  lemma {:induction false} KeepRecentTake(rows: seq<Row>, cutoff: string, n: nat)
    requires NewestFirst(rows)
    ensures Keep(Take(rows, n), Recent(cutoff)) == Take(Keep(rows, Recent(cutoff)), n)
    decreases |rows|
  {
    hide Before, NotAfter, Newer;
    if rows == [] || n == 0 {
    } else {
      var first, rest := rows[0], rows[1..];
      assert rows == [first] + rest;
      if NotAfter(cutoff, first.at) {
        assert NewestFirst(rest);
        KeepRecentTake(rest, cutoff, n - 1);
        KeepTakeCons(first, rest, Recent(cutoff), n);
      } else {
        AllTooOld(rows, cutoff, n);
      }
    }
  }

  lemma KeepTakeCons(x: Row, rest: seq<Row>, p: Row -> bool, n: nat)
    requires p(x) && n > 0 && Keep(Take(rest, n - 1), p) == Take(Keep(rest, p), n - 1)
    ensures Keep(Take([x] + rest, n), p) == Take(Keep([x] + rest, p), n)
  {
    hide Keep, Take;
    KeepHead(x, rest, p);
    KeepHead(x, Take(rest, n - 1), p);
    TakeCons(x, rest, n);
    TakeCons(x, Keep(rest, p), n);
  }

  lemma AllTooOld(rows: seq<Row>, cutoff: string, n: nat)
    requires NewestFirst(rows) && rows != [] && !NotAfter(cutoff, rows[0].at)
    ensures Keep(rows, Recent(cutoff)) == [] && Keep(Take(rows, n), Recent(cutoff)) == [] && Take([], n) == []
  {
    hide Newer, Keep;
    OldStaysOld(rows, cutoff);
    KeepOfNone(rows, Recent(cutoff));
    KeepOfNone(Take(rows, n), Recent(cutoff));
  }

  /** NOT (occurred_at < cutoff) */
  function Recent(cutoff: string): Row -> bool {
    (r: Row) => NotAfter(cutoff, r.at)
  }

  // ---- the unbounded history ---------------------------------------------------------------------

  /** What would be left without the cap: every row that no cutoff since its own append has removed. */
  function Survivors(history: seq<Row>, cutoffs: seq<string>): (rows: seq<Row>)
    requires |history| == |cutoffs|
    ensures |rows| <= |history| && forall x | x in rows :: x in history
  {
    if history == [] then []
    else
      var n := |history| - 1;
      Keep(Survivors(history[..n], cutoffs[..n]) + [history[n]], Recent(cutoffs[n]))
  }

  /** Row i has outlived every cutoff since its append. */
  predicate Outlives(history: seq<Row>, cutoffs: seq<string>, i: nat)
    requires |history| == |cutoffs| && i < |history|
  {
    forall j | i <= j < |cutoffs| :: NotAfter(cutoffs[j], history[i].at)
  }

  lemma OutlivesPrefix(history: seq<Row>, cutoffs: seq<string>, i: nat)
    requires |history| == |cutoffs| && i < |history| - 1
    ensures var n := |history| - 1;
      Outlives(history, cutoffs, i) <==> Outlives(history[..n], cutoffs[..n], i) && NotAfter(cutoffs[n], history[i].at)
  {
    var n := |history| - 1;
    assert forall j | i <= j < n :: cutoffs[..n][j] == cutoffs[j];
    assert history[..n][i] == history[i];
  }

  lemma {:induction false} SurvivorOutlives(history: seq<Row>, cutoffs: seq<string>, r: Row) returns (i: nat)
    requires |history| == |cutoffs| && r in Survivors(history, cutoffs)
    ensures i < |history| && history[i] == r && Outlives(history, cutoffs, i)
    decreases |history|
  {
    var n := |history| - 1;
    if r in Survivors(history[..n], cutoffs[..n]) {
      i := SurvivorOutlives(history[..n], cutoffs[..n], r);
      OutlivesPrefix(history, cutoffs, i);
    } else {
      i := n;
    }
  }

  lemma {:induction false} OutlivingSurvives(history: seq<Row>, cutoffs: seq<string>, i: nat)
    requires |history| == |cutoffs| && i < |history| && Outlives(history, cutoffs, i)
    ensures history[i] in Survivors(history, cutoffs)
    decreases |history|
  {
    var n := |history| - 1;
    if i < n {
      OutlivesPrefix(history, cutoffs, i);
      OutlivingSurvives(history[..n], cutoffs[..n], i);
      assert history[i] in Survivors(history[..n], cutoffs[..n]) + [history[n]];
    }
    assert NotAfter(cutoffs[n], history[i].at);
  }

  predicate NeverBack(cutoffs: seq<string>) {
    forall i, j | 0 <= i <= j < |cutoffs| :: NotAfter(cutoffs[i], cutoffs[j])
  }

  lemma NotAfterTrans(a: string, b: string, c: string)
    requires NotAfter(a, b) && NotAfter(b, c)
    ensures NotAfter(a, c)
  {
    if Before(c, a) {
      BeforeTotal(a, b);
      if a != b { BeforeTrans(c, a, b); }
    }
  }

  /** Under a clock that never goes back, the survivors are simply the rows the last cutoff lets live. */
  lemma {:induction false} SurvivorsOfSteadyClock(history: seq<Row>, cutoffs: seq<string>)
    requires |history| == |cutoffs| && history != [] && NeverBack(cutoffs)
    ensures Survivors(history, cutoffs) == Keep(history, Recent(cutoffs[|cutoffs| - 1]))
    decreases |history|
  {
    var n := |history| - 1;
    var h, c, last := history[..n], cutoffs[..n], cutoffs[n];
    assert history == h + [history[n]];
    if h != [] {
      SurvivorsOfSteadyClock(h, c);
      KeepSnoc(Keep(h, Recent(c[n - 1])), history[n], Recent(last));
      KeepSnoc(h, history[n], Recent(last));
      KeepTwice(h, c[n - 1], last);
    }
  }

  lemma {:induction false} KeepTwice(rows: seq<Row>, a: string, b: string)
    requires NotAfter(a, b)
    ensures Keep(Keep(rows, Recent(a)), Recent(b)) == Keep(rows, Recent(b))
    decreases |rows|
  {
    hide Before;
    if rows != [] {
      var first, rest := rows[0], rows[1..];
      assert rows == [first] + rest;
      KeepTwice(rest, a, b);
      KeepCons(first, rest, Recent(a));
      KeepCons(first, rest, Recent(b));
      KeepCons(first, Keep(rest, Recent(a)), Recent(b));
      assert [] + Keep(rest, Recent(a)) == Keep(rest, Recent(a)) && [] + Keep(rest, Recent(b)) == Keep(rest, Recent(b));
      if NotAfter(b, first.at) { NotAfterTrans(a, b, first.at); }
    }
  }

  // ---- the cap -------------------------------------------------------------------------------------

  lemma {:induction false} KeepPrefix(rows: seq<Row>, n: nat, p: Row -> bool)
    requires forall i | 0 <= i < |rows| :: p(rows[i]) <==> i < n
    ensures Keep(rows, p) == Take(rows, n)
    decreases |rows|
  {
    if n == 0 {
      KeepOfNone(rows, p);
    } else if rows != [] {
      KeepPrefix(rows[1..], n - 1, p);
      TakeCons(rows[0], rows[1..], n);
      assert [rows[0]] + rows[1..] == rows;
    }
  }

  /** DELETE ... WHERE id IN (SELECT id ... ORDER BY ... LIMIT -1 OFFSET n) */
  function Overflow(rows: seq<Row>, n: nat): set<nat> {
    Ids(Sorted(rows)[|Take(Sorted(rows), n)|..])
  }

  function WithoutOverflow(rows: seq<Row>, n: nat): seq<Row> {
    var overflow := Overflow(rows, n);
    Keep(rows, (r: Row) => r.id !in overflow)
  }

  lemma SortedHasDistinctIds(rows: seq<Row>)
    requires DistinctIds(rows)
    ensures DistinctIds(Sorted(rows))
  {
    SortedIsNewestFirst(rows);
    var all := Sorted(rows);
    forall i, j | 0 <= i < j < |all| ensures all[i].id != all[j].id {
      assert all[i] in all && all[j] in all;
      assert Newer(all[i], all[j]);
      NotBeforeItself(all[i].at);
    }
  }

  lemma BeyondTheFirst(all: seq<Row>, n: nat)
    requires DistinctIds(all)
    ensures forall i | 0 <= i < |all| :: all[i].id !in Ids(all[|Take(all, n)|..]) <==> i < n
  {
    forall i | 0 <= i < |all| ensures all[i].id !in Ids(all[|Take(all, n)|..]) <==> i < n {
      if i >= n { assert all[i] == all[|Take(all, n)|..][i - |Take(all, n)|]; }
    }
  }

  lemma OverflowLeavesNewest(rows: seq<Row>, n: nat)
    requires DistinctIds(rows)
    ensures Sorted(WithoutOverflow(rows, n)) == Take(Sorted(rows), n)
  {
    var overflow, all := Overflow(rows, n), Sorted(rows);
    var p := (r: Row) => r.id !in overflow;
    SortedHasDistinctIds(rows);
    KeepSorted(rows, p);
    BeyondTheFirst(all, n);
    KeepPrefix(all, n, p);
  }

  /** Ids given so far, each once and in ascending order. */
  predicate Ascending(rows: seq<Row>, nextId: nat) {
    (forall i, j | 0 <= i < j < |rows| :: rows[i].id < rows[j].id) && forall r | r in rows :: r.id < nextId
  }

  lemma {:induction false} KeepAscending(rows: seq<Row>, nextId: nat, p: Row -> bool)
    requires Ascending(rows, nextId)
    ensures Ascending(Keep(rows, p), nextId)
    decreases |rows|
  {
    if rows != [] {
      var rest := Keep(rows[1..], p);
      KeepAscending(rows[1..], nextId, p);
      forall r | r in rest ensures rows[0].id < r.id {
        var i :| 0 <= i < |rows[1..]| && rows[1..][i] == r;
        assert rows[i + 1] == r;
      }
      if p(rows[0]) { AscendingCons(rows[0], rest, nextId); }
    }
  }

  lemma AscendingCons(r: Row, rest: seq<Row>, nextId: nat)
    requires Ascending(rest, nextId) && r.id < nextId && forall x | x in rest :: r.id < x.id
    ensures Ascending([r] + rest, nextId)
  {
    var all := [r] + rest;
    forall i, j | 0 <= i < j < |all| ensures all[i].id < all[j].id {
      assert all[j] == rest[j - 1];
      if i > 0 { assert all[i] == rest[i - 1]; }
    }
  }

  lemma AscendingSnoc(rows: seq<Row>, r: Row)
    requires Ascending(rows, r.id)
    ensures Ascending(rows + [r], r.id + 1) && DistinctIds(rows + [r])
  {
    var all := rows + [r];
    forall i, j | 0 <= i < j < |all| ensures all[i].id < all[j].id {
      if j == |rows| { assert rows[i] in rows; }
    }
  }

  lemma AscendingIsDistinct(rows: seq<Row>, nextId: nat)
    requires Ascending(rows, nextId)
    ensures DistinctIds(rows)
  {
  }

  lemma WithoutOverflowAscends(rows: seq<Row>, nextId: nat, n: nat)
    requires Ascending(rows, nextId)
    ensures Ascending(WithoutOverflow(rows, n), nextId) && forall r | r in WithoutOverflow(rows, n) :: r in rows
  {
    var overflow := Overflow(rows, n);
    KeepAscending(rows, nextId, (r: Row) => r.id !in overflow);
  }

  lemma SurvivorsAscend(history: seq<Row>, cutoffs: seq<string>, nextId: nat)
    requires |history| == |cutoffs| && Ascending(history, nextId)
    ensures Ascending(Survivors(history, cutoffs), nextId)
    decreases |history|
  {
    if history != [] {
      var n := |history| - 1;
      assert Ascending(history[..n], history[n].id) by {
        forall r | r in history[..n] ensures r.id < history[n].id {
          var i :| 0 <= i < n && history[..n][i] == r;
        }
      }
      SurvivorsAscend(history[..n], cutoffs[..n], history[n].id);
      var kept := Survivors(history[..n], cutoffs[..n]);
      AscendingSnoc(kept, history[n]);
      KeepAscending(kept + [history[n]], history[n].id + 1, Recent(cutoffs[n]));
      assert history[n] in history;
    }
  }

  lemma SurvivorsSnoc(history: seq<Row>, cutoffs: seq<string>, r: Row, cutoff: string)
    requires |history| == |cutoffs|
    ensures Survivors(history + [r], cutoffs + [cutoff]) == Keep(Survivors(history, cutoffs) + [r], Recent(cutoff))
  {
    assert (history + [r])[..|history|] == history && (cutoffs + [cutoff])[..|history|] == cutoffs;
  }

  /** One append against the unbounded history: cutting early loses nothing that would be kept later. */
  lemma AppendRefines(rows: seq<Row>, survivors: seq<Row>, r: Row, cutoff: string, n: nat)
    requires DistinctIds(survivors + [r]) && DistinctIds(rows + [r])
    requires Sorted(rows) == Take(Sorted(survivors), n)
    ensures Take(Sorted(Keep(rows + [r], Recent(cutoff))), n) == Take(Sorted(Keep(survivors + [r], Recent(cutoff))), n)
  {
    KeepSorted(rows + [r], Recent(cutoff));
    KeepSorted(survivors + [r], Recent(cutoff));
    SortedIsNewestFirst(rows + [r]);
    SortedIsNewestFirst(survivors + [r]);
    KeepRecentTake(Sorted(rows + [r]), cutoff, n);
    KeepRecentTake(Sorted(survivors + [r]), cutoff, n);
    SortedSnoc(rows, r);
    SortedSnoc(survivors, r);
    TakeInsert(r, Sorted(survivors), n);
  }

  // ---- queries ---------------------------------------------------------------------------------------

  datatype Filter = Filter(
    since: Option<Moment>, levels: seq<string>, features: seq<string>, search: string, errorsOnly: bool,
    correlation: Option<string>, operation: Option<string>, completedOnly: bool)

  datatype Column = Level | Feature | Correlation | Operation

  /** One condition of the WHERE clause with its parameters. */
  datatype Clause =
    | AtLeast(since: string)
    | OneOf(column: Column, values: seq<string>)
    | Equals(column: Column, value: string)
    | IsFailure
    | IsCompleted
    | Mentions(term: string)

  function ColumnOf(e: Event, column: Column): Option<string> {
    match column
    case Level => Some(e.level)
    case Feature => Some(e.feature)
    case Correlation => e.correlation
    case Operation => e.operation
  }

  /** instr(lower(COALESCE(column, '')), lower(term)) > 0 */
  predicate Hits(text: Option<string>, term: string) {
    Contains(Lower(if text.Some? then text.value else ""), Lower(term))
  }

  predicate Holds(clause: Clause, r: Row) {
    match clause
    case AtLeast(since) => NotAfter(since, r.at)
    case OneOf(column, values) => ColumnOf(r.event, column).Some? && ColumnOf(r.event, column).value in values
    case Equals(column, value) => ColumnOf(r.event, column) == Some(value)
    case IsFailure => r.event.result == "FAILURE"
    case IsCompleted => r.event.phase == "COMPLETED"
    case Mentions(term) =>
      || Hits(Some(r.event.message), term) || Hits(Some(r.event.target), term) || Hits(r.event.operation, term)
      || Hits(r.event.correlation, term) || Hits(r.event.awsAction, term) || Hits(r.event.errorCode, term)
  }

  /** The later of the retention cutoff and the requested start. */
  function Since(cutoff: Moment, since: Option<Moment>): Moment {
    if since.Some? && Earlier(cutoff, since.value) then since.value else cutoff
  }

  lemma SinceBoth(cutoff: Moment, since: Option<Moment>, at: string)
    ensures NotAfter(Iso(Since(cutoff, since)), at) <==>
      NotAfter(Iso(cutoff), at) && (since.Some? ==> NotAfter(Iso(since.value), at))
  {
    if since.Some? {
      EarlierIsByInstant(cutoff, since.value);
      TextOrderIsTimeOrder(cutoff, since.value);
      TextOrderIsTimeOrder(since.value, cutoff);
      hide Iso, NotAfter;
      var first, second := Iso(cutoff), Iso(since.value);
      if Earlier(cutoff, since.value) {
        LaterDecides(first, second, at);
      } else {
        LaterDecides(second, first, at);
      }
    }
  }

  lemma LaterDecides(earlier: string, later: string, at: string)
    requires !Before(later, earlier)
    ensures NotAfter(later, at) ==> NotAfter(earlier, at)
  {
    if NotAfter(later, at) { NotAfterTrans(earlier, later, at); }
  }

  /** The term occurs in one of the columns that are searched. */
  predicate Mentioned(term: string, e: Event) {
    || SpelledIn(e.message, term) || SpelledIn(e.target, term)
    || (e.operation.Some? && SpelledIn(e.operation.value, term)) || (e.correlation.Some? && SpelledIn(e.correlation.value, term))
    || (e.awsAction.Some? && SpelledIn(e.awsAction.value, term)) || (e.errorCode.Some? && SpelledIn(e.errorCode.value, term))
  }

  lemma HitsIsSpelledIn(text: Option<string>, term: string)
    requires term != ""
    ensures Hits(text, term) <==> text.Some? && SpelledIn(text.value, term)
  {
    LowerContains(if text.Some? then text.value else "", term);
  }

  lemma MentionsIsMentioned(term: string, r: Row)
    requires term != ""
    ensures Holds(Mentions(term), r) <==> Mentioned(term, r.event)
  {
    hide Hits, SpelledIn;
    HitsIsSpelledIn(Some(r.event.message), term);
    HitsIsSpelledIn(Some(r.event.target), term);
    HitsIsSpelledIn(r.event.operation, term);
    HitsIsSpelledIn(r.event.correlation, term);
    HitsIsSpelledIn(r.event.awsAction, term);
    HitsIsSpelledIn(r.event.errorCode, term);
  }

  /** The part of a filter about columns that must have one of some values. */
  predicate MatchesColumns(f: Filter, cutoff: Moment, r: Row) {
    && NotAfter(Iso(cutoff), r.at) && (f.since.Some? ==> NotAfter(Iso(f.since.value), r.at))
    && (f.levels != [] ==> r.event.level in f.levels)
    && (f.features != [] ==> r.event.feature in f.features)
    && (f.correlation.Some? && f.correlation.value != "" ==> r.event.correlation == f.correlation)
    && (f.operation.Some? && f.operation.value != "" ==> r.event.operation == f.operation)
  }

  /** What a filter asks for, condition by condition; an empty choice or text asks for nothing. */
  predicate Matches(f: Filter, cutoff: Moment, r: Row) {
    && MatchesColumns(f, cutoff, r)
    && (f.errorsOnly ==> r.event.result == "FAILURE")
    && (f.completedOnly ==> r.event.phase == "COMPLETED")
    && (Stripped(f.search) != "" ==> Mentioned(Stripped(f.search), r.event))
  }

  function Matching(f: Filter, cutoff: Moment): Row -> bool {
    (r: Row) => Matches(f, cutoff, r)
  }

  predicate All(clauses: seq<Clause>, r: Row) {
    forall i | 0 <= i < |clauses| :: Holds(clauses[i], r)
  }

  lemma AllSnoc(clauses: seq<Clause>, c: Clause, r: Row)
    ensures All(clauses + [c], r) <==> All(clauses, r) && Holds(c, r)
  {
    var all := clauses + [c];
    assert all[|clauses|] == c;
    assert forall i | 0 <= i < |clauses| :: all[i] == clauses[i];
  }

  method ColumnClauses(f: Filter, cutoff: Moment) returns (clauses: seq<Clause>)
    ensures forall r :: All(clauses, r) <==> MatchesColumns(f, cutoff, r)
  {
    hide All, Stripped, Iso, NotAfter, Since, Hits;
    clauses := [AtLeast(Iso(Since(cutoff, f.since)))];
    OnlyOne(clauses[0]);
    forall r: Row {
      SinceBoth(cutoff, f.since, r.at);
    }
    if f.levels != [] { clauses := Also(clauses, OneOf(Level, f.levels)); }
    if f.features != [] { clauses := Also(clauses, OneOf(Feature, f.features)); }
    if f.correlation.Some? && f.correlation.value != "" { clauses := Also(clauses, Equals(Correlation, f.correlation.value)); }
    if f.operation.Some? && f.operation.value != "" { clauses := Also(clauses, Equals(Operation, f.operation.value)); }
  }

  /** The clause list, built the way the statement is, selects what the filter asks for. */
  method Clauses(f: Filter, cutoff: Moment) returns (clauses: seq<Clause>)
    ensures forall r :: All(clauses, r) <==> Matches(f, cutoff, r)
  {
    hide All, Stripped, Iso, NotAfter, Since, Hits, MatchesColumns, Mentioned;
    clauses := ColumnClauses(f, cutoff);
    if f.errorsOnly { clauses := Also(clauses, IsFailure); }
    if f.completedOnly { clauses := Also(clauses, IsCompleted); }
    if Stripped(f.search) != "" {
      clauses := Also(clauses, Mentions(Stripped(f.search)));
      forall r: Row {
        MentionsIsMentioned(Stripped(f.search), r);
      }
    }
  }

  lemma OnlyOne(c: Clause)
    ensures forall r :: All([c], r) <==> Holds(c, r)
  {
    assert [c][0] == c;
  }

  method Also(clauses: seq<Clause>, c: Clause) returns (more: seq<Clause>)
    ensures more == clauses + [c] && forall r :: All(more, r) <==> All(clauses, r) && Holds(c, r)
  {
    more := clauses + [c];
    forall r ensures All(more, r) <==> All(clauses, r) && Holds(c, r) { AllSnoc(clauses, c, r); }
  }

  function Where(clauses: seq<Clause>): Row -> bool {
    (r: Row) => All(clauses, r)
  }

  lemma {:induction false} SameSelection(rows: seq<Row>, p: Row -> bool, q: Row -> bool)
    requires forall r | r in rows :: p(r) <==> q(r)
    ensures Keep(rows, p) == Keep(rows, q)
    decreases |rows|
  {
    if rows != [] { SameSelection(rows[1..], p, q); }
  }

  /** Selecting from the first n rows gives the first of what selecting from all of them gives. */
  lemma {:induction false} KeepOfTake(rows: seq<Row>, n: nat, p: Row -> bool)
    ensures Keep(Take(rows, n), p) <= Keep(rows, p)
    decreases |rows|
  {
    if n == 0 || rows == [] {
      assert Take(rows, n) == [];
      KeepOfNone([], p);
    } else {
      var first, rest := rows[0], rows[1..];
      var some := Take(rest, n - 1);
      KeepOfTake(rest, n - 1, p);
      assert rows == [first] + rest;
      TakeCons(first, rest, n);
      KeepCons(first, some, p);
      KeepCons(first, rest, p);
      hide Keep, Take;
      SamePrefixKept(if p(first) then [first] else [], Keep(some, p), Keep(rest, p));
    }
  }

  lemma SamePrefixKept(head: seq<Row>, a: seq<Row>, b: seq<Row>)
    requires a <= b
    ensures head + a <= head + b
  {
  }

  /** The table holds the newest: whatever it leaves out is older than everything it keeps. */
  lemma TakenAreNewer(rows: seq<Row>, n: nat, a: Row, b: Row)
    requires DistinctIds(rows) && a in Take(Sorted(rows), n) && b in rows && b !in Take(Sorted(rows), n)
    ensures Newer(a, b) && |Take(Sorted(rows), n)| == n
  {
    SortedIsNewestFirst(rows);
    var all := Sorted(rows);
    assert b in all;
    assert forall k | 0 <= k < |Take(all, n)| :: all[k] == Take(all, n)[k];
    var i :| 0 <= i < |Take(all, n)| && Take(all, n)[i] == a;
    var j :| 0 <= j < |all| && all[j] == b;
  }

  /** The rows of the table that a filter asks for. */
  ghost function Asked(rows: seq<Row>, f: Filter, cutoff: Moment): set<Row> {
    set r | r in rows && Matches(f, cutoff, r)
  }

  /** Some of these rows, newest first; the ones left out are older than each of them. */
  ghost predicate NewestOf(answer: seq<Row>, asked: set<Row>) {
    && NewestFirst(answer) && (forall r | r in answer :: r in asked)
    && forall a, b | a in answer && b in asked && b !in answer :: Newer(a, b)
  }

  function RowsIn(rows: seq<Row>): set<Row> {
    set r | r in rows
  }

  lemma OneMoreRow(first: Row, rest: seq<Row>)
    ensures RowsIn([first] + rest) == RowsIn(rest) + {first}
  {
  }

  lemma {:induction false} EachOnce(rows: seq<Row>)
    requires DistinctIds(rows)
    ensures |RowsIn(rows)| == |rows|
    decreases |rows|
  {
    hide RowsIn;
    if rows == [] {
      NoRowsIn();
    } else {
      var first, rest := rows[0], rows[1..];
      assert rows == [first] + rest;
      EachOnce(rest);
      OneMoreRow(first, rest);
      NotAgain(rows);
    }
  }

  lemma NoRowsIn()
    ensures RowsIn([]) == {}
  {
  }

  lemma NotAgain(rows: seq<Row>)
    requires DistinctIds(rows) && rows != []
    ensures rows[0] !in RowsIn(rows[1..])
  {
    var rest := rows[1..];
    forall i | 0 <= i < |rest| ensures rest[i] != rows[0] {
      assert rest[i] == rows[i + 1];
    }
  }

  lemma KeepIsDistinct(rows: seq<Row>, p: Row -> bool)
    requires DistinctIds(rows)
    ensures DistinctIds(Keep(rows, p))
  {
    if rows != [] {
      var rest := Keep(rows[1..], p);
      KeepIsDistinct(rows[1..], p);
      forall j | 0 <= j < |rest| ensures rows[0].id != rest[j].id { assert rest[j] in rest; }
    }
  }

  lemma AskedRows(rows: seq<Row>, f: Filter, cutoff: Moment)
    requires DistinctIds(rows)
    ensures var kept := Keep(rows, Matching(f, cutoff));
      DistinctIds(kept) && |Asked(rows, f, cutoff)| == |kept| && Asked(rows, f, cutoff) == RowsIn(kept)
  {
    hide Keep, Matches, DistinctIds;
    var kept := Keep(rows, Matching(f, cutoff));
    KeepIsDistinct(rows, Matching(f, cutoff));
    EachOnce(kept);
    assert Asked(rows, f, cutoff) == RowsIn(kept);
  }

  lemma FirstAreNewest(found: seq<Row>, n: nat)
    requires DistinctIds(found)
    ensures NewestOf(Take(Sorted(found), n), RowsIn(found))
    ensures |Take(Sorted(found), n)| == if n < |found| then n else |found|
  {
    SortedIsNewestFirst(found);
    var all, first := Sorted(found), Take(Sorted(found), n);
    assert forall i | 0 <= i < |first| :: first[i] in all;
    forall a, b | a in first && b in found && b !in first ensures Newer(a, b) {
      TakenAreNewer(found, n, a, b);
    }
  }

  /** `SqliteProfileStore`, as far as execution_logs is concerned. */
  class ExecutionLogStore {
    var rows: seq<Row>
    var nextId: nat
    ghost var history: seq<Row>       // everything ever appended
    ghost var cutoffs: seq<string>    // the cutoff text of each append

    constructor ()
      ensures Valid() && history == []
    {
      rows, nextId, history, cutoffs := [], 0, [], [];
    }

    /** The table is the newest MAX_ROWS of what the cutoffs alone would have left of the history. */
    ghost predicate Valid()
      reads this
    {
      && |history| == |cutoffs| && Ascending(history, nextId) && Ascending(rows, nextId)
      && Sorted(rows) == Take(Sorted(Survivors(history, cutoffs)), MAX_ROWS)
    }

    /** `append_execution_log`; `cutoff` is thirty days before `now`. */
    method Append(at: Time, event: Event, now: Time, cutoff: Time)
      requires Valid() && Instant(cutoff) == Instant(now) - RETENTION
      modifies this
      ensures Valid()
      ensures history == old(history) + [Row(old(nextId), Iso(at), event)] && cutoffs == old(cutoffs) + [Iso(cutoff)]
      ensures forall r | r in rows :: NotAfter(Iso(cutoff), r.at)
    {
      hide Sorted, Take, Keep, Survivors, Ascending, DistinctIds, WithoutOverflow, NotAfter, Iso;
      var row := Row(nextId, Iso(at), event);
      ghost var before, kept := rows, Survivors(history, cutoffs);
      SurvivorsAscend(history, cutoffs, nextId);
      AscendingSnoc(kept, row);
      AscendingSnoc(rows, row);
      AscendingSnoc(history, row);
      AppendRefines(rows, kept, row, Iso(cutoff), MAX_ROWS);
      SurvivorsSnoc(history, cutoffs, row, Iso(cutoff));
      history, cutoffs, nextId := history + [row], cutoffs + [Iso(cutoff)], nextId + 1;

      rows := rows + [row];
      KeepAscending(rows, nextId, Recent(Iso(cutoff)));
      rows := Keep(rows, Recent(Iso(cutoff)));
      AscendingIsDistinct(rows, nextId);
      OverflowLeavesNewest(rows, MAX_ROWS);
      WithoutOverflowAscends(rows, nextId, MAX_ROWS);
      rows := WithoutOverflow(rows, MAX_ROWS);
    }

    /**
      `query_execution_logs`: the newest matching rows of the table, at most `limit` of them and at least one if
      there are any.  They are a newest-first prefix of what the same question would select from the unbounded
      history.
     */
    method Query(f: Filter, limit: int, now: Time, cutoff: Moment) returns (answer: seq<Row>)
      requires Valid() && Instant(cutoff) == Instant(now) - RETENTION
      ensures var asked := Asked(rows, f, cutoff);
        && NewestOf(answer, asked)
        && |answer| == if limit < 1 then (if asked == {} then 0 else 1) else if |asked| < limit then |asked| else limit
      ensures answer == Take(Keep(Sorted(rows), Matching(f, cutoff)), Clamped(limit))
      ensures answer <= Keep(Sorted(Survivors(history, cutoffs)), Matching(f, cutoff))
      ensures |Survivors(history, cutoffs)| <= MAX_ROWS ==>
        answer == Take(Keep(Sorted(Survivors(history, cutoffs)), Matching(f, cutoff)), Clamped(limit))
    {
      hide Sorted, Keep, Survivors, Matches, NotAfter, Iso, All, NewestOf;
      var clauses := Clauses(f, cutoff);
      var found := Keep(rows, Where(clauses));
      answer := Take(Sorted(found), Clamped(limit));
      AscendingIsDistinct(rows, nextId);
      KeepSorted(rows, Where(clauses));
      SameSelection(Sorted(rows), Where(clauses), Matching(f, cutoff));
      KeepOfTake(Sorted(Survivors(history, cutoffs)), MAX_ROWS, Matching(f, cutoff));
      AskedRows(rows, f, cutoff);
      FirstAreNewest(Keep(rows, Matching(f, cutoff)), Clamped(limit));
      SameSelection(rows, Where(clauses), Matching(f, cutoff));
    }

    /** With cutoffs that never go back, the table is the newest of everything not older than the last cutoff. */
    lemma TableOfSteadyClock()
      requires Valid() && history != [] && NeverBack(cutoffs)
      ensures Sorted(rows) == Take(Sorted(Keep(history, Recent(cutoffs[|cutoffs| - 1]))), MAX_ROWS)
    {
      SurvivorsOfSteadyClock(history, cutoffs);
    }
  }

  /** max(1, min(limit, MAX_ROWS)) */
  function Clamped(limit: int): nat {
    if limit < 1 then 1 else if limit > MAX_ROWS then MAX_ROWS else limit
  }

  /** Comparing the texts of a row and of a cutoff decides whether the event is at most thirty days old. */
  lemma RetentionIsThirtyDays(at: Time, now: Time, cutoff: Time)
    requires Valid(at) && Valid(now) && Valid(cutoff) && Instant(cutoff) == Instant(now) - RETENTION
    ensures NotAfter(Iso(cutoff), Iso(at)) <==> Instant(now) - Instant(at) <= RETENTION
  {
    TextOrderIsTimeOrder(at, cutoff);
  }

  /** A clock that does not go back gives cutoff texts that do not go back. */
  lemma SteadyCutoffs(nows: seq<Time>, cutoffs: seq<Time>)
    requires |nows| == |cutoffs|
    requires forall i | 0 <= i < |nows| :: Valid(cutoffs[i]) && Instant(cutoffs[i]) == Instant(nows[i]) - RETENTION
    requires forall i, j | 0 <= i <= j < |nows| :: Instant(nows[i]) <= Instant(nows[j])
    ensures NeverBack(seq(|cutoffs|, i requires 0 <= i < |cutoffs| => Iso(cutoffs[i])))
  {
    forall i, j | 0 <= i <= j < |cutoffs| ensures NotAfter(Iso(cutoffs[i]), Iso(cutoffs[j])) {
      assert Instant(nows[i]) <= Instant(nows[j]);
      TextOrderIsTimeOrder(cutoffs[j], cutoffs[i]);
    }
  }
}
