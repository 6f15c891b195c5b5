/** Resumable, bounded paging of telemetry sources (admin_console/telemetry.py).

    A source is a fixed chain of pages: what it answers depends on the page token
    alone, "" being the token of the first page.  Whether a read arrives, fails with an
    error the code handles, or with one it does not, is a free choice for every read. */
module TelemetryPaging {

  datatype Row = Row(key: string, text: string)

  datatype Page = Page(rows: seq<Row>, nextToken: string)

  type Source = string -> Page

  const MAX_PAGES := 10

  /** The token of page `k` (0 the first), following the chain from its start. */
  function TokenAt(s: Source, k: nat): string {
    if k == 0 then "" else s(TokenAt(s, k - 1)).nextToken
  }

  /** The rows of the first `k` pages, in order: a plain read of a prefix. */
  function Prefix(s: Source, k: nat): seq<Row> {
    if k == 0 then [] else Prefix(s, k - 1) + s(TokenAt(s, k - 1)).rows
  }

  /** What becomes of the reads of one call, in order. */
  datatype Answer = Arrives | Handled | Raises

  type Answers = nat -> Answer

  datatype Cursor = Cursor(nextToken: string, pagesRead: nat, complete: bool, error: bool)

  /** The cursor stands after `pagesRead` pages of `s`, within the bound, and is complete
      exactly when the last page it read ends the chain. */
  ghost predicate At(c: Cursor, s: Source) {
    && c.pagesRead <= 10
    && c.nextToken == TokenAt(s, c.pagesRead)
    && (c.complete <==> c.pagesRead > 0 && TokenAt(s, c.pagesRead) == "")
    && (forall k :: 0 < k < c.pagesRead ==> TokenAt(s, k) != "")
  }

  predicate HasMore(c: Cursor) {
    !c.complete && c.pagesRead < MAX_PAGES
  }

  function Moved(c: Cursor, page: Page): Cursor {
    Cursor(page.nextToken, c.pagesRead + 1, page.nextToken == "", false)
  }

  /** The pages a step reads next, given what is left of the bound. */
  function Budget(pages: nat, pagesRead: nat): (b: nat)
    ensures b <= pages && (pagesRead <= 10 ==> pagesRead + b <= 10)
    ensures b == pages || pagesRead + b >= 10
  {
    if pagesRead >= MAX_PAGES then 0 else if pages < MAX_PAGES - pagesRead then pages else MAX_PAGES - pagesRead
  }

  /** What one query's call ends with; a call that raised returns no rows. */
  datatype Reading = Reading(cursor: Cursor, rows: seq<Row>, raised: bool)

  /** Reading on from `c`, with `i` reads of the call done and `budget` left. */
  function ReadOn(s: Source, c: Cursor, budget: nat, answers: Answers, i: nat): Reading
    decreases budget
  {
    if budget == 0 || c.complete then Reading(c, [], false)
    else
      match answers(i)
      case Handled => Reading(c.(error := true), [], false)
      case Raises => Reading(c, [], true)
      case Arrives =>
        var page := s(c.nextToken);
        Prepend(page.rows, ReadOn(s, Moved(c, page), budget - 1, answers, i + 1))
  }

  function Prepend(rows: seq<Row>, r: Reading): Reading {
    r.(rows := if r.raised then [] else rows + r.rows)
  }

  function Advance(s: Source, c: Cursor, pages: nat, answers: Answers): Reading {
    ReadOn(s, c, Budget(pages, c.pagesRead), answers, 0)
  }

  lemma ReadOnStep(s: Source, c: Cursor, budget: nat, answers: Answers, i: nat, rows: seq<Row>)
    ensures var whole := Prepend(rows, ReadOn(s, c, budget, answers, i));
            if budget == 0 || c.complete then whole == Reading(c, rows, false)
            else match answers(i)
              case Handled => whole == Reading(c.(error := true), rows, false)
              case Raises => whole == Reading(c, [], true)
              case Arrives =>
                var page := s(c.nextToken);
                whole == Prepend(rows + page.rows, ReadOn(s, Moved(c, page), budget - 1, answers, i + 1))
  {
    if budget > 0 && !c.complete && answers(i).Arrives? {
      var page := s(c.nextToken);
      var rest := ReadOn(s, Moved(c, page), budget - 1, answers, i + 1);
      assert rows + (page.rows + rest.rows) == (rows + page.rows) + rest.rows;
    }
  }

  lemma StartsReading(s: Source, c: Cursor, pages: nat, answers: Answers)
    ensures Advance(s, c, pages, answers) == Prepend([], ReadOn(s, c, Budget(pages, c.pagesRead), answers, 0))
    ensures c.pagesRead <= MAX_PAGES ==> c.pagesRead + Budget(pages, c.pagesRead) <= MAX_PAGES
  {
  }

  /** No read of the call meets an error that is not handled. */
  ghost predicate NoneRaise(answers: Answers) {
    forall i: nat :: !answers(i).Raises?
  }

  lemma {:induction false} NoneRaised(s: Source, c: Cursor, budget: nat, answers: Answers, i: nat)
    requires NoneRaise(answers)
    ensures !ReadOn(s, c, budget, answers, i).raised
    decreases budget
  {
    if budget > 0 && !c.complete && answers(i).Arrives? {
      NoneRaised(s, Moved(c, s(c.nextToken)), budget - 1, answers, i + 1);
    }
  }

  lemma MovedIsAt(s: Source, c: Cursor)
    requires At(c, s) && HasMore(c)
    ensures At(Moved(c, s(c.nextToken)), s)
    ensures Prefix(s, c.pagesRead + 1) == Prefix(s, c.pagesRead) + s(c.nextToken).rows
  {
  }

  lemma ErrorIsAt(s: Source, c: Cursor)
    requires At(c, s)
    ensures At(c.(error := true), s)
  {
  }

  lemma {:induction false} ReadOnIs(s: Source, c: Cursor, budget: nat, answers: Answers, i: nat)
    requires At(c, s) && c.pagesRead + budget <= MAX_PAGES
    ensures var r := ReadOn(s, c, budget, answers, i);
            && At(r.cursor, s) && c.pagesRead <= r.cursor.pagesRead <= c.pagesRead + budget
            && (!r.raised ==> Prefix(s, c.pagesRead) + r.rows == Prefix(s, r.cursor.pagesRead))
            && (r.raised ==> r.rows == [] && r.cursor.pagesRead < c.pagesRead + budget && !r.cursor.complete)
            && (!r.raised && !r.cursor.error ==> r.cursor.complete || r.cursor.pagesRead == c.pagesRead + budget)
    decreases budget
  {
    hide At, Prefix;
    ErrorIsAt(s, c);
    if budget > 0 && !c.complete && answers(i).Arrives? {
      MovedIsAt(s, c);
      var page := s(c.nextToken);
      ReadOnIs(s, Moved(c, page), budget - 1, answers, i + 1);
      var rest := ReadOn(s, Moved(c, page), budget - 1, answers, i + 1);
      assert Prefix(s, c.pagesRead) + (page.rows + rest.rows) == (Prefix(s, c.pagesRead) + page.rows) + rest.rows;
    }
  }

  /** The rows a call returns extend a plain read of the pages passed before to one of the
      pages passed now.  A call that raised has not passed the page it raised at.  Without
      an error it stops only at the end of the chain or of its budget. */
  lemma AdvanceExtendsPrefix(s: Source, c: Cursor, pages: nat, answers: Answers)
    requires At(c, s)
    ensures var r, budget := Advance(s, c, pages, answers), Budget(pages, c.pagesRead);
            && At(r.cursor, s) && c.pagesRead <= r.cursor.pagesRead <= c.pagesRead + budget
            && (!r.raised ==> Prefix(s, c.pagesRead) + r.rows == Prefix(s, r.cursor.pagesRead))
            && (r.raised ==> r.rows == [] && r.cursor.pagesRead < c.pagesRead + budget && HasMore(c))
            && (!r.raised && !r.cursor.error ==> r.cursor.complete || r.cursor.pagesRead == c.pagesRead + budget)
            && (!HasMore(c) ==> r == Reading(c, [], false))
  {
    ReadOnIs(s, c, Budget(pages, c.pagesRead), answers, 0);
  }

  class PageCursor {
    var nextToken: string
    var pagesRead: nat
    var complete: bool
    var error: bool

    ghost function View(): Cursor
      reads this
    {
      Cursor(nextToken, pagesRead, complete, error)
    }

    constructor ()
      ensures View() == Cursor("", 0, false, false)
    {
      nextToken, pagesRead, complete, error := "", 0, false, false;
    }

    predicate More()
      reads this
      ensures More() <==> HasMore(View())
    {
      !complete && pagesRead < MAX_PAGES
    }

    /** A page was read: move past it. */
    method Pass(page: Page, ghost s: Source)
      requires At(View(), s) && HasMore(View()) && page == s(nextToken)
      modifies this
      ensures View() == Moved(old(View()), page)
      ensures At(View(), s) && pagesRead == old(pagesRead) + 1
    {
      pagesRead := pagesRead + 1;
      nextToken := page.nextToken;
      complete := nextToken == "";
      error := false;
    }
  }

  /** `_advance_logging_query`: read up to `pages` more pages.  When an error that is not
      handled leaves the method, its rows go with it. */
  method AdvanceQuery(s: Source, cursor: PageCursor, pages: nat, answers: Answers) returns (rows: seq<Row>, raised: bool)
    requires At(cursor.View(), s)
    modifies cursor
    ensures Reading(cursor.View(), rows, raised) == Advance(s, old(cursor.View()), pages, answers)
    ensures At(cursor.View(), s)
    ensures !raised ==> Prefix(s, old(cursor.pagesRead)) + rows == Prefix(s, cursor.pagesRead)
    ensures raised ==> cursor.pagesRead < old(cursor.pagesRead) + Budget(pages, old(cursor.pagesRead))
  {
    hide At, Prefix, ReadOn, Prepend, Advance, Moved;
    AdvanceExtendsPrefix(s, cursor.View(), pages, answers);
    StartsReading(s, cursor.View(), pages, answers);
    rows := [];
    var budget := Budget(pages, cursor.pagesRead);
    ghost var whole := Advance(s, cursor.View(), pages, answers);
    var i := 0;
    while i < budget
      invariant i <= budget && At(cursor.View(), s) && cursor.pagesRead == old(cursor.pagesRead) + i
      invariant whole == Prepend(rows, ReadOn(s, cursor.View(), budget - i, answers, i))
    {
      ReadOnStep(s, cursor.View(), budget - i, answers, i, rows);
      if cursor.complete { break; }
      if answers(i).Raises? { return [], true; }
      if answers(i).Handled? {
        ErrorIsAt(s, cursor.View());
        cursor.error := true;
        break;
      }
      var page := s(cursor.nextToken);
      cursor.Pass(page, s);
      rows := rows + page.rows;
      i := i + 1;
    }
    if i == budget { ReadOnStep(s, cursor.View(), 0, answers, i, rows); }
    raised := false;
  }

  // ---------------------------------------------------------------------------
  // Rows kept by key

  /** Inserting `rows` one by one: the last row of a key stays. */
  function Merge(kept: map<string, Row>, rows: seq<Row>): map<string, Row> {
    if rows == [] then kept
    else
      var last := rows[|rows| - 1];
      Merge(kept, rows[..|rows| - 1])[last.key := last]
  }

  lemma {:induction false} MergeAppend(kept: map<string, Row>, a: seq<Row>, b: seq<Row>)
    ensures Merge(kept, a + b) == Merge(Merge(kept, a), b)
    decreases |b|
  {
    if b == [] {
      assert a + b == a;
    } else {
      assert (a + b)[..|a + b| - 1] == a + b[..|b| - 1];
      MergeAppend(kept, a, b[..|b| - 1]);
    }
  }

  /** A key the rows name takes its value from them alone; the others keep theirs. */
  lemma {:induction false} MergeSplits(kept: map<string, Row>, rows: seq<Row>)
    ensures Merge(kept, rows) == kept + Merge(map[], rows)
  {
    if rows != [] {
      MergeSplits(kept, rows[..|rows| - 1]);
    }
  }

  lemma {:induction false} MergeKeys(rows: seq<Row>, k: string)
    ensures k in Merge(map[], rows) <==> exists r :: r in rows && r.key == k
    ensures k in Merge(map[], rows) ==> Merge(map[], rows)[k] in rows && Merge(map[], rows)[k].key == k
  {
    if rows != [] {
      var front, last := rows[..|rows| - 1], rows[|rows| - 1];
      assert rows == front + [last];
      MergeKeys(front, k);
    }
  }

  /** What a plain read of the first `k` pages keeps. */
  function Kept(s: Source, k: nat): map<string, Row> {
    Merge(map[], Prefix(s, k))
  }

  /** `rows` is what the first `m` pages of `a` and the first `n` of `b` hold: their keys
      and no other, each with the row one of the two reads keeps for it. */
  ghost predicate Agrees(rows: map<string, Row>, a: Source, m: nat, b: Source, n: nat) {
    && rows.Keys == Kept(a, m).Keys + Kept(b, n).Keys
    && forall k :: k in rows ==>
         || (k in Kept(a, m) && rows[k] == Kept(a, m)[k])
         || (k in Kept(b, n) && rows[k] == Kept(b, n)[k])
  }

  /** When no key comes from both queries the rows are exactly the two reads. */
  lemma DisjointReadsAreExact(rows: map<string, Row>, a: Source, m: nat, b: Source, n: nat)
    requires Kept(a, m).Keys !! Kept(b, n).Keys
    ensures Agrees(rows, a, m, b, n) <==> rows == Kept(a, m) + Kept(b, n)
  {
  }

  lemma KeptGrows(s: Source, k: nat, more: seq<Row>, n: nat)
    requires Prefix(s, k) + more == Prefix(s, n)
    ensures Kept(s, n) == Kept(s, k) + Merge(map[], more)
  {
    MergeAppend(map[], Prefix(s, k), more);
    MergeSplits(Kept(s, k), more);
  }

  lemma FirstAdvances(rows: map<string, Row>, a: Source, m: nat, b: Source, n: nat, more: seq<Row>, m': nat)
    requires Agrees(rows, a, m, b, n) && Prefix(a, m) + more == Prefix(a, m')
    ensures Agrees(Merge(rows, more), a, m', b, n)
  {
    KeptGrows(a, m, more, m');
    MergeSplits(rows, more);
  }

  lemma SecondAdvances(rows: map<string, Row>, a: Source, m: nat, b: Source, n: nat, more: seq<Row>, n': nat)
    requires Agrees(rows, a, m, b, n) && Prefix(b, n) + more == Prefix(b, n')
    ensures Agrees(Merge(rows, more), a, m, b, n')
  {
    KeptGrows(b, n, more, n');
    MergeSplits(rows, more);
  }

  lemma {:induction false} PrefixExtends(s: Source, k: nat, n: nat)
    requires k <= n
    ensures Prefix(s, k) <= Prefix(s, n)
  {
    if k < n { PrefixExtends(s, k, n - 1); }
  }

  // ---------------------------------------------------------------------------
  // The two logging queries together

  datatype Logging = Logging(rows: map<string, Row>, first: Cursor, second: Cursor, raised: bool)

  /** Both queries are read to their end before the rows of either are kept.  The first
      that raised keeps its own rows, and those after it, out. */
  function AdvanceBoth(rows: map<string, Row>, a: Source, ca: Cursor, b: Source, cb: Cursor,
                       pages: nat, p: Answers, q: Answers): Logging
  {
    var x, y := Advance(a, ca, pages, p), Advance(b, cb, pages, q);
    if x.raised then Logging(rows, x.cursor, y.cursor, true)
    else if y.raised then Logging(Merge(rows, x.rows), x.cursor, y.cursor, true)
    else Logging(Merge(Merge(rows, x.rows), y.rows), x.cursor, y.cursor, false)
  }

  ghost predicate Holds(rows: map<string, Row>, a: Source, ca: Cursor, b: Source, cb: Cursor) {
    At(ca, a) && At(cb, b) && Agrees(rows, a, ca.pagesRead, b, cb.pagesRead)
  }

  /** No call can lose rows: at most one query has more to read, and it reads one page. */
  predicate Safe(pages: nat, m: nat, moreA: bool, n: nat, moreB: bool) {
    !(moreA && moreB) && (moreA ==> Budget(pages, m) <= 1) && (moreB ==> Budget(pages, n) <= 1)
  }

  /** The agreement survives every call that does not raise, and every call that is safe. */
  lemma AgreementSurvives(rows: map<string, Row>, a: Source, ca: Cursor, b: Source, cb: Cursor,
                          pages: nat, p: Answers, q: Answers)
    requires Holds(rows, a, ca, b, cb)
    ensures var l := AdvanceBoth(rows, a, ca, b, cb, pages, p, q);
            && At(l.first, a) && At(l.second, b)
            && (!l.raised || Safe(pages, ca.pagesRead, HasMore(ca), cb.pagesRead, HasMore(cb)) ==>
                  Holds(l.rows, a, l.first, b, l.second))
  {
    var x, y := Advance(a, ca, pages, p), Advance(b, cb, pages, q);
    AdvanceExtendsPrefix(a, ca, pages, p);
    AdvanceExtendsPrefix(b, cb, pages, q);
    hide Advance, At, Agrees, Merge;
    if !x.raised {
      FirstAdvances(rows, a, ca.pagesRead, b, cb.pagesRead, x.rows, x.cursor.pagesRead);
      if !y.raised {
        SecondAdvances(Merge(rows, x.rows), a, x.cursor.pagesRead, b, cb.pagesRead, y.rows, y.cursor.pagesRead);
      }
    }
  }

  /** All a call does to the two cursors. */
  lemma BothRead(rows: map<string, Row>, a: Source, ca: Cursor, b: Source, cb: Cursor, pages: nat, p: Answers, q: Answers)
    requires At(ca, a) && At(cb, b)
    ensures At(ca.(error := true), a) && At(cb.(error := true), b)
    ensures Holds(rows, a, ca, b, cb) ==> Holds(rows, a, ca.(error := true), b, cb.(error := true))
    ensures var l := AdvanceBoth(rows, a, ca, b, cb, pages, p, q);
            && At(l.first, a) && At(l.second, b)
            && l.first.pagesRead >= ca.pagesRead && l.second.pagesRead >= cb.pagesRead
            && (NoneRaise(p) && NoneRaise(q) ==> !l.raised)
            && (!l.raised && !l.first.error && HasMore(ca) && pages > 0 ==> l.first.pagesRead > ca.pagesRead)
            && (!l.raised && !l.second.error && HasMore(cb) && pages > 0 ==> l.second.pagesRead > cb.pagesRead)
            && (Holds(rows, a, ca, b, cb) && (!l.raised || Safe(pages, ca.pagesRead, HasMore(ca), cb.pagesRead, HasMore(cb))) ==>
                  Holds(l.rows, a, l.first, b, l.second))
  {
    ErrorIsAt(a, ca);
    ErrorIsAt(b, cb);
    QueryMoves(a, ca, pages, p);
    QueryMoves(b, cb, pages, q);
    hide Advance, At, Agrees, Merge, NoneRaise, Safe;
    if Holds(rows, a, ca, b, cb) { AgreementSurvives(rows, a, ca, b, cb, pages, p, q); }
  }

  lemma QueryMoves(s: Source, c: Cursor, pages: nat, answers: Answers)
    requires At(c, s)
    ensures var r := Advance(s, c, pages, answers);
            && At(r.cursor, s) && r.cursor.pagesRead >= c.pagesRead && (NoneRaise(answers) ==> !r.raised)
            && (!r.raised && !r.cursor.error && HasMore(c) && pages > 0 ==> r.cursor.pagesRead > c.pagesRead)
  {
    AdvanceExtendsPrefix(s, c, pages, answers);
    if NoneRaise(answers) { NoneRaised(s, c, Budget(pages, c.pagesRead), answers, 0); }
  }

  /** A chain of pages of one row each, with keys of its own; it ends after `length` pages,
      or never when that is 0. */
  function Paged(tag: char, length: nat): Source {
    (token: string) => Page([Row([tag] + token, "")], if |token| + 1 == length then "" else token + "x")
  }

  lemma {:induction false} PagedTokens(tag: char, length: nat, k: nat)
    requires length == 0 || k <= length
    ensures |TokenAt(Paged(tag, length), k)| == if k == length then 0 else k
  {
    if k > 0 { PagedTokens(tag, length, k - 1); }
  }

  lemma {:induction false} PagedKeys(tag: char, length: nat, k: nat, r: Row)
    requires (length == 0 || k <= length) && r in Prefix(Paged(tag, length), k)
    ensures r.key != [] && r.key[0] == tag && |r.key| <= k
  {
    PagedTokens(tag, length, k - 1);
    if r !in Paged(tag, length)(TokenAt(Paged(tag, length), k - 1)).rows {
      PagedKeys(tag, length, k - 1, r);
    }
  }

  /** A cursor after `m` pages of a chain that goes on, or that ended there. */
  function CursorAt(tag: char, m: nat, more: bool): Cursor {
    Cursor(TokenAt(Paged(tag, if more then 0 else m), m), m, !more, false)
  }

  lemma CursorIsAt(tag: char, m: nat, more: bool)
    requires if more then m < MAX_PAGES else 0 < m <= MAX_PAGES
    ensures At(CursorAt(tag, m, more), Paged(tag, if more then 0 else m)) && HasMore(CursorAt(tag, m, more)) == more
    ensures CursorAt(tag, m, more).pagesRead == m
  {
    var length := if more then 0 else m;
    PagedTokens(tag, length, m);
    forall k | 0 < k < m ensures TokenAt(Paged(tag, length), k) != "" { PagedTokens(tag, length, k); }
  }

  /** The key of the row on page `m`. */
  function KeyOf(tag: char, m: nat): string {
    [tag] + TokenAt(Paged(tag, 0), m)
  }

  lemma KeyIsKept(tag: char, m: nat, n: nat)
    requires m < n
    ensures KeyOf(tag, m) in Kept(Paged(tag, 0), n)
  {
    var s := Paged(tag, 0);
    var r := Row(KeyOf(tag, m), "");
    MergeKeys(Prefix(s, n), r.key);
    assert s(TokenAt(s, m)).rows == [r];
    assert Prefix(s, m + 1) == Prefix(s, m) + [r];
    assert Prefix(s, m + 1)[|Prefix(s, m)|] == r;
    PrefixExtends(s, m + 1, n);
  }

  /** No earlier page has it, and no page of a chain of another tag. */
  lemma KeyIsNew(tag: char, m: nat, other: char, length: nat, k: nat)
    requires (other == tag ==> length == 0 && k == m) && (length == 0 || k <= length)
    ensures KeyOf(tag, m) !in Kept(Paged(other, length), k)
  {
    var o := Paged(other, length);
    PagedTokens(tag, 0, m);
    MergeKeys(Prefix(o, k), KeyOf(tag, m));
    forall r | r in Prefix(o, k) ensures r.key != KeyOf(tag, m) { PagedKeys(other, length, k, r); }
  }

  /** Rows both chains' plain reads keep. */
  lemma BothKept(a: Source, m: nat, b: Source, n: nat)
    ensures Agrees(Kept(a, m) + Kept(b, n), a, m, b, n)
  {
  }

  /** How a call that is not safe loses rows: both queries have more and the first raises at
      once, or one reads a page and raises at the next. */
  function LossA(moreB: bool): Answers {
    if moreB then (i: nat) => Raises else (i: nat) => if i == 0 then Arrives else Raises
  }

  function LossB(moreA: bool): Answers {
    if moreA then (i: nat) => Arrives else (i: nat) => if i == 0 then Arrives else Raises
  }

  lemma OnePageThenRaise(s: Source, c: Cursor, pages: nat, answers: Answers)
    requires At(c, s) && HasMore(c) && Budget(pages, c.pagesRead) >= 2
    requires answers(0).Arrives? && answers(1).Raises? && s(c.nextToken).nextToken != ""
    ensures var r := Advance(s, c, pages, answers);
            r.raised && r.rows == [] && r.cursor.pagesRead == c.pagesRead + 1
  {
    var budget := Budget(pages, c.pagesRead);
    var next := Moved(c, s(c.nextToken));
    assert ReadOn(s, next, budget - 1, answers, 1) == Reading(next, [], true);
  }

  lemma RaisesAtOnce(s: Source, c: Cursor, pages: nat, answers: Answers)
    requires HasMore(c) && pages > 0 && answers(0).Raises?
    ensures Advance(s, c, pages, answers) == Reading(c, [], true)
  {
  }

  lemma ReadsAPage(s: Source, c: Cursor, pages: nat, answers: Answers)
    requires At(c, s) && HasMore(c) && pages > 0 && answers(0).Arrives?
    ensures Advance(s, c, pages, answers).cursor.pagesRead > c.pagesRead
  {
    var budget := Budget(pages, c.pagesRead);
    MovedIsAt(s, c);
    ReadOnIs(s, Moved(c, s(c.nextToken)), budget - 1, answers, 1);
  }

  /** From cursors at these places, with these failures, the call raises and a row of a
      page that has been passed is not kept. */
  ghost predicate Loses(pages: nat, m: nat, moreA: bool, n: nat, moreB: bool) {
    var a, b := Paged('a', if moreA then 0 else m), Paged('b', if moreB then 0 else n);
    var ca, cb := CursorAt('a', m, moreA), CursorAt('b', n, moreB);
    var rows := Kept(a, m) + Kept(b, n);
    var l := AdvanceBoth(rows, a, ca, b, cb, pages, LossA(moreB), LossB(moreA));
    l.raised && !Agrees(l.rows, a, l.first.pagesRead, b, l.second.pagesRead)
  }

  lemma FirstDropsSecond(pages: nat, m: nat, n: nat)
    requires pages > 0 && m < MAX_PAGES && n < MAX_PAGES
    ensures Loses(pages, m, true, n, true)
  {
    var a, b, ca, cb := Paged('a', 0), Paged('b', 0), CursorAt('a', m, true), CursorAt('b', n, true);
    CursorIsAt('a', m, true);
    CursorIsAt('b', n, true);
    hide Advance, Kept, At, TokenAt, Agrees, Paged;
    RaisesAtOnce(a, ca, pages, LossA(true));
    ReadsAPage(b, cb, pages, LossB(true));
    var y := Advance(b, cb, pages, LossB(true));
    KeyIsNew('b', n, 'a', 0, m);
    KeyIsNew('b', n, 'b', 0, n);
    KeyIsKept('b', n, y.cursor.pagesRead);
    MissingKey(Kept(a, m) + Kept(b, n), a, m, b, y.cursor.pagesRead, KeyOf('b', n));
  }

  lemma FirstDropsItsOwn(pages: nat, m: nat, n: nat)
    requires Budget(pages, m) >= 2 && m < MAX_PAGES && 0 < n <= MAX_PAGES
    ensures Loses(pages, m, true, n, false)
  {
    hide Advance, Kept, At, TokenAt, Agrees, Paged, CursorAt, Merge, LossA, LossB, KeyOf;
    var a, b, ca, cb := Paged('a', 0), Paged('b', n), CursorAt('a', m, true), CursorAt('b', n, false);
    CursorIsAt('a', m, true);
    CursorIsAt('b', n, false);
    PagedGoesOn('a', m);
    LossAnswers();
    MergeNone(Kept(a, m) + Kept(b, n));
    OnePageThenRaise(a, ca, pages, LossA(false));
    NothingMore(b, cb, pages, LossB(true));
    KeyIsNew('a', m, 'a', 0, m);
    KeyIsNew('a', m, 'b', n, n);
    KeyIsKept('a', m, m + 1);
    MissingKey(Kept(a, m) + Kept(b, n), a, m + 1, b, n, KeyOf('a', m));
  }

  lemma SecondDropsItsOwn(pages: nat, m: nat, n: nat)
    requires Budget(pages, n) >= 2 && n < MAX_PAGES && 0 < m <= MAX_PAGES
    ensures Loses(pages, m, false, n, true)
  {
    hide Advance, Kept, At, TokenAt, Agrees, Paged, CursorAt, Merge, LossA, LossB, KeyOf;
    var a, b, ca, cb := Paged('a', m), Paged('b', 0), CursorAt('a', m, false), CursorAt('b', n, true);
    CursorIsAt('a', m, false);
    CursorIsAt('b', n, true);
    PagedGoesOn('b', n);
    LossAnswers();
    MergeNone(Kept(a, m) + Kept(b, n));
    OnePageThenRaise(b, cb, pages, LossB(false));
    NothingMore(a, ca, pages, LossA(true));
    KeyIsNew('b', n, 'b', 0, n);
    KeyIsNew('b', n, 'a', m, m);
    KeyIsKept('b', n, n + 1);
    MissingKey(Kept(a, m) + Kept(b, n), a, m, b, n + 1, KeyOf('b', n));
  }

  /** Every call that is not safe can lose rows, from cursors at any such places. */
  lemma RowsCanBeLost(pages: nat, m: nat, moreA: bool, n: nat, moreB: bool)
    requires pages > 0 && !Safe(pages, m, moreA, n, moreB)
    requires if moreA then m < MAX_PAGES else 0 < m <= MAX_PAGES
    requires if moreB then n < MAX_PAGES else 0 < n <= MAX_PAGES
    ensures var a, b := Paged('a', if moreA then 0 else m), Paged('b', if moreB then 0 else n);
            var ca, cb := CursorAt('a', m, moreA), CursorAt('b', n, moreB);
            var rows := Kept(a, m) + Kept(b, n);
            var l := AdvanceBoth(rows, a, ca, b, cb, pages, LossA(moreB), LossB(moreA));
            && Holds(rows, a, ca, b, cb) && HasMore(ca) == moreA && HasMore(cb) == moreB
            && l.raised && !Holds(l.rows, a, l.first, b, l.second)
  {
    hide Advance, Kept, At, TokenAt, Agrees, Paged, AdvanceBoth;
    CursorIsAt('a', m, moreA);
    CursorIsAt('b', n, moreB);
    BothKept(Paged('a', if moreA then 0 else m), m, Paged('b', if moreB then 0 else n), n);
    if moreA && moreB {
      FirstDropsSecond(pages, m, n);
    } else if moreA {
      FirstDropsItsOwn(pages, m, n);
    } else {
      SecondDropsItsOwn(pages, m, n);
    }
  }

  /** Whatever the pages hold and whichever reads fail, a call from cursors at these places
      keeps the agreement. */
  ghost predicate AlwaysHolds(pages: nat, m: nat, moreA: bool, n: nat, moreB: bool) {
    forall rows, a: Source, ca: Cursor, b: Source, cb: Cursor, p: Answers, q: Answers ::
      Holds(rows, a, ca, b, cb) && ca.pagesRead == m && HasMore(ca) == moreA && cb.pagesRead == n && HasMore(cb) == moreB ==>
        var l := AdvanceBoth(rows, a, ca, b, cb, pages, p, q);
        Holds(l.rows, a, l.first, b, l.second)
  }

  /** No failure can lose logging rows exactly when at most one of the two queries has more
      to read and the call reads at most one page of it. */
  lemma NeverLosesRowsIff(pages: nat, m: nat, moreA: bool, n: nat, moreB: bool)
    requires pages > 0
    requires if moreA then m < MAX_PAGES else 0 < m <= MAX_PAGES
    requires if moreB then n < MAX_PAGES else 0 < n <= MAX_PAGES
    ensures AlwaysHolds(pages, m, moreA, n, moreB) <==> Safe(pages, m, moreA, n, moreB)
  {
    hide Holds, AdvanceBoth;
    if Safe(pages, m, moreA, n, moreB) {
      forall rows, a: Source, ca: Cursor, b: Source, cb: Cursor, p: Answers, q: Answers |
        Holds(rows, a, ca, b, cb) && ca.pagesRead == m && HasMore(ca) == moreA && cb.pagesRead == n && HasMore(cb) == moreB
        ensures var l := AdvanceBoth(rows, a, ca, b, cb, pages, p, q); Holds(l.rows, a, l.first, b, l.second)
      {
        AgreementSurvives(rows, a, ca, b, cb, pages, p, q);
      }
    } else {
      RowsCanBeLost(pages, m, moreA, n, moreB);
    }
  }

  lemma LossAnswers()
    ensures LossA(false)(0).Arrives? && LossA(false)(1).Raises? && LossB(false)(0).Arrives? && LossB(false)(1).Raises?
  {
  }

  lemma MergeNone(rows: map<string, Row>)
    ensures Merge(rows, []) == rows
  {
  }

  lemma PagedGoesOn(tag: char, m: nat)
    ensures Paged(tag, 0)(CursorAt(tag, m, true).nextToken).nextToken != ""
  {
  }

  lemma NothingMore(s: Source, c: Cursor, pages: nat, answers: Answers)
    requires !HasMore(c)
    ensures Advance(s, c, pages, answers) == Reading(c, [], false)
  {
  }

  lemma MissingKey(rows: map<string, Row>, a: Source, m: nat, b: Source, n: nat, key: string)
    requires key !in rows && (key in Kept(a, m) || key in Kept(b, n))
    ensures !Agrees(rows, a, m, b, n)
  {
  }

  // ---------------------------------------------------------------------------

  class Provider {
    const wrapped: Source
    const lifted: Source
    const traces: Source
    const wrappedCursor: PageCursor
    const liftedCursor: PageCursor
    const traceCursor: PageCursor
    const logPages: nat
    const tracePages: nat
    var loaded: bool
    var loggingRows: map<string, Row>
    var traceRows: map<string, Row>

    ghost predicate Valid()
      reads this, wrappedCursor, liftedCursor, traceCursor
    {
      && wrappedCursor != liftedCursor && wrappedCursor != traceCursor && liftedCursor != traceCursor
      && 1 <= logPages <= MAX_PAGES && 1 <= tracePages <= MAX_PAGES
      && At(wrappedCursor.View(), wrapped) && At(liftedCursor.View(), lifted) && At(traceCursor.View(), traces)
      && traceRows == Kept(traces, traceCursor.pagesRead)
    }

    /** The logging rows held are those of the pages the two cursors have passed. */
    ghost predicate LoggingAgrees()
      reads this, wrappedCursor, liftedCursor
    {
      Holds(loggingRows, wrapped, wrappedCursor.View(), lifted, liftedCursor.View())
    }

    /** A read of so many pages cannot lose logging rows. */
    ghost predicate LoggingSafe(pages: nat)
      reads this, wrappedCursor, liftedCursor
    {
      Safe(pages, wrappedCursor.pagesRead, wrappedCursor.More(), liftedCursor.pagesRead, liftedCursor.More())
    }

    constructor (wrapped: Source, lifted: Source, traces: Source, logPages: nat, tracePages: nat)
      requires 1 <= logPages <= MAX_PAGES && 1 <= tracePages <= MAX_PAGES
      ensures Valid() && LoggingAgrees() && !loaded
      ensures this.wrapped == wrapped && this.lifted == lifted && this.traces == traces
    {
      this.wrapped, this.lifted, this.traces := wrapped, lifted, traces;
      this.logPages, this.tracePages := logPages, tracePages;
      wrappedCursor := new PageCursor();
      liftedCursor := new PageCursor();
      traceCursor := new PageCursor();
      loaded, loggingRows, traceRows := false, map[], map[];
    }

    predicate CanLoadMore()
      reads this, wrappedCursor, liftedCursor, traceCursor
      ensures CanLoadMore() <==>
        || (!wrappedCursor.complete && wrappedCursor.pagesRead < 10)
        || (!liftedCursor.complete && liftedCursor.pagesRead < 10)
        || (!traceCursor.complete && traceCursor.pagesRead < 10)
    {
      wrappedCursor.More() || liftedCursor.More() || traceCursor.More()
    }

    method Insert(rows: seq<Row>)
      modifies `loggingRows
      ensures loggingRows == Merge(old(loggingRows), rows)
    {
      var i := 0;
      while i < |rows|
        invariant i <= |rows|
        invariant loggingRows == Merge(old(loggingRows), rows[..i])
      {
        assert rows[..i + 1][..i] == rows[..i];
        loggingRows := loggingRows[rows[i].key := rows[i]];
        i := i + 1;
      }
      assert rows[..|rows|] == rows;
    }

    /** The reads and the keeping of `_advance_logging`, once it has a token. */
    method ReadBoth(pages: nat, p: Answers, q: Answers) returns (raised: bool)
      requires Valid()
      modifies `loggingRows, wrappedCursor, liftedCursor
      ensures Logging(loggingRows, wrappedCursor.View(), liftedCursor.View(), raised) ==
        AdvanceBoth(old(loggingRows), wrapped, old(wrappedCursor.View()), lifted, old(liftedCursor.View()), pages, p, q)
    {
      hide Advance, At, Merge;
      var first, firstRaised := AdvanceQuery(wrapped, wrappedCursor, pages, p);
      var second, secondRaised := AdvanceQuery(lifted, liftedCursor, pages, q);
      if firstRaised { return true; }
      Insert(first);
      if secondRaised { return true; }
      Insert(second);
      raised := false;
    }

    /** `_advance_logging`. */
    method AdvanceLogging(pages: nat, authenticated: bool, p: Answers, q: Answers) returns (raised: bool)
      requires Valid()
      modifies `loggingRows, wrappedCursor, liftedCursor
      ensures Valid()
      ensures authenticated ==>
        Logging(loggingRows, wrappedCursor.View(), liftedCursor.View(), raised) == AdvanceBoth(old(loggingRows), wrapped, old(wrappedCursor.View()), lifted, old(liftedCursor.View()), pages, p, q)
      ensures !authenticated ==>
        && !raised && loggingRows == old(loggingRows)
        && wrappedCursor.View() == old(wrappedCursor.View()).(error := true)
        && liftedCursor.View() == old(liftedCursor.View()).(error := true)
      ensures NoneRaise(p) && NoneRaise(q) ==> !raised
      ensures old(LoggingAgrees()) && (!raised || old(LoggingSafe(pages))) ==> LoggingAgrees()
      ensures wrappedCursor.pagesRead >= old(wrappedCursor.pagesRead)
      ensures liftedCursor.pagesRead >= old(liftedCursor.pagesRead)
      ensures !raised && !wrappedCursor.error && old(wrappedCursor.More()) && pages > 0 ==>
        wrappedCursor.pagesRead > old(wrappedCursor.pagesRead)
      ensures !raised && !liftedCursor.error && old(liftedCursor.More()) && pages > 0 ==>
        liftedCursor.pagesRead > old(liftedCursor.pagesRead)
    {
      hide Advance, AdvanceBoth, At, Holds, Merge, NoneRaise, Safe;
      ghost var rows, ca, cb := loggingRows, wrappedCursor.View(), liftedCursor.View();
      BothRead(rows, wrapped, ca, lifted, cb, pages, p, q);
      if !authenticated {
        wrappedCursor.error, liftedCursor.error := true, true;
        return false;
      }
      raised := ReadBoth(pages, p, q);
    }

    /** One page of traces: its rows are kept, then the cursor moves past it. */
    method KeepTraces(page: Page)
      requires Valid() && traceCursor.More() && page == traces(traceCursor.nextToken)
      modifies `traceRows, traceCursor
      ensures Valid() && traceCursor.View() == Moved(old(traceCursor.View()), page)
      ensures traceCursor.pagesRead == old(traceCursor.pagesRead) + 1
    {
      MergeAppend(map[], Prefix(traces, traceCursor.pagesRead), page.rows);
      traceRows := Merge(traceRows, page.rows);
      traceCursor.Pass(page, traces);
    }

    /** `_read_trace_pages`: each page's rows are kept before its cursor moves on, so an
        error that is not handled loses nothing. */
    method AdvanceTrace(pages: nat, authenticated: bool, answers: Answers) returns (raised: bool)
      requires Valid()
      modifies `traceRows, traceCursor
      ensures Valid()
      // The cursor and the outcome are those of a plain read; `Valid` says what is kept.
      ensures authenticated ==>
        && traceCursor.View() == Advance(traces, old(traceCursor.View()), pages, answers).cursor
        && raised == Advance(traces, old(traceCursor.View()), pages, answers).raised
      ensures !authenticated ==> !raised && traceCursor.View() == old(traceCursor.View()).(error := true)
      ensures traceCursor.pagesRead >= old(traceCursor.pagesRead)
      ensures !raised && !traceCursor.error && old(traceCursor.More()) && pages > 0 ==>
        traceCursor.pagesRead > old(traceCursor.pagesRead)
      ensures NoneRaise(answers) ==> !raised
    {
      var cursor := traceCursor;
      if !authenticated {
        cursor.error := true;
        return false;
      }
      ghost var c := cursor.View();
      AdvanceExtendsPrefix(traces, c, pages, answers);
      StartsReading(traces, c, pages, answers);
      if NoneRaise(answers) { NoneRaised(traces, c, Budget(pages, c.pagesRead), answers, 0); }
      raised := ReadTraces(Budget(pages, cursor.pagesRead), answers);
    }

    /** Its loop. */
    method ReadTraces(budget: nat, answers: Answers) returns (raised: bool)
      requires Valid() && traceCursor.pagesRead + budget <= MAX_PAGES
      modifies `traceRows, traceCursor
      ensures Valid()
      ensures traceCursor.View() == ReadOn(traces, old(traceCursor.View()), budget, answers, 0).cursor
      ensures raised == ReadOn(traces, old(traceCursor.View()), budget, answers, 0).raised
    {
      hide At, Prefix, ReadOn, Kept, Moved, TokenAt;
      var cursor := traceCursor;
      ghost var whole := ReadOn(traces, cursor.View(), budget, answers, 0);
      var i := 0;
      while i < budget
        invariant i <= budget && cursor.pagesRead == old(cursor.pagesRead) + i && Valid()
        invariant whole.cursor == ReadOn(traces, cursor.View(), budget - i, answers, i).cursor
        invariant whole.raised == ReadOn(traces, cursor.View(), budget - i, answers, i).raised
      {
        ReadOnStep(traces, cursor.View(), budget - i, answers, i, []);
        if cursor.complete { break; }
        if answers(i).Raises? { return true; }
        if answers(i).Handled? {
          ErrorIsAt(traces, cursor.View());
          cursor.error := true;
          break;
        }
        KeepTraces(traces(cursor.nextToken));
        i := i + 1;
      }
      if i == budget { ReadOnStep(traces, cursor.View(), 0, answers, i, []); }
      raised := false;
    }

    /** What an advance of the logging sources by so many pages leaves. */
    ghost function LoggingAfter(pages: nat, authenticated: bool, p: Answers, q: Answers): Logging
      reads this, wrappedCursor, liftedCursor
    {
      var ca, cb := wrappedCursor.View(), liftedCursor.View();
      if authenticated then AdvanceBoth(loggingRows, wrapped, ca, lifted, cb, pages, p, q)
      else Logging(loggingRows, ca.(error := true), cb.(error := true), false)
    }

    /** And of the traces: the cursor, and whether it raised. */
    ghost function TracesAfter(pages: nat, authenticated: bool, answers: Answers): (Cursor, bool)
      reads this, traceCursor
    {
      var c := traceCursor.View();
      if authenticated then (Advance(traces, c, pages, answers).cursor, Advance(traces, c, pages, answers).raised)
      else (c.(error := true), false)
    }

    /** The logging sources now, with whether reading them raised. */
    ghost function LoggingNow(raised: bool): Logging
      reads this, wrappedCursor, liftedCursor
    {
      Logging(loggingRows, wrappedCursor.View(), liftedCursor.View(), raised)
    }

    /** `_load`, under `get_snapshot`: the first load reads `logPages` pages of logging and
        `tracePages` of traces. */
    method GetSnapshot(logAuth: bool, traceAuth: bool, p: Answers, q: Answers, r: Answers) returns (raised: bool)
      requires Valid()
      modifies this, wrappedCursor, liftedCursor, traceCursor
      ensures Valid()
      ensures loaded == (old(loaded) || !raised)
      ensures !old(loaded) ==>
        && LoggingNow(old(LoggingAfter(logPages, logAuth, p, q)).raised) == old(LoggingAfter(logPages, logAuth, p, q))
        && traceCursor.View() == old(TracesAfter(tracePages, traceAuth, r)).0
        && raised == (old(LoggingAfter(logPages, logAuth, p, q)).raised || old(TracesAfter(tracePages, traceAuth, r)).1)
      ensures !old(loaded) && !raised ==>
        && (old(wrappedCursor.More()) && !wrappedCursor.error ==> wrappedCursor.pagesRead > old(wrappedCursor.pagesRead))
        && (old(liftedCursor.More()) && !liftedCursor.error ==> liftedCursor.pagesRead > old(liftedCursor.pagesRead))
        && (old(traceCursor.More()) && !traceCursor.error ==> traceCursor.pagesRead > old(traceCursor.pagesRead))
      ensures old(loaded) ==>
        !raised && LoggingNow(false) == old(LoggingNow(false)) && traceRows == old(traceRows) && traceCursor.View() == old(traceCursor.View())
      ensures old(LoggingAgrees()) && (!raised || old(LoggingSafe(logPages))) ==> LoggingAgrees()
      ensures NoneRaise(p) && NoneRaise(q) && NoneRaise(r) ==> !raised
    {
      hide NoneRaise, Advance, AdvanceBoth, At, Agrees, Kept, TokenAt, Safe;
      raised := false;
      if !loaded {
        var loggingRaised := AdvanceLogging(logPages, logAuth, p, q);
        var traceRaised := AdvanceTrace(tracePages, traceAuth, r);
        raised := loggingRaised || traceRaised;
        if !raised { loaded := true; }
      }
    }

    /** `load_more`: refused for a count below one, the first load when there is none yet, and
        otherwise the next pages of logging and of traces, each where it has more. */
    method LoadMore(pages: int, logAuth: bool, traceAuth: bool, p: Answers, q: Answers, r: Answers) returns (raised: bool)
      requires Valid()
      modifies this, wrappedCursor, liftedCursor, traceCursor
      ensures Valid()
      ensures loaded == (old(loaded) || (pages >= 1 && !raised))
      ensures pages < 1 ==>
        raised && LoggingNow(false) == old(LoggingNow(false)) && traceRows == old(traceRows) && traceCursor.View() == old(traceCursor.View())
      ensures pages >= 1 && !old(loaded) ==>
        && LoggingNow(old(LoggingAfter(logPages, logAuth, p, q)).raised) == old(LoggingAfter(logPages, logAuth, p, q))
        && traceCursor.View() == old(TracesAfter(tracePages, traceAuth, r)).0
      ensures pages >= 1 && old(loaded) ==>
        && (old(wrappedCursor.More() || liftedCursor.More()) ==>
              LoggingNow(old(LoggingAfter(pages, logAuth, p, q)).raised) == old(LoggingAfter(pages, logAuth, p, q)))
        && (!old(wrappedCursor.More() || liftedCursor.More()) ==> LoggingNow(false) == old(LoggingNow(false)))
        && (old(traceCursor.More()) ==> traceCursor.View() == old(TracesAfter(pages, traceAuth, r)).0)
        && (!old(traceCursor.More()) ==> traceCursor.View() == old(traceCursor.View()) && traceRows == old(traceRows))
      ensures pages >= 1 && !raised ==>
        && (old(wrappedCursor.More()) && !wrappedCursor.error ==> wrappedCursor.pagesRead > old(wrappedCursor.pagesRead))
        && (old(liftedCursor.More()) && !liftedCursor.error ==> liftedCursor.pagesRead > old(liftedCursor.pagesRead))
        && (old(traceCursor.More()) && !traceCursor.error ==> traceCursor.pagesRead > old(traceCursor.pagesRead))
      ensures old(LoggingAgrees()) && !raised ==> LoggingAgrees()
      ensures old(LoggingAgrees()) && old(loaded) && pages >= 1 && old(LoggingSafe(pages)) ==> LoggingAgrees()
      ensures pages >= 1 && NoneRaise(p) && NoneRaise(q) && NoneRaise(r) ==> !raised
    {
      hide Agrees, Kept, TokenAt, Safe, NoneRaise, Advance, AdvanceBoth, At;
      if pages < 1 { return true; }
      if !loaded {
        raised := GetSnapshot(logAuth, traceAuth, p, q, r);
        return;
      }
      var loggingRaised, traceRaised := false, false;
      if wrappedCursor.More() || liftedCursor.More() {
        loggingRaised := AdvanceLogging(pages, logAuth, p, q);
      }
      if traceCursor.More() {
        traceRaised := AdvanceTrace(pages, traceAuth, r);
      }
      raised := loggingRaised || traceRaised;
    }
  }
}
