/** Cursor pagination over (created_at, id), both stored as text. */
module Keyset {
  import opened Wrappers

  datatype Key = Key(created: string, id: string)

  // --- The order -------------------------------------------------------------------------

  predicate TextLess(a: string, b: string) {
    b != "" && (a == "" || a[0] < b[0] || (a[0] == b[0] && TextLess(a[1..], b[1..])))
  }

  predicate Less(a: Key, b: Key) {
    TextLess(a.created, b.created) || (a.created == b.created && TextLess(a.id, b.id))
  }

  /** The order of a created_at sort, ascending or descending. */
  predicate Before(asc: bool, a: Key, b: Key) { if asc then Less(a, b) else Less(b, a) }

  lemma {:induction false} TextTotal(a: string, b: string)
    ensures TextLess(a, b) || a == b || TextLess(b, a)
    ensures !(TextLess(a, b) && TextLess(b, a)) && !TextLess(a, a)
  {
    if a != "" && b != "" {
      TextTotal(a[1..], b[1..]);
      assert a == [a[0]] + a[1..] && b == [b[0]] + b[1..];
    }
    if a != "" { TextTotal(a[1..], a[1..]); }
  }

  lemma {:induction false} TextTransitive(a: string, b: string, c: string)
    requires TextLess(a, b) && TextLess(b, c)
    ensures TextLess(a, c)
  {
    if a != "" && a[0] == b[0] == c[0] { TextTransitive(a[1..], b[1..], c[1..]); }
  }

  lemma Total(asc: bool, a: Key, b: Key)
    ensures Before(asc, a, b) || a == b || Before(asc, b, a)
    ensures !(Before(asc, a, b) && Before(asc, b, a)) && !Before(asc, a, a)
  {
    TextTotal(a.created, b.created);
    TextTotal(a.id, b.id);
    TextTotal(a.created, a.created);
    TextTotal(a.id, a.id);
  }

  lemma LessTransitive(a: Key, b: Key, c: Key)
    requires Less(a, b) && Less(b, c)
    ensures Less(a, c)
  {
    if TextLess(a.created, b.created) && TextLess(b.created, c.created) {
      TextTransitive(a.created, b.created, c.created);
    }
    if TextLess(a.id, b.id) && TextLess(b.id, c.id) { TextTransitive(a.id, b.id, c.id); }
  }

  lemma Transitive(asc: bool, a: Key, b: Key, c: Key)
    requires Before(asc, a, b) && Before(asc, b, c)
    ensures Before(asc, a, c)
  {
    if asc { LessTransitive(a, b, c); } else { LessTransitive(c, b, a); }
  }

  // --- ORDER BY --------------------------------------------------------------------------

  predicate IsFirst(asc: bool, m: Key, keys: set<Key>) {
    m in keys && forall k | k in keys :: k == m || Before(asc, m, k)
  }

  lemma {:induction false} FirstExists(asc: bool, keys: set<Key>)
    requires keys != {}
    ensures exists m :: IsFirst(asc, m, keys)
  {
    hide Before;
    var x :| x in keys;
    var rest := keys - {x};
    if rest == {} {
      assert keys == {x};
      assert IsFirst(asc, x, keys);
    } else {
      FirstExists(asc, rest);
      var m :| IsFirst(asc, m, rest);
      Total(asc, x, m);
      var first := if Before(asc, x, m) then x else m;
      forall k | k in keys ensures k == first || Before(asc, first, k) {
        if k in rest && k != m && first == x { Transitive(asc, x, m, k); }
      }
      assert IsFirst(asc, first, keys);
    }
  }

  function First(asc: bool, keys: set<Key>): (m: Key)
    requires keys != {}
    ensures IsFirst(asc, m, keys)
  {
    FirstExists(asc, keys);
    assert forall a, b | IsFirst(asc, a, keys) && IsFirst(asc, b, keys) :: a == b by {
      forall a, b | IsFirst(asc, a, keys) && IsFirst(asc, b, keys) ensures a == b { Total(asc, a, b); }
    }
    var m :| IsFirst(asc, m, keys);
    m
  }

  function Sorted(asc: bool, keys: set<Key>): (s: seq<Key>)
    ensures |s| == |keys|
  {
    if keys == {} then []
    else
      var m := First(asc, keys);
      [m] + Sorted(asc, keys - {m})
  }

  ghost predicate Ordered(asc: bool, s: seq<Key>) {
    forall i, j | 0 <= i < j < |s| :: Before(asc, s[i], s[j])
  }

  lemma {:induction false} SortedHas(asc: bool, keys: set<Key>)
    ensures forall k :: k in Sorted(asc, keys) <==> k in keys
  {
    hide First;
    if keys != {} {
      var m := First(asc, keys);
      SortedHas(asc, keys - {m});
      assert IsFirst(asc, m, keys);
    }
  }

  lemma ConsOrdered(asc: bool, m: Key, rest: seq<Key>)
    requires Ordered(asc, rest) && forall j | 0 <= j < |rest| :: Before(asc, m, rest[j])
    ensures Ordered(asc, [m] + rest)
  {
  }

  lemma {:induction false} SortedIsOrdered(asc: bool, keys: set<Key>)
    ensures Ordered(asc, Sorted(asc, keys))
  {
    hide First, Before;
    if keys != {} {
      var m := First(asc, keys);
      var rest := Sorted(asc, keys - {m});
      SortedIsOrdered(asc, keys - {m});
      SortedHas(asc, keys - {m});
      assert IsFirst(asc, m, keys);
      forall j | 0 <= j < |rest| ensures Before(asc, m, rest[j]) {
        assert rest[j] in rest;
      }
      ConsOrdered(asc, m, rest);
    }
  }

  // --- One page --------------------------------------------------------------------------

  datatype Page = Page(rows: seq<Key>, next: Option<Key>)

  function Past(asc: bool, keys: set<Key>, token: Option<Key>): set<Key> {
    set k | k in keys && (token.None? || Before(asc, token.value, k))
  }

  function PageOf(asc: bool, keys: set<Key>, token: Option<Key>, limit: nat): Page
    requires limit > 0
  {
    var all := Sorted(asc, Past(asc, keys, token));
    if |all| > limit then Page(all[..limit], Some(all[limit - 1])) else Page(all, None)
  }

  /** A row past the old cursor is on the page or past the new cursor; the page is in order,
      and comes before the new cursor's remainder. */
  lemma PageSplits(asc: bool, keys: set<Key>, token: Option<Key>, limit: nat)
    requires limit > 0
    ensures var page := PageOf(asc, keys, token, limit);
      && Ordered(asc, page.rows)
      && (forall k | k in page.rows :: k in Past(asc, keys, token))
      && (forall k | k in Past(asc, keys, token) ::
            k in page.rows || (page.next.Some? && Before(asc, page.next.value, k)))
      && (page.next.Some? ==> |page.rows| == limit && page.next.value == page.rows[limit - 1])
  {
    hide Before, Past, Sorted;
    var past := Past(asc, keys, token);
    var all := Sorted(asc, past);
    SortedHas(asc, past);
    SortedIsOrdered(asc, past);
    forall k | k in past && |all| > limit ensures k in all[..limit] || Before(asc, all[limit - 1], k) {
      var i :| 0 <= i < |all| && all[i] == k;
      assert i < limit ==> all[..limit][i] == k;
    }
  }

  ghost predicate Lies(asc: bool, keys: set<Key>, token: Option<Key>, k: Key) {
    k in keys && (token.None? || Before(asc, token.value, k))
  }

  /** The page in terms of the order alone: rows past the token, in order, at most `limit`; all
      of them without a next cursor, and with one the first `limit`, of which it is the last,
      and there are more. */
  ghost predicate IsPage(asc: bool, keys: set<Key>, token: Option<Key>, limit: nat, page: Page) {
    && Ordered(asc, page.rows) && |page.rows| <= limit
    && (forall k | k in page.rows :: Lies(asc, keys, token, k))
    && (page.next.None? ==> forall k | Lies(asc, keys, token, k) :: k in page.rows)
    && (page.next.Some? ==>
          && |page.rows| == limit > 0 && page.next.value == page.rows[limit - 1]
          && (forall k | Lies(asc, keys, token, k) && k !in page.rows :: Before(asc, page.next.value, k))
          && exists k :: Lies(asc, keys, token, k) && k !in page.rows)
  }

  lemma PageOfIs(asc: bool, keys: set<Key>, token: Option<Key>, limit: nat)
    requires limit > 0
    ensures IsPage(asc, keys, token, limit, PageOf(asc, keys, token, limit))
  {
    hide Before, Sorted;
    var page, past := PageOf(asc, keys, token, limit), Past(asc, keys, token);
    PageSplits(asc, keys, token, limit);
    assert forall k :: k in past <==> Lies(asc, keys, token, k);
    if page.next.Some? {
      var all := Sorted(asc, past);
      SortedHas(asc, past);
      SortedIsOrdered(asc, past);
      hide Past;
      var k := all[limit];
      assert k in past && Lies(asc, keys, token, k);
      forall i | 0 <= i < limit ensures page.rows[i] != k {
        assert Before(asc, all[i], all[limit]);
        Total(asc, k, k);
      }
    }
  }

  class Table {
    var rows: set<Key>

    /** One call: fetch limit + 1 rows past the cursor, cut to limit, and hand out the last
        kept row as the next cursor if one was cut. */
    method ListPaginated(asc: bool, token: Option<Key>, pageSize: int, standard: nat) returns (page: Page)
      requires standard > 0
      ensures page == PageOf(asc, rows, token, if pageSize <= 0 then standard else pageSize)
      ensures IsPage(asc, rows, token, if pageSize > 0 then pageSize else standard, page)
    {
      hide Past, Sorted, IsPage;
      PageOfIs(asc, rows, token, if pageSize > 0 then pageSize else standard);
      var limit: nat := if pageSize <= 0 then standard else pageSize;
      var out := Select(asc, token, limit + 1);
      if |out| > limit {
        assert Sorted(asc, Past(asc, rows, token))[..limit] == out[..limit];
        out := out[..limit];
        return Page(out, Some(out[|out| - 1]));
      }
      page := Page(out, None);
    }

    /** The query: WHERE past the cursor ORDER BY the key LIMIT most. */
    method Select(asc: bool, token: Option<Key>, most: nat) returns (out: seq<Key>)
      ensures var all := Sorted(asc, Past(asc, rows, token)); out == all[..if |all| < most then |all| else most]
    {
      hide Past, First, Sorted;
      out := [];
      var left := Past(asc, rows, token);
      ghost var all := Sorted(asc, left);
      assert all == out + all;
      while |out| < most && left != {}
        invariant all == out + Sorted(asc, left) && |out| <= most
        decreases most - |out|
      {
        SortedStep(asc, out, left);
        out := out + [First(asc, left)];
        left := left - {First(asc, left)};
      }
    }
  }

  lemma SortedStep(asc: bool, out: seq<Key>, left: set<Key>)
    requires left != {}
    ensures out + Sorted(asc, left) == out + [First(asc, left)] + Sorted(asc, left - {First(asc, left)})
  {
  }

  // --- The walk --------------------------------------------------------------------------

  /** Paging from a token until there is no next one; `tables` are the rows that exist (and
      match the filter) at each call. */
  function Walk(asc: bool, tables: seq<set<Key>>, token: Option<Key>, limit: nat): seq<Key>
    requires limit > 0
  {
    if tables == [] then []
    else
      var page := PageOf(asc, tables[0], token, limit);
      page.rows + if page.next.None? then [] else Walk(asc, tables[1..], page.next, limit)
  }

  predicate Completes(asc: bool, tables: seq<set<Key>>, token: Option<Key>, limit: nat)
    requires limit > 0
  {
    tables != [] &&
    var page := PageOf(asc, tables[0], token, limit);
    page.next.None? || Completes(asc, tables[1..], page.next, limit)
  }

  ghost predicate AllPast(asc: bool, s: seq<Key>, token: Option<Key>) {
    token.Some? ==> forall i | 0 <= i < |s| :: Before(asc, token.value, s[i])
  }

  lemma JoinOrdered(asc: bool, a: seq<Key>, b: seq<Key>, token: Option<Key>)
    requires Ordered(asc, a) && AllPast(asc, a, token) && a != []
    requires Ordered(asc, b) && AllPast(asc, b, Some(a[|a| - 1]))
    ensures Ordered(asc, a + b) && AllPast(asc, a + b, token)
  {
    hide Before;
    var last := a[|a| - 1];
    forall i, j | 0 <= i < |a| && 0 <= j < |b| ensures Before(asc, a[i], b[j]) {
      if i < |a| - 1 { Transitive(asc, a[i], last, b[j]); }
    }
    if token.Some? {
      forall j | 0 <= j < |b| ensures Before(asc, token.value, b[j]) { Transitive(asc, token.value, last, b[j]); }
    }
  }

  /** Whatever is inserted and deleted between the calls, the walk yields rows in strictly
      increasing order: no row twice. */
  lemma {:induction false} WalkIsOrdered(asc: bool, tables: seq<set<Key>>, token: Option<Key>, limit: nat)
    requires limit > 0
    ensures Ordered(asc, Walk(asc, tables, token, limit)) && AllPast(asc, Walk(asc, tables, token, limit), token)
  {
    hide Before, PageOf;
    if tables != [] {
      var page := PageOf(asc, tables[0], token, limit);
      PageSplits(asc, tables[0], token, limit);
      assert AllPast(asc, page.rows, token) by {
        forall i | 0 <= i < |page.rows| && token.Some? ensures Before(asc, token.value, page.rows[i]) {
          assert page.rows[i] in page.rows;
        }
      }
      if page.next.Some? {
        WalkIsOrdered(asc, tables[1..], page.next, limit);
        JoinOrdered(asc, page.rows, Walk(asc, tables[1..], page.next, limit), token);
      }
    }
  }

  /** And a completed walk yields every row that is there at every call, and only rows that
      were there at some call. */
  lemma {:induction false} WalkSees(asc: bool, tables: seq<set<Key>>, token: Option<Key>, limit: nat, k: Key)
    requires limit > 0
    ensures Completes(asc, tables, token, limit) && (forall t | t in tables :: k in t)
      && (token.None? || Before(asc, token.value, k))
      ==> k in Walk(asc, tables, token, limit)
    ensures k in Walk(asc, tables, token, limit) ==> exists t :: t in tables && k in t
  {
    hide Before, PageOf;
    if tables != [] {
      var page := PageOf(asc, tables[0], token, limit);
      PageSplits(asc, tables[0], token, limit);
      assert tables[0] in tables;
      if page.next.Some? { WalkSees(asc, tables[1..], page.next, limit, k); }
    }
  }

  /** Exactly once. */
  lemma WalkSeesOnce(asc: bool, tables: seq<set<Key>>, limit: nat, k: Key)
    requires limit > 0 && Completes(asc, tables, None, limit) && forall t | t in tables :: k in t
    ensures var walk := Walk(asc, tables, None, limit);
      exists i :: 0 <= i < |walk| && walk[i] == k && forall j | 0 <= j < |walk| && j != i :: walk[j] != k
  {
    hide Walk, Completes, Before;
    var walk := Walk(asc, tables, None, limit);
    WalkSees(asc, tables, None, limit, k);
    WalkIsOrdered(asc, tables, None, limit);
    var i :| 0 <= i < |walk| && walk[i] == k;
    Total(asc, k, k);
  }

  // --- A table that does not change ------------------------------------------------------

  lemma SortedCons(asc: bool, keys: set<Key>)
    requires |Sorted(asc, keys)| > 0
    ensures keys != {} && Sorted(asc, keys) == [First(asc, keys)] + Sorted(asc, keys - {First(asc, keys)})
  {
    hide First;
  }

  /** Only the first key is not past the first key. */
  lemma PastFirst(asc: bool, keys: set<Key>)
    requires keys != {}
    ensures Past(asc, keys, Some(First(asc, keys))) == keys - {First(asc, keys)}
  {
    hide Before, First;
    var m := First(asc, keys);
    assert IsFirst(asc, m, keys);
    Total(asc, m, m);
  }

  lemma PastLater(asc: bool, keys: set<Key>, c: Key)
    requires keys != {} && c in keys - {First(asc, keys)}
    ensures Past(asc, keys, Some(c)) == Past(asc, keys - {First(asc, keys)}, Some(c))
  {
    hide Before, First;
    var m := First(asc, keys);
    assert IsFirst(asc, m, keys);
    Total(asc, m, c);
  }

  lemma {:induction false} SortedTail(asc: bool, keys: set<Key>, n: nat)
    requires 0 < n < |Sorted(asc, keys)|
    ensures Sorted(asc, Past(asc, keys, Some(Sorted(asc, keys)[n - 1]))) == Sorted(asc, keys)[n..]
  {
    hide Before, First, Sorted, Past, IsFirst;
    SortedCons(asc, keys);
    var m := First(asc, keys);
    var rest := keys - {m};
    if n == 1 {
      PastFirst(asc, keys);
    } else {
      var c := Sorted(asc, keys)[n - 1];
      SortedTail(asc, rest, n - 1);
      assert c == Sorted(asc, rest)[n - 2];
      SortedHas(asc, rest);
      PastLater(asc, keys, c);
    }
  }

  lemma PastPast(asc: bool, keys: set<Key>, token: Option<Key>, c: Key)
    requires token.None? || Before(asc, token.value, c)
    ensures Past(asc, Past(asc, keys, token), Some(c)) == Past(asc, keys, Some(c))
  {
    hide Before;
    forall k | k in keys && Before(asc, c, k) ensures k in Past(asc, keys, token) {
      if token.Some? { Transitive(asc, token.value, c, k); }
    }
  }

  /** The next page of a fixed table starts where this one ended. */
  lemma FixedNext(asc: bool, keys: set<Key>, token: Option<Key>, limit: nat)
    requires limit > 0 && PageOf(asc, keys, token, limit).next.Some?
    ensures Sorted(asc, Past(asc, keys, token))
      == PageOf(asc, keys, token, limit).rows + Sorted(asc, Past(asc, keys, PageOf(asc, keys, token, limit).next))
    ensures |Past(asc, keys, token)| == limit + |Past(asc, keys, PageOf(asc, keys, token, limit).next)|
  {
    hide Before, Past, Sorted;
    var page, past := PageOf(asc, keys, token, limit), Past(asc, keys, token);
    SortedHas(asc, past);
    SortedTail(asc, past, limit);
    PastOf(asc, keys, token, page.next.value);
    PastPast(asc, keys, token, page.next.value);
  }

  /** On a fixed table the walk yields exactly the sorted rows past the token. */
  lemma {:induction false} FixedWalk(asc: bool, tables: seq<set<Key>>, keys: set<Key>, token: Option<Key>, limit: nat)
    requires limit > 0 && (forall t | t in tables :: t == keys) && Completes(asc, tables, token, limit)
    ensures Walk(asc, tables, token, limit) == Sorted(asc, Past(asc, keys, token))
    decreases |tables|
  {
    hide Past, Sorted;
    assert tables[0] in tables && forall t | t in tables[1..] :: t in tables;
    if PageOf(asc, keys, token, limit).next.Some? {
      FixedNext(asc, keys, token, limit);
      FixedWalk(asc, tables[1..], keys, PageOf(asc, keys, token, limit).next, limit);
    }
  }

  /** And it ends: one call per `limit` rows is enough. */
  lemma {:induction false} FixedWalkEnds(asc: bool, tables: seq<set<Key>>, keys: set<Key>, token: Option<Key>,
                                         limit: nat)
    requires limit > 0 && (forall t | t in tables :: t == keys)
    requires tables != [] && |Past(asc, keys, token)| <= |tables| * limit
    ensures Completes(asc, tables, token, limit)
    decreases |tables|
  {
    hide Past, Sorted;
    assert tables[0] in tables && forall t | t in tables[1..] :: t in tables;
    if PageOf(asc, keys, token, limit).next.Some? {
      FixedNext(asc, keys, token, limit);
      assert |Past(asc, keys, PageOf(asc, keys, token, limit).next)| > 0 by { NextIsNotEmpty(asc, keys, token, limit); }
      OneLess(|tables|, limit);
      FixedWalkEnds(asc, tables[1..], keys, PageOf(asc, keys, token, limit).next, limit);
    }
  }

  lemma NextIsNotEmpty(asc: bool, keys: set<Key>, token: Option<Key>, limit: nat)
    requires limit > 0 && PageOf(asc, keys, token, limit).next.Some?
    ensures |Past(asc, keys, PageOf(asc, keys, token, limit).next)| > 0
  {
    FixedNext(asc, keys, token, limit);
    hide Past;
    assert |Sorted(asc, Past(asc, keys, token))| > limit;
  }

  lemma OneLess(n: nat, limit: nat)
    requires n > 0
    ensures n * limit == (n - 1) * limit + limit
    ensures (n - 1) * limit > 0 ==> n > 1
  {
  }

  lemma PastOf(asc: bool, keys: set<Key>, token: Option<Key>, k: Key)
    requires k in Past(asc, keys, token)
    ensures token.None? || Before(asc, token.value, k)
  {
  }

  // --- The title sorts -------------------------------------------------------------------

  /** Two cursors the rows cannot tell apart: no row sorts between them, or is one of them. */
  ghost predicate Clear(asc: bool, keys: set<Key>, a: Key, b: Key) {
    forall k | k in keys :: Before(asc, a, k) <==> Before(asc, b, k)
  }

  lemma FirstOfPage(asc: bool, keys: set<Key>, token: Option<Key>, limit: nat)
    requires limit > 0
    ensures var past, page := Past(asc, keys, token), PageOf(asc, keys, token, limit);
      (past == {} <==> page.rows == []) && (past != {} ==> page.rows[0] == First(asc, past))
  {
    hide First, Past;
  }

  /** A row past a but not past b shows on the page of a before anything past b. */
  lemma ExtraRowShows(asc: bool, keys: set<Key>, a: Key, b: Key, limit: nat, x: Key)
    requires limit > 0 && x in keys && Before(asc, a, x) && !Before(asc, b, x)
    ensures PageOf(asc, keys, Some(a), limit) != PageOf(asc, keys, Some(b), limit)
  {
    FirstOfPage(asc, keys, Some(a), limit);
    FirstOfPage(asc, keys, Some(b), limit);
    var past := Past(asc, keys, Some(a));
    assert x in past;
    var m := First(asc, past);
    assert IsFirst(asc, m, past);
    hide Before, PageOf, First;
    if m in Past(asc, keys, Some(b)) {
      if m != x { Transitive(asc, b, m, x); }
    }
    assert Past(asc, keys, Some(b)) != {} ==>
      IsFirst(asc, First(asc, Past(asc, keys, Some(b))), Past(asc, keys, Some(b)));
  }

  /** Two cursors give the same page exactly when no row tells them apart. */
  lemma SamePageIff(asc: bool, keys: set<Key>, a: Key, b: Key, limit: nat)
    requires limit > 0
    ensures PageOf(asc, keys, Some(a), limit) == PageOf(asc, keys, Some(b), limit) <==> Clear(asc, keys, a, b)
  {
    hide Before, Sorted;
    if Clear(asc, keys, a, b) {
      assert Past(asc, keys, Some(a)) == Past(asc, keys, Some(b));
    } else {
      var x :| x in keys && !(Before(asc, a, x) <==> Before(asc, b, x));
      if Before(asc, a, x) {
        ExtraRowShows(asc, keys, a, b, limit, x);
      } else {
        ExtraRowShows(asc, keys, b, a, limit, x);
      }
    }
  }

  /** The cursor a title sort hands out after a row: the row's created_at text in place of its
      lower-cased title, with its id. Keys of a title table are (lower-cased title, id). */
  function Handed(created: string -> string, last: Key): Key { Key(created(last.id), last.id) }

  /** The pages of a walk whose cursor is the last row, and those of a title walk. */
  function RightPages(asc: bool, tables: seq<set<Key>>, token: Option<Key>, limit: nat): seq<Page>
    requires limit > 0
  {
    if tables == [] then []
    else
      var page := PageOf(asc, tables[0], token, limit);
      [page] + if page.next.None? then [] else RightPages(asc, tables[1..], page.next, limit)
  }

  function TitlePages(asc: bool, tables: seq<set<Key>>, created: string -> string, token: Option<Key>,
                      limit: nat): seq<Page>
    requires limit > 0
  {
    if tables == [] then []
    else
      var page := PageOf(asc, tables[0], token, limit);
      [page] + if page.next.None? then []
               else TitlePages(asc, tables[1..], created, Some(Handed(created, page.next.value)), limit)
  }

  /** At every call after the first, no row sorts between the cursor handed out and the last
      row of the page before. */
  ghost predicate AllClear(asc: bool, tables: seq<set<Key>>, created: string -> string, token: Option<Key>, limit: nat)
    requires limit > 0
  {
    |tables| > 1 ==>
      var page := PageOf(asc, tables[0], token, limit);
      page.next.Some? ==>
        && Clear(asc, tables[1], Handed(created, page.next.value), page.next.value)
        && AllClear(asc, tables[1..], created, page.next, limit)
  }

  lemma {:induction false} TitlePagesFrom(asc: bool, tables: seq<set<Key>>, created: string -> string,
                                          a: Option<Key>, b: Option<Key>, limit: nat)
    requires limit > 0 && (tables != [] ==> PageOf(asc, tables[0], a, limit) == PageOf(asc, tables[0], b, limit))
    ensures TitlePages(asc, tables, created, a, limit) == RightPages(asc, tables, b, limit)
      <==> AllClear(asc, tables, created, b, limit)
  {
    hide PageOf, Clear, Handed;
    if tables != [] {
      var page := PageOf(asc, tables[0], b, limit);
      if page.next.Some? {
        var last, handed, rest := page.next.value, Handed(created, page.next.value), tables[1..];
        var title := TitlePages(asc, rest, created, Some(handed), limit);
        var right := RightPages(asc, rest, Some(last), limit);
        assert TitlePages(asc, tables, created, a, limit) == [page] + title;
        assert RightPages(asc, tables, b, limit) == [page] + right;
        assert [page] + title == [page] + right <==> title == right by {
          assert ([page] + title)[1..] == title && ([page] + right)[1..] == right;
        }
        if |tables| > 1 {
          SamePageIff(asc, tables[1], handed, last, limit);
          if PageOf(asc, tables[1], Some(handed), limit) == PageOf(asc, tables[1], Some(last), limit) {
            TitlePagesFrom(asc, rest, created, Some(handed), Some(last), limit);
          } else {
            assert title[0] != right[0];
          }
        }
      }
    }
  }

  /** Whatever happens between the calls and in either direction, a title walk gives the pages
      it should exactly when no row ever sorts between a handed-out cursor and the last row. */
  lemma TitlePagesAreRightIff(asc: bool, tables: seq<set<Key>>, created: string -> string, limit: nat)
    requires limit > 0
    ensures TitlePages(asc, tables, created, None, limit) == RightPages(asc, tables, None, limit)
      <==> AllClear(asc, tables, created, None, limit)
  {
    TitlePagesFrom(asc, tables, created, None, None, limit);
  }

  function RowsOfPages(pages: seq<Page>): seq<Key> {
    if pages == [] then [] else pages[0].rows + RowsOfPages(pages[1..])
  }

  lemma {:induction false} RightPagesWalk(asc: bool, tables: seq<set<Key>>, token: Option<Key>, limit: nat)
    requires limit > 0
    ensures RowsOfPages(RightPages(asc, tables, token, limit)) == Walk(asc, tables, token, limit)
  {
    hide PageOf;
    if tables != [] {
      var page := PageOf(asc, tables[0], token, limit);
      var rest := if page.next.None? then [] else RightPages(asc, tables[1..], page.next, limit);
      if page.next.Some? { RightPagesWalk(asc, tables[1..], page.next, limit); }
      assert ([page] + rest)[1..] == rest;
    }
  }

  /** Then everything proved of walks holds of it: no row twice, every lasting row once. */
  lemma ClearTitleWalk(asc: bool, tables: seq<set<Key>>, created: string -> string, limit: nat, k: Key)
    requires limit > 0 && AllClear(asc, tables, created, None, limit)
    ensures var rows := RowsOfPages(TitlePages(asc, tables, created, None, limit));
      && rows == Walk(asc, tables, None, limit) && Ordered(asc, rows)
      && (Completes(asc, tables, None, limit) && (forall t | t in tables :: k in t) ==> k in rows)
  {
    TitlePagesAreRightIff(asc, tables, created, limit);
    RightPagesWalk(asc, tables, None, limit);
    WalkIsOrdered(asc, tables, None, limit);
    WalkSees(asc, tables, None, limit, k);
  }

  /** When every title starts with a letter the cursor, a time, sorts before them all: the
      ascending walk starts again from its first page, the descending one ends after it. */
  lemma TitleCursorRestarts(keys: set<Key>, created: string -> string, last: Key, limit: nat)
    requires limit > 0 && created(last.id) != "" && '0' <= created(last.id)[0] <= '9'
    requires forall k | k in keys :: k.created != "" && 'a' <= k.created[0]
    ensures PageOf(true, keys, Some(Handed(created, last)), limit) == PageOf(true, keys, None, limit)
    ensures PageOf(false, keys, Some(Handed(created, last)), limit) == Page([], None)
  {
    hide Sorted;
    var cursor := Handed(created, last);
    assert Past(true, keys, Some(cursor)) == Past(true, keys, None);
    assert Past(false, keys, Some(cursor)) == {};
    assert |Sorted(false, {})| == 0;
  }
}
