/** Keyset paging through a conversation, with messages arriving between the pages. */
module Paging {
  import opened Wrappers
  import opened Messages

  const DEFAULT_LIMIT := 50

  datatype Cursor = Cursor(createdAt: int, id: MessageId)

  function KeyOf(m: Message): Cursor {
    Cursor(m.createdAt, m.id)
  }

  predicate KeyBefore(a: Cursor, b: Cursor) {
    a.createdAt < b.createdAt || (a.createdAt == b.createdAt && a.id < b.id)
  }

  /** `created_at > ? OR (created_at = ? AND id > ?)`. */
  predicate IsAfter(m: Message, cursor: Option<Cursor>) {
    cursor.Some? ==>
      m.createdAt > cursor.value.createdAt || (m.createdAt == cursor.value.createdAt && m.id > cursor.value.id)
  }

  function RowsAfter(t: Table, conv: string, cursor: Option<Cursor>): set<Message> {
    set m | m in t.Values && m.conv == conv && IsAfter(m, cursor)
  }

  lemma RowsHaveDistinctIds(t: Table, conv: string, cursor: Option<Cursor>)
    requires ValidTable(t)
    ensures DistinctIds(RowsAfter(t, conv, cursor))
  {
  }

  ghost function Listing(t: Table, conv: string, cursor: Option<Cursor>): (q: seq<Message>)
    requires ValidTable(t)
    ensures IsListing(q, RowsAfter(t, conv, cursor))
  {
    RowsHaveDistinctIds(t, conv, cursor);
    SortRows(RowsAfter(t, conv, cursor))
  }

  function EffectiveLimit(limit: int): nat {
    if limit <= 0 then DEFAULT_LIMIT else limit
  }

  function Take<T>(q: seq<T>, n: nat): seq<T> {
    if |q| <= n then q else q[..n]
  }

  datatype ListError = InvalidCursor

  /** The cursor of a request, which needs both its parts. */
  function CursorOf(createdAt: Option<int>, id: Option<MessageId>): Option<Cursor> {
    if createdAt.Some? && id.Some? then Some(Cursor(createdAt.value, id.value)) else None
  }

  class MessageService {
    var rows: Table

    constructor ()
      ensures rows == map[]
    {
      rows := map[];
    }

    /** A cursor must name a message of this very conversation; half a cursor is ignored. */
    method List(conv: string, afterCreatedAt: Option<int>, afterId: Option<MessageId>, limit: int)
      returns (r: Result<seq<Message>, ListError>)
      requires ValidTable(rows)
      ensures var cursor := CursorOf(afterCreatedAt, afterId);
              r.Ok? ==> r.value == Take(Listing(rows, conv, cursor), EffectiveLimit(limit))
      ensures r.Err? <==> afterCreatedAt.Some? && afterId.Some? && !(afterId.value in rows && rows[afterId.value].conv == conv)
      ensures r.Ok? ==> |r.value| <= if limit <= 0 then 50 else limit
      ensures r.Ok? ==> forall i, j :: 0 <= i < j < |r.value| ==>
                r.value[i].createdAt < r.value[j].createdAt
                || (r.value[i].createdAt == r.value[j].createdAt && r.value[i].id < r.value[j].id)
      ensures r.Ok? ==> forall m :: m in r.value ==>
                && m in rows.Values && m.conv == conv
                && (afterCreatedAt.Some? && afterId.Some? ==>
                      m.createdAt > afterCreatedAt.value || (m.createdAt == afterCreatedAt.value && m.id > afterId.value))
      ensures r.Ok? ==> forall m :: (&& m in rows.Values && m.conv == conv && m !in r.value
                                     && (afterCreatedAt.Some? && afterId.Some? ==>
                                           m.createdAt > afterCreatedAt.value
                                           || (m.createdAt == afterCreatedAt.value && m.id > afterId.value))) ==>
                |r.value| == (if limit <= 0 then 50 else limit) && forall x :: x in r.value ==> Before(x, m)
    {
      var max := if limit <= 0 then DEFAULT_LIMIT else limit;
      var cursor: Option<Cursor> := None;
      if afterCreatedAt.Some? && afterId.Some? {
        if afterId.value !in rows || rows[afterId.value].conv != conv {
          return Err(InvalidCursor);
        }
        cursor := Some(Cursor(afterCreatedAt.value, afterId.value));
      }
      RowsHaveDistinctIds(rows, conv, cursor);
      var q := Order(RowsAfter(rows, conv, cursor));
      var page := if |q| <= max then q else q[..max];
      PageOfListing(q, RowsAfter(rows, conv, cursor), max);
      RowsAfterMeans(rows, conv, afterCreatedAt, afterId);
      r := Ok(page);
    }
  }

  lemma RowsAfterMeans(t: Table, conv: string, createdAt: Option<int>, id: Option<MessageId>)
    ensures forall m :: m in RowsAfter(t, conv, CursorOf(createdAt, id)) <==>
              && m in t.Values && m.conv == conv
              && (createdAt.Some? && id.Some? ==>
                    m.createdAt > createdAt.value || (m.createdAt == createdAt.value && m.id > id.value))
  {
  }

  /** A page holds the first rows of its listing; what it leaves out comes after them. */
  lemma PageOfListing(q: seq<Message>, s: set<Message>, max: nat)
    requires IsListing(q, s)
    ensures var page := if |q| <= max then q else q[..max];
            && |page| <= max
            && (forall i, j :: 0 <= i < j < |page| ==> Before(page[i], page[j]))
            && (forall m :: m in page ==> m in s)
            && (forall m :: m in s && m !in page ==> |page| == max && forall x :: x in page ==> Before(x, m))
  {
    var page := if |q| <= max then q else q[..max];
    forall m | m in page
      ensures m in s
    {
      assert m in Elements(q);
    }
    forall m, x | m in s && m !in page && x in page
      ensures Before(x, m)
    {
      assert m in Elements(q);
      var j :| 0 <= j < |q| && q[j] == m;
      var i :| 0 <= i < |page| && page[i] == x;
      assert j >= |page|;
    }
    forall m | m in s && m !in page
      ensures |page| == max
    {
      assert m in Elements(q);
    }
  }

  // ---- A client that follows the cursor ---------------------------------------

  /** Messages may be added, and their other columns changed, but none is removed or moved. */
  ghost predicate Evolves(t: Table, t': Table) {
    forall id :: id in t ==> id in t' && t'[id].id == t[id].id && t'[id].conv == t[id].conv
                             && t'[id].createdAt == t[id].createdAt
  }

  ghost predicate IsHistory(tables: seq<Table>) {
    && (forall i :: 0 <= i < |tables| ==> ValidTable(tables[i]))
    && (forall i, j :: 0 <= i <= j < |tables| ==> Evolves(tables[i], tables[j]))
  }

  function LastKey(got: seq<Cursor>): Option<Cursor> {
    if got == [] then None else Some(got[|got| - 1])
  }

  function Keys(q: seq<Message>): seq<Cursor> {
    seq(|q|, i requires 0 <= i < |q| => KeyOf(q[i]))
  }

  /** The page a client that already has `got` reads from `t`. */
  ghost function NextPage(t: Table, conv: string, got: seq<Cursor>, limit: int): seq<Message>
    requires ValidTable(t)
  {
    Take(Listing(t, conv, LastKey(got)), EffectiveLimit(limit))
  }

  /** The keys of everything fetched by reading one page from each table in turn, each time from
      the last message of the page before. */
  ghost function Fetched(tables: seq<Table>, conv: string, limit: int): seq<Cursor>
    requires IsHistory(tables)
  {
    if tables == [] then []
    else
      var got := Fetched(tables[..|tables| - 1], conv, limit);
      got + Keys(NextPage(tables[|tables| - 1], conv, got, limit))
  }

  ghost predicate KeysSorted(ks: seq<Cursor>) {
    forall i, j :: 0 <= i < j < |ks| ==> KeyBefore(ks[i], ks[j])
  }

  /** The message is in the conversation and not after the last fetched key. */
  ghost predicate Passed(m: Message, conv: string, got: seq<Cursor>) {
    m.conv == conv && got != [] && !IsAfter(m, LastKey(got))
  }

  ghost predicate FetchInv(t0: Table, t: Table, conv: string, got: seq<Cursor>) {
    && KeysSorted(got)
    && (forall k :: 0 <= k < |got| ==> got[k].id in t && KeyOf(t[got[k].id]) == got[k] && t[got[k].id].conv == conv)
    && (forall id :: id in t0 && Passed(t0[id], conv, got) ==> KeyOf(t0[id]) in got)
  }

  lemma PageIsSortedPrefix(t: Table, conv: string, got: seq<Cursor>, limit: int)
    requires ValidTable(t)
    ensures var page := NextPage(t, conv, got, limit);
            && Sorted(page)
            && (forall m :: m in page ==> m in RowsAfter(t, conv, LastKey(got)))
            && (forall m :: m in RowsAfter(t, conv, LastKey(got)) && m !in page ==>
                  page != [] && Before(page[|page| - 1], m) && |page| == EffectiveLimit(limit))
  {
    var q := Listing(t, conv, LastKey(got));
    var page := NextPage(t, conv, got, limit);
    forall m | m in page
      ensures m in RowsAfter(t, conv, LastKey(got))
    {
      assert m in Elements(q);
    }
    forall m | m in RowsAfter(t, conv, LastKey(got)) && m !in page
      ensures page != [] && Before(page[|page| - 1], m) && |page| == EffectiveLimit(limit)
    {
      assert m in Elements(q);
      assert forall i :: 0 <= i < |page| ==> page[i] == q[i] && q[i] in page;
      var k :| 0 <= k < |q| && q[k] == m;
    }
  }

  lemma SortedAppend(got: seq<Cursor>, page: seq<Message>)
    requires KeysSorted(got) && Sorted(page) && forall k :: 0 <= k < |page| ==> IsAfter(page[k], LastKey(got))
    ensures KeysSorted(got + Keys(page))
  {
    var more := got + Keys(page);
    forall i, j | 0 <= i < j < |more|
      ensures KeyBefore(more[i], more[j])
    {
      if i >= |got| {
        assert Before(page[i - |got|], page[j - |got|]);
      } else if j >= |got| {
        assert i == |got| - 1 || KeyBefore(got[i], got[|got| - 1]);
      }
    }
  }

  /** A row of the conversation that is not in the page either was passed before or lies ahead. */
  lemma PageHolds(t: Table, conv: string, got: seq<Cursor>, limit: int, m: Message)
    requires ValidTable(t) && m in t.Values && m.conv == conv && !Passed(m, conv, got)
    requires var page := NextPage(t, conv, got, limit);
             |page| < EffectiveLimit(limit) || Passed(m, conv, got + Keys(page))
    ensures KeyOf(m) in got + Keys(NextPage(t, conv, got, limit))
  {
    var page := NextPage(t, conv, got, limit);
    PageIsSortedPrefix(t, conv, got, limit);
    assert m in RowsAfter(t, conv, LastKey(got));
    assert page != [] ==> LastKey(got + Keys(page)) == Some(KeyOf(page[|page| - 1]));
    assert page == [] ==> got + Keys(page) == got;
    assert m in page;
    var k :| 0 <= k < |page| && page[k] == m;
    assert (got + Keys(page))[|got| + k] == KeyOf(m);
  }

  lemma PageRowsAreStored(t: Table, conv: string, got: seq<Cursor>, limit: int)
    requires ValidTable(t)
    ensures var page := NextPage(t, conv, got, limit);
            && Sorted(page)
            && (forall k :: 0 <= k < |page| ==>
                  page[k].id in t && t[page[k].id] == page[k] && page[k].conv == conv && IsAfter(page[k], LastKey(got)))
  {
    PageIsSortedPrefix(t, conv, got, limit);
    var page := NextPage(t, conv, got, limit);
    forall k | 0 <= k < |page|
      ensures page[k] in RowsAfter(t, conv, LastKey(got))
    {
      assert page[k] in page;
    }
  }

  /** Reading one more page from a later table. */
  lemma PageKeepsInv(t0: Table, t: Table, t': Table, conv: string, got: seq<Cursor>, limit: int)
    requires ValidTable(t) && ValidTable(t') && ValidTable(t0) && Evolves(t, t') && Evolves(t0, t')
    requires FetchInv(t0, t, conv, got)
    ensures FetchInv(t0, t', conv, got + Keys(NextPage(t', conv, got, limit)))
  {
    var page := NextPage(t', conv, got, limit);
    PageRowsAreStored(t', conv, got, limit);
    SortedAppend(got, page);
    forall id | id in t0 && Passed(t0[id], conv, got + Keys(page))
      ensures KeyOf(t0[id]) in got + Keys(page)
    {
      if Passed(t0[id], conv, got) {
        assert KeyOf(t0[id]) in got;
      } else {
        assert t'[id] in t'.Values;
        PageHolds(t', conv, got, limit, t'[id]);
      }
    }
  }

  lemma {:induction false} FetchedKeepsInv(tables: seq<Table>, conv: string, limit: int)
    requires IsHistory(tables) && tables != []
    ensures FetchInv(tables[0], tables[|tables| - 1], conv, Fetched(tables, conv, limit))
  {
    var n := |tables| - 1;
    var front := tables[..n];
    if n == 0 {
      assert front == [];
      PageKeepsInv(tables[0], tables[0], tables[0], conv, [], limit);
    } else {
      FetchedKeepsInv(front, conv, limit);
      PageKeepsInv(tables[0], tables[n - 1], tables[n], conv, Fetched(front, conv, limit), limit);
    }
  }

  /** Paging under concurrent inserts: nothing is returned twice or out of order, the cursor
      always names a message of the conversation, and once a page comes back shorter than the
      limit, every message present when the first page was read has been returned. */
  lemma {:induction false} PagingMissesNothing(tables: seq<Table>, conv: string, limit: int)
    requires IsHistory(tables) && tables != []
    ensures var got := Fetched(tables, conv, limit);
            var t := tables[|tables| - 1];
            && KeysSorted(got)
            && (got != [] ==> got[|got| - 1].id in t && t[got[|got| - 1].id].conv == conv)
            && (|NextPage(t, conv, Fetched(tables[..|tables| - 1], conv, limit), limit)| < EffectiveLimit(limit) ==>
                  forall id :: id in tables[0] && tables[0][id].conv == conv ==> KeyOf(tables[0][id]) in got)
  {
    var n := |tables| - 1;
    var t := tables[n];
    var front := tables[..n];
    var before := Fetched(front, conv, limit);
    FetchedKeepsInv(tables, conv, limit);
    if n > 0 {
      FetchedKeepsInv(front, conv, limit);
    }
    if |NextPage(t, conv, before, limit)| < EffectiveLimit(limit) {
      forall id | id in tables[0] && tables[0][id].conv == conv
        ensures KeyOf(tables[0][id]) in Fetched(tables, conv, limit)
      {
        ShortPageEnds(tables[0], if n > 0 then tables[n - 1] else t, t, conv, before, limit, id);
      }
    }
  }

  /** After a short page, a message of the first table has been fetched. */
  lemma ShortPageEnds(t0: Table, t: Table, t': Table, conv: string, got: seq<Cursor>, limit: int, id: MessageId)
    requires ValidTable(t') && Evolves(t0, t') && id in t0 && t0[id].conv == conv
    requires got != [] ==> FetchInv(t0, t, conv, got)
    requires |NextPage(t', conv, got, limit)| < EffectiveLimit(limit)
    ensures KeyOf(t0[id]) in got + Keys(NextPage(t', conv, got, limit))
  {
    if Passed(t0[id], conv, got) {
      assert KeyOf(t0[id]) in got;
    } else {
      assert t'[id] in t'.Values;
      PageHolds(t', conv, got, limit, t'[id]);
    }
  }

  // ---- Without inserts --------------------------------------------------------

  function Copies(t: Table, n: nat): seq<Table> {
    seq(n, _ => t)
  }

  function Min(a: nat, b: nat): nat {
    if a < b then a else b
  }

  lemma ListingAfterPrefix(t: Table, conv: string, j: nat)
    requires ValidTable(t) && 0 < j <= |Listing(t, conv, None)|
    ensures var q := Listing(t, conv, None);
            Listing(t, conv, Some(KeyOf(q[j - 1]))) == q[j..]
  {
    var q := Listing(t, conv, None);
    var c := Some(KeyOf(q[j - 1]));
    forall m
      ensures m in Elements(q[j..]) <==> m in RowsAfter(t, conv, c)
    {
      if m in Elements(q[j..]) {
        assert m in Elements(q);
        var k :| j <= k < |q| && q[k] == m;
        assert Before(q[j - 1], q[k]);
      }
      if m in RowsAfter(t, conv, c) {
        assert m in Elements(q);
        assert forall i :: 0 <= i < j ==> i == j - 1 || Before(q[i], q[j - 1]);
        var k :| 0 <= k < |q| && q[k] == m;
        assert k >= j;
        assert q[j..][k - j] == m;
      }
    }
    ListingIsUnique(Listing(t, conv, c), q[j..]);
  }

  /** What is left after the first `j` messages of an unchanged conversation. */
  lemma RestOfListing(t: Table, conv: string, j: nat)
    requires ValidTable(t) && j <= |Listing(t, conv, None)|
    ensures var q := Listing(t, conv, None);
            Listing(t, conv, LastKey(Keys(q)[..j])) == q[j..]
  {
    var q := Listing(t, conv, None);
    var got := Keys(q)[..j];
    if j > 0 {
      ListingAfterPrefix(t, conv, j);
      assert got[j - 1] == KeyOf(q[j - 1]);
    } else {
      assert q[0..] == q;
    }
  }

  lemma TakeTiles(q: seq<Message>, j: nat, size: nat)
    requires j <= |q|
    ensures Keys(q)[..j] + Keys(Take(q[j..], size)) == Keys(q)[..Min(j + size, |q|)]
  {
    var page := Take(q[j..], size);
    assert page == q[j..Min(j + size, |q|)];
  }

  /** One more page of an unchanged conversation, read after its first `j` messages. */
  lemma PageTiles(t: Table, conv: string, limit: int, j: nat)
    requires ValidTable(t) && j <= |Listing(t, conv, None)|
    ensures var q := Listing(t, conv, None);
            var got := Keys(q)[..j];
            got + Keys(NextPage(t, conv, got, limit)) == Keys(q)[..Min(j + EffectiveLimit(limit), |q|)]
  {
    RestOfListing(t, conv, j);
    TakeTiles(Listing(t, conv, None), j, EffectiveLimit(limit));
  }

  /** With nothing arriving in between, `n` pages are exactly the first `n` times limit messages
      of the sorted conversation: the whole of it, once, as soon as that reaches its length. */
  lemma {:induction false} PagesTileTheListing(t: Table, conv: string, limit: int, n: nat)
    requires ValidTable(t)
    ensures IsHistory(Copies(t, n))
    ensures var q := Listing(t, conv, None);
            Fetched(Copies(t, n), conv, limit) == Keys(q)[..Min(n * EffectiveLimit(limit), |q|)]
  {
    if n == 0 {
      assert Copies(t, 0) == [];
    } else {
      PagesTileTheListing(t, conv, limit, n - 1);
      var size, len := EffectiveLimit(limit), |Listing(t, conv, None)|;
      FetchedOnceMore(t, conv, limit, n);
      PageTiles(t, conv, limit, Min((n - 1) * size, len));
      TileArithmetic(n, size, len);
    }
  }

  lemma TileArithmetic(n: nat, size: nat, len: nat)
    requires n > 0
    ensures Min(Min((n - 1) * size, len) + size, len) == Min(n * size, len)
  {
    assert n * size == (n - 1) * size + size;
  }

  lemma FetchedOnceMore(t: Table, conv: string, limit: int, n: nat)
    requires ValidTable(t) && n > 0 && IsHistory(Copies(t, n - 1))
    ensures IsHistory(Copies(t, n))
    ensures var got := Fetched(Copies(t, n - 1), conv, limit);
            Fetched(Copies(t, n), conv, limit) == got + Keys(NextPage(t, conv, got, limit))
  {
    assert Copies(t, n)[..n - 1] == Copies(t, n - 1);
  }
}
