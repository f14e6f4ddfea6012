/** apps/api/routes/accounts.py: cursor-paginated history, newest entry first. */
module Pagination {
  import opened Kernel

  /** Ids of one account's ledger entries, in insertion order. */
  type Table = seq<nat>

  predicate Distinct(table: Table) {
    forall i, j :: 0 <= i < j < |table| ==> table[i] != table[j]
  }

  predicate Descending(ids: seq<nat>) {
    forall i, j :: 0 <= i < j < |ids| ==> ids[i] > ids[j]
  }

  function InsertDescending(id: nat, ids: seq<nat>): (r: seq<nat>)
    requires Descending(ids) && id !in ids
    ensures Descending(r) && |r| == |ids| + 1
    ensures forall x :: x in r <==> x == id || x in ids
  {
    if ids == [] then [id]
    else if id > ids[0] then [id] + ids
    else
      var rest := InsertDescending(id, ids[1..]);
      assert forall x :: x in ids <==> x == ids[0] || x in ids[1..];
      assert forall i :: 0 <= i < |rest| ==> rest[i] in rest;
      [ids[0]] + rest
  }

  predicate Below(cursor: Option<nat>, id: nat) { cursor.Some? ==> id < cursor.value }

  /** `WHERE e.id < :cursor ORDER BY e.id DESC`, with no limit. */
  function Listing(table: Table, cursor: Option<nat>): (ids: seq<nat>)
    requires Distinct(table)
    ensures Descending(ids)
    ensures forall x :: x in ids <==> x in table && Below(cursor, x)
  {
    if table == [] then []
    else
      var n := |table| - 1;
      assert forall x :: x in table <==> x in table[..n] || x == table[n];
      var rest := Listing(table[..n], cursor);
      if Below(cursor, table[n]) then InsertDescending(table[n], rest) else rest
  }

  /** `list_entries`: at most `limit` rows. */
  function ListEntries(table: Table, cursor: Option<nat>, limit: nat): seq<nat>
    requires Distinct(table)
  {
    var all := Listing(table, cursor);
    if |all| <= limit then all else all[..limit]
  }

  datatype Page = Page(entries: seq<nat>, nextCursor: Option<nat>, hasMore: bool)

  /** One extra row is fetched to learn whether another page exists. */
  function ListTransactions(table: Table, cursor: Option<nat>, limit: nat): Page
    requires Distinct(table)
  {
    var rows := ListEntries(table, cursor, limit + 1);
    var hasMore := |rows| > limit;
    var page := if hasMore then rows[..limit] else rows;
    Page(page, if hasMore && page != [] then Some(page[|page| - 1]) else None, hasMore)
  }

  // -- following the cursor -------------------------------------------------

  /** A descending listing is determined by its members. */
  lemma {:induction false} SameMembersSameListing(a: seq<nat>, b: seq<nat>)
    requires Descending(a) && Descending(b) && forall x :: x in a <==> x in b
    ensures a == b
  {
    assert b != [] ==> b[0] in b;
    if a != [] {
      assert a[0] in a;
      assert b != [];
      assert a[0] == b[0];
      forall x
        ensures x in a[1..] <==> x in b[1..]
      {
        assert x in a <==> x == a[0] || x in a[1..];
        assert x in b <==> x == b[0] || x in b[1..];
      }
      SameMembersSameListing(a[1..], b[1..]);
      assert a == [a[0]] + a[1..] && b == [b[0]] + b[1..];
    }
  }

  /** The table at a later request: whatever was there, and entries with larger ids than all of it. */
  predicate Appended(first: Table, later: Table) {
    && Distinct(first) && Distinct(later) && first <= later
    && (forall x, y :: x in first && y in later[|first|..] ==> x < y)
  }

  /**
   * Continuing after an entry of the first listing gives the rest of that listing, however much has been appended
   * since.
   */
  lemma ListingContinues(first: Table, later: Table, k: nat)
    requires Appended(first, later) && 0 < k <= |Listing(first, None)|
    ensures Listing(later, Some(Listing(first, None)[k - 1])) == Listing(first, None)[k..]
  {
    hide Listing;
    var all := Listing(first, None);
    var cursor := Some(all[k - 1]);
    assert all[k - 1] in all && all[k - 1] in first;
    forall x
      ensures x in Listing(later, cursor) <==> x in all[k..]
    {
      assert x in later <==> x in first || x in later[|first|..] by { assert later == first + later[|first|..]; }
      BelowIsRest(all, k, x);
    }
    SameMembersSameListing(Listing(later, cursor), all[k..]);
  }

  /** In a descending listing, what is below an entry is what follows it. */
  lemma BelowIsRest(all: seq<nat>, k: nat, x: nat)
    requires Descending(all) && 0 < k <= |all|
    ensures x in all && x < all[k - 1] <==> x in all[k..]
  {
    if x in all[k..] {
      var i :| k <= i < |all| && all[i] == x;
      assert all[k - 1] > all[i];
    }
    if x in all && x < all[k - 1] {
      var i :| 0 <= i < |all| && all[i] == x;
      assert i >= k;
      assert all[k..][i - k] == x;
    }
  }

  function Entries(pages: seq<Page>): seq<nat> {
    if pages == [] then [] else Entries(pages[..|pages| - 1]) + pages[|pages| - 1].entries
  }

  function CursorFor(pages: seq<Page>, i: nat): Option<nat> {
    if 0 < i <= |pages| then pages[i - 1].nextCursor else None
  }

  /** Successive requests, each with the cursor of the one before, any page sizes, the table growing in between. */
  predicate IsWalk(tables: seq<Table>, limits: seq<nat>, pages: seq<Page>) {
    && 0 < |pages| == |tables| == |limits|
    && (forall i :: 0 <= i < |pages| ==> limits[i] >= 1 && Appended(tables[0], tables[i]))
    && (forall i :: 0 <= i < |pages| ==> pages[i] == ListTransactions(tables[i], CursorFor(pages, i), limits[i]))
    && (forall i :: 0 <= i < |pages| - 1 ==> pages[i].hasMore)
  }

  lemma WalkShortens(tables: seq<Table>, limits: seq<nat>, pages: seq<Page>, n: nat)
    requires IsWalk(tables, limits, pages) && 0 < n < |pages|
    ensures IsWalk(tables[..n], limits[..n], pages[..n])
  {
    hide ListTransactions, Distinct;
    forall i | 0 <= i < n
      ensures pages[..n][i] == ListTransactions(tables[..n][i], CursorFor(pages[..n], i), limits[..n][i])
    {
      assert pages[i] == ListTransactions(tables[i], CursorFor(pages, i), limits[i]);
      assert CursorFor(pages[..n], i) == CursorFor(pages, i);
    }
  }

  /** A walk so far is an initial part of the first listing; it has more to come exactly while it is short of it. */
  predicate IsPrefix(all: seq<nat>, pages: seq<Page>) {
    var seen := Entries(pages);
    && pages != []
    && |seen| <= |all| && seen == all[..|seen|]
    && var last := pages[|pages| - 1];
       && (last.hasMore <==> |seen| < |all|)
       && (last.hasMore ==> seen != [] && last.nextCursor == Some(seen[|seen| - 1]) && |seen| >= |pages|)
  }

  lemma WalkLast(tables: seq<Table>, limits: seq<nat>, pages: seq<Page>, n: nat)
    requires IsWalk(tables, limits, pages) && n == |pages| - 1
    ensures Distinct(tables[0]) && Distinct(tables[n]) && Appended(tables[0], tables[n]) && limits[n] >= 1
    ensures pages[n] == ListTransactions(tables[n], CursorFor(pages, n), limits[n])
    ensures n > 0 ==> pages[n - 1].hasMore
  {
    hide ListTransactions;
  }

  lemma {:induction false} WalkIsPrefix(tables: seq<Table>, limits: seq<nat>, pages: seq<Page>)
    requires IsWalk(tables, limits, pages)
    ensures Distinct(tables[0]) && IsPrefix(Listing(tables[0], None), pages)
    decreases |pages|
  {
    var n := |pages| - 1;
    WalkLast(tables, limits, pages, n);
    if n == 0 {
      assert pages == [pages[0]];
      FirstPage(tables[0], limits[0]);
    } else {
      WalkShortens(tables, limits, pages, n);
      WalkIsPrefix(tables[..n], limits[..n], pages[..n]);
      hide IsWalk, Appended, Distinct, Listing, ListTransactions, IsPrefix;
      NextPage(tables[0], tables[n], limits[n], pages, n);
    }
  }

  lemma OnePage(p: Page)
    ensures Entries([p]) == p.entries
  {
    assert [p][..0] == [];
    assert Entries([]) == [];
  }

  lemma FirstPage(table: Table, limit: nat)
    requires Distinct(table) && limit >= 1
    ensures IsPrefix(Listing(table, None), [ListTransactions(table, None, limit)])
  {
    hide Listing, ListTransactions, Distinct, Entries;
    var page := ListTransactions(table, None, limit);
    OnePage(page);
    PageOfListing(table, None, limit, Listing(table, None));
  }

  lemma NextPage(first: Table, later: Table, limit: nat, pages: seq<Page>, n: nat)
    requires Distinct(first) && Distinct(later) && Appended(first, later) && limit >= 1
    requires 0 < n == |pages| - 1 && pages[n - 1].hasMore
    requires pages[n] == ListTransactions(later, CursorFor(pages, n), limit)
    requires IsPrefix(Listing(first, None), pages[..n])
    ensures IsPrefix(Listing(first, None), pages)
  {
    hide Listing, ListTransactions, Distinct, Appended;
    var all := Listing(first, None);
    var k := |Entries(pages[..n])|;
    assert pages[..n][n - 1] == pages[n - 1];
    ListingContinues(first, later, k);
    PageOfListing(later, Some(all[k - 1]), limit, all[k..]);
    PrefixGrows(all, pages, n, limit);
  }

  lemma PrefixGrows(all: seq<nat>, pages: seq<Page>, n: nat, limit: nat)
    requires 0 < n == |pages| - 1 && IsPrefix(all, pages[..n]) && pages[n - 1].hasMore && limit >= 1
    requires var rest := all[|Entries(pages[..n])|..]; IsPage(pages[n], rest, limit)
    ensures IsPrefix(all, pages)
  {
    var before, entries := Entries(pages[..n]), pages[n].entries;
    var k := |before|;
    assert all[..k] + all[k..][..|entries|] == all[..k + |entries|];
  }

  /** One page is an initial part of what it lists, and says truthfully whether that was all. */
  predicate IsPage(p: Page, all: seq<nat>, limit: nat) {
    && |p.entries| == (if |all| <= limit then |all| else limit) && p.entries == all[..|p.entries|]
    && (p.hasMore <==> |p.entries| < |all|)
    && (p.hasMore ==> |p.entries| == limit && limit >= 1 && p.nextCursor == Some(p.entries[limit - 1]))
  }

  lemma PageOfListing(table: Table, cursor: Option<nat>, limit: nat, all: seq<nat>)
    requires Distinct(table) && limit >= 1 && all == Listing(table, cursor)
    ensures IsPage(ListTransactions(table, cursor, limit), all, limit)
  {
    hide Listing, Distinct;
    var rows := ListEntries(table, cursor, limit + 1);
    if |all| > limit {
      assert rows[..limit] == all[..limit];
    }
  }

  /** Followed to its end, a walk is the listing of the first moment: every entry once, newest first, nothing else. */
  lemma WalkIsListing(tables: seq<Table>, limits: seq<nat>, pages: seq<Page>)
    requires IsWalk(tables, limits, pages) && !pages[|pages| - 1].hasMore
    ensures Entries(pages) == Listing(tables[0], None)
    ensures Descending(Entries(pages)) && forall x :: x in Entries(pages) <==> x in tables[0]
  {
    WalkIsPrefix(tables, limits, pages);
  }
}
