/**
 Keyset pagination of a wallet's entries and activity.  A row is ordered by its key
 (created_at, id); a cursor is the key of the last row of the previous page.
 */
module Paging {
  import opened Wrappers
  import opened Fees
  import opened Ledger
  import opened LedgerSteps
  import opened LedgerProofs

  datatype Key = Key(at: nat, id: Id)

  predicate Less(a: Key, b: Key) {
    a.at < b.at || (a.at == b.at && a.id < b.id)
  }

  // An out-of-range limit becomes 50.
  function PageSize(limit: int): (size: nat)
    ensures 1 <= size <= 200
  {
    if limit <= 0 || limit > 200 then 50 else limit
  }

  lemma PageSizeExactly(limit: int)
    ensures PageSize(limit) == if 1 <= limit <= 200 then limit else 50
  {
  }

  /* ---- ORDER BY created_at DESC, id DESC ---- */

  ghost predicate IsGreatest(rows: set<Key>, top: Key) {
    top in rows && forall k :: k in rows && k != top ==> Less(k, top)
  }

  lemma GreatestExists(rows: set<Key>)
    requires rows != {}
    ensures exists top :: IsGreatest(rows, top)
  {
    var top :| top in rows;
    if rows == {top} {
      assert IsGreatest(rows, top);
    } else {
      GreatestExists(rows - {top});
      var rest :| IsGreatest(rows - {top}, rest);
      var best := if Less(top, rest) then rest else top;
      forall k | k in rows && k != best
        ensures Less(k, best)
      {
        assert k == top || k in rows - {top};
      }
      assert IsGreatest(rows, best);
    }
  }

  ghost function Greatest(rows: set<Key>): (top: Key)
    requires rows != {}
    ensures IsGreatest(rows, top)
  {
    GreatestExists(rows);
    var top :| IsGreatest(rows, top);
    top
  }

  ghost function Listing(rows: set<Key>): (all: seq<Key>)
    ensures |all| == |rows|
    ensures forall k :: k in all <==> k in rows
  {
    if rows == {} then [] else var top := Greatest(rows); [top] + Listing(rows - {top})
  }

  ghost predicate Descending(s: seq<Key>) {
    forall i, j :: 0 <= i < j < |s| ==> Less(s[j], s[i])
  }

  lemma {:induction false} ListingDescends(rows: set<Key>)
    ensures Descending(Listing(rows))
  {
    if rows != {} {
      ListingDescends(rows - {Greatest(rows)});
    }
  }

  /** A listing goes from later to earlier, and within one instant from higher to lower ids. */
  lemma ListingNewestFirst(rows: set<Key>, i: nat, j: nat)
    requires i < j < |Listing(rows)|
    ensures var all := Listing(rows);
            all[i].at > all[j].at || (all[i].at == all[j].at && all[i].id > all[j].id)
  {
    ListingDescends(rows);
  }

  /** The listing is the only descending order of its rows. */
  lemma {:induction false} ListingIsUnique(s: seq<Key>, rows: set<Key>)
    requires Descending(s) && forall k :: k in s <==> k in rows
    ensures s == Listing(rows)
    decreases |s|
  {
    if s == [] {
      assert rows == {};
    } else {
      assert s[0] in rows;
      var top := Greatest(rows);
      assert top in s;
      assert s[0] == top;
      assert s == [s[0]] + s[1..];
      ListingIsUnique(s[1..], rows - {top});
    }
  }

  /* ---- pages ---- */

  ghost function Below(rows: set<Key>, cursor: Option<Key>): set<Key> {
    set k | k in rows && (cursor.None? || Less(k, cursor.value))
  }

  ghost function Take(s: seq<Key>, n: nat): seq<Key> {
    if |s| <= n then s else s[..n]
  }

  // One request: WHERE key < cursor ORDER BY key DESC LIMIT p_limit.
  ghost function Page(rows: set<Key>, limit: int, cursor: Option<Key>): seq<Key> {
    Take(Listing(Below(rows, cursor)), PageSize(limit))
  }

  // next_cursor: the key of the last item, none for an empty page.
  ghost function NextCursor(page: seq<Key>): Option<Key> {
    if page == [] then None else Some(page[|page| - 1])
  }

  // What a client collects when request number i sees the rows `snaps[i]`, following
  // next_cursor until a page comes back empty.
  ghost function Follow(snaps: seq<set<Key>>, limit: int, cursor: Option<Key>): (seq<Key>, bool)
    decreases |snaps|
  {
    if snaps == [] then ([], false)
    else
      var page := Page(snaps[0], limit, cursor);
      if page == [] then ([], true)
      else
        var (rest, done) := Follow(snaps[1..], limit, NextCursor(page));
        (page + rest, done)
  }

  // In a descending sequence the elements below the n-th are those after it.
  lemma AfterIsBelow(s: seq<Key>, n: nat, k: Key)
    requires Descending(s) && 0 < n <= |s|
    ensures k in s[n..] <==> k in s && Less(k, s[n - 1])
  {
    if k in s[n..] {
      var i :| 0 <= i < |s[n..]| && s[n..][i] == k;
      assert k == s[n + i];
    }
    if k in s && Less(k, s[n - 1]) {
      var i :| 0 <= i < |s| && s[i] == k;
      assert i >= n;
      assert s[n..][i - n] == k;
    }
  }

  lemma {:induction false} BelowSplitsListing(rows: set<Key>, n: nat)
    requires 0 < n <= |rows|
    ensures Listing(Below(rows, Some(Listing(rows)[n - 1]))) == Listing(rows)[n..]
  {
    var all := Listing(rows);
    ListingDescends(rows);
    hide Less, Listing;
    forall k
      ensures k in all[n..] <==> k in Below(rows, Some(all[n - 1]))
    {
      AfterIsBelow(all, n, k);
    }
    ListingIsUnique(all[n..], Below(rows, Some(all[n - 1])));
  }

  lemma BelowTwice(rows: set<Key>, cursor: Option<Key>, k: Key)
    requires k in Below(rows, cursor)
    ensures Below(Below(rows, cursor), Some(k)) == Below(rows, Some(k))
  {
  }

  // Rows that arrive later sort above every row of the first snapshot.
  ghost predicate OnlyNewer(first: set<Key>, later: set<Key>) {
    first <= later && forall k, old' :: k in later && k !in first && old' in first ==> Less(old', k)
  }

  lemma NewerRowsStayAbove(first: set<Key>, later: set<Key>, k: Key)
    requires OnlyNewer(first, later) && k in first
    ensures Below(later, Some(k)) == Below(first, Some(k))
  {
  }

  // Enough requests for `total` rows and the empty page that ends the listing.
  predicate Enough(requests: nat, total: nat, limit: int) {
    requests > 0 && (requests - 1) * PageSize(limit) >= total
  }

  lemma EnoughLeft(requests: nat, total: nat, limit: int, n: nat)
    requires Enough(requests, total, limit) && 0 < n <= total && (n == PageSize(limit) || n == total)
    ensures Enough(requests - 1, total - n, limit)
  {
    var size := PageSize(limit);
    if requests > 1 {
      assert (requests - 1) * size == (requests - 2) * size + size;
      assert (requests - 2) * size >= 0;
    }
  }

  // A non-empty page starts the listing of the rows below the cursor and ends on one of them.
  lemma PageStartsListing(rows: set<Key>, limit: int)
    requires rows != {}
    ensures var page := Take(Listing(rows), PageSize(limit));
            && 0 < |page| <= |rows| && (|page| == PageSize(limit) || |page| == |rows|)
            && page == Listing(rows)[..|page|]
            && page[|page| - 1] == Listing(rows)[|page| - 1] && page[|page| - 1] in rows
  {
    var all := Listing(rows);
    assert |all| == |rows| && (|all| == 0 ==> rows == {});
    TakeIsPrefix(all, PageSize(limit));
    var n := |Take(all, PageSize(limit))|;
    assert all[n - 1] in rows by { assert all[n - 1] in all; }
    hide Listing, Take, PageSize;
  }

  lemma TakeIsPrefix(s: seq<Key>, n: nat)
    requires s != [] && n > 0
    ensures var t := Take(s, n); 0 < |t| <= |s| && |t| <= n && (|t| == n || |t| == |s|) && t == s[..|t|]
  {
  }

  // The rows below the last key of such a page are the rest of the listing.
  lemma RestOfListing(rows: set<Key>, cursor: Option<Key>, n: nat)
    requires 0 < n <= |Below(rows, cursor)|
    ensures var left := Below(rows, cursor);
            var rest := Below(rows, Some(Listing(left)[n - 1]));
            Listing(rest) == Listing(left)[n..] && |rest| == |left| - n
  {
    var left := Below(rows, cursor);
    var k := Listing(left)[n - 1];
    BelowSplitsListing(left, n);
    assert k in left;
    BelowTwice(rows, cursor, k);
    hide Listing, Below;
    assert Listing(Below(left, Some(k))) == Listing(left)[n..];
  }

  // After a non-empty page the rows left are the rest of the listing.
  lemma PageAdvances(first: set<Key>, cursor: Option<Key>, limit: int)
    requires Below(first, cursor) != {}
    ensures var left := Below(first, cursor);
            var page := Take(Listing(left), PageSize(limit));
            && 0 < |page| <= |left| && (|page| == PageSize(limit) || |page| == |left|)
            && page[|page| - 1] in left
            && Listing(left) == page + Listing(Below(first, NextCursor(page)))
            && |Below(first, NextCursor(page))| == |left| - |page|
  {
    var left := Below(first, cursor);
    var page := Take(Listing(left), PageSize(limit));
    PageStartsListing(left, limit);
    RestOfListing(first, cursor, |page|);
    hide Listing, Below, Take, PageSize;
    assert Listing(left) == Listing(left)[..|page|] + Listing(left)[|page|..];
  }

  ghost predicate AllNewer(first: set<Key>, snaps: seq<set<Key>>) {
    forall i :: 0 <= i < |snaps| ==> OnlyNewer(first, snaps[i])
  }

  lemma AllNewerTail(first: set<Key>, snaps: seq<set<Key>>)
    requires snaps != [] && AllNewer(first, snaps)
    ensures OnlyNewer(first, snaps[0]) && AllNewer(first, snaps[1..])
  {
    hide OnlyNewer;
  }

  // The next request sees what the first one would have.
  lemma SameBelow(first: set<Key>, snap: set<Key>, cursor: Option<Key>)
    requires OnlyNewer(first, snap) && (if cursor.Some? then cursor.value in first else snap == first)
    ensures Below(snap, cursor) == Below(first, cursor)
    ensures forall k :: k in Below(first, cursor) ==> k in first
  {
    if cursor.Some? { NewerRowsStayAbove(first, snap, cursor.value); }
  }

  // One page of such a client.
  lemma FollowOne(first: set<Key>, snaps: seq<set<Key>>, limit: int, cursor: Option<Key>)
    requires |snaps| > 0 && Below(snaps[0], cursor) == Below(first, cursor) != {}
    requires Enough(|snaps|, |Below(first, cursor)|, limit)
    ensures var page := Page(snaps[0], limit, cursor);
            var next := NextCursor(page);
            var rest := Follow(snaps[1..], limit, next);
            && next.Some? && next.value in Below(first, cursor)
            && Enough(|snaps[1..]|, |Below(first, next)|, limit)
            && Listing(Below(first, cursor)) == page + Listing(Below(first, next))
            && Follow(snaps, limit, cursor) == (page + rest.0, rest.1)
  {
    hide Follow, Listing, Enough, PageSize, Take, Below;
    PageAdvances(first, cursor, limit);
    PageBelow(snaps[0], limit, cursor);
    FollowSteps(snaps, limit, cursor);
    EnoughLeft(|snaps|, |Below(first, cursor)|, limit, |Page(snaps[0], limit, cursor)|);
  }

  // Following pages from a cursor yields exactly the rows of `first` below it.
  lemma {:induction false} FollowFrom(first: set<Key>, snaps: seq<set<Key>>, limit: int, cursor: Option<Key>)
    requires AllNewer(first, snaps)
    requires Enough(|snaps|, |Below(first, cursor)|, limit)
    requires if cursor.Some? then cursor.value in first else |snaps| > 0 && snaps[0] == first
    ensures Follow(snaps, limit, cursor) == (Listing(Below(first, cursor)), true)
    decreases |snaps|
  {
    assert |snaps| > 0;
    hide *;
    AllNewerTail(first, snaps);
    SameBelow(first, snaps[0], cursor);
    if Below(first, cursor) == {} {
      FollowEnds(snaps, limit, cursor);
    } else {
      FollowOne(first, snaps, limit, cursor);
      FollowFrom(first, snaps[1..], limit, NextCursor(Page(snaps[0], limit, cursor)));
    }
  }

  lemma FollowEnds(snaps: seq<set<Key>>, limit: int, cursor: Option<Key>)
    requires Below(if snaps == [] then {} else snaps[0], cursor) == {}
    ensures Listing({}) == []
    ensures snaps != [] ==> Follow(snaps, limit, cursor) == ([], true)
  {
    assert |Listing({})| == 0;
  }

  lemma FollowSteps(snaps: seq<set<Key>>, limit: int, cursor: Option<Key>)
    requires snaps != [] && Page(snaps[0], limit, cursor) != []
    ensures var page := Page(snaps[0], limit, cursor);
            var rest := Follow(snaps[1..], limit, NextCursor(page));
            Follow(snaps, limit, cursor) == (page + rest.0, rest.1)
  {
    hide Page;
  }

  lemma PageBelow(rows: set<Key>, limit: int, cursor: Option<Key>)
    ensures Page(rows, limit, cursor) == Take(Listing(Below(rows, cursor)), PageSize(limit))
  {
    hide Listing, Below, Take, PageSize;
  }

  /* ---- paging a table that changes ---- */

  // Rows are added between requests, anywhere in the order.
  ghost predicate Growing(snaps: seq<set<Key>>) {
    forall i, j :: 0 <= i < j < |snaps| ==> snaps[i] <= snaps[j]
  }

  // Enough requests when each late row may cost one request of its own.
  ghost predicate EnoughLive(requests: nat, first: set<Key>, last: set<Key>, limit: int) {
    requests >= |last - first| && Enough(requests - |last - first|, |first|, limit)
  }

  // Collected below the cursor: only rows of the last snapshot, in order; if the client saw the
  // end, all rows of the first one.
  ghost predicate Collected(items: seq<Key>, done: bool, first: set<Key>, last: set<Key>) {
    && Descending(items) && (forall k :: k in items ==> k in last) && (done ==> forall k :: k in first ==> k in items)
  }

  // A page is the upper end of the rows below the cursor.
  lemma PageIsTop(page: seq<Key>, left: set<Key>, stay: set<Key>)
    requires page != [] && Listing(left) == page + Listing(stay)
    ensures Descending(page) && (forall k :: k in page ==> k in left)
    ensures forall k :: k in left ==> k in page || k in stay
  {
    ListingDescends(left);
    var all := Listing(left);
    assert forall i :: 0 <= i < |page| ==> page[i] == all[i];
    forall k | k in left
      ensures k in page || k in stay
    {
      assert k in all;
    }
    forall k | k in page
      ensures k in left
    {
      assert k in all;
    }
  }

  lemma DescendingJoins(page: seq<Key>, rest: seq<Key>)
    requires page != [] && Descending(page) && Descending(rest)
    requires forall k :: k in rest ==> Less(k, page[|page| - 1])
    ensures Descending(page + rest)
  {
    var all, end := page + rest, page[|page| - 1];
    forall i, j | 0 <= i < j < |all|
      ensures Less(all[j], all[i])
    {
      if i < |page| <= j {
        assert all[j] == rest[j - |page|] && rest[j - |page|] in rest;
        assert i < |page| - 1 ==> Less(end, page[i]);
      }
    }
  }

  lemma PageThenRest(page: seq<Key>, rest: seq<Key>, done: bool, snap: set<Key>, next: set<Key>, last: set<Key>,
                     cursor: Option<Key>)
    requires page != [] && snap <= next <= last
    requires Listing(Below(snap, cursor)) == page + Listing(Below(snap, NextCursor(page)))
    requires Collected(rest, done, Below(next, NextCursor(page)), Below(last, NextCursor(page)))
    ensures Collected(page + rest, done, Below(snap, cursor), Below(last, cursor))
  {
    PageIsTop(page, Below(snap, cursor), Below(snap, NextCursor(page)));
    hide Listing, Descending;
    assert page[|page| - 1] in page;
    DescendingJoins(page, rest);
  }

  // The arithmetic of one page: n of `left` rows taken, `late` new ones come.
  lemma SpareLeft(spare: int, size: nat, left: nat, n: nat, late: nat, spare': int)
    requires size >= 1 && spare * size >= left && 0 < n <= left && (n == size || n == left)
    requires spare' >= spare - 1 + late
    ensures spare' >= 0 && spare' * size >= left - n + late
  {
    if spare <= 0 { TimesMonotone(0, -spare, size); }
    TimesMonotone(spare - 1 + late, spare', size);
    TimesMonotone(1, size, late);
    Products(spare, late, size);
  }

  lemma Products(spare: int, late: nat, size: nat)
    ensures (spare - 1 + late) * size == spare * size - size + late * size
    ensures -spare * size == -(spare * size)
  {
  }

  lemma LiveRest(requests: nat, left: set<Key>, total: set<Key>, left': set<Key>, total': set<Key>, n: nat, limit: int)
    requires EnoughLive(requests, left, total, limit) && left <= total && left' <= total' <= total && requests > 1
    requires 0 < n <= |left| && (n == PageSize(limit) || n == |left|)
    requires |left'| >= |left| - n && |total' - left'| <= |total - left| - (|left'| - (|left| - n))
    ensures EnoughLive(requests - 1, left', total', limit)
  {
    var late := |left'| - (|left| - n);
    SpareLeft(requests - |total - left| - 1, PageSize(limit), |left|, n, late, requests - 1 - |total' - left'| - 1);
  }

  // How many rows are still to come shrinks by those that have come.
  lemma LateRows(snap: set<Key>, next: set<Key>, last: set<Key>, cursor: Option<Key>, k: Key)
    requires snap <= next <= last && k in Below(snap, cursor)
    ensures var left, total := Below(snap, cursor), Below(last, cursor);
            var stay, left', total' := Below(snap, Some(k)), Below(next, Some(k)), Below(last, Some(k));
            && |left'| >= |stay| && |total' - left'| <= |total - left| - (|left'| - |stay|)
  {
    var left, total := Below(snap, cursor), Below(last, cursor);
    var stay, left', total' := Below(snap, Some(k)), Below(next, Some(k)), Below(last, Some(k));
    assert left' == stay + (left' - stay);
    var late, gone := total' - left', left' - stay;
    assert late + gone <= total - left && late * gone == {};
    SubsetSize(late + gone, total - left);
  }

  // What following the pages from a cursor guarantees.
  ghost predicate LiveResult(snaps: seq<set<Key>>, limit: int, cursor: Option<Key>, items: seq<Key>, done: bool)
    requires |snaps| > 0
  {
    var left, total := Below(snaps[0], cursor), Below(snaps[|snaps| - 1], cursor);
    Collected(items, done, left, total) && (EnoughLive(|snaps|, left, total, limit) ==> done)
  }

  lemma {:induction false} LiveFrom(snaps: seq<set<Key>>, limit: int, cursor: Option<Key>)
    requires |snaps| > 0 && Growing(snaps)
    ensures LiveResult(snaps, limit, cursor, Follow(snaps, limit, cursor).0, Follow(snaps, limit, cursor).1)
    decreases |snaps|
  {
    GrowingTail(snaps);
    hide Follow, Page, Growing, Below, LiveResult;
    if Below(snaps[0], cursor) == {} {
      FollowEnds(snaps, limit, cursor);
      LiveEnd(snaps, limit, cursor);
    } else {
      PageIsThere(snaps[0], limit, cursor);
      FollowSteps(snaps, limit, cursor);
      var page, later := Page(snaps[0], limit, cursor), snaps[1..];
      if |snaps| == 1 {
        NoRequests(later, limit, NextCursor(page));
        LiveLast(snaps, limit, cursor);
      } else {
        LiveFrom(later, limit, NextCursor(page));
        var tail := Follow(later, limit, NextCursor(page));
        LiveNext(snaps, limit, cursor, tail.0, tail.1);
      }
    }
  }

  lemma PageIsThere(rows: set<Key>, limit: int, cursor: Option<Key>)
    requires Below(rows, cursor) != {}
    ensures var left, page := Below(rows, cursor), Page(rows, limit, cursor);
            && 0 < |page| <= |left| && (|page| == PageSize(limit) || |page| == |left|)
            && page[|page| - 1] in left
            && Listing(left) == page + Listing(Below(rows, NextCursor(page)))
            && |Below(rows, NextCursor(page))| == |left| - |page|
  {
    PageAdvances(rows, cursor, limit);
    PageBelow(rows, limit, cursor);
  }

  lemma LiveEnd(snaps: seq<set<Key>>, limit: int, cursor: Option<Key>)
    requires |snaps| > 0 && Below(snaps[0], cursor) == {}
    ensures LiveResult(snaps, limit, cursor, [], true)
  {
  }

  lemma LiveLast(snaps: seq<set<Key>>, limit: int, cursor: Option<Key>)
    requires |snaps| == 1 && Below(snaps[0], cursor) != {}
    ensures LiveResult(snaps, limit, cursor, Page(snaps[0], limit, cursor) + [], false)
  {
    var left, page := Below(snaps[0], cursor), Page(snaps[0], limit, cursor);
    PageIsThere(snaps[0], limit, cursor);
    OneRequest(left, left, limit);
    NothingMore(Below(snaps[0], NextCursor(page)));
    hide Follow, Listing, Below, Page, EnoughLive, Collected;
    PageThenRest(page, [], false, snaps[0], snaps[0], snaps[0], cursor);
  }

  lemma NoRequests(snaps: seq<set<Key>>, limit: int, cursor: Option<Key>)
    requires snaps == []
    ensures Follow(snaps, limit, cursor) == ([], false)
  {
  }

  lemma GrowingTail(snaps: seq<set<Key>>)
    requires |snaps| > 0 && Growing(snaps)
    ensures Growing(snaps[1..]) && snaps[0] <= snaps[|snaps| - 1]
  {
  }

  lemma NothingMore(rows: set<Key>)
    ensures Collected([], false, rows, rows)
  {
  }

  // One page of a client that still has requests left.
  lemma LiveNext(snaps: seq<set<Key>>, limit: int, cursor: Option<Key>, rest: seq<Key>, done: bool)
    requires |snaps| > 1 && Growing(snaps) && Below(snaps[0], cursor) != {}
    requires LiveResult(snaps[1..], limit, NextCursor(Page(snaps[0], limit, cursor)), rest, done)
    ensures LiveResult(snaps, limit, cursor, Page(snaps[0], limit, cursor) + rest, done)
  {
    var page, last := Page(snaps[0], limit, cursor), snaps[|snaps| - 1];
    var later := snaps[1..];
    PageIsThere(snaps[0], limit, cursor);
    assert snaps[0] <= snaps[1] <= last && later[0] == snaps[1] && later[|later| - 1] == last;
    hide Growing, Collected, PageSize, Listing, Page, EnoughLive, Below;
    PageThenRest(page, rest, done, snaps[0], snaps[1], last, cursor);
    if EnoughLive(|snaps|, Below(snaps[0], cursor), Below(last, cursor), limit) {
      EnoughNext(|snaps|, snaps[0], snaps[1], last, limit, cursor, page);
    }
  }

  // Enough requests before a page leave enough after it.
  lemma EnoughNext(requests: nat, snap: set<Key>, next: set<Key>, last: set<Key>, limit: int, cursor: Option<Key>,
                   page: seq<Key>)
    requires requests > 1 && snap <= next <= last && page != [] && |page| <= |Below(snap, cursor)|
    requires page[|page| - 1] in Below(snap, cursor) && (|page| == PageSize(limit) || |page| == |Below(snap, cursor)|)
    requires |Below(snap, NextCursor(page))| == |Below(snap, cursor)| - |page|
    requires EnoughLive(requests, Below(snap, cursor), Below(last, cursor), limit)
    ensures EnoughLive(requests - 1, Below(next, NextCursor(page)), Below(last, NextCursor(page)), limit)
  {
    var end := page[|page| - 1];
    hide EnoughLive, PageSize;
    LateRows(snap, next, last, cursor, end);
    BelowGrows(snap, last, cursor);
    BelowGrows(next, last, Some(end));
    BelowLower(last, cursor, end);
    hide Below;
    LiveRest(requests, Below(snap, cursor), Below(last, cursor), Below(next, Some(end)), Below(last, Some(end)), |page|,
             limit);
  }

  lemma BelowGrows(a: set<Key>, b: set<Key>, cursor: Option<Key>)
    requires a <= b
    ensures Below(a, cursor) <= Below(b, cursor)
  {
  }

  lemma BelowLower(rows: set<Key>, cursor: Option<Key>, k: Key)
    requires k in Below(rows, cursor)
    ensures Below(rows, Some(k)) <= Below(rows, cursor)
  {
  }

  lemma OneRequest(left: set<Key>, total: set<Key>, limit: int)
    requires left != {}
    ensures !EnoughLive(1, left, total, limit)
  {
  }

  // The collected rows that the first request could see.
  ghost function Only(items: seq<Key>, rows: set<Key>): seq<Key> {
    if items == [] then [] else (if items[0] in rows then [items[0]] else []) + Only(items[1..], rows)
  }

  lemma {:induction false} OnlyKeepsOrder(items: seq<Key>, rows: set<Key>)
    requires Descending(items)
    ensures Descending(Only(items, rows))
    ensures forall k :: k in Only(items, rows) <==> k in items && k in rows
  {
    if items != [] {
      OnlyKeepsOrder(items[1..], rows);
      assert forall k :: k in items <==> k == items[0] || k in items[1..];
      forall k | k in items[1..]
        ensures Less(k, items[0])
      {
        var i :| 0 <= i < |items[1..]| && items[1..][i] == k;
        assert items[i + 1] == k;
      }
    }
  }

  /** Paging a table that grows in any way between requests: a client never collects a row twice or
      out of order, and one that reaches the empty page has collected the rows of its first request
      exactly once.  It does reach it given a request for each late row besides the full pages. */
  lemma LivePaging(snaps: seq<set<Key>>, limit: int)
    requires |snaps| > 0 && Growing(snaps)
    ensures var (items, done) := Follow(snaps, limit, None);
            && Descending(items) && (forall k :: k in items ==> k in snaps[|snaps| - 1])
            && (done ==> Only(items, snaps[0]) == Listing(snaps[0]))
            && (EnoughLive(|snaps|, snaps[0], snaps[|snaps| - 1], limit) ==> done)
  {
    var first, last := snaps[0], snaps[|snaps| - 1];
    assert Below(first, None) == first && Below(last, None) == last;
    LiveFrom(snaps, limit, None);
    var (items, done) := Follow(snaps, limit, None);
    OnlyKeepsOrder(items, first);
    if done { ListingIsUnique(Only(items, first), first); }
  }

  /** When late rows all sort above the first request's rows, nothing else is collected. */
  lemma PagingIsListing(snaps: seq<set<Key>>, limit: int)
    requires |snaps| > 0 && forall i :: 0 <= i < |snaps| ==> OnlyNewer(snaps[0], snaps[i])
    requires Enough(|snaps|, |snaps[0]|, limit)
    ensures Follow(snaps, limit, None) == (Listing(snaps[0]), true)
    ensures Descending(Listing(snaps[0]))
  {
    assert Below(snaps[0], None) == snaps[0];
    assert AllNewer(snaps[0], snaps);
    FollowFrom(snaps[0], snaps, limit, None);
    ListingDescends(snaps[0]);
  }

  /* ---- the two listings of a wallet ---- */

  // Keys of the rows of get_wallet_transactions: one per entry of the account.
  ghost function EntryKeys(log: seq<Txn>, a: Id): set<Key> {
    set t, e | t in log && e in t.entries && e.account == a :: Key(t.createdAt, e.id)
  }

  function CountEntries(es: seq<Entry>, a: Id): nat {
    if es == [] then 0 else (if es[0].account == a then 1 else 0) + CountEntries(es[1..], a)
  }

  function EntryCount(log: seq<Txn>, a: Id): nat {
    if log == [] then 0 else EntryCount(log[..|log| - 1], a) + CountEntries(log[|log| - 1].entries, a)
  }

  ghost function TxnKeys(at: nat, es: seq<Entry>, a: Id): set<Key> {
    set e | e in es && e.account == a :: Key(at, e.id)
  }

  lemma {:induction false} TxnKeysCount(at: nat, es: seq<Entry>, a: Id)
    requires DistinctEntryIds(es)
    ensures |TxnKeys(at, es, a)| == CountEntries(es, a)
  {
    if es != [] {
      var rest := TxnKeys(at, es[1..], a);
      TxnKeysCount(at, es[1..], a);
      if es[0].account == a {
        assert Key(at, es[0].id) !in rest;
        assert TxnKeys(at, es, a) == rest + {Key(at, es[0].id)};
      } else {
        assert TxnKeys(at, es, a) == rest;
      }
    }
  }

  /** No two entries of a wallet share a row key, so the listing has one row per entry. */
  lemma {:induction false} OneKeyPerEntry(log: seq<Txn>, a: Id)
    requires UniqueEntries(log)
    ensures |EntryKeys(log, a)| == EntryCount(log, a)
  {
    hide EntryKeys, TxnKeys, UniqueEntries, CountEntries;
    if log == [] {
      NoEntryKeys(a);
    } else {
      var front, t := log[..|log| - 1], log[|log| - 1];
      UniqueParts(log);
      OneKeyPerEntry(front, a);
      TxnKeysCount(t.createdAt, t.entries, a);
      LastKeysAreNew(log, a);
      EntryKeysSplit(log, a);
    }
  }

  lemma NoEntryKeys(a: Id)
    ensures EntryKeys([], a) == {}
  {
  }

  lemma UniqueParts(log: seq<Txn>)
    requires UniqueEntries(log) && log != []
    ensures UniqueEntries(log[..|log| - 1]) && DistinctEntryIds(log[|log| - 1].entries)
  {
    hide DistinctEntryIds;
  }

  lemma LastKeysAreNew(log: seq<Txn>, a: Id)
    requires UniqueEntries(log) && log != []
    ensures var t := log[|log| - 1];
            EntryKeys(log[..|log| - 1], a) * TxnKeys(t.createdAt, t.entries, a) == {}
  {
  }

  lemma EntryKeysSplit(log: seq<Txn>, a: Id)
    requires log != []
    ensures var t := log[|log| - 1];
            EntryKeys(log, a) == EntryKeys(log[..|log| - 1], a) + TxnKeys(t.createdAt, t.entries, a)
  {
  }

  predicate Touches(t: Txn, a: Id) {
    exists e :: e in t.entries && e.account == a
  }

  // Keys of the rows of get_wallet_activity: one per transaction with an entry of the
  // account; MAX(created_at) is the transaction's instant, which its entries share.
  ghost function ActivityKeys(log: seq<Txn>, a: Id): set<Key> {
    set t | t in log && Touches(t, a) :: Key(t.createdAt, t.id)
  }

  // net_cents of the activity row of transaction `id`.
  function NetCents(log: seq<Txn>, a: Id, id: Id): int {
    if log == [] then 0
    else NetCents(log[..|log| - 1], a, id) + (if log[|log| - 1].id == id then NetOf(log[|log| - 1].entries, a) else 0)
  }

  function TotalNet(log: seq<Txn>, a: Id, rows: seq<Key>): int {
    if rows == [] then 0 else NetCents(log, a, rows[0].id) + TotalNet(log, a, rows[1..])
  }

  // The sum over a listing does not depend on which row is set aside.
  lemma ListingHead(rows: set<Key>)
    requires rows != {}
    ensures Listing(rows) == [Greatest(rows)] + Listing(rows - {Greatest(rows)})
  {
  }

  lemma GreatestStays(rows: set<Key>, k: Key)
    requires k in rows && k != Greatest(rows)
    ensures rows - {k} != {} && Greatest(rows - {k}) == Greatest(rows)
  {
    assert Greatest(rows) in rows - {k};
  }

  lemma TotalNetHead(log: seq<Txn>, a: Id, rows: set<Key>)
    requires rows != {}
    ensures TotalNet(log, a, Listing(rows))
            == NetCents(log, a, Greatest(rows).id) + TotalNet(log, a, Listing(rows - {Greatest(rows)}))
  {
    ListingHead(rows);
    hide Listing;
    assert ([Greatest(rows)] + Listing(rows - {Greatest(rows)}))[1..] == Listing(rows - {Greatest(rows)});
  }

  lemma {:induction false} TotalNetRemove(log: seq<Txn>, a: Id, rows: set<Key>, k: Key)
    requires k in rows
    ensures TotalNet(log, a, Listing(rows)) == TotalNet(log, a, Listing(rows - {k})) + NetCents(log, a, k.id)
    decreases |rows|
  {
    hide Listing, TotalNet, NetCents;
    var top := Greatest(rows);
    TotalNetHead(log, a, rows);
    if k != top {
      GreatestStays(rows, k);
      TotalNetRemove(log, a, rows - {top}, k);
      assert rows - {k} - {top} == rows - {top} - {k};
      TotalNetHead(log, a, rows - {k});
    }
  }

  lemma {:induction false} OtherIdNet(log: seq<Txn>, a: Id, id: Id)
    requires forall t :: t in log ==> t.id != id
    ensures NetCents(log, a, id) == 0
  {
    if log != [] {
      OtherIdNet(log[..|log| - 1], a, id);
    }
  }

  lemma {:induction false} TotalNetLonger(log: seq<Txn>, t: Txn, a: Id, rows: seq<Key>)
    requires forall k :: k in rows ==> k.id != t.id
    ensures TotalNet(log + [t], a, rows) == TotalNet(log, a, rows)
  {
    if rows != [] {
      TotalNetLonger(log, t, a, rows[1..]);
      assert (log + [t])[..|log|] == log;
    }
  }

  lemma ActivityKeysAppend(log: seq<Txn>, t: Txn, a: Id)
    ensures ActivityKeys(log + [t], a) ==
            ActivityKeys(log, a) + (if Touches(t, a) then {Key(t.createdAt, t.id)} else {})
  {
  }

  lemma LastIsNew(log: seq<Txn>, t: Txn)
    requires UniqueTxns(log + [t])
    ensures forall t' :: t' in log ==> t'.id != t.id
    ensures UniqueTxns(log)
  {
    forall t' | t' in log
      ensures t'.id != t.id
    {
      var i :| 0 <= i < |log| && log[i] == t';
      assert (log + [t])[i].id != (log + [t])[|log|].id;
    }
    forall i, j | 0 <= i < j < |log|
      ensures (log + [t])[i] == log[i] && (log + [t])[j] == log[j]
    {
    }
  }

  lemma ActivityTotalStep(log: seq<Txn>, t: Txn, a: Id)
    requires forall t' :: t' in log ==> t'.id != t.id
    requires TotalNet(log, a, Listing(ActivityKeys(log, a))) == LedgerSum(log, a)
    ensures TotalNet(log + [t], a, Listing(ActivityKeys(log + [t], a))) == LedgerSum(log + [t], a)
  {
    var rows, k := ActivityKeys(log, a), Key(t.createdAt, t.id);
    SumAppend(log, t, a);
    ActivityKeysAppend(log, t, a);
    TotalNetLonger(log, t, a, Listing(rows));
    if Touches(t, a) {
      ActivityTotalTouched(log, t, a, rows, k);
    } else {
      UntouchedNet(t.entries, a);
      assert ActivityKeys(log + [t], a) == rows;
    }
  }

  lemma ActivityTotalTouched(log: seq<Txn>, t: Txn, a: Id, rows: set<Key>, k: Key)
    requires k == Key(t.createdAt, t.id) && k !in rows
    requires forall t' :: t' in log ==> t'.id != t.id
    ensures TotalNet(log + [t], a, Listing(rows + {k})) == TotalNet(log + [t], a, Listing(rows)) + NetOf(t.entries, a)
  {
    assert rows + {k} - {k} == rows;
    TotalNetRemove(log + [t], a, rows + {k}, k);
    OtherIdNet(log, a, t.id);
    assert (log + [t])[..|log|] == log;
  }

  /** The net_cents of a wallet's activity total its ledger sum. */
  lemma {:induction false} ActivityTotalsLedger(log: seq<Txn>, a: Id)
    requires UniqueTxns(log)
    ensures TotalNet(log, a, Listing(ActivityKeys(log, a))) == LedgerSum(log, a)
  {
    if log == [] {
      assert ActivityKeys(log, a) == {};
    } else {
      var front, t := log[..|log| - 1], log[|log| - 1];
      assert log == front + [t];
      LastIsNew(front, t);
      ActivityTotalsLedger(front, a);
      ActivityTotalStep(front, t, a);
    }
  }

  /* ---- a ledger that is posted to between requests ---- */

  // The database as each request sees it: batches[i] is posted between requests i and i + 1.
  function States(cfg: Config, db: Db, batches: seq<seq<Op>>): (dbs: seq<Db>)
    ensures |dbs| == |batches| + 1 && dbs[0] == db
    decreases |batches|
  {
    [db] + (if batches == [] then [] else States(cfg, Run(cfg, db, batches[0]), batches[1..]))
  }

  ghost function EntrySnaps(dbs: seq<Db>, a: Id): seq<set<Key>> {
    seq(|dbs|, i requires 0 <= i < |dbs| => EntryKeys(dbs[i].log, a))
  }

  ghost function ActivitySnaps(dbs: seq<Db>, a: Id): seq<set<Key>> {
    seq(|dbs|, i requires 0 <= i < |dbs| => ActivityKeys(dbs[i].log, a))
  }

  lemma {:induction false} LogGrows(cfg: Config, db: Db, ops: seq<Op>)
    requires Inv(db)
    ensures db.log <= Run(cfg, db, ops).log && Inv(Run(cfg, db, ops))
    decreases |ops|
  {
    if ops != [] {
      var t, ids, m := StepShape(cfg, db, ops[0]);
      var next := Apply(cfg, db, ops[0]).0;
      assert db.log <= next.log;
      StepKeepsInv(cfg, db, ops[0]);
      hide Inv, Apply;
      LogGrows(cfg, next, ops[1..]);
    }
  }

  ghost predicate Grows(dbs: seq<Db>) { forall i, j :: 0 <= i < j < |dbs| ==> dbs[i].log <= dbs[j].log }

  ghost predicate AllInv(dbs: seq<Db>) { forall i :: 0 <= i < |dbs| ==> Inv(dbs[i]) }

  lemma PrefixTwice(a: seq<Txn>, b: seq<Txn>, c: seq<Txn>)
    requires a <= b <= c
    ensures a <= c
  {
    assert c[..|a|] == c[..|b|][..|a|];
  }

  lemma GrowsInFront(db: Db, rest: seq<Db>)
    requires |rest| > 0 && Grows(rest) && db.log <= rest[0].log
    ensures Grows([db] + rest)
  {
    var dbs := [db] + rest;
    forall i, j | 0 <= i < j < |dbs|
      ensures dbs[i].log <= dbs[j].log
    {
      if i == 0 && j > 1 { PrefixTwice(db.log, rest[0].log, rest[j - 1].log); }
    }
  }

  lemma {:induction false} StatesGrow(cfg: Config, db: Db, batches: seq<seq<Op>>)
    requires Inv(db)
    ensures AllInv(States(cfg, db, batches)) && Grows(States(cfg, db, batches))
    decreases |batches|
  {
    if batches != [] {
      var next := Run(cfg, db, batches[0]);
      LogGrows(cfg, db, batches[0]);
      hide Inv, Run;
      StatesGrow(cfg, next, batches[1..]);
      GrowsInFront(db, States(cfg, next, batches[1..]));
    }
  }

  lemma KeysGrow(log: seq<Txn>, longer: seq<Txn>, a: Id)
    requires log <= longer
    ensures EntryKeys(log, a) <= EntryKeys(longer, a) && ActivityKeys(log, a) <= ActivityKeys(longer, a)
  {
    assert forall t :: t in log ==> t in longer;
  }

  lemma SnapsGrow(dbs: seq<Db>, a: Id)
    requires Grows(dbs)
    ensures Growing(EntrySnaps(dbs, a)) && Growing(ActivitySnaps(dbs, a))
  {
    forall i, j | 0 <= i < j < |dbs|
      ensures EntryKeys(dbs[i].log, a) <= EntryKeys(dbs[j].log, a)
      ensures ActivityKeys(dbs[i].log, a) <= ActivityKeys(dbs[j].log, a)
    {
      KeysGrow(dbs[i].log, dbs[j].log, a);
    }
    hide EntryKeys, ActivityKeys;
  }

  // `items` lists every entry of account `a` once, newest first, and nothing else.
  ghost predicate ListsEntries(items: seq<Key>, log: seq<Txn>, a: Id) {
    && |items| == EntryCount(log, a)
    && Descending(items)
    && (forall k :: k in items <==> k in EntryKeys(log, a))
  }

  lemma {:induction false} OnlyAll(items: seq<Key>, rows: set<Key>)
    requires forall k :: k in items ==> k in rows
    ensures Only(items, rows) == items
  {
    if items != [] {
      assert items[0] in items && forall k :: k in items[1..] ==> k in items;
      OnlyAll(items[1..], rows);
    }
  }

  lemma ListingListsEntries(log: seq<Txn>, a: Id)
    requires UniqueEntries(log)
    ensures ListsEntries(Listing(EntryKeys(log, a)), log, a)
  {
    OneKeyPerEntry(log, a);
    ListingDescends(EntryKeys(log, a));
    hide EntryKeys, UniqueEntries, EntryCount;
  }

  lemma EntryPages(dbs: seq<Db>, a: Id, limit: int)
    requires |dbs| > 0 && Grows(dbs) && UniqueEntries(dbs[0].log)
    ensures var first, last := EntryKeys(dbs[0].log, a), EntryKeys(dbs[|dbs| - 1].log, a);
            var (items, done) := Follow(EntrySnaps(dbs, a), limit, None);
            && Descending(items) && (forall k :: k in items ==> k in last)
            && (done ==> ListsEntries(Only(items, first), dbs[0].log, a))
            && (done && last == first ==> ListsEntries(items, dbs[0].log, a))
            && (EnoughLive(|dbs|, first, last, limit) ==> done)
  {
    var snaps, log := EntrySnaps(dbs, a), dbs[0].log;
    SnapsGrow(dbs, a);
    LivePaging(snaps, limit);
    ListingListsEntries(log, a);
    var items, first := Follow(snaps, limit, None).0, EntryKeys(log, a);
    assert snaps[0] == first && snaps[|snaps| - 1] == EntryKeys(dbs[|dbs| - 1].log, a);
    hide *;
    if snaps[|snaps| - 1] == first { OnlyAll(items, first); }
  }

  /** In any reachable ledger, whatever is posted between the requests and with whatever clock
      readings, the transaction pages hold each entry that the first request could see exactly once,
      newest first; with nothing posted they hold nothing else. */
  lemma TransactionPagesHoldEachEntry(cfg: Config, ops: seq<Op>, batches: seq<seq<Op>>, a: Id, limit: int)
    ensures var db := Run(cfg, EMPTY, ops);
            var dbs := States(cfg, db, batches);
            var first, last := EntryKeys(db.log, a), EntryKeys(dbs[|batches|].log, a);
            var (items, done) := Follow(EntrySnaps(dbs, a), limit, None);
            && Descending(items) && (forall k :: k in items ==> k in last)
            && (done ==> ListsEntries(Only(items, first), db.log, a))
            && (done && last == first ==> ListsEntries(items, db.log, a))
            && (EnoughLive(|dbs|, first, last, limit) ==> done)
  {
    var db := Run(cfg, EMPTY, ops);
    EmptyInv();
    RunKeepsInv(cfg, EMPTY, ops);
    StatesGrow(cfg, db, batches);
    assert UniqueEntries(db.log);
    hide Inv, Run, States, Follow, EntryKeys, EntrySnaps, EnoughLive, ListsEntries, Only, UniqueEntries;
    EntryPages(States(cfg, db, batches), a, limit);
  }

  lemma {:induction false} NetIsStable(log: seq<Txn>, longer: seq<Txn>, a: Id, id: Id)
    requires log <= longer && UniqueTxns(longer) && TxnIdUsed(log, id)
    ensures NetCents(longer, a, id) == NetCents(log, a, id)
    decreases |longer|
  {
    if log != longer {
      var front := longer[..|longer| - 1];
      assert longer == front + [longer[|longer| - 1]] && log <= front;
      LastIsNew(front, longer[|longer| - 1]);
      NetIsStable(log, front, a, id);
    } else {
      assert log == longer;
    }
  }

  lemma {:induction false} TotalIsStable(log: seq<Txn>, longer: seq<Txn>, a: Id, rows: seq<Key>)
    requires log <= longer && UniqueTxns(longer) && forall k :: k in rows ==> TxnIdUsed(log, k.id)
    ensures TotalNet(longer, a, rows) == TotalNet(log, a, rows)
  {
    if rows != [] {
      NetIsStable(log, longer, a, rows[0].id);
      TotalIsStable(log, longer, a, rows[1..]);
    }
  }

  lemma ActivityPages(dbs: seq<Db>, a: Id, limit: int)
    requires |dbs| > 0 && Grows(dbs) && UniqueTxns(dbs[0].log) && UniqueTxns(dbs[|dbs| - 1].log)
    ensures var log, last := dbs[0].log, dbs[|dbs| - 1].log;
            var first, final := ActivityKeys(log, a), ActivityKeys(last, a);
            var (items, done) := Follow(ActivitySnaps(dbs, a), limit, None);
            && Descending(items) && (forall k :: k in items ==> k in final)
            && (done ==> Only(items, first) == Listing(first)
                         && TotalNet(log, a, Only(items, first)) == LedgerSum(log, a)
                         && TotalNet(last, a, Only(items, first)) == LedgerSum(log, a))
            && (done && final == first ==> TotalNet(last, a, items) == LedgerSum(log, a))
            && (EnoughLive(|dbs|, first, final, limit) ==> done)
  {
    var snaps, log, last := ActivitySnaps(dbs, a), dbs[0].log, dbs[|dbs| - 1].log;
    SnapsGrow(dbs, a);
    LivePaging(snaps, limit);
    ActivityTotalsLedger(log, a);
    assert log <= last by { if |dbs| == 1 { assert log == last; } }
    ListedIds(log, a);
    hide Follow, ActivityKeys, Grows, EnoughLive, Growing, UniqueTxns, TxnIdUsed, Listing, Only;
    TotalIsStable(log, last, a, Listing(snaps[0]));
    var items := Follow(snaps, limit, None).0;
    if snaps[|dbs| - 1] == snaps[0] { OnlyAll(items, snaps[0]); }
  }

  lemma ListedIds(log: seq<Txn>, a: Id)
    ensures forall k :: k in Listing(ActivityKeys(log, a)) ==> TxnIdUsed(log, k.id)
  {
    KnownIds(log, a);
    hide TxnIdUsed, ActivityKeys;
  }

  /** In any reachable ledger, whatever is posted between the requests, the activity rows that the
      first request could see are collected once each and add up to the balance of that moment, in
      the amounts shown then and later; with nothing posted all that is collected adds up to it. */
  lemma ActivityPagesTotalBalance(cfg: Config, ops: seq<Op>, batches: seq<seq<Op>>, a: Id, limit: int)
    ensures var db := Run(cfg, EMPTY, ops);
            var dbs := States(cfg, db, batches);
            var first, last, balance := ActivityKeys(db.log, a), dbs[|batches|].log, AvailableBalance(db, a);
            var (items, done) := Follow(ActivitySnaps(dbs, a), limit, None);
            && Descending(items) && (forall k :: k in items ==> k in ActivityKeys(last, a))
            && (done ==> Only(items, first) == Listing(first) && TotalNet(db.log, a, Only(items, first)) == balance
                         && TotalNet(last, a, Only(items, first)) == balance)
            && (done && ActivityKeys(last, a) == first ==> TotalNet(last, a, items) == balance)
            && (EnoughLive(|dbs|, first, ActivityKeys(last, a), limit) ==> done)
  {
    var db := Run(cfg, EMPTY, ops);
    EmptyInv();
    RunKeepsInv(cfg, EMPTY, ops);
    StatesGrow(cfg, db, batches);
    CacheRefinesLog(cfg, ops, a);
    var dbs := States(cfg, db, batches);
    assert Inv(dbs[|batches|]);
    assert UniqueTxns(db.log) && UniqueTxns(dbs[|batches|].log);
    hide Inv, Run, States, Follow, ActivityKeys, ActivitySnaps, EnoughLive, Listing, Only, UniqueTxns, TotalNet,
      AvailableBalance;
    ActivityPages(dbs, a, limit);
  }

  lemma KnownIds(log: seq<Txn>, a: Id)
    ensures forall k :: k in ActivityKeys(log, a) ==> TxnIdUsed(log, k.id)
  {
  }

  /* ---- a clock that moves on ---- */

  function InstantOf(op: Op): Option<nat> {
    match op
    case OpCashIn(r) => Some(r.now)
    case OpCashOut(r) => Some(r.now)
    case OpP2P(r) => Some(r.now)
    case _ => None
  }

  ghost predicate AllLater(log: seq<Txn>, ops: seq<Op>) {
    forall t, op :: t in log && op in ops && InstantOf(op).Some? ==> t.createdAt < InstantOf(op).value
  }

  lemma StepPosts(cfg: Config, db: Db, op: Op)
    requires Inv(db)
    ensures forall t :: t in Apply(cfg, db, op).0.log ==> t in db.log || InstantOf(op) == Some(t.createdAt)
  {
    var after := Apply(cfg, db, op).0;
    if after != db {
      match op
      case OpCashIn(r) => var t, m := CashInMoves(db, r);
      case OpCashOut(r) => var t, m := CashOutMoves(cfg, db, r);
      case OpP2P(r) => var t, m := TransferMoves(cfg, db, r);
      case _ =>
    }
    hide CashIn, CashOut, Transfer;
  }

  lemma {:induction false} RunPosts(cfg: Config, db: Db, ops: seq<Op>)
    requires Inv(db)
    ensures forall t :: t in Run(cfg, db, ops).log ==>
              t in db.log || exists op :: op in ops && InstantOf(op) == Some(t.createdAt)
    decreases |ops|
  {
    if ops != [] {
      var next := Apply(cfg, db, ops[0]).0;
      StepPosts(cfg, db, ops[0]);
      StepKeepsInv(cfg, db, ops[0]);
      hide Inv, Apply, InstantOf;
      RunPosts(cfg, next, ops[1..]);
      assert forall op :: op in ops[1..] ==> op in ops;
    }
  }

  /** Calls at instants later than all that is posted only add newer rows. */
  lemma LaterPostingsAreNewer(cfg: Config, db: Db, ops: seq<Op>, a: Id)
    requires Inv(db) && AllLater(db.log, ops)
    ensures OnlyNewer(EntryKeys(db.log, a), EntryKeys(Run(cfg, db, ops).log, a))
    ensures OnlyNewer(ActivityKeys(db.log, a), ActivityKeys(Run(cfg, db, ops).log, a))
  {
    RunPosts(cfg, db, ops);
    LogGrows(cfg, db, ops);
    var after := Run(cfg, db, ops).log;
    KeysGrow(db.log, after, a);
    assert forall t, u :: t in db.log && u in after && u !in db.log ==> t.createdAt < u.createdAt;
    hide Run, Inv, AllLater;
  }

  ghost predicate AllLaterIn(log: seq<Txn>, batches: seq<seq<Op>>) {
    forall i :: 0 <= i < |batches| ==> AllLater(log, batches[i])
  }

  // Rows of `db` that are not in `log` were posted later than all of it.
  ghost predicate NewerThan(log: seq<Txn>, db: Db) {
    forall t, u :: t in log && u in db.log && u !in log ==> t.createdAt < u.createdAt
  }

  ghost predicate AllNewerThan(log: seq<Txn>, dbs: seq<Db>) {
    forall i :: 0 <= i < |dbs| ==> NewerThan(log, dbs[i])
  }

  lemma RunNewer(cfg: Config, log: seq<Txn>, db: Db, ops: seq<Op>)
    requires Inv(db) && AllLater(log, ops) && NewerThan(log, db)
    ensures NewerThan(log, Run(cfg, db, ops))
  {
    RunPosts(cfg, db, ops);
    hide Inv, Run, InstantOf;
  }

  lemma NewerInFront(log: seq<Txn>, db: Db, rest: seq<Db>)
    requires NewerThan(log, db) && AllNewerThan(log, rest)
    ensures AllNewerThan(log, [db] + rest)
  {
    hide NewerThan;
  }

  lemma {:induction false} StatesNewer(cfg: Config, log: seq<Txn>, db: Db, batches: seq<seq<Op>>)
    requires Inv(db) && AllLaterIn(log, batches) && NewerThan(log, db)
    ensures AllNewerThan(log, States(cfg, db, batches))
    decreases |batches|
  {
    if batches == [] {
      NewerInFront(log, db, []);
      assert [db] + [] == States(cfg, db, batches);
    } else {
      var next := Run(cfg, db, batches[0]);
      assert AllLater(log, batches[0]) && AllLaterIn(log, batches[1..]);
      hide Inv, Run, NewerThan, AllLater, AllLaterIn, AllNewerThan;
      LogGrows(cfg, db, batches[0]);
      RunNewer(cfg, log, db, batches[0]);
      StatesNewer(cfg, log, next, batches[1..]);
      NewerInFront(log, db, States(cfg, next, batches[1..]));
    }
  }

  lemma NewerKeys(db: Db, later: Db, a: Id)
    requires db.log <= later.log && NewerThan(db.log, later)
    ensures OnlyNewer(EntryKeys(db.log, a), EntryKeys(later.log, a))
    ensures OnlyNewer(ActivityKeys(db.log, a), ActivityKeys(later.log, a))
  {
    KeysGrow(db.log, later.log, a);
  }

  /** When every call made between the requests reads a later clock than all that was posted before
      the first one, both listings collect exactly the rows of the first request. */
  lemma LaterPostingsAreNotCollected(cfg: Config, ops: seq<Op>, batches: seq<seq<Op>>, a: Id, limit: int)
    requires AllLaterIn(Run(cfg, EMPTY, ops).log, batches)
    ensures var db := Run(cfg, EMPTY, ops);
            var dbs, entries, activity := States(cfg, db, batches), EntryKeys(db.log, a), ActivityKeys(db.log, a);
            && (Enough(|dbs|, |entries|, limit) ==> Follow(EntrySnaps(dbs, a), limit, None) == (Listing(entries), true))
            && (Enough(|dbs|, |activity|, limit) ==>
                  Follow(ActivitySnaps(dbs, a), limit, None) == (Listing(activity), true))
  {
    var db := Run(cfg, EMPTY, ops);
    EmptyInv();
    RunKeepsInv(cfg, EMPTY, ops);
    StatesGrow(cfg, db, batches);
    StatesNewer(cfg, db.log, db, batches);
    hide Inv, States, Run, NewerThan, AllNewerThan, AllLaterIn;
    hide EntryKeys, ActivityKeys, OnlyNewer, Enough, Follow, Listing;
    LaterStates(States(cfg, db, batches), a, limit);
  }

  lemma LaterStates(dbs: seq<Db>, a: Id, limit: int)
    requires |dbs| > 0 && Grows(dbs) && AllNewerThan(dbs[0].log, dbs)
    ensures var entries, activity := EntryKeys(dbs[0].log, a), ActivityKeys(dbs[0].log, a);
            && (Enough(|dbs|, |entries|, limit) ==> Follow(EntrySnaps(dbs, a), limit, None) == (Listing(entries), true))
            && (Enough(|dbs|, |activity|, limit) ==>
                  Follow(ActivitySnaps(dbs, a), limit, None) == (Listing(activity), true))
  {
    var db := dbs[0];
    forall i | 0 <= i < |dbs|
      ensures OnlyNewer(EntryKeys(db.log, a), EntryKeys(dbs[i].log, a))
      ensures OnlyNewer(ActivityKeys(db.log, a), ActivityKeys(dbs[i].log, a))
    {
      assert db.log <= dbs[i].log;
      NewerKeys(db, dbs[i], a);
    }
    hide NewerThan, EntryKeys, ActivityKeys, OnlyNewer, Enough, Follow, Listing, Grows;
    if Enough(|dbs|, |EntryKeys(db.log, a)|, limit) { PagingIsListing(EntrySnaps(dbs, a), limit); }
    if Enough(|dbs|, |ActivityKeys(db.log, a)|, limit) { PagingIsListing(ActivitySnaps(dbs, a), limit); }
  }
}
