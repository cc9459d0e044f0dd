/** A client that fetches pages 1, 2, ... for as long as HasNext says so, each call sorting anew. */
module Paging {
  import opened Domain
  import opened Integers
  import opened Ordering
  import opened Listing
  import opened Protocol
  import opened Safety
  import opened Catalogue

  /** What the calls returned, and how many there were. */
  datatype Walk = Walk(visited: seq<StreamView>, calls: nat)

  ghost predicate AllOfLength(lists: nat -> seq<StreamView>, n: nat) {
    forall p: nat :: |lists(p)| == n
  }

  /** The page is the first, or the page before it had a next one. */
  predicate Follows(n: nat, size: Int64, page: nat)
    requires size >= 1
  {
    page == 1 || (page > 1 && (page - 1) * size < n)
  }

  /** Following HasNext never leads to a page whose index arithmetic overflows. */
  lemma FollowingFits(n: nat, size: Int64, page: nat)
    requires size >= 1 && n <= MAX_RECORDS && Follows(n, size, page)
    ensures page <= page * size <= MAX_INT64
    ensures page * size < n ==> Follows(n, size, page + 1)
  {
    ProductsOfPage(page, size);
    assert page * size >= page;
  }

  /** lists(p) is what the sort of the call for page p made of the matching records. */
  ghost function Fetched(lists: nat -> seq<StreamView>, n: nat, size: Int64, page: nat): Walk
    requires size >= 1 && n <= MAX_RECORDS && AllOfLength(lists, n) && Follows(n, size, page)
    decreases n - page * size
  {
    FollowingFits(n, size, page);
    CutInRange(lists(page), page, size);
    ProductsOfPage(page + 1, size);
    var list := Cut(lists(page), page, size).list;
    if list.hasNext then
      var rest := Fetched(lists, n, size, page + 1);
      Walk(list.streams + rest.visited, 1 + rest.calls)
    else Walk(list.streams, 1)
  }

  lemma FetchedIs(lists: nat -> seq<StreamView>, n: nat, size: Int64, page: nat)
    requires size >= 1 && n <= MAX_RECORDS && AllOfLength(lists, n) && Follows(n, size, page)
    ensures page * size < n ==> Follows(n, size, page + 1)
    ensures var here := PageOf(lists(page), page, size);
            Fetched(lists, n, size, page)
            == if page * size < n
               then var rest := Fetched(lists, n, size, page + 1); Walk(here + rest.visited, 1 + rest.calls)
               else Walk(here, 1)
  {
    FollowingFits(n, size, page);
    CutInRange(lists(page), page, size);
  }

  // ---------- the walk by offsets ----------

  /** Where page number page starts: (page - 1) * size, by additions only. */
  function OffsetOf(size: nat, page: nat): nat {
    if page <= 1 then 0 else OffsetOf(size, page - 1) + size
  }

  lemma {:induction false} OffsetIs(size: nat, page: nat)
    requires page >= 1
    ensures OffsetOf(size, page) == (page - 1) * size && OffsetOf(size, page + 1) == page * size
  {
    if page > 1 { OffsetIs(size, page - 1); }
    assert (page - 1) * size + size == page * size;
  }

  lemma {:induction false} OffsetsGrow(size: nat, page: nat, later: nat)
    requires page <= later
    ensures OffsetOf(size, page) <= OffsetOf(size, later)
  {
    if page < later { OffsetsGrow(size, page, later - 1); }
  }

  /** The part of t a page shows that starts at offset start. */
  function Slice<T>(t: seq<T>, start: nat, size: nat): seq<T> {
    var end := Min(start + size, |t|);
    t[Min(start, end)..end]
  }

  /** The walk from a page on. */
  ghost function Pages(lists: nat -> seq<StreamView>, n: nat, size: nat, page: nat): Walk
    requires size >= 1 && page >= 1
    decreases n - OffsetOf(size, page)
  {
    var here := Slice(lists(page), OffsetOf(size, page), size);
    if OffsetOf(size, page) + size < n then
      var rest := Pages(lists, n, size, page + 1);
      Walk(here + rest.visited, 1 + rest.calls)
    else Walk(here, 1)
  }

  lemma PageIsSlice(t: seq<StreamView>, size: nat, page: nat)
    requires size >= 1 && page >= 1
    ensures PageOf(t, page, size) == Slice(t, OffsetOf(size, page), size)
    ensures OffsetOf(size, page) + size == page * size
  {
    OffsetIs(size, page);
    ProductsOfPage(page, size);
  }

  lemma {:induction false} FetchedIsPages(lists: nat -> seq<StreamView>, n: nat, size: Int64, page: nat)
    requires size >= 1 && n <= MAX_RECORDS && AllOfLength(lists, n) && Follows(n, size, page)
    ensures Fetched(lists, n, size, page) == Pages(lists, n, size, page)
    decreases n - OffsetOf(size, page)
  {
    FetchedIs(lists, n, size, page);
    PageIsSlice(lists(page), size, page);
    if OffsetOf(size, page) + size < n { FetchedIsPages(lists, n, size, page + 1); }
  }

  // ---------- how many calls ----------

  lemma {:induction false} CallsBound(lists: nat -> seq<StreamView>, n: nat, size: nat, page: nat)
    requires size >= 1 && page >= 1 && (page == 1 || OffsetOf(size, page) < n)
    ensures var last := page + Pages(lists, n, size, page).calls - 1;
            n <= OffsetOf(size, last + 1) && (last == 1 || OffsetOf(size, last) < n)
    decreases n - OffsetOf(size, page)
  {
    if OffsetOf(size, page) + size < n { CallsBound(lists, n, size, page + 1); }
  }

  /** The walk ends after max(1, ceil(n / size)) calls. */
  lemma WalkEnds(lists: nat -> seq<StreamView>, n: nat, size: Int64)
    requires size >= 1 && n <= MAX_RECORDS && AllOfLength(lists, n)
    ensures Fetched(lists, n, size, 1).calls == if n == 0 then 1 else (n + size - 1) / size
  {
    FetchedIsPages(lists, n, size, 1);
    CallsBound(lists, n, size, 1);
    var calls := Fetched(lists, n, size, 1).calls;
    OffsetIs(size, calls);
    if n > 0 { RoundsUp(n, size, calls); }
  }

  // ---------- when every call finds the same order ----------

  function Skip<T>(s: seq<T>, k: nat): seq<T> {
    s[Min(k, |s|)..]
  }

  lemma {:induction false} SameOrderWalk(lists: nat -> seq<StreamView>, t: seq<StreamView>, size: nat, page: nat)
    requires size >= 1 && page >= 1 && forall p: nat :: lists(p) == t
    ensures Pages(lists, |t|, size, page).visited == Skip(t, OffsetOf(size, page))
    decreases |t| - OffsetOf(size, page)
  {
    if OffsetOf(size, page) + size < |t| { SameOrderWalk(lists, t, size, page + 1); }
  }

  /** When every call arranges the matching records alike, whatever the sort field, the pages put together are that
      arrangement. */
  lemma AlikePagesConcatenate(lists: nat -> seq<StreamView>, t: seq<StreamView>, size: Int64)
    requires size >= 1 && |t| <= MAX_RECORDS && forall p: nat :: lists(p) == t
    ensures AllOfLength(lists, |t|) && Fetched(lists, |t|, size, 1).visited == t
  {
    FetchedIsPages(lists, |t|, size, 1);
    SameOrderWalk(lists, t, size, 1);
  }

  /** The call for each page sorts the matching records correctly, and independently of the other calls. */
  ghost predicate Resorts(sortBy: string, sortOrder: string, s: seq<StreamView>, lists: nat -> seq<StreamView>) {
    forall p: nat :: Arranged(sortBy, sortOrder, s, lists(p))
  }

  lemma ResortsKeepLength(sortBy: string, sortOrder: string, s: seq<StreamView>, lists: nat -> seq<StreamView>)
    requires Resorts(sortBy, sortOrder, s, lists)
    ensures AllOfLength(lists, |s|)
  {
    forall p: nat ensures |lists(p)| == |s| {
      assert Arranged(sortBy, sortOrder, s, lists(p));
      assert |multiset(lists(p))| == |lists(p)| && |multiset(s)| == |s|;
    }
  }

  lemma UuidListsAgree(steps: seq<Step>, s: State, es: seq<(string, StreamInfo)>, filter: StreamFilter,
                       sortOrder: string, lists: nat -> seq<StreamView>)
    requires Reached(steps, s) && Holds(es, s) && Resorts(SORT_UUID, sortOrder, Selected(es, filter), lists)
    ensures forall p: nat :: lists(p) == UuidOrder(Selected(es, filter), sortOrder)
  {
    forall p: nat ensures lists(p) == UuidOrder(Selected(es, filter), sortOrder) {
      assert Arranged(SORT_UUID, sortOrder, Selected(es, filter), lists(p));
      UuidSortsAreDetermined(steps, s, es, filter, sortOrder, lists(p));
    }
  }

  lemma UuidOrderWalk(lists: nat -> seq<StreamView>, vs: seq<StreamView>, sortOrder: string, size: Int64)
    requires size >= 1 && |vs| <= MAX_RECORDS && AllOfLength(lists, |vs|)
    requires forall p: nat :: lists(p) == UuidOrder(vs, sortOrder)
    ensures Fetched(lists, |vs|, size, 1).visited == UuidOrder(vs, sortOrder)
  {
    ReversedAt(vs);
    AlikePagesConcatenate(lists, UuidOrder(vs, sortOrder), size);
  }

  /** On unchanged storage, the pages of a listing by uuid, put together, are the whole list in order, even if
      each call's sort resolves its choices independently. */
  lemma UuidPagesConcatenate(steps: seq<Step>, s: State, es: seq<(string, StreamInfo)>, filter: StreamFilter,
                             sortOrder: string, lists: nat -> seq<StreamView>, size: Int64)
    requires Reached(steps, s) && Holds(es, s) && size >= 1 && |Selected(es, filter)| <= MAX_RECORDS
    requires Resorts(SORT_UUID, sortOrder, Selected(es, filter), lists)
    ensures AllOfLength(lists, |Selected(es, filter)|)
    ensures Fetched(lists, |Selected(es, filter)|, size, 1).visited == UuidOrder(Selected(es, filter), sortOrder)
  {
    ResortsKeepLength(SORT_UUID, sortOrder, Selected(es, filter), lists);
    UuidListsAgree(steps, s, es, filter, sortOrder, lists);
    UuidOrderWalk(lists, Selected(es, filter), sortOrder, size);
  }

  // ---------- ties at page boundaries ----------

  /** The elements around the end of page p are tied, and there is a page after it. */
  ghost predicate TiedAfter(less: (StreamView, StreamView) -> bool, t: seq<StreamView>, size: int, p: nat) {
    p >= 1 && 0 < p * size < |t| && !less(t[p * size - 1], t[p * size])
  }

  ghost predicate TieAcrossPages(less: (StreamView, StreamView) -> bool, t: seq<StreamView>, size: int) {
    exists p: nat :: TiedAfter(less, t, size, p)
  }

  /** u[..k] is low and u[k..] high: not above the pivot, and above it. */
  ghost predicate SplitsAt<T>(less: (T, T) -> bool, pivot: T, u: seq<T>, k: nat) {
    && k <= |u|
    && (forall i :: 0 <= i < k ==> !less(pivot, u[i]))
    && (forall i :: k <= i < |u| ==> less(pivot, u[i]))
  }

  lemma SplitPoint<T(!new)>(less: (T, T) -> bool, pivot: T, u: seq<T>) returns (k: nat)
    requires StrictWeakOrder(less) && Sorted(less, u)
    ensures SplitsAt(less, pivot, u, k)
  {
    k := 0;
    while k < |u| && !less(pivot, u[k])
      invariant k <= |u| && forall i :: 0 <= i < k ==> !less(pivot, u[i])
    {
      k := k + 1;
    }
    forall i | k <= i < |u| ensures less(pivot, u[i]) {
      assert i == k || !less(u[i], u[k]);
    }
  }

  lemma LowCount<T>(less: (T, T) -> bool, pivot: T, u: seq<T>, k: nat, x: T)
    requires SplitsAt(less, pivot, u, k)
    ensures multiset(u[..k])[x] == if less(pivot, x) then 0 else multiset(u)[x]
  {
    assert u == u[..k] + u[k..];
    if less(pivot, x) { assert x !in u[..k]; } else { assert x !in u[k..]; }
  }

  /** Where two neighbours are not tied, every correct sort has the same elements before the boundary. */
  lemma PrefixIsFixed<T(!new)>(less: (T, T) -> bool, t: seq<T>, u: seq<T>, k: nat)
    requires StrictWeakOrder(less) && Sorted(less, t) && Sorted(less, u) && multiset(t) == multiset(u)
    requires 0 < k < |t| && less(t[k - 1], t[k])
    ensures k <= |u| && multiset(t[..k]) == multiset(u[..k])
  {
    var pivot := t[k - 1];
    assert SplitsAt(less, pivot, t, k) by {
      forall i | 0 <= i < k ensures !less(pivot, t[i]) {}
      forall i | k <= i < |t| ensures less(pivot, t[i]) {
        assert i == k || !less(t[i], t[k]);
      }
    }
    var n := SplitPoint(less, pivot, u);
    forall x ensures multiset(t[..k])[x] == multiset(u[..n])[x] {
      LowCount(less, pivot, t, k, x);
      LowCount(less, pivot, u, n, x);
    }
    assert multiset(t[..k]) == multiset(u[..n]);
    assert |multiset(t[..k])| == k && |multiset(u[..n])| == n;
  }

  // No tie at any boundary: every page has the same elements whatever the sorts chose.

  /** The elements from k on are the same in t and u. */
  lemma RestIsFixed<T(!new)>(less: (T, T) -> bool, t: seq<T>, u: seq<T>, k: nat)
    requires StrictWeakOrder(less) && Sorted(less, t) && Sorted(less, u) && multiset(t) == multiset(u)
    requires 0 < k < |t| ==> less(t[k - 1], t[k])
    ensures multiset(Skip(t, k)) == multiset(Skip(u, k))
  {
    assert |multiset(t)| == |t| && |multiset(u)| == |u|;
    if k == 0 {
      assert Skip(t, k) == t && Skip(u, k) == u;
    } else if k < |t| {
      PrefixIsFixed(less, t, u, k);
      assert t == t[..k] + t[k..] && u == u[..k] + u[k..];
      assert multiset(t[k..]) == multiset(t) - multiset(t[..k]);
      assert multiset(u[k..]) == multiset(u) - multiset(u[..k]);
    }
  }

  lemma SliceIsFixed<T(!new)>(less: (T, T) -> bool, t: seq<T>, u: seq<T>, a: nat, b: nat)
    requires StrictWeakOrder(less) && Sorted(less, t) && Sorted(less, u) && multiset(t) == multiset(u) && a <= b <= |t|
    requires (0 < a < |t| ==> less(t[a - 1], t[a])) && (0 < b < |t| ==> less(t[b - 1], t[b]))
    ensures b <= |u| && multiset(t[a..b]) == multiset(u[a..b])
  {
    assert |multiset(t)| == |t| && |multiset(u)| == |u|;
    RestIsFixed(less, t, u, a);
    RestIsFixed(less, t, u, b);
    SliceOfRest(t, a, b);
    SliceOfRest(u, a, b);
  }

  lemma SliceOfRest<T>(t: seq<T>, a: nat, b: nat)
    requires a <= b <= |t|
    ensures multiset(t[a..b]) == multiset(Skip(t, a)) - multiset(Skip(t, b))
  {
    assert Skip(t, a) == t[a..b] + Skip(t, b);
  }

  ghost predicate AllSort(less: (StreamView, StreamView) -> bool, s: seq<StreamView>, lists: nat -> seq<StreamView>) {
    forall p: nat :: SortOf(less, s, lists(p))
  }

  ghost predicate SamePage(u: seq<StreamView>, t: seq<StreamView>, size: nat, page: nat) {
    multiset(Slice(u, OffsetOf(size, page), size)) == multiset(Slice(t, OffsetOf(size, page), size))
  }

  /** Each page shows the same elements in both walks. */
  ghost predicate SamePages(lists: nat -> seq<StreamView>, others: nat -> seq<StreamView>, size: nat) {
    forall page: nat :: page >= 1 ==> SamePage(lists(page), others(page), size, page)
  }

  lemma UntiedPage(less: (StreamView, StreamView) -> bool, t: seq<StreamView>, u: seq<StreamView>, size: nat, page: nat)
    requires page >= 1 && StrictWeakOrder(less) && !TieAcrossPages(less, t, size) && Sorted(less, t) && SortOf(less, t, u)
    ensures SamePage(u, t, size, page)
  {
    OffsetIs(size, page);
    assert !TiedAfter(less, t, size, page) && (page > 1 ==> !TiedAfter(less, t, size, page - 1));
    assert |multiset(t)| == |t| && |multiset(u)| == |u|;
    var end := Min(OffsetOf(size, page) + size, |t|);
    SliceIsFixed(less, t, u, Min(OffsetOf(size, page), end), end);
  }

  lemma SumsMatch<T>(a: seq<T>, b: seq<T>, c: seq<T>, d: seq<T>)
    requires multiset(a) == multiset(b) && multiset(c) == multiset(d)
    ensures multiset(a + c) == multiset(b + d)
  {}

  lemma {:induction false} SamePagesWalk(lists: nat -> seq<StreamView>, others: nat -> seq<StreamView>,
                                         n: nat, size: nat, page: nat)
    requires size >= 1 && page >= 1 && SamePages(lists, others, size)
    ensures multiset(Pages(lists, n, size, page).visited) == multiset(Pages(others, n, size, page).visited)
    decreases n - OffsetOf(size, page)
  {
    var start := OffsetOf(size, page);
    assert SamePage(lists(page), others(page), size, page);
    if start + size < n {
      SamePagesWalk(lists, others, n, size, page + 1);
      SumsMatch(Slice(lists(page), start, size), Slice(others(page), start, size),
                Pages(lists, n, size, page + 1).visited, Pages(others, n, size, page + 1).visited);
    }
  }

  lemma UntiedWalk(less: (StreamView, StreamView) -> bool, t: seq<StreamView>, lists: nat -> seq<StreamView>, size: nat)
    requires StrictWeakOrder(less) && !TieAcrossPages(less, t, size) && Sorted(less, t) && AllSort(less, t, lists)
    requires size >= 1
    ensures multiset(Pages(lists, |t|, size, 1).visited) == multiset(t)
  {
    var same := (p: nat) => t;
    forall page: nat | page >= 1 ensures SamePage(lists(page), same(page), size, page) {
      assert SortOf(less, t, lists(page));
      UntiedPage(less, t, lists(page), size, page);
    }
    SamePagesWalk(lists, same, |t|, size, 1);
    SameOrderWalk(same, t, size, 1);
  }

  // A tie at a boundary: the call before it and the call after it may swap the tied elements.

  function Swapped<T>(t: seq<T>, k: nat): seq<T>
    requires 0 < k < |t|
  {
    t[k - 1 := t[k]][k := t[k - 1]]
  }

  lemma SwappedSorts<T(!new)>(less: (T, T) -> bool, t: seq<T>, k: nat)
    requires StrictWeakOrder(less) && Sorted(less, t) && 0 < k < |t| && !less(t[k - 1], t[k])
    ensures SortOf(less, t, Swapped(t, k))
  {
    var u := Swapped(t, k);
    forall i, j | 0 <= i < j < |u| ensures !less(u[j], u[i]) {
      var i', j' := if i == k - 1 then k else if i == k then k - 1 else i, if j == k - 1 then k else if j == k then k - 1 else j;
      assert u[i] == t[i'] && u[j] == t[j'];
    }
  }

  predicate Repeats<T(==)>(s: seq<T>, x: T) {
    exists i, k :: 0 <= i < k < |s| && s[i] == x && s[k] == x
  }

  lemma RepeatsInSum<T>(a: seq<T>, b: seq<T>, x: T)
    requires (x in a && x in b) || Repeats(b, x)
    ensures Repeats(a + b, x)
  {
    if Repeats(b, x) {
      var i, k :| 0 <= i < k < |b| && b[i] == x && b[k] == x;
      assert (a + b)[|a| + i] == x && (a + b)[|a| + k] == x;
    } else {
      var i :| 0 <= i < |a| && a[i] == x;
      var k :| 0 <= k < |b| && b[k] == x;
      assert (a + b)[i] == x && (a + b)[|a| + k] == x;
    }
  }

  lemma SliceHas<T>(t: seq<T>, start: nat, size: nat, k: nat)
    requires start <= k < start + size && k < |t|
    ensures t[k] in Slice(t, start, size)
  {
    assert Slice(t, start, size)[k - start] == t[k];
  }

  lemma PageShows(lists: nat -> seq<StreamView>, n: nat, size: nat, page: nat, k: nat)
    requires size >= 1 && page >= 1 && OffsetOf(size, page) <= k < OffsetOf(size, page) + size && k < |lists(page)|
    ensures lists(page)[k] in Pages(lists, n, size, page).visited
  {
    SliceHas(lists(page), OffsetOf(size, page), size, k);
  }

  lemma TiedHere(lists: nat -> seq<StreamView>, t: seq<StreamView>, size: nat, page: nat, k: nat)
    requires size >= 1 && page >= 1 && k == OffsetOf(size, page) + size < |t|
    requires lists(page) == t && lists(page + 1) == Swapped(t, k)
    ensures Repeats(Pages(lists, |t|, size, page).visited, t[k - 1])
  {
    PageShows(lists, |t|, size, page + 1, k);
    SliceHas(t, OffsetOf(size, page), size, k - 1);
    RepeatsInSum(Slice(t, OffsetOf(size, page), size), Pages(lists, |t|, size, page + 1).visited, t[k - 1]);
  }

  /** The element before the boundary at k shows up on both sides of it. */
  lemma {:induction false} TiedTwice(lists: nat -> seq<StreamView>, t: seq<StreamView>, size: nat, tied: nat, k: nat, page: nat)
    requires size >= 1 && 1 <= page <= tied && k == OffsetOf(size, tied + 1) < |t|
    requires lists(tied) == t && lists(tied + 1) == Swapped(t, k)
    ensures Repeats(Pages(lists, |t|, size, page).visited, t[k - 1])
    decreases tied - page
  {
    if page == tied {
      TiedHere(lists, t, size, page, k);
    } else {
      OffsetsGrow(size, page + 1, tied + 1);
      TiedTwice(lists, t, size, tied, k, page + 1);
      RepeatsInSum(Slice(lists(page), OffsetOf(size, page), size), Pages(lists, |t|, size, page + 1).visited, t[k - 1]);
    }
  }

  ghost predicate NoRepeats<T>(s: seq<T>) {
    forall i, k :: 0 <= i < k < |s| ==> s[i] != s[k]
  }

  lemma {:induction false} CountedOnce<T>(s: seq<T>, x: T)
    requires NoRepeats(s)
    ensures multiset(s)[x] <= 1
  {
    if s != [] {
      var init, last := s[..|s| - 1], s[|s| - 1];
      assert s == init + [last];
      CountedOnce(init, x);
      assert last !in init;
    }
  }

  lemma CountedTwice<T>(s: seq<T>, x: T)
    requires Repeats(s, x)
    ensures multiset(s)[x] >= 2
  {
    var i, k :| 0 <= i < k < |s| && s[i] == x && s[k] == x;
    assert s == s[..k] + s[k..] && s[..k][i] == x && s[k..][0] == x;
    assert x in s[..k] && x in s[k..];
  }

  ghost predicate VisitsEachOnce(lists: nat -> seq<StreamView>, s: seq<StreamView>, size: Int64)
    requires size >= 1 && |s| <= MAX_RECORDS
  {
    AllOfLength(lists, |s|) && multiset(Fetched(lists, |s|, size, 1).visited) == multiset(s)
  }

  lemma TieBreaksWalk(less: (StreamView, StreamView) -> bool, s: seq<StreamView>, t: seq<StreamView>, size: Int64, page: nat)
    returns (lists: nat -> seq<StreamView>)
    requires size >= 1 && |s| <= MAX_RECORDS && NoRepeats(s) && StrictWeakOrder(less) && SortOf(less, s, t)
    requires TiedAfter(less, t, size, page)
    ensures AllSort(less, s, lists) && !VisitsEachOnce(lists, s, size)
  {
    var k := page * size;
    var u := Swapped(t, k);
    SwappedSorts(less, t, k);
    lists := (p: nat) => if p == page then t else u;
    assert |multiset(t)| == |t| && |multiset(s)| == |s| && |multiset(u)| == |u|;
    FetchedIsPages(lists, |t|, size, 1);
    OffsetIs(size, page);
    TiedTwice(lists, t, size, page, k, 1);
    CountedTwice(Fetched(lists, |t|, size, 1).visited, t[k - 1]);
    CountedOnce(s, t[k - 1]);
  }

  lemma NoTieWalk(less: (StreamView, StreamView) -> bool, s: seq<StreamView>, t: seq<StreamView>, size: Int64,
                  lists: nat -> seq<StreamView>)
    requires size >= 1 && |s| <= MAX_RECORDS && StrictWeakOrder(less) && SortOf(less, s, t)
    requires !TieAcrossPages(less, t, size) && AllSort(less, s, lists)
    ensures VisitsEachOnce(lists, s, size)
  {
    assert |multiset(t)| == |t| && |multiset(s)| == |s|;
    forall p: nat ensures |lists(p)| == |s| && SortOf(less, t, lists(p)) {
      assert SortOf(less, s, lists(p));
      assert |multiset(lists(p))| == |lists(p)|;
    }
    FetchedIsPages(lists, |t|, size, 1);
    UntiedWalk(less, t, lists, size);
  }

  /** Fetching page after page visits every matching record exactly once, whatever choices the sort of each call
      makes, if and only if no two records tied in the sort order stand on the two sides of a page boundary. */
  lemma PagesVisitEachOnceExactly(sortBy: string, sortOrder: string, s: seq<StreamView>, t: seq<StreamView>, size: Int64)
    requires KnownSort(sortBy) && size >= 1 && |s| <= MAX_RECORDS && NoRepeats(s) && Arranged(sortBy, sortOrder, s, t)
    ensures (forall lists :: AllSort(Comparator(sortBy, sortOrder), s, lists) ==> VisitsEachOnce(lists, s, size))
            <==> !TieAcrossPages(Comparator(sortBy, sortOrder), t, size)
  {
    var less := Comparator(sortBy, sortOrder);
    ComparatorsAreOrders(sortBy, sortOrder);
    if TieAcrossPages(less, t, size) {
      var page: nat :| TiedAfter(less, t, size, page);
      var lists := TieBreaksWalk(less, s, t, size, page);
    } else {
      forall lists | AllSort(less, s, lists) ensures VisitsEachOnce(lists, s, size) {
        NoTieWalk(less, s, t, size, lists);
      }
    }
  }

  /** The matching records of a reached state are all different. */
  lemma ReachedRecordsDiffer(steps: seq<Step>, s: State, es: seq<(string, StreamInfo)>, filter: StreamFilter)
    requires Reached(steps, s) && Holds(es, s)
    ensures NoRepeats(Selected(es, filter))
  {
    HeldRecords(steps, s, es);
    SelectedByUuid(es, filter);
    var vs := Selected(es, filter);
    forall i, k | 0 <= i < k < |vs| ensures vs[i] != vs[k] {
      assert Less(vs[i].uuid, vs[k].uuid);
      if vs[i] == vs[k] { LessAsymmetric(vs[i].uuid, vs[k].uuid); }
    }
  }

  /** So it is for every listing of a reached state. */
  lemma ListingVisitsEachOnceExactly(steps: seq<Step>, s: State, es: seq<(string, StreamInfo)>, filter: StreamFilter,
                                     t: seq<StreamView>, size: Int64)
    requires Reached(steps, s) && Holds(es, s) && KnownSort(filter.sortBy)
    requires size >= 1 && |Selected(es, filter)| <= MAX_RECORDS
    requires Arranged(filter.sortBy, filter.sortOrder, Selected(es, filter), t)
    ensures var less := Comparator(filter.sortBy, filter.sortOrder);
            (forall lists :: AllSort(less, Selected(es, filter), lists) ==> VisitsEachOnce(lists, Selected(es, filter), size))
            <==> !TieAcrossPages(less, t, size)
  {
    ReachedRecordsDiffer(steps, s, es, filter);
    PagesVisitEachOnceExactly(filter.sortBy, filter.sortOrder, Selected(es, filter), t, size);
  }
}
