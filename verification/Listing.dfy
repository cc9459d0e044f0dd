/** StreamList: walk the bucket in key order, filter, sort in place, cut a page. */
module Listing {
  import opened Domain
  import opened Integers
  import opened Ordering
  import opened Storage

  const SORT_UUID := "uuid"
  const SORT_NAME := "name"
  const SORT_MODE := "mode"
  const SORT_STARTED := "started"
  const SORT_STATUS := "status"
  const ORDER_ASC := "asc"
  const ORDER_DESC := "desc"

  datatype StreamFilter = StreamFilter(
    searchPhrase: string,
    launchModes: seq<string>,
    statuses: seq<string>,
    sortBy: string,
    sortOrder: string,
    pageSize: Int64,
    page: Int64)

  /** What the list shows of a record: everything but the subject. */
  datatype StreamView = StreamView(
    uuid: Uuid, name: string, description: string, ip: string, port: int, launchMode: string,
    startedAt: Time, finishedAt: Option<Time>, status: string, join: JoinInfo, host: HostInfo)

  function View(info: StreamInfo): StreamView {
    StreamView(info.uuid, info.name, info.description, info.ip, info.port, info.launchMode,
               info.startedAt, info.finishedAt, info.status, info.join, info.host)
  }

  datatype StreamPage = StreamPage(
    streams: seq<StreamView>, count: int, total: int, pageSize: Int64, page: Int64, hasNext: bool)

  /** A page, or the run-time error of a slice expression out of bounds. */
  datatype Listed = Listed(list: StreamPage) | SliceError

  // ---------- the filter ----------

  predicate OccursAt(text: string, phrase: string, i: nat) {
    i + |phrase| <= |text| && text[i..i + |phrase|] == phrase
  }

  predicate Contains(text: string, phrase: string) {
    exists i :: 0 <= i <= |text| && OccursAt(text, phrase, i)
  }

  /** An empty list of allowed values means all. */
  predicate Allows(allowed: seq<string>, value: string) {
    allowed == [] || value in allowed
  }

  predicate Fits(info: StreamInfo, filter: StreamFilter) {
    && (Contains(info.name, filter.searchPhrase) || Contains(info.description, filter.searchPhrase))
    && Allows(filter.launchModes, info.launchMode)
    && Allows(filter.statuses, info.status)
  }

  method IsStreamFitsFilter(info: StreamInfo, filter: StreamFilter) returns (fits: bool)
    ensures fits <==> Fits(info, filter)
  {
    if !Contains(info.name, filter.searchPhrase) && !Contains(info.description, filter.searchPhrase) {
      return false;
    }
    var found := |filter.launchModes| == 0;
    for i := 0 to |filter.launchModes|
      invariant found <==> filter.launchModes == [] || info.launchMode in filter.launchModes[..i]
    {
      if filter.launchModes[i] == info.launchMode {
        found := true;
        break;
      }
    }
    if !found {
      return false;
    }
    found := |filter.statuses| == 0;
    for i := 0 to |filter.statuses|
      invariant found <==> filter.statuses == [] || info.status in filter.statuses[..i]
    {
      if filter.statuses[i] == info.status {
        found := true;
        break;
      }
    }
    return found;
  }

  /** The records that fit, in the order of the entries. */
  function Selected(es: seq<(string, StreamInfo)>, filter: StreamFilter): seq<StreamView> {
    if es == [] then []
    else
      var info := es[|es| - 1].1;
      Selected(es[..|es| - 1], filter) + if Fits(info, filter) then [View(info)] else []
  }

  // ---------- the order ----------

  /** The phrase occurs somewhere. */
  lemma ContainsExactly(text: string, phrase: string)
    ensures Contains(text, phrase) <==> exists before, after :: text == before + phrase + after
  {
    if Contains(text, phrase) {
      var i :| 0 <= i <= |text| && OccursAt(text, phrase, i);
      assert text == text[..i] + phrase + text[i + |phrase|..];
    }
    forall before: string, after: string | text == before + phrase + after ensures Contains(text, phrase) {
      assert OccursAt(text, phrase, |before|);
    }
  }

  predicate Ascends(sortBy: string, x: StreamView, y: StreamView) {
    if sortBy == SORT_UUID then Less(x.uuid, y.uuid)
    else if sortBy == SORT_NAME then Less(x.name, y.name)
    else if sortBy == SORT_MODE then Less(x.launchMode, y.launchMode)
    else if sortBy == SORT_STARTED then x.startedAt < y.startedAt
    else sortBy == SORT_STATUS && Less(x.status, y.status)
  }

  predicate KnownSort(sortBy: string) {
    sortBy in {SORT_UUID, SORT_NAME, SORT_MODE, SORT_STARTED, SORT_STATUS}
  }

  /** Any order but "asc" descends. */
  function Comparator(sortBy: string, sortOrder: string): (StreamView, StreamView) -> bool {
    if sortOrder == ORDER_ASC then (x, y) => Ascends(sortBy, x, y) else (x, y) => Ascends(sortBy, y, x)
  }

  lemma AscendsIsStrict(sortBy: string, x: StreamView, y: StreamView)
    requires Ascends(sortBy, x, y)
    ensures !Ascends(sortBy, y, x)
  {
    if sortBy == SORT_UUID { LessAsymmetric(x.uuid, y.uuid); }
    if sortBy == SORT_NAME { LessAsymmetric(x.name, y.name); }
    if sortBy == SORT_MODE { LessAsymmetric(x.launchMode, y.launchMode); }
    if sortBy == SORT_STATUS { LessAsymmetric(x.status, y.status); }
  }

  lemma AscendsIsWeak(sortBy: string, x: StreamView, y: StreamView, z: StreamView)
    requires !Ascends(sortBy, x, y) && !Ascends(sortBy, y, z)
    ensures !Ascends(sortBy, x, z)
  {
    if sortBy == SORT_UUID { LessNegativelyTransitive(x.uuid, y.uuid, z.uuid); }
    if sortBy == SORT_NAME { LessNegativelyTransitive(x.name, y.name, z.name); }
    if sortBy == SORT_MODE { LessNegativelyTransitive(x.launchMode, y.launchMode, z.launchMode); }
    if sortBy == SORT_STATUS { LessNegativelyTransitive(x.status, y.status, z.status); }
  }

  /** Every comparator, for every field and order, is a strict weak order: the sort may rely on it. */
  lemma ComparatorsAreOrders(sortBy: string, sortOrder: string)
    ensures StrictWeakOrder(Comparator(sortBy, sortOrder))
  {
    var less := Comparator(sortBy, sortOrder);
    forall x, y | less(x, y) ensures !less(y, x) {
      if sortOrder == ORDER_ASC { AscendsIsStrict(sortBy, x, y); } else { AscendsIsStrict(sortBy, y, x); }
    }
    forall x, y, z | !less(x, y) && !less(y, z) ensures !less(x, z) {
      if sortOrder == ORDER_ASC { AscendsIsWeak(sortBy, x, y, z); } else { AscendsIsWeak(sortBy, z, y, x); }
    }
  }

  /** What a correct sort may make of the matching records; no order is asked for by an unknown field. */
  ghost predicate Arranged(sortBy: string, sortOrder: string, s: seq<StreamView>, t: seq<StreamView>) {
    if KnownSort(sortBy) then SortOf(Comparator(sortBy, sortOrder), s, t) else t == s
  }

  /** Field by field: ascending, no later element's field is smaller than an earlier one's; under any other order, no
      earlier one's than a later one's. */
  lemma ArrangedExactly(sortBy: string, sortOrder: string, s: seq<StreamView>, t: seq<StreamView>)
    ensures sortBy == "uuid" ==>
              (Arranged(sortBy, sortOrder, s, t) <==>
                 && multiset(t) == multiset(s)
                 && forall i, k :: 0 <= i < k < |t| ==>
                      if sortOrder == "asc" then !Less(t[k].uuid, t[i].uuid) else !Less(t[i].uuid, t[k].uuid))
    ensures sortBy == "name" ==>
              (Arranged(sortBy, sortOrder, s, t) <==>
                 && multiset(t) == multiset(s)
                 && forall i, k :: 0 <= i < k < |t| ==>
                      if sortOrder == "asc" then !Less(t[k].name, t[i].name) else !Less(t[i].name, t[k].name))
    ensures sortBy == "mode" ==>
              (Arranged(sortBy, sortOrder, s, t) <==>
                 && multiset(t) == multiset(s)
                 && forall i, k :: 0 <= i < k < |t| ==>
                      if sortOrder == "asc" then !Less(t[k].launchMode, t[i].launchMode)
                      else !Less(t[i].launchMode, t[k].launchMode))
    ensures sortBy == "started" ==>
              (Arranged(sortBy, sortOrder, s, t) <==>
                 && multiset(t) == multiset(s)
                 && forall i, k :: 0 <= i < k < |t| ==>
                      if sortOrder == "asc" then t[i].startedAt <= t[k].startedAt else t[k].startedAt <= t[i].startedAt)
    ensures sortBy == "status" ==>
              (Arranged(sortBy, sortOrder, s, t) <==>
                 && multiset(t) == multiset(s)
                 && forall i, k :: 0 <= i < k < |t| ==>
                      if sortOrder == "asc" then !Less(t[k].status, t[i].status) else !Less(t[i].status, t[k].status))
    ensures sortBy !in {"uuid", "name", "mode", "started", "status"} ==> (Arranged(sortBy, sortOrder, s, t) <==> t == s)
  {}

  method FilterStreams(streams: array<StreamView>, sortBy: string, sortOrder: string)
    modifies streams
    ensures Arranged(sortBy, sortOrder, old(streams[..]), streams[..])
  {
    if KnownSort(sortBy) {
      ComparatorsAreOrders(sortBy, sortOrder);
      SortSlice(streams, Comparator(sortBy, sortOrder));
    }
  }

  // ---------- the page ----------

  /** Go's s[low:] and s[:high]. Beyond its length a slice may grow up to its capacity, but a bound that large
      only comes from overflow and exceeds any capacity: see NoGrowth. */
  function From<T>(s: seq<T>, low: int): Option<seq<T>> {
    if 0 <= low <= |s| then Some(s[low..]) else None
  }

  function UpTo<T>(s: seq<T>, high: int): Option<seq<T>> {
    if 0 <= high <= |s| then Some(s[..high]) else None
  }

  /** The page as 64-bit index arithmetic cuts it. */
  function Cut(streams: seq<StreamView>, page: Int64, pageSize: Int64): Listed {
    var start := Wrap(Wrap(page - 1) * pageSize);
    var end := Wrap(start + pageSize);
    var rest := if start < |streams| then From(streams, start) else Some([]);
    if rest.None? then SliceError else
    var cut := if end < |streams| then UpTo(rest.value, Wrap(end - start)) else rest;
    if cut.None? then SliceError else
    Listed(StreamPage(cut.value, |cut.value|, |streams|, pageSize, page, |streams| > Wrap(page * pageSize)))
  }

  /** No list is longer; memory is far smaller. */
  const MAX_RECORDS := 0x4000_0000_0000_0000

  function Min(x: int, y: int): int { if x < y then x else y }

  /** The page as it should be. */
  function PageOf<T>(s: seq<T>, page: int, size: int): seq<T>
    requires page >= 1 && size >= 1
  {
    var end := Min(page * size, |s|);
    s[Min((page - 1) * size, end)..end]
  }

  predicate Exact(result: Listed, streams: seq<StreamView>, page: Int64, size: Int64)
    requires page >= 1 && size >= 1
  {
    var expected := PageOf(streams, page, size);
    result == Listed(StreamPage(expected, |expected|, |streams|, size, page, page * size < |streams|))
  }

  lemma ProductsOfPage(page: int, size: int)
    requires page >= 1 && size >= 1
    ensures 0 <= (page - 1) * size < page * size == (page - 1) * size + size
    ensures page == 1 || page * size <= 2 * ((page - 1) * size)
  {
    assert page == 1 || (page - 1) * size >= size;
  }

  lemma BoundsFrom(x: int, size: Int64)
    ensures Wrap(Wrap(x) + size) == Wrap(x + size)
    ensures Wrap(Wrap(Wrap(x) + size) - Wrap(x)) == size
  {
    var start: int := Wrap(x);
    WrapPlus(x, size);
    WrapPlus(start + size, 0 - start);
    WrapFits(size);
  }

  /** The two bounds of the second slice expression are one page size apart, even after overflow. */
  lemma Bounds(page: Int64, size: Int64)
    requires page >= 1 && size >= 1
    ensures var start := Wrap(Wrap(page - 1) * size);
            && start == Wrap((page - 1) * size)
            && Wrap(start + size) == Wrap(page * size)
            && Wrap(Wrap(start + size) - start) == size
  {
    WrapFits(page - 1);
    ProductsOfPage(page, size);
    BoundsFrom((page - 1) * size, size);
  }

  /** The second slice expression never asks for more than the length unless by more than 2^62. */
  lemma NoGrowth(streams: seq<StreamView>, page: Int64, size: Int64)
    requires page >= 1 && size >= 1 && |streams| <= MAX_RECORDS
    requires var start := Wrap(Wrap(page - 1) * size); 0 <= start < |streams| && Wrap(start + size) < |streams|
    ensures var start := Wrap(Wrap(page - 1) * size);
            var high := Wrap(Wrap(start + size) - start);
            high <= |streams| - start || high > MAX_RECORDS
  {
    Bounds(page, size);
    var start := Wrap(Wrap(page - 1) * size);
    if Fits64(start + size) { WrapFits(start + size); }
  }

  lemma CutInRange(streams: seq<StreamView>, page: Int64, size: Int64)
    requires page >= 1 && size >= 1 && page * size <= MAX_INT64
    ensures Exact(Cut(streams, page, size), streams, page, size)
  {
    ProductsOfPage(page, size);
    Bounds(page, size);
    WrapFits(page * size);
    WrapFits((page - 1) * size);
  }

  lemma CutOutOfRange(streams: seq<StreamView>, page: Int64, size: Int64)
    requires page >= 1 && size >= 1 && page * size > MAX_INT64 && |streams| <= MAX_RECORDS
    ensures Exact(Cut(streams, page, size), streams, page, size)
            <==> Wrap((page - 1) * size) >= |streams| && Wrap(page * size) >= |streams|
  {
    ProductsOfPage(page, size);
    Bounds(page, size);
    assert PageOf(streams, page, size) == [];
  }

  /** For every page and page size that Build and Validate let through, the page that is cut is the page that
      was asked for, with exact totals and no slice out of bounds, if and only if the product fits in 64 bits
      or both bounds happen to wrap around to somewhere past the end. */
  lemma CutExactly(streams: seq<StreamView>, page: Int64, size: Int64)
    requires page >= 1 && size >= 1 && |streams| <= MAX_RECORDS
    ensures Exact(Cut(streams, page, size), streams, page, size)
            <==> || page * size <= MAX_INT64
                 || (Wrap((page - 1) * size) >= |streams| && Wrap(page * size) >= |streams|)
  {
    if page * size <= MAX_INT64 { CutInRange(streams, page, size); } else { CutOutOfRange(streams, page, size); }
  }

  /** Page 3 of pages of 2^62 streams is a slice out of bounds, whatever is stored. */
  lemma PageThreeFails(streams: seq<StreamView>)
    ensures Cut(streams, 3, MAX_RECORDS) == SliceError
  {
    assert Wrap(2 * MAX_RECORDS) == MIN_INT64;
  }

  method CutPage(streams: array<StreamView>, page: Int64, pageSize: Int64) returns (result: Listed)
    ensures result == Cut(streams[..], page, pageSize)
  {
    var filteredStreams: seq<StreamView> := [];
    var startIndex := Wrap(Wrap(page - 1) * pageSize);
    var endIndex := Wrap(startIndex + pageSize);
    if startIndex < streams.Length {
      if startIndex < 0 {
        return SliceError;
      }
      filteredStreams := streams[startIndex..];
    }
    if endIndex < streams.Length {
      var high := Wrap(endIndex - startIndex);
      if high < 0 || |filteredStreams| < high {
        return SliceError;
      }
      filteredStreams := filteredStreams[..high];
    }
    var total := streams.Length;
    return Listed(StreamPage(filteredStreams, |filteredStreams|, total, pageSize, page,
                             total > Wrap(page * pageSize)));
  }

  // ---------- the whole listing ----------

  method StreamList(bucket: Bucket<StreamInfo>, filter: StreamFilter) returns (result: Listed)
    requires bucket.Valid()
    ensures exists streams :: Arranged(filter.sortBy, filter.sortOrder, Selected(bucket.entries, filter), streams)
                           && result == Cut(streams, filter.page, filter.pageSize)
  {
    var cursor := bucket.All();
    var streams: seq<StreamView> := [];
    var value := cursor.First();
    while value.Some?
      invariant cursor.position <= |cursor.snapshot| && value == cursor.Current()
      invariant streams == Selected(cursor.snapshot[..cursor.position], filter)
      decreases |cursor.snapshot| - cursor.position
    {
      var fits := IsStreamFitsFilter(value.value, filter);
      if fits {
        streams := streams + [View(value.value)];
      }
      assert cursor.snapshot[..cursor.position + 1][..cursor.position] == cursor.snapshot[..cursor.position];
      value := cursor.Next();
    }
    assert cursor.snapshot[..cursor.position] == bucket.entries;

    var slice := new StreamView[|streams|](i requires 0 <= i < |streams| => streams[i]);
    assert slice[..] == streams;
    FilterStreams(slice, filter.sortBy, filter.sortOrder);

    result := CutPage(slice, filter.page, filter.pageSize);
  }
}
