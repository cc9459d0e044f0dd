/** Listing the records of a reachable state: what the filter and the sort make of them. */
module Catalogue {
  import opened Domain
  import opened Ordering
  import opened Storage
  import opened Listing
  import opened Protocol
  import opened Safety
  import opened Agreement

  // ---------- sorting distinct things ----------

  /** The order tells any two different elements apart. */
  ghost predicate Separates<T(!new)>(less: (T, T) -> bool, s: seq<T>) {
    forall x, y :: x in s && y in s && x != y ==> less(x, y) || less(y, x)
  }

  lemma SameElements<T>(s: seq<T>, t: seq<T>, x: T)
    requires multiset(s) == multiset(t)
    ensures x in s <==> x in t
    ensures |s| == |t|
  {
    assert x in s <==> x in multiset(s);
    assert |multiset(s)| == |s| && |multiset(t)| == |t|;
  }

  lemma FirstIsLeast<T(!new)>(less: (T, T) -> bool, t: seq<T>, x: T)
    requires StrictWeakOrder(less) && Sorted(less, t) && x in t
    ensures !less(x, t[0])
  {
    var k :| 0 <= k < |t| && t[k] == x;
    assert k > 0 ==> !less(t[k], t[0]);
  }

  lemma TailsMatch<T>(t: seq<T>, u: seq<T>)
    requires t != [] && u != [] && t[0] == u[0] && multiset(t) == multiset(u)
    ensures multiset(t[1..]) == multiset(u[1..])
  {
    assert t == [t[0]] + t[1..] && u == [u[0]] + u[1..];
    assert multiset(t[1..]) == multiset(t) - multiset{t[0]};
    assert multiset(u[1..]) == multiset(u) - multiset{u[0]};
  }

  /** When the order separates the elements, a correct sort has one result only. */
  lemma {:induction false} SortIsUnique<T(!new)>(less: (T, T) -> bool, t: seq<T>, u: seq<T>)
    requires StrictWeakOrder(less) && Separates(less, t)
    requires Sorted(less, t) && Sorted(less, u) && multiset(t) == multiset(u)
    ensures t == u
  {
    if t == [] {
      assert |multiset(u)| == |u|;
    } else {
      SameElements(t, u, t[0]);
      SameElements(t, u, u[0]);
      FirstIsLeast(less, t, u[0]);
      FirstIsLeast(less, u, t[0]);
      assert t == [t[0]] + t[1..] && u == [u[0]] + u[1..];
      TailsMatch(t, u);
      SortIsUnique(less, t[1..], u[1..]);
    }
  }

  function Reversed<T>(s: seq<T>): seq<T> {
    if s == [] then [] else Reversed(s[1..]) + [s[0]]
  }

  lemma {:induction false} ReversedAt<T>(s: seq<T>)
    ensures |Reversed(s)| == |s| && multiset(Reversed(s)) == multiset(s)
    ensures forall k :: 0 <= k < |s| ==> Reversed(s)[k] == s[|s| - 1 - k]
  {
    if s != [] {
      ReversedAt(s[1..]);
      assert s == [s[0]] + s[1..];
    }
  }

  // ---------- records as the bucket holds them ----------

  /** The record bucket holds the records of the state. */
  ghost predicate Holds(es: seq<(string, StreamInfo)>, s: State) {
    KeysSorted(es) && Table(es) == s.records
  }

  /** Every key is the UUID of its record. */
  ghost predicate KeyedByUuid(es: seq<(string, StreamInfo)>) {
    KeysSorted(es) && forall i :: 0 <= i < |es| ==> es[i].1.uuid == es[i].0
  }

  ghost predicate OneOfTwoStatuses(es: seq<(string, StreamInfo)>) {
    forall i :: 0 <= i < |es| ==> es[i].1.status == STATUS_RUNNING || es[i].1.status == STATUS_FINISHED
  }

  lemma HeldRecords(steps: seq<Step>, s: State, es: seq<(string, StreamInfo)>)
    requires Reached(steps, s) && Holds(es, s)
    ensures KeyedByUuid(es) && OneOfTwoStatuses(es)
  {
    forall i | 0 <= i < |es|
      ensures es[i].1.uuid == es[i].0 && (es[i].1.status == STATUS_RUNNING || es[i].1.status == STATUS_FINISHED)
    {
      TableHas(es, es[i].0);
      RecordsConsistent(steps, s, es[i].0);
    }
  }

  // ---------- what is selected ----------

  lemma {:induction false} SelectedExactly(es: seq<(string, StreamInfo)>, filter: StreamFilter, v: StreamView)
    ensures v in Selected(es, filter) <==> exists i :: 0 <= i < |es| && Fits(es[i].1, filter) && View(es[i].1) == v
  {
    if es != [] {
      var init := es[..|es| - 1];
      SelectedExactly(init, filter, v);
      forall i | 0 <= i < |es| && Fits(es[i].1, filter) && View(es[i].1) == v ensures v in Selected(es, filter) {
        if i < |init| { assert init[i] == es[i]; }
      }
    }
  }

  /** The view shows the record, all but its subject. */
  predicate Displays(v: StreamView, info: StreamInfo) {
    && v.uuid == info.uuid && v.name == info.name && v.description == info.description
    && v.ip == info.ip && v.port == info.port && v.launchMode == info.launchMode
    && v.startedAt == info.startedAt && v.finishedAt == info.finishedAt && v.status == info.status
    && v.join == info.join && v.host == info.host
  }

  /** The phrase occurs in the name or the description, and mode and status are among those asked for, if any are. */
  ghost predicate AskedFor(info: StreamInfo, filter: StreamFilter) {
    && (exists before, after ::
          info.name == before + filter.searchPhrase + after || info.description == before + filter.searchPhrase + after)
    && (filter.launchModes == [] || info.launchMode in filter.launchModes)
    && (filter.statuses == [] || info.status in filter.statuses)
  }

  lemma FitsIsAskedFor(info: StreamInfo, filter: StreamFilter)
    ensures Fits(info, filter) <==> AskedFor(info, filter)
  {
    ContainsExactly(info.name, filter.searchPhrase);
    ContainsExactly(info.description, filter.searchPhrase);
  }

  /** Whatever the sort, a view is listed, on some page, if and only if it shows a stored record that was asked for. */
  lemma ListedExactly(es: seq<(string, StreamInfo)>, filter: StreamFilter, streams: seq<StreamView>, v: StreamView)
    requires Arranged(filter.sortBy, filter.sortOrder, Selected(es, filter), streams)
    ensures v in streams <==> exists i :: 0 <= i < |es| && AskedFor(es[i].1, filter) && Displays(v, es[i].1)
  {
    SelectedExactly(es, filter, v);
    forall i | 0 <= i < |es| ensures Fits(es[i].1, filter) <==> AskedFor(es[i].1, filter) {
      FitsIsAskedFor(es[i].1, filter);
    }
    SameElements(streams, Selected(es, filter), v);
  }

  ghost predicate UuidsAscend(vs: seq<StreamView>) {
    forall i, k :: 0 <= i < k < |vs| ==> Less(vs[i].uuid, vs[k].uuid)
  }

  /** One record is listed once, and in the order of UUIDs. */
  lemma {:induction false} SelectedByUuid(es: seq<(string, StreamInfo)>, filter: StreamFilter)
    requires KeyedByUuid(es)
    ensures UuidsAscend(Selected(es, filter))
  {
    if es != [] {
      var init, last := es[..|es| - 1], es[|es| - 1];
      SelectedByUuid(init, filter);
      var vs := Selected(init, filter);
      forall i | 0 <= i < |vs| ensures Less(vs[i].uuid, last.1.uuid) {
        SelectedExactly(init, filter, vs[i]);
      }
    }
  }

  lemma UuidSeparates(es: seq<(string, StreamInfo)>, filter: StreamFilter, sortOrder: string)
    requires KeyedByUuid(es)
    ensures Separates(Comparator(SORT_UUID, sortOrder), Selected(es, filter))
  {
    SelectedByUuid(es, filter);
  }

  lemma UuidArranges(es: seq<(string, StreamInfo)>, filter: StreamFilter)
    requires KeyedByUuid(es)
    ensures Arranged(SORT_UUID, ORDER_ASC, Selected(es, filter), Selected(es, filter))
  {
    SelectedByUuid(es, filter);
    AscendingIsSorted(Selected(es, filter));
  }

  lemma AscendingIsSorted(vs: seq<StreamView>)
    requires UuidsAscend(vs)
    ensures Sorted(Comparator(SORT_UUID, ORDER_ASC), vs)
  {
    forall i, k | 0 <= i < k < |vs| ensures !Ascends(SORT_UUID, vs[k], vs[i]) {
      assert Less(vs[i].uuid, vs[k].uuid);
      LessAsymmetric(vs[i].uuid, vs[k].uuid);
    }
  }

  lemma ReversedDescends(vs: seq<StreamView>, sortOrder: string)
    requires UuidsAscend(vs) && sortOrder != ORDER_ASC
    ensures SortOf(Comparator(SORT_UUID, sortOrder), vs, Reversed(vs))
  {
    ReversedAt(vs);
    var us := Reversed(vs);
    forall i, k | 0 <= i < k < |us| ensures !Ascends(SORT_UUID, us[i], us[k]) {
      var a, b := |vs| - 1 - k, |vs| - 1 - i;
      assert Less(vs[a].uuid, vs[b].uuid);
      LessAsymmetric(vs[a].uuid, vs[b].uuid);
    }
  }

  lemma ArrangedIsUnique(es: seq<(string, StreamInfo)>, filter: StreamFilter, sortOrder: string,
                         t: seq<StreamView>, u: seq<StreamView>)
    requires KeyedByUuid(es)
    requires Arranged(SORT_UUID, sortOrder, Selected(es, filter), t)
    requires Arranged(SORT_UUID, sortOrder, Selected(es, filter), u)
    ensures t == u
  {
    UuidSeparates(es, filter, sortOrder);
    ComparatorsAreOrders(SORT_UUID, sortOrder);
    forall x ensures x in t <==> x in Selected(es, filter) { SameElements(t, Selected(es, filter), x); }
    SortIsUnique(Comparator(SORT_UUID, sortOrder), t, u);
  }

  function UuidOrder(vs: seq<StreamView>, sortOrder: string): seq<StreamView> {
    if sortOrder == ORDER_ASC then vs else Reversed(vs)
  }

  /** In every reached state, any correct sort of the matching records by uuid, ascending, leaves them in the
      order of the cursor; any correct sort by uuid, descending, gives the exact reverse. */
  lemma UuidSortsAreDetermined(steps: seq<Step>, s: State, es: seq<(string, StreamInfo)>, filter: StreamFilter,
                               sortOrder: string, t: seq<StreamView>)
    requires Reached(steps, s) && Holds(es, s)
    requires Arranged(SORT_UUID, sortOrder, Selected(es, filter), t)
    ensures t == UuidOrder(Selected(es, filter), sortOrder)
  {
    HeldRecords(steps, s, es);
    var vs := Selected(es, filter);
    UuidArranges(es, filter);
    if sortOrder == ORDER_ASC {
      ArrangedIsUnique(es, filter, sortOrder, t, vs);
    } else {
      SelectedByUuid(es, filter);
      ReversedDescends(vs, sortOrder);
      ArrangedIsUnique(es, filter, sortOrder, t, Reversed(vs));
    }
  }

  // ---------- totals ----------

  lemma {:induction false} StatusesPartition(es: seq<(string, StreamInfo)>, filter: StreamFilter)
    requires OneOfTwoStatuses(es)
    ensures |Selected(es, filter.(statuses := [STATUS_RUNNING]))| + |Selected(es, filter.(statuses := [STATUS_FINISHED]))|
         == |Selected(es, filter.(statuses := []))|
  {
    if es != [] {
      var init, info := es[..|es| - 1], es[|es| - 1].1;
      StatusesPartition(init, filter);
      assert Allows([STATUS_RUNNING], info.status) <==> !Allows([STATUS_FINISHED], info.status);
    }
  }

  /** The total a listing reports. */
  ghost predicate Reports(es: seq<(string, StreamInfo)>, filter: StreamFilter, total: int) {
    exists t :: Arranged(filter.sortBy, filter.sortOrder, Selected(es, filter), t)
             && Cut(t, filter.page, filter.pageSize).Listed?
             && Cut(t, filter.page, filter.pageSize).list.total == total
  }

  lemma TotalIsCount(es: seq<(string, StreamInfo)>, filter: StreamFilter, total: int)
    requires Reports(es, filter, total)
    ensures total == |Selected(es, filter)|
  {
    var t :| Arranged(filter.sortBy, filter.sortOrder, Selected(es, filter), t)
          && Cut(t, filter.page, filter.pageSize).Listed?
          && Cut(t, filter.page, filter.pageSize).list.total == total;
    assert |multiset(t)| == |t| && |multiset(Selected(es, filter))| == |Selected(es, filter)|;
  }

  /** In every reached state the totals for running and for finished add up to the unrestricted total. */
  lemma TotalsAddUp(steps: seq<Step>, s: State, es: seq<(string, StreamInfo)>, filter: StreamFilter,
                    running: int, finished: int, all: int)
    requires Reached(steps, s) && Holds(es, s)
    requires Reports(es, filter.(statuses := [STATUS_RUNNING]), running)
    requires Reports(es, filter.(statuses := [STATUS_FINISHED]), finished)
    requires Reports(es, filter.(statuses := []), all)
    ensures running + finished == all
  {
    HeldRecords(steps, s, es);
    StatusesPartition(es, filter);
    TotalIsCount(es, filter.(statuses := [STATUS_RUNNING]), running);
    TotalIsCount(es, filter.(statuses := [STATUS_FINISHED]), finished);
    TotalIsCount(es, filter.(statuses := []), all);
  }
}
