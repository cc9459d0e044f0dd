/** What patches do to a record over a whole run: each part of it is the last one given. */
module Patching {
  import opened Domain
  import opened Protocol
  import opened Safety
  import opened RecordHistory

  // The part that a store gives: a creation gives all, a patch those it has, a finish none.

  function NameIn(e: Event): Option<string> {
    match e
    case Created(info) => Some(info.name)
    case Patched(_, cfg) => cfg.name
    case _ => None
  }

  function DescriptionIn(e: Event): Option<string> {
    match e
    case Created(info) => Some(info.description)
    case Patched(_, cfg) => cfg.description
    case _ => None
  }

  function JoinIn(e: Event): Option<JoinInfo> {
    match e
    case Created(info) => Some(info.join)
    case Patched(_, cfg) => cfg.join
    case _ => None
  }

  function HostIn(e: Event): Option<HostPatch> {
    match e
    case Created(info) => Some(HostPatch(info.host.username, info.host.avatarId))
    case Patched(_, cfg) => cfg.host
    case _ => None
  }

  /** Some store gives the part, and none after it does. */
  ghost predicate LastGiven<T>(stores: seq<Event>, part: Event -> Option<T>, value: T) {
    exists i :: 0 <= i < |stores| && part(stores[i]) == Some(value) && forall k :: i < k < |stores| ==> part(stores[k]) == None
  }

  lemma LastGivenAppend<T>(stores: seq<Event>, e: Event, part: Event -> Option<T>, value: T)
    requires part(e) == Some(value) || (part(e) == None && LastGiven(stores, part, value))
    ensures LastGiven(stores + [e], part, value)
  {
    if part(e) == Some(value) {
      assert (stores + [e])[|stores|] == e;
    } else {
      var i :| 0 <= i < |stores| && part(stores[i]) == Some(value) && forall k :: i < k < |stores| ==> part(stores[k]) == None;
      assert (stores + [e])[i] == stores[i];
    }
  }

  ghost predicate ShowsLastParts(stores: seq<Event>, info: StreamInfo) {
    && LastGiven(stores, NameIn, info.name)
    && LastGiven(stores, DescriptionIn, info.description)
    && LastGiven(stores, JoinIn, info.join)
    && LastGiven(stores, HostIn, HostPatch(info.host.username, info.host.avatarId))
  }

  lemma {:induction false} ReplayShowsLastParts(stores: seq<Event>)
    requires Replay(stores).Some?
    ensures ShowsLastParts(stores, Replay(stores).value)
  {
    var init, e := stores[..|stores| - 1], stores[|stores| - 1];
    var info := Replay(stores).value;
    assert stores == init + [e];
    if !e.Created? { ReplayShowsLastParts(init); }
    LastGivenAppend(init, e, NameIn, info.name);
    LastGivenAppend(init, e, DescriptionIn, info.description);
    LastGivenAppend(init, e, JoinIn, info.join);
    LastGivenAppend(init, e, HostIn, HostPatch(info.host.username, info.host.avatarId));
  }

  lemma {:induction false} ReplayBegins(stores: seq<Event>)
    requires Replay(stores).Some? && forall i :: 0 < i < |stores| ==> !stores[i].Created?
    ensures stores[0].Created?
  {
    var init := stores[..|stores| - 1];
    if init != [] {
      assert forall i :: 0 < i < |init| ==> !init[i].Created?;
      ReplayBegins(init);
    }
  }

  /** In every run a record's name, description, join part and host part are each the one of the last applied patch that
      has one, or what the stream was created with; finishing leaves them alone. */
  lemma LastPatchShows(run: seq<Step>, s: State, x: Uuid)
    requires Reached(run, s) && x in s.records
    ensures Applied(Events(s, x)) != [] && Applied(Events(s, x))[0].Created?
    ensures forall i :: 0 < i < |Applied(Events(s, x))| ==> !Applied(Events(s, x))[i].Created?
    ensures ShowsLastParts(Applied(Events(s, x)), s.records[x])
  {
    RecordIsHistoryExactly(run, s, x);
    AppliedAreStores(Events(s, x));
    ReplayShowsLastParts(Applied(Events(s, x)));
    ReplayBegins(Applied(Events(s, x)));
  }
}
