/** The stream list query: what the client writes, what the server reads back. */
module Query {
  import opened Domain
  import opened Integers
  import opened Decimal
  import opened Storage
  import opened Listing

  /** url.Values: the values of each key, in order. */
  type Values = map<string, seq<string>>

  const DEFAULT_PAGE_NUMBER: Int64 := 1
  const DEFAULT_PAGE_SIZE: Int64 := 10

  function GetAll(values: Values, key: string): seq<string> {
    if key in values then values[key] else []
  }

  function Get(values: Values, key: string): string {
    if GetAll(values, key) == [] then "" else GetAll(values, key)[0]
  }

  /** The loop that converts a slice element by element. */
  method Copied(from: seq<string>) returns (to: seq<string>)
    ensures to == from
  {
    var slice := new string[|from|];
    for i := 0 to |from|
      invariant slice[..i] == from[..i]
    {
      slice[i] := from[i];
    }
    assert slice[..] == from;
    return slice[..];
  }

  // ---------- the client ----------

  function Params(f: StreamFilter): Values {
    map["term" := [f.searchPhrase], "mode" := f.launchModes, "status" := f.statuses,
        "sortBy" := [f.sortBy], "sortOrder" := [f.sortOrder],
        "pageSize" := [Itoa(f.pageSize)], "page" := [Itoa(f.page)]]
  }

  method GetStreams(f: StreamFilter) returns (queryParams: Values)
    ensures queryParams == Params(f)
  {
    queryParams := map[];
    queryParams := queryParams["term" := [f.searchPhrase]];
    var modes := Copied(f.launchModes);
    queryParams := queryParams["mode" := modes];
    var statuses := Copied(f.statuses);
    queryParams := queryParams["status" := statuses];
    queryParams := queryParams["sortBy" := [f.sortBy]];
    queryParams := queryParams["sortOrder" := [f.sortOrder]];
    queryParams := queryParams["pageSize" := [Itoa(f.pageSize)]];
    queryParams := queryParams["page" := [Itoa(f.page)]];
  }

  /** What goes over the wire: a key without values leaves no trace. */
  function Sent(params: Values): Values {
    map key | key in params && params[key] != [] :: params[key]
  }

  /** The loop of DoRequest over the parameters, whatever order the map gives them in. */
  method AddAll(params: Values) returns (q: Values)
    ensures q == Sent(params)
  {
    q := map[];
    var todo := params.Keys;
    while todo != {}
      invariant todo <= params.Keys
      invariant forall key :: key in q <==> key in params && key !in todo && params[key] != []
      invariant forall key <- q :: q[key] == params[key]
    {
      var param :| param in todo;
      var values := params[param];
      ghost var before := q;
      for i := 0 to |values|
        invariant GetAll(q, param) == values[..i] && (param in q <==> i > 0)
        invariant forall key :: key != param ==> (key in q <==> key in before) && (key in q ==> q[key] == before[key])
      {
        q := q[param := GetAll(q, param) + [values[i]]];
      }
      todo := todo - {param};
    }
  }

  // ---------- the server ----------

  datatype Outcome = Outcome(request: StreamFilter, ok: bool)

  const ZERO_REQUEST := StreamFilter("", [], [], "", "", 0, 0)

  function OrDefault(text: string, default_: string): string {
    if text == "" then default_ else text
  }

  /** A number parameter: absent or empty keeps what is there; zero, from either, becomes the default. */
  function NumberParam(text: string, kept: Int64, default_: Int64): Option<Int64> {
    var n := if text == "" then Some(kept) else Atoi(text);
    if n == Some(0) then Some(default_) else n
  }

  /** What Build makes of a request object that held r. */
  function Built(r: StreamFilter, values: Values): Outcome {
    var r1 := r.(searchPhrase := Get(values, "term"),
                 sortBy := OrDefault(Get(values, "sortBy"), SORT_UUID),
                 sortOrder := OrDefault(Get(values, "sortOrder"), ORDER_ASC));
    var size := NumberParam(Get(values, "pageSize"), r.pageSize, DEFAULT_PAGE_SIZE);
    var page := NumberParam(Get(values, "page"), r.page, DEFAULT_PAGE_NUMBER);
    if size.None? then Outcome(r1, false)
    else if page.None? then Outcome(r1.(pageSize := size.value), false)
    else Outcome(r1.(pageSize := size.value, page := page.value,
                     launchModes := GetAll(values, "mode"), statuses := GetAll(values, "status")), true)
  }

  predicate ValidRequest(f: StreamFilter) {
    && (forall m <- f.launchModes :: m in ["", MODE_DOCKER, MODE_STANDALONE])
    && (forall v <- f.statuses :: v in ["", STATUS_FINISHED, STATUS_RUNNING])
    && (f.sortBy == "" || KnownSort(f.sortBy))
    && f.sortOrder in ["", ORDER_ASC, ORDER_DESC]
    && f.pageSize >= 0 && f.page >= 0
  }

  /** What a request object that was new is after Build, key by key: it fails if and only if one of the two numbers is
      neither absent nor a decimal number of 64 bits. */
  lemma BuiltExactly(values: Values)
    ensures var first := (key: string) => if key in values && values[key] != [] then values[key][0] else "";
            var all := (key: string) => if key in values then values[key] else [];
            var size, page := first("pageSize"), first("page");
            var b := Built(ZERO_REQUEST, values);
            && (b.ok <==> && (size == "" || exists n: Int64 :: Denotes(size, n))
                          && (page == "" || exists n: Int64 :: Denotes(page, n)))
            && b.request.searchPhrase == first("term")
            && b.request.sortBy == (if first("sortBy") == "" then "uuid" else first("sortBy"))
            && b.request.sortOrder == (if first("sortOrder") == "" then "asc" else first("sortOrder"))
            && (b.ok ==>
                  && (if size == "" || Denotes(size, 0) then b.request.pageSize == 10 else Denotes(size, b.request.pageSize))
                  && (if page == "" || Denotes(page, 0) then b.request.page == 1 else Denotes(page, b.request.page))
                  && b.request.launchModes == all("mode") && b.request.statuses == all("status"))
  {
    NumberExactly(Get(values, "pageSize"), 10);
    NumberExactly(Get(values, "page"), 1);
  }

  /** A number parameter of a new request object. */
  lemma NumberExactly(text: string, default_: Int64)
    ensures NumberParam(text, 0, default_).Some? <==> text == "" || exists n: Int64 :: Denotes(text, n)
    ensures var n := NumberParam(text, 0, default_);
            n.Some? ==> if text == "" || Denotes(text, 0) then n.value == default_ else Denotes(text, n.value)
  {
    forall n: Int64 ensures Atoi(text) == Some(n) <==> Denotes(text, n) { AtoiExactly(text, n); }
    if Atoi(text).Some? { assert Denotes(text, Atoi(text).value); }
  }

  method ReadNumber(text: string, kept: Int64, default_: Int64) returns (n: Option<Int64>)
    ensures n == NumberParam(text, kept, default_)
  {
    var number := kept;
    if text != "" {
      var parsed := Atoi(text);
      if parsed.None? {
        return None;
      }
      number := parsed.value;
    }
    if number == 0 {
      number := default_;
    }
    return Some(number);
  }

  class StreamListRequest {
    var term: string
    var launchModes: seq<string>
    var statuses: seq<string>
    var sortBy: string
    var sortOrder: string
    var pageSize: Int64
    var page: Int64

    constructor ()
      ensures Filter() == StreamFilter("", [], [], "", "", 0, 0)
    {
      term, sortBy, sortOrder := "", "", "";
      launchModes, statuses := [], [];
      pageSize, page := 0, 0;
    }

    /** The filter getStreams makes of the request. */
    function Filter(): StreamFilter
      reads this
    {
      StreamFilter(term, launchModes, statuses, sortBy, sortOrder, pageSize, page)
    }

    method Build(values: Values) returns (ok: bool)
      modifies this
      ensures Filter() == Built(old(Filter()), values).request
      ensures ok == Built(old(Filter()), values).ok
    {
      term := Get(values, "term");
      sortBy := Get(values, "sortBy");
      if sortBy == "" {
        sortBy := SORT_UUID;
      }
      sortOrder := Get(values, "sortOrder");
      if sortOrder == "" {
        sortOrder := ORDER_ASC;
      }

      var size := ReadNumber(Get(values, "pageSize"), pageSize, DEFAULT_PAGE_SIZE);
      if size.None? {
        return false;
      }
      pageSize := size.value;

      var number := ReadNumber(Get(values, "page"), page, DEFAULT_PAGE_NUMBER);
      if number.None? {
        return false;
      }
      page := number.value;

      launchModes := Copied(GetAll(values, "mode"));
      statuses := Copied(GetAll(values, "status"));
      return true;
    }

    /** The rules let an empty value and a zero pass. */
    method Validate() returns (ok: bool)
      ensures ok <==> ValidRequest(Filter())
      ensures ok <==>
                && (forall m <- launchModes :: m in ["", "docker_container", "standalone_app"])
                && (forall v <- statuses :: v in ["", "finished", "running"])
                && sortBy in ["", "uuid", "name", "mode", "started", "status"]
                && sortOrder in ["", "asc", "desc"] && pageSize >= 0 && page >= 0
    {
      for i := 0 to |launchModes|
        invariant forall k :: 0 <= k < i ==> launchModes[k] in ["", MODE_DOCKER, MODE_STANDALONE]
      {
        if launchModes[i] !in ["", MODE_DOCKER, MODE_STANDALONE] {
          return false;
        }
      }
      for i := 0 to |statuses|
        invariant forall k :: 0 <= k < i ==> statuses[k] in ["", STATUS_FINISHED, STATUS_RUNNING]
      {
        if statuses[i] !in ["", STATUS_FINISHED, STATUS_RUNNING] {
          return false;
        }
      }
      var sortByOk := sortBy in ["", SORT_UUID, SORT_NAME, SORT_MODE, SORT_STARTED, SORT_STATUS];
      var sortOrderOk := sortOrder in ["", ORDER_ASC, ORDER_DESC];
      var pageSizeOk := pageSize == 0 || pageSize >= 1;
      var pageOk := page == 0 || page >= 1;
      return sortByOk && sortOrderOk && pageSizeOk && pageOk;
    }
  }

  // ---------- the two sides together ----------

  /** Defaults for empty sort fields and zero page fields, everything else as it is. */
  function Normal(f: StreamFilter): StreamFilter {
    f.(sortBy := OrDefault(f.sortBy, SORT_UUID), sortOrder := OrDefault(f.sortOrder, ORDER_ASC),
       pageSize := if f.pageSize == 0 then DEFAULT_PAGE_SIZE else f.pageSize,
       page := if f.page == 0 then DEFAULT_PAGE_NUMBER else f.page)
  }

  lemma SentGet(f: StreamFilter)
    ensures var values := Sent(Params(f));
            && Get(values, "term") == f.searchPhrase && Get(values, "sortBy") == f.sortBy
            && Get(values, "sortOrder") == f.sortOrder
            && Get(values, "pageSize") == Itoa(f.pageSize) && Get(values, "page") == Itoa(f.page)
            && GetAll(values, "mode") == f.launchModes && GetAll(values, "status") == f.statuses
  {}

  /** For every filter, with all 64-bit page values, and whatever the server's request object held, Build reads
      back what the client wrote, with defaults filled in. */
  lemma QueryRoundTrip(f: StreamFilter, r: StreamFilter)
    ensures Built(r, Sent(Params(f))) == Outcome(Normal(f), true)
  {
    SentGet(f);
    AtoiItoa(f.pageSize);
    AtoiItoa(f.page);
  }

  /** A second trip changes nothing, and the first changes nothing exactly if nothing was left to default. */
  lemma SecondTripChangesNothing(f: StreamFilter, r: StreamFilter, r': StreamFilter)
    ensures var once := Built(r, Sent(Params(f))).request;
            && Built(r', Sent(Params(once))) == Outcome(once, true)
            && (once == f <==> f.sortBy != "" && f.sortOrder != "" && f.pageSize != 0 && f.page != 0)
  {
    QueryRoundTrip(f, r);
    QueryRoundTrip(Normal(f), r');
  }

  /** Build followed by Validate leaves a page and a page size of at least one, and a known order. */
  lemma BuiltAndValid(r: StreamFilter, values: Values)
    requires Built(r, values).ok && ValidRequest(Built(r, values).request)
    ensures var f := Built(r, values).request;
            f.page >= 1 && f.pageSize >= 1 && KnownSort(f.sortBy) && f.sortOrder in [ORDER_ASC, ORDER_DESC]
  {}

  datatype Response = BadRequest | Answer(listed: Listed)

  /** The answer is the page the filter asks for, cut from some correct sort of the matching records. */
  ghost predicate Answers(es: seq<(string, StreamInfo)>, f: StreamFilter, response: Response) {
    && response.Answer?
    && exists streams :: Arranged(f.sortBy, f.sortOrder, Selected(es, f), streams)
                      && response.listed == Cut(streams, f.page, f.pageSize)
  }

  method HandleGetStreams(bucket: Bucket<StreamInfo>, values: Values) returns (response: Response)
    requires bucket.Valid()
    ensures var built := Built(ZERO_REQUEST, values);
            if built.ok && ValidRequest(built.request) then Answers(bucket.entries, built.request, response)
            else response == BadRequest
  {
    var req := new StreamListRequest();
    var ok := req.Build(values);
    if !ok {
      return BadRequest;
    }
    ok := req.Validate();
    if !ok {
      return BadRequest;
    }
    var listed := StreamList(bucket, req.Filter());
    return Answer(listed);
  }

  /** The listing a client gets for a valid filter is exact whenever page times page size fits in 64 bits. */
  ghost predicate ExactAnswer(es: seq<(string, StreamInfo)>, f: StreamFilter, response: Response)
    requires f.page >= 1 && f.pageSize >= 1
  {
    && response.Answer?
    && exists streams :: Arranged(f.sortBy, f.sortOrder, Selected(es, f), streams)
                      && Exact(response.listed, streams, f.page, f.pageSize)
  }

  method ListStreams(bucket: Bucket<StreamInfo>, f: StreamFilter) returns (response: Response)
    requires bucket.Valid()
    ensures !ValidRequest(f) ==> response == BadRequest
    ensures ValidRequest(f) ==> Normal(f).page >= 1 && Normal(f).pageSize >= 1
    ensures ValidRequest(f) && Normal(f).page * Normal(f).pageSize <= MAX_INT64 ==>
              ExactAnswer(bucket.entries, Normal(f), response)
  {
    var params := GetStreams(f);
    var q := AddAll(params);
    response := HandleGetStreams(bucket, q);
    QueryRoundTrip(f, ZERO_REQUEST);
    if ValidRequest(f) && Normal(f).page * Normal(f).pageSize <= MAX_INT64 {
      AnswerIsExact(bucket.entries, Normal(f), response);
    }
  }

  lemma AnswerIsExact(es: seq<(string, StreamInfo)>, f: StreamFilter, response: Response)
    requires Answers(es, f, response) && f.page >= 1 && f.pageSize >= 1 && f.page * f.pageSize <= MAX_INT64
    ensures ExactAnswer(es, f, response)
  {
    var streams :| Arranged(f.sortBy, f.sortOrder, Selected(es, f), streams)
                && response.listed == Cut(streams, f.page, f.pageSize);
    CutInRange(streams, f.page, f.pageSize);
  }
}
