/** The paginator: fetches one endpoint page by page, runs the post-check on
    every response and follows the upstream's `next` link. */
module Paginator {
  import opened Common
  import opened Text
  import opened RateLimit
  import opened RequestArgs

  /** Endpoints whose entities are the `data` member of the body. */
  const DataFieldEndpoints: seq<string> := [
    "minimalreportingdata",
    "users/{id}/workgroups", "users/{id}/shared", "groups",
    "groups/{id}/members", "surveys", "survey_categories", "survey_templates",
    "survey_languages", "surveys/{id}/pages", "surveys/{id}/questions",
    "surveys/{id}/responses/bulk", "question_bank/questions", "survey_folders",
    "surveys/{id}/languages", "contact_lists", "contact_lists/{id}/contacts",
    "surveys/{id}/collectors", "collectors/{id}/messages",
    "collectors/{id}/recipients", "collectors/{id}/recipients",
    "collectors/{id}/responses", "collectors/{id}/responses/bulk", "webhooks",
    "benchmark_bundles", "workgroups", "workgroups/{id}/members",
    "workgroups/{id}/shares", "roles", "errors", "contacts", "contacts/bulk",
    "/contact_lists/{id}/contacts/bulk", "contact_fields"
  ]

  /** `s` without its leading digits. */
  function SkipDigits(s: string): (r: string)
    ensures |r| <= |s| && r == s[|s| - |r|..]
    ensures r == [] || !IsDigit(r[0])
  {
    if s != [] && IsDigit(s[0]) then SkipDigits(s[1..]) else s
  }

  /** `re.sub(r'/\d+', '/{id}', s)`: every slash followed by a run of digits
      becomes `/{id}`. */
  function SubstituteIds(s: string): (r: string)
    ensures r == [] <==> s == []
    ensures r != [] ==> r[0] == s[0]
    decreases |s|
  {
    if s == [] then []
    else if s[0] == '/' && |s| > 1 && IsDigit(s[1]) then "/{id}" + SubstituteIds(SkipDigits(s[1..]))
    else [s[0]] + SubstituteIds(s[1..])
  }

  /** No slash in `s` is followed by a digit. */
  predicate NoNumericSegment(s: string)
  {
    forall i :: 0 <= i < |s| - 1 && s[i] == '/' ==> !IsDigit(s[i + 1])
  }

  lemma NoNumericSegmentCons(c: char, t: string)
    requires NoNumericSegment(t)
    requires c == '/' ==> t == [] || !IsDigit(t[0])
    ensures NoNumericSegment([c] + t)
  {
    var r := [c] + t;
    forall i | 0 <= i < |r| - 1 && r[i] == '/'
      ensures !IsDigit(r[i + 1])
    {
      if i >= 1 {
        assert r[i] == t[i - 1] && r[i + 1] == t[i];
      }
    }
  }

  lemma {:induction false} SubstituteIdsLeavesNoNumericSegment(s: string)
    ensures NoNumericSegment(SubstituteIds(s))
    decreases |s|
  {
    if s != [] {
      if s[0] == '/' && |s| > 1 && IsDigit(s[1]) {
        var t := SkipDigits(s[1..]);
        SubstituteIdsLeavesNoNumericSegment(t);
        var tail := SubstituteIds(t);
        NoNumericSegmentCons('}', tail);
        NoNumericSegmentCons('d', "}" + tail);
        NoNumericSegmentCons('i', "d}" + tail);
        NoNumericSegmentCons('{', "id}" + tail);
        NoNumericSegmentCons('/', "{id}" + tail);
        assert "/{id}" + tail == ['/'] + ("{id}" + tail);
      } else {
        SubstituteIdsLeavesNoNumericSegment(s[1..]);
        NoNumericSegmentCons(s[0], SubstituteIds(s[1..]));
      }
    }
  }

  lemma {:induction false} SubstituteIdsKeepsCanonical(s: string)
    requires NoNumericSegment(s)
    ensures SubstituteIds(s) == s
    decreases |s|
  {
    if s != [] {
      assert NoNumericSegment(s[1..]) by {
        forall i | 0 <= i < |s[1..]| - 1 && s[1..][i] == '/'
          ensures !IsDigit(s[1..][i + 1])
        {
          assert s[i + 1] == '/';
        }
      }
      SubstituteIdsKeepsCanonical(s[1..]);
      assert s == [s[0]] + s[1..];
    }
  }

  /** Replacing numeric segments is idempotent. */
  lemma SubstituteIdsIdempotent(s: string)
    ensures SubstituteIds(SubstituteIds(s)) == SubstituteIds(s)
  {
    SubstituteIdsLeavesNoNumericSegment(s);
    SubstituteIdsKeepsCanonical(SubstituteIds(s));
  }

  predicate AllDigits(ds: string)
  {
    forall i :: 0 <= i < |ds| ==> IsDigit(ds[i])
  }

  lemma {:induction false} SkipDigitsRun(ds: string, t: string)
    requires AllDigits(ds) && (t == [] || !IsDigit(t[0]))
    ensures SkipDigits(ds + t) == t
    decreases |ds|
  {
    if ds == [] {
      assert ds + t == t;
    } else {
      assert (ds + t)[1..] == ds[1..] + t;
      SkipDigitsRun(ds[1..], t);
    }
  }

  /** A word without a slash is copied unchanged. */
  lemma {:induction false} SubstituteIdsWord(w: string, t: string)
    requires '/' !in w
    ensures SubstituteIds(w + t) == w + SubstituteIds(t)
    decreases |w|
  {
    if w == [] {
      assert w + t == t;
    } else {
      assert (w + t)[0] == w[0] && (w + t)[1..] == w[1..] + t;
      SubstituteIdsWord(w[1..], t);
      assert w == [w[0]] + w[1..];
    }
  }

  /** A slash and a whole run of digits become `/{id}`. */
  lemma SubstituteIdsId(ds: string, t: string)
    requires ds != [] && AllDigits(ds) && (t == [] || !IsDigit(t[0]))
    ensures SubstituteIds("/" + ds + t) == "/{id}" + SubstituteIds(t)
  {
    var s := "/" + ds + t;
    assert s[1] == ds[0] && s[1..] == ds + t;
    SkipDigitsRun(ds, t);
  }

  /** The survey sub-resource a composite fetch names, as an endpoint:
      the survey id becomes `{id}` and a path without numeric segments is
      kept. */
  lemma SurveyEndpoint(ds: string, path: string)
    requires ds != [] && AllDigits(ds)
    requires path != [] && !IsDigit(path[0]) && NoNumericSegment(path)
    ensures SubstituteIds("surveys/" + ds + "/" + path) == "surveys/{id}/" + path
  {
    var slash, word, id := "/", "surveys", "/{id}";
    var tail := slash + path;
    NoNumericSegmentCons('/', path);
    SubstituteIdsKeepsCanonical(tail);
    assert tail[0] == '/';
    SubstituteIdsId(ds, tail);
    var rest := slash + ds + tail;
    SurveysPathWords();
    SubstituteIdsWord(word, rest);
    Associative(word, slash, ds);
    Associative(word, slash + ds, slash);
    Associative(word, slash + ds + slash, path);
    Associative(slash + ds, slash, path);
    assert "surveys/" + ds + "/" + path == word + rest;
    Associative(word, id, tail);
    Associative(word + id, slash, path);
    assert word + (id + tail) == "surveys/{id}/" + path;
  }

  lemma SurveysPathWords()
    ensures '/' !in "surveys"
    ensures "surveys/" == "surveys" + "/" && "surveys/{id}/" == "surveys" + "/{id}" + "/"
  {
  }

  lemma Associative(a: string, b: string, c: string)
    ensures a + b + c == a + (b + c)
  {
  }

  /** The endpoint a URL names: the base URL removed, numeric segments
      replaced by `{id}`. */
  function CanonicalEndpoint(url: string, baseUrl: string): string
  {
    SubstituteIds(ReplaceAll(url, baseUrl, ""))
  }

  /** Entities come from the `data` member exactly for the listed
      endpoints; otherwise the whole body is one entity. */
  predicate ReadsFromDataField(url: string, baseUrl: string)
  {
    CanonicalEndpoint(url, baseUrl) in DataFieldEndpoints
  }

  /** A survey sub-resource under the base URL names its endpoint. */
  lemma SurveyResourceEndpoint(baseUrl: string, ds: string, suffix: string, endpoint: string)
    requires baseUrl != [] && !Occurs(baseUrl, "surveys/" + ds + suffix)
    requires SubstituteIds("surveys/" + ds + suffix) == endpoint
    ensures CanonicalEndpoint(baseUrl + "surveys/" + ds + suffix, baseUrl) == endpoint
  {
    var word, u := "surveys/", "surveys/" + ds + suffix;
    ReplaceAllLeading(baseUrl, u);
    Associative(baseUrl, word, ds);
    Associative(baseUrl, word + ds, suffix);
    assert baseUrl + word + ds + suffix == baseUrl + u;
    assert ReplaceAll(baseUrl + word + ds + suffix, baseUrl, "") == u;
  }

  lemma SubPathsCanonical()
    ensures NoNumericSegment("details") && NoNumericSegment("collectors")
    ensures NoNumericSegment("responses/bulk")
  {
    var p := "responses/bulk";
    forall i | 0 <= i < |p| - 1 && p[i] == '/'
      ensures !IsDigit(p[i + 1])
    {
      assert i == 9;
    }
  }

  /** The listed endpoints include the collectors and the bulk responses of
      a survey but not its details. */
  lemma DetailsNotListed()
    ensures "surveys/{id}/details" !in DataFieldEndpoints
  {
    forall k | 0 <= k < |DataFieldEndpoints|
      ensures DataFieldEndpoints[k] != "surveys/{id}/details"
    {
      var e := DataFieldEndpoints[k];
      assert |e| != 20 || e[0] == 'm';
    }
  }

  lemma CollectorsAndResponsesListed(resource: string)
    requires resource == "collectors" || resource == "responses/bulk"
    ensures "surveys/{id}/" + resource in DataFieldEndpoints
  {
    if resource == "collectors" {
      assert DataFieldEndpoints[17] == "surveys/{id}/" + resource;
    } else {
      assert DataFieldEndpoints[11] == "surveys/{id}/" + resource;
    }
  }

  /** Of the sub-resources a composite fetch reads for a survey, the
      details are one entity and the collectors and the bulk responses are
      read from the `data` member. */
  lemma SurveyDetailsWhole(baseUrl: string, ds: string)
    requires baseUrl != [] && ds != [] && AllDigits(ds)
    requires !Occurs(baseUrl, "surveys/" + ds + "/details")
    ensures !ReadsFromDataField(baseUrl + "surveys/" + ds + "/details", baseUrl)
  {
    SubPathsCanonical();
    SurveyEndpoint(ds, "details");
    assert "surveys/" + ds + "/" + "details" == "surveys/" + ds + "/details";
    SurveyResourceEndpoint(baseUrl, ds, "/details", "surveys/{id}/details");
    DetailsNotListed();
  }

  lemma SurveyListingFromData(baseUrl: string, ds: string, resource: string)
    requires resource == "collectors" || resource == "responses/bulk"
    requires baseUrl != [] && ds != [] && AllDigits(ds)
    requires !Occurs(baseUrl, "surveys/" + ds + "/" + resource)
    ensures ReadsFromDataField(baseUrl + "surveys/" + ds + "/" + resource, baseUrl)
  {
    var slash, endpoint := "/", "surveys/{id}/" + resource;
    SubPathsCanonical();
    SurveyEndpoint(ds, resource);
    CollectorsAndResponsesListed(resource);
    Associative("surveys/" + ds, slash, resource);
    SurveyResourceEndpoint(baseUrl, ds, slash + resource, endpoint);
    Associative(baseUrl + "surveys/" + ds, slash, resource);
  }

  /** What the upstream answers to one call, with the clock reading at which
      the post-check runs. */
  datatype Response = Response(
    status: int,
    headers: map<string, int>,
    receivedAt: int,
    body: Entity,               // the whole body, as one entity
    data: Option<seq<Entity>>,  // the body's `data` member
    page: Option<int>,          // the body's `page` member
    hasNext: bool,              // the body's `links.next` is present and non-empty
    error: Payload)             // the body's `error` member

  /** The upstream service: (credential, url, query arguments) to response. */
  type Upstream = (string, string, map<string, ArgValue>) -> Response

  /** Where the generator stands after one page. */
  datatype PageStatus = More(nextPage: int) | Last | Stopped | Failed(error: Error)

  datatype PageResult = PageResult(expiry: Option<int>, delays: seq<int>, entities: seq<Entity>, status: PageStatus)

  /** The post-check a fetch runs on each response; it runs only while no
      rejection window is open. */
  type Checker = Response -> Check

  /** The governor's post-check of a response, no rejection window being
      open. */
  function Governed(resp: Response): Check
  {
    PostCheck(None, resp.receivedAt, resp.status, resp.headers)
  }

  /** `check` is the governor's post-check. */
  ghost predicate Governs(check: Checker)
  {
    forall resp {:trigger Governed(resp)} :: check(resp) == Governed(resp)
  }

  /** One page, given the post-check `post` of its response: the status
      check, the entities, the next page. */
  function Page(post: Check, resp: Response, fromData: bool, pagingOn: bool): (r: PageResult)
    ensures r.expiry == post.expiry && r.delays == post.delays
    ensures r.status == Stopped <==> post.signal == Stop
    ensures resp.status != 200 ==> r.entities == [] && !r.status.More? && !r.status.Last?
    ensures (r.status.Last? || r.status.More?) && fromData ==> resp.data.Some? && r.entities == resp.data.value
    ensures (r.status.Last? || r.status.More?) && !fromData ==> r.entities == [resp.body]
    ensures r.status.More? <==>
      && !post.signal.Stop? && !post.signal.Raise?
      && resp.status == 200 && (fromData ==> resp.data.Some?)
      && pagingOn && resp.hasNext && resp.page.Some?
    ensures r.status.More? ==> r.status.nextPage == resp.page.value + 1
    ensures post.signal.Raise? ==> r.status == Failed(post.signal.error)
    ensures !post.signal.Stop? && !post.signal.Raise? && resp.status != 200 ==>
      r.status == Failed(UpstreamError(resp.error))
    ensures !post.signal.Stop? && !post.signal.Raise? && resp.status == 200 && fromData && resp.data.None? ==>
      r.status == Failed(TypeError)
    ensures !post.signal.Stop? && !post.signal.Raise? && resp.status == 200 && (fromData ==> resp.data.Some?) ==>
      && r.entities == (if fromData then resp.data.value else [resp.body])
      && r.status == (if !(pagingOn && resp.hasNext) then Last
                      else if resp.page.None? then Failed(TypeError)
                      else More(resp.page.value + 1))
  {
    match post.signal
    case Stop => PageResult(post.expiry, post.delays, [], Stopped)
    case Raise(e) => PageResult(post.expiry, post.delays, [], Failed(e))
    case _ =>
      if resp.status != 200 then PageResult(post.expiry, post.delays, [], Failed(UpstreamError(resp.error)))
      else if fromData && resp.data.None? then PageResult(post.expiry, post.delays, [], Failed(TypeError))
      else
        var es := if fromData then resp.data.value else [resp.body];
        if !(pagingOn && resp.hasNext) then PageResult(post.expiry, post.delays, es, Last)
        else if resp.page.None? then PageResult(post.expiry, post.delays, es, Failed(TypeError))
        else PageResult(post.expiry, post.delays, es, More(resp.page.value + 1))
  }

  /** How a whole fetch ends: normally, by raising, or at the page budget. */
  datatype Outcome = Finished | Raised(error: Error) | Exhausted

  /** A whole fetch: the final expiry, sleeps, entities, outcome, the
      argument dictionary afterwards and the arguments of every call made. */
  datatype Pagination = Pagination(
    expiry: Option<int>, delays: seq<int>, entities: seq<Entity>, outcome: Outcome,
    args: map<string, ArgValue>, calls: seq<map<string, ArgValue>>)

  function Prefixed(delays: seq<int>, entities: seq<Entity>, calls: seq<map<string, ArgValue>>, p: Pagination): Pagination
  {
    p.(delays := delays + p.delays, entities := entities + p.entities, calls := calls + p.calls)
  }

  lemma PrefixedTwice(d1: seq<int>, e1: seq<Entity>, c1: seq<map<string, ArgValue>>,
                      d2: seq<int>, e2: seq<Entity>, c2: seq<map<string, ArgValue>>, p: Pagination)
    ensures Prefixed(d1, e1, c1, Prefixed(d2, e2, c2, p)) == Prefixed(d1 + d2, e1 + e2, c1 + c2, p)
  {
    assert d1 + (d2 + p.delays) == (d1 + d2) + p.delays;
    assert e1 + (e2 + p.entities) == (e1 + e2) + p.entities;
    assert c1 + (c2 + p.calls) == (c1 + c2) + p.calls;
  }

  /** `generate_entities` drained, with at most `fuel` pages, `check`
      being the post-check run on every response. */
  function PaginateWith(check: Checker, up: Upstream, credential: string, url: string, args: map<string, ArgValue>,
                        expiry: Option<int>, fromData: bool, pagingOn: bool, fuel: nat): Pagination
    decreases fuel
  {
    if expiry.Some? then Pagination(expiry, [], [], Finished, args, [])
    else if fuel == 0 then Pagination(expiry, [], [], Exhausted, args, [])
    else
      var resp := up(credential, url, args);
      var r := Page(check(resp), resp, fromData, pagingOn);
      match r.status
      case More(n) =>
        Prefixed(r.delays, r.entities, [args],
                 PaginateWith(check, up, credential, url, args["page" := Number(n)], r.expiry, fromData, pagingOn, fuel - 1))
      case Last => Pagination(r.expiry, r.delays, r.entities, Finished, args, [args])
      case Stopped => Pagination(r.expiry, r.delays, r.entities, Finished, args, [args])
      case Failed(e) => Pagination(r.expiry, r.delays, r.entities, Raised(e), args, [args])
  }

  /** `generate_entities` drained with the governor's post-check. */
  function Paginate(up: Upstream, credential: string, url: string, args: map<string, ArgValue>,
                    expiry: Option<int>, fromData: bool, pagingOn: bool, fuel: nat): Pagination
  {
    PaginateWith(Governed, up, credential, url, args, expiry, fromData, pagingOn, fuel)
  }

  /** While a rejection window is open no call is made at all, whatever the
      post-check. */
  lemma PaginateWhileRejecting(check: Checker, up: Upstream, credential: string, url: string,
                               args: map<string, ArgValue>, expiry: Option<int>, fromData: bool, pagingOn: bool,
                               fuel: nat)
    requires expiry.Some?
    ensures var p := PaginateWith(check, up, credential, url, args, expiry, fromData, pagingOn, fuel);
      p.calls == [] && p.entities == [] && p.expiry == expiry && p.args == args && p.outcome == Finished
  {
  }

  /** Without paging exactly one call is made, with the caller's arguments,
      whatever the `next` link says. */
  lemma PaginateWithoutPaging(check: Checker, up: Upstream, credential: string, url: string,
                              args: map<string, ArgValue>, fromData: bool, fuel: nat)
    requires fuel > 0
    ensures var p := PaginateWith(check, up, credential, url, args, None, fromData, false, fuel);
      p.calls == [args] && p.args == args && p.outcome != Exhausted
  {
  }

  /** Each call in `calls` after the first follows a response the
      post-check let through without opening a rejection window: a 200
      answer with the entities it promised and a `next` link, paging being
      on, and it asks for the page that response reported plus one. */
  predicate Chained(check: Checker, up: Upstream, credential: string, url: string, fromData: bool, pagingOn: bool,
                    calls: seq<map<string, ArgValue>>)
  {
    forall k :: 0 <= k < |calls| - 1 ==> Linked(check, up, credential, url, fromData, pagingOn, calls[k], calls[k + 1])
  }

  predicate Linked(check: Checker, up: Upstream, credential: string, url: string, fromData: bool, pagingOn: bool,
                   call: map<string, ArgValue>, next: map<string, ArgValue>)
  {
    var resp := up(credential, url, call);
    var post := check(resp);
    && post.expiry.None? && !post.signal.Stop? && !post.signal.Raise?
    && pagingOn && resp.status == 200 && (fromData ==> resp.data.Some?) && resp.hasNext && resp.page.Some?
    && next == call["page" := Number(resp.page.value + 1)]
  }

  lemma ChainedCons(check: Checker, up: Upstream, credential: string, url: string, fromData: bool, pagingOn: bool,
                    call: map<string, ArgValue>, rest: seq<map<string, ArgValue>>)
    requires Chained(check, up, credential, url, fromData, pagingOn, rest)
    requires rest != [] ==> Linked(check, up, credential, url, fromData, pagingOn, call, rest[0])
    ensures Chained(check, up, credential, url, fromData, pagingOn, [call] + rest)
  {
    var calls := [call] + rest;
    forall k | 0 <= k < |calls| - 1
      ensures Linked(check, up, credential, url, fromData, pagingOn, calls[k], calls[k + 1])
    {
      if k > 0 {
        assert calls[k] == rest[k - 1] && calls[k + 1] == rest[k];
      }
    }
  }

  /** The calls a fetch makes start from the caller's arguments, number at
      most `fuel`, and are chained by the reported page numbers, whatever
      the post-check. */
  lemma {:induction false} PaginateFollowsReportedPage(check: Checker, up: Upstream, credential: string, url: string,
                                                       args: map<string, ArgValue>, expiry: Option<int>,
                                                       fromData: bool, pagingOn: bool, fuel: nat)
    ensures var p := PaginateWith(check, up, credential, url, args, expiry, fromData, pagingOn, fuel);
      && |p.calls| <= fuel
      && (p.calls != [] ==> p.calls[0] == args && expiry.None?)
      && Chained(check, up, credential, url, fromData, pagingOn, p.calls)
    decreases fuel
  {
    if expiry.None? && fuel > 0 {
      var resp := up(credential, url, args);
      var r := Page(check(resp), resp, fromData, pagingOn);
      if r.status.More? {
        var next := args["page" := Number(r.status.nextPage)];
        PaginateFollowsReportedPage(check, up, credential, url, next, r.expiry, fromData, pagingOn, fuel - 1);
        var rest := PaginateWith(check, up, credential, url, next, r.expiry, fromData, pagingOn, fuel - 1);
        assert PaginateWith(check, up, credential, url, args, expiry, fromData, pagingOn, fuel)
            == Prefixed(r.delays, r.entities, [args], rest);
        if rest.calls != [] {
          assert rest.calls[0] == next && r.expiry.None?;
          assert Linked(check, up, credential, url, fromData, pagingOn, args, next);
        }
        ChainedCons(check, up, credential, url, fromData, pagingOn, args, rest.calls);
      }
    }
  }

  /** One iteration of the fetch loop: one call, its post-check and its page. */
  method FetchPage(gov: Governor, up: Upstream, credential: string, url: string, args: ArgDict,
                   fromData: bool, pagingOn: bool)
    returns (entities: seq<Entity>, status: PageStatus, delays: seq<int>)
    modifies gov, args
    ensures var resp := up(credential, url, old(args.items));
      var r := Page(PostCheck(old(gov.expiresAt), resp.receivedAt, resp.status, resp.headers), resp, fromData, pagingOn);
      gov.expiresAt == r.expiry && entities == r.entities && status == r.status && delays == r.delays
    ensures args.items == if status.More? then old(args.items)["page" := Number(status.nextPage)] else old(args.items)
  {
    var resp := up(credential, url, args.items);
    var signal;
    delays, signal := gov.PostCheckResponse(resp.receivedAt, resp.status, resp.headers);
    entities := [];
    if signal == Stop {
      status := Stopped;
    } else if signal.Raise? {
      status := Failed(signal.error);
    } else if resp.status != 200 {
      status := Failed(UpstreamError(resp.error));
    } else if fromData && resp.data.None? {
      status := Failed(TypeError);
    } else {
      entities := if fromData then resp.data.value else [resp.body];
      if !(pagingOn && resp.hasNext) {
        status := Last;
      } else if resp.page.None? {
        status := Failed(TypeError);
      } else {
        status := More(resp.page.value + 1);
        args.items := args.items["page" := Number(status.nextPage)];
      }
    }
  }

  /** How the outcome of one page ends a fetch. */
  function Ending(st: PageStatus): Outcome
  {
    if st.Failed? then Raised(st.error) else Finished
  }

  /** What is left of the fetch `total` once `delays`, `entities` and
      `calls` are behind it: the fetch from `args` and `expiry` with
      `budget` pages. */
  ghost predicate Remains(check: Checker, total: Pagination, delays: seq<int>, entities: seq<Entity>,
                          calls: seq<map<string, ArgValue>>, up: Upstream, credential: string, url: string,
                          args: map<string, ArgValue>, expiry: Option<int>, fromData: bool, pagingOn: bool, budget: nat)
  {
    total == Prefixed(delays, entities, calls, PaginateWith(check, up, credential, url, args, expiry, fromData, pagingOn, budget))
  }

  /** One page taken off the remaining fetch. */
  lemma RemainsStep(check: Checker, total: Pagination, delays: seq<int>, entities: seq<Entity>,
                    calls: seq<map<string, ArgValue>>, up: Upstream, credential: string, url: string,
                    args: map<string, ArgValue>, fromData: bool, pagingOn: bool, budget: nat, r: PageResult)
    requires budget > 0
    requires Remains(check, total, delays, entities, calls, up, credential, url, args, None, fromData, pagingOn, budget)
    requires r == Page(check(up(credential, url, args)), up(credential, url, args), fromData, pagingOn)
    ensures r.status.More? ==>
      Remains(check, total, delays + r.delays, entities + r.entities, calls + [args], up, credential, url,
              args["page" := Number(r.status.nextPage)], r.expiry, fromData, pagingOn, budget - 1)
    ensures !r.status.More? ==>
      total == Pagination(r.expiry, delays + r.delays, entities + r.entities, Ending(r.status), args, calls + [args])
  {
    if r.status.More? {
      PrefixedTwice(delays, entities, calls, r.delays, r.entities, [args],
        PaginateWith(check, up, credential, url, args["page" := Number(r.status.nextPage)], r.expiry, fromData, pagingOn, budget - 1));
    }
  }

  /** Where the loop of `generate_entities` stands within the fetch
      `total`: while paging goes on, what is left of it is the fetch from
      `args` and `expiry` with `budget` pages; once paging stopped, what was
      gathered is all of it. */
  ghost predicate Tally(check: Checker, total: Pagination, doPage: bool, outcome: Outcome, delays: seq<int>,
                        entities: seq<Entity>, calls: seq<map<string, ArgValue>>, up: Upstream, credential: string,
                        url: string, args: map<string, ArgValue>, expiry: Option<int>, fromData: bool, pagingOn: bool,
                        budget: nat)
  {
    if doPage then
      outcome == Finished && Remains(check, total, delays, entities, calls, up, credential, url, args, expiry, fromData, pagingOn, budget)
    else total == Pagination(expiry, delays, entities, outcome, args, calls)
  }

  /** How the loop leaves the fetch once it ends: a rejection window that
      opened ends it normally, a spent budget leaves it exhausted. */
  lemma TallyExit(check: Checker, total: Pagination, doPage: bool, outcome: Outcome, delays: seq<int>,
                  entities: seq<Entity>, calls: seq<map<string, ArgValue>>, up: Upstream, credential: string,
                  url: string, args: map<string, ArgValue>, expiry: Option<int>, fromData: bool, pagingOn: bool,
                  budget: nat)
    requires Tally(check, total, doPage, outcome, delays, entities, calls, up, credential, url, args, expiry, fromData, pagingOn, budget)
    requires !(doPage && expiry.None? && budget > 0)
    ensures total == Pagination(expiry, delays, entities,
                                if doPage && budget == 0 && expiry.None? then Exhausted else outcome, args, calls)
  {
  }

  /** One iteration of the loop of `generate_entities`, read against the
      fetch `total` it is part of. */
  method FetchStep(gov: Governor, up: Upstream, credential: string, url: string, args: ArgDict,
                   fromData: bool, pagingOn: bool, ghost check: Checker, ghost total: Pagination,
                   ghost delays: seq<int>, ghost entities: seq<Entity>, ghost calls: seq<map<string, ArgValue>>,
                   budget: nat, doPage: bool, ghost outcome0: Outcome)
    returns (es: seq<Entity>, outcome: Outcome, ds: seq<int>, more: bool)
    requires Governs(check)
    requires doPage && budget > 0 && gov.expiresAt.None?
    requires Tally(check, total, doPage, outcome0, delays, entities, calls, up, credential, url, args.items,
                   gov.expiresAt, fromData, pagingOn, budget)
    modifies gov, args
    ensures Tally(check, total, more, outcome, delays + ds, entities + es, calls + [old(args.items)], up, credential,
                  url, args.items, gov.expiresAt, fromData, pagingOn, if more then budget - 1 else budget)
  {
    ghost var resp := up(credential, url, args.items);
    assert check(resp) == Governed(resp);
    ghost var r := Page(check(resp), resp, fromData, pagingOn);
    RemainsStep(check, total, delays, entities, calls, up, credential, url, args.items, fromData, pagingOn, budget, r);
    var st;
    es, st, ds := FetchPage(gov, up, credential, url, args, fromData, pagingOn);
    more := st.More?;
    outcome := Ending(st);
  }

  /** The loop of `generate_entities`: pages fetched while paging goes on,
      no rejection window is open and the budget of `fuel` pages lasts;
      what it gathers is all of the fetch `total`. */
  method Drain(gov: Governor, up: Upstream, credential: string, url: string, fromData: bool, pagingOn: bool,
               args: ArgDict, fuel: nat, ghost check: Checker, ghost total: Pagination)
    returns (entities: seq<Entity>, outcome: Outcome, delays: seq<int>, ghost calls: seq<map<string, ArgValue>>)
    requires Governs(check)
    requires Tally(check, total, true, Finished, [], [], [], up, credential, url, args.items, gov.expiresAt,
                   fromData, pagingOn, fuel)
    modifies gov, args
    ensures total == Pagination(gov.expiresAt, delays, entities, outcome, args.items, calls)
  {
    calls := [];
    entities, outcome, delays := [], Finished, [];
    var doPage := true;
    var budget := fuel;
    while doPage && gov.expiresAt.None? && budget > 0
      invariant Tally(check, total, doPage, outcome, delays, entities, calls, up, credential, url, args.items,
                      gov.expiresAt, fromData, pagingOn, budget)
      decreases budget, doPage
    {
      ghost var before := args.items;
      var es, ds;
      es, outcome, ds, doPage :=
        FetchStep(gov, up, credential, url, args, fromData, pagingOn, check, total, delays, entities, calls,
                  budget, doPage, outcome);
      entities, delays, calls := entities + es, delays + ds, calls + [before];
      if doPage {
        budget := budget - 1;
      }
    }
    TallyExit(check, total, doPage, outcome, delays, entities, calls, up, credential, url, args.items,
              gov.expiresAt, fromData, pagingOn, budget);
    if doPage && budget == 0 && gov.expiresAt.None? {
      outcome := Exhausted;
    }
  }

  /** `generate_entities(session, url, service_args, api_args)` drained, with
      a budget of `fuel` pages. */
  method GenerateEntities(gov: Governor, up: Upstream, credential: string, url: string, baseUrl: string,
                          svc: ServiceArgs, args: ArgDict, fuel: nat)
    returns (entities: seq<Entity>, outcome: Outcome, delays: seq<int>)
    modifies gov, args
    ensures var p := Paginate(up, credential, url, old(args.items), old(gov.expiresAt),
                              ReadsFromDataField(url, baseUrl), svc.isPagingOn, fuel);
      && entities == p.entities && outcome == p.outcome && delays == p.delays
      && gov.expiresAt == p.expiry && args.items == p.args
  {
    var fromData := ReadsFromDataField(url, baseUrl);
    ghost var total := Paginate(up, credential, url, args.items, gov.expiresAt, fromData, svc.isPagingOn, fuel);
    assert Prefixed([], [], [], total) == total;
    ghost var calls;
    entities, outcome, delays, calls := Drain(gov, up, credential, url, fromData, svc.isPagingOn, args, fuel, Governed, total);
  }
}
