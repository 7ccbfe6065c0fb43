/** The request orchestrator and stream assembler: drives the paginator for
    every configured credential, expands surveys in the composite
    `minimalreportingdata` flow, normalises every entity and frames the
    output as a JSON array. */
module Proxy {
  import opened Common
  import opened Text
  import opened RateLimit
  import opened RequestArgs
  import opened Normaliser
  import opened Paginator
  import opened Transform

  /** The survey blacklist from its configuration value: unset or empty
      gives no ids; otherwise spaces are removed and the rest is split on
      commas. */
  function ParseBlacklist(setting: Option<string>): (ids: seq<string>)
    ensures setting.None? || setting.value == "" ==> ids == []
    ensures setting.Some? && setting.value != "" ==>
      |ids| >= 1 && Join(ids, ',') == RemoveChar(setting.value, ' ')
    ensures forall i :: 0 <= i < |ids| ==> ' ' !in ids[i] && ',' !in ids[i]
  {
    if setting.None? || setting.value == "" then []
    else
      var compact := RemoveChar(setting.value, ' ');
      JoinSplit(compact, ',');
      var ids := Split(compact, ',');
      assert forall i :: 0 <= i < |ids| ==> ' ' !in ids[i] by {
        forall i | 0 <= i < |ids|
          ensures ' ' !in ids[i]
        {
          SplitFieldsFromString(compact, ',', i);
        }
      }
      ids
  }

  /** Every character of a field of `Split(s, sep)` occurs in `s`. */
  lemma {:induction false} SplitFieldsFromString(s: string, sep: char, i: nat)
    requires i < |Split(s, sep)|
    ensures forall c :: c in Split(s, sep)[i] ==> c in s
    decreases |s|
  {
    if s != [] {
      var rest := Split(s[1..], sep);
      if s[0] == sep {
        if i > 0 {
          SplitFieldsFromString(s[1..], sep, i - 1);
        }
      } else if i == 0 {
        SplitFieldsFromString(s[1..], sep, 0);
      } else {
        SplitFieldsFromString(s[1..], sep, i);
      }
    }
  }

  /** A survey is skipped when its `id` is one of the blacklisted ids. */
  predicate Blacklisted(survey: Entity, blacklist: seq<string>)
  {
    "id" in survey && survey["id"] in blacklist
  }

  /** The query arguments of a survey sub-resource. */
  datatype ExtensionArgs = Include(fields: string) | CallerArgs

  datatype Extension = Extension(suffix: string, args: ExtensionArgs)

  /** The sub-resources of a survey, in the order they are fetched. */
  const Extensions: seq<Extension> := [
    Extension("/details", Include("date_modified")),
    Extension("/collectors", Include("status,date_modified")),
    Extension("/responses/bulk", CallerArgs)
  ]

  function ArgsFor(ext: Extension, callerArgs: map<string, ArgValue>): map<string, ArgValue>
  {
    match ext.args
    case Include(fields) => map["include" := Text(fields)]
    case CallerArgs => callerArgs
  }

  /** Only the responses sub-resource gets the caller's arguments. */
  lemma ExtensionArguments(callerArgs: map<string, ArgValue>)
    ensures |Extensions| == 3
    ensures ArgsFor(Extensions[0], callerArgs) == map["include" := Text("date_modified")]
    ensures ArgsFor(Extensions[1], callerArgs) == map["include" := Text("status,date_modified")]
    ensures ArgsFor(Extensions[2], callerArgs) == callerArgs
  {
  }

  /** One sub-resource fetch: its URL, its arguments, the rejection expiry
      before it and the whole fetch. */
  datatype SubFetch = SubFetch(url: string, args: map<string, ArgValue>, expiryBefore: Option<int>, result: Pagination)

  /** The entities of the sub-fetches, in order. */
  function Flatten(subs: seq<SubFetch>): seq<Entity>
    decreases |subs|
  {
    if subs == [] then [] else Flatten(subs[..|subs| - 1]) + subs[|subs| - 1].result.entities
  }

  function FlattenAll(expansions: seq<seq<SubFetch>>): seq<Entity>
    decreases |expansions|
  {
    if expansions == [] then []
    else FlattenAll(expansions[..|expansions| - 1]) + Flatten(expansions[|expansions| - 1])
  }

  /** The sub-fetches of a survey with link `href` are a prefix of the
      planned ones, each a whole fetch from the expiry the previous one left. */
  ghost predicate FollowsPlan(subs: seq<SubFetch>, href: string, callerArgs: map<string, ArgValue>,
                              expiry: Option<int>, fetch: Fetcher, credential: string)
  {
    && |subs| <= |Extensions|
    && forall k :: 0 <= k < |subs| ==>
         PlannedFetch(subs[k], k, href, callerArgs, ExpiryBefore(subs, k, expiry), fetch, credential)
  }

  /** The rejection expiry the `k`-th sub-fetch starts from. */
  function ExpiryBefore(subs: seq<SubFetch>, k: nat, expiry: Option<int>): Option<int>
    requires k <= |subs|
  {
    if k == 0 then expiry else subs[k - 1].result.expiry
  }

  /** `json.dumps` of every entity. */
  function Encoded(encode: Entity -> string, es: seq<Entity>): (r: seq<string>)
    ensures |r| == |es| && forall i :: 0 <= i < |es| ==> r[i] == encode(es[i])
  {
    seq(|es|, i requires 0 <= i < |es| => encode(es[i]))
  }

  /** The items with a comma chunk between each two. */
  function Joined(xs: seq<string>): seq<string>
    decreases |xs|
  {
    if |xs| <= 1 then xs else Joined(xs[..|xs| - 1]) + [",", xs[|xs| - 1]]
  }

  /** Items sit at the even positions, a single comma at every odd one:
      no comma before the first item, exactly one between two items. */
  lemma {:induction false} JoinedLayout(xs: seq<string>)
    ensures |Joined(xs)| == if xs == [] then 0 else 2 * |xs| - 1
    ensures forall i :: 0 <= i < |xs| ==> Joined(xs)[2 * i] == xs[i]
    ensures forall i :: 0 <= i < |xs| - 1 ==> Joined(xs)[2 * i + 1] == ","
    decreases |xs|
  {
    if |xs| > 1 {
      var p := xs[..|xs| - 1];
      JoinedLayout(p);
      var j := Joined(xs);
      assert j == Joined(p) + [",", xs[|xs| - 1]];
      forall i | 0 <= i < |xs|
        ensures j[2 * i] == xs[i]
      {
        if i < |p| {
          assert j[2 * i] == Joined(p)[2 * i] == p[i];
        }
      }
      forall i | 0 <= i < |xs| - 1
        ensures j[2 * i + 1] == ","
      {
        if i < |p| - 1 {
          assert j[2 * i + 1] == Joined(p)[2 * i + 1];
        }
      }
    }
  }

  /** The whole output: `[`, the encoded entities separated by commas, the
      error text when there was an error, `]\n`. */
  function Frame(encoded: seq<string>, failure: Option<Error>, errText: Error -> string): seq<string>
  {
    ["["] + Joined(encoded) + (if failure.Some? then [errText(failure.value)] else []) + ["]\n"]
  }

  /** The output opens with `[`, closes with `]\n`, has the error text just
      before the close on failure, and the entities in between, each
      separated from the next by a single comma. */
  lemma FrameLayout(encoded: seq<string>, failure: Option<Error>, errText: Error -> string)
    ensures var f := Frame(encoded, failure, errText);
      && |f| == (if encoded == [] then 0 else 2 * |encoded| - 1) + 2 + (if failure.Some? then 1 else 0)
      && f[0] == "[" && f[|f| - 1] == "]\n"
      && (failure.Some? ==> f[|f| - 2] == errText(failure.value))
      && (forall i :: 0 <= i < |encoded| ==> f[2 * i + 1] == encoded[i])
      && (forall i :: 0 <= i < |encoded| - 1 ==> f[2 * i + 2] == ",")
  {
    JoinedLayout(encoded);
    var j := Joined(encoded);
    var f := Frame(encoded, failure, errText);
    FrameSplit(j, f, failure, errText);
    forall i | 0 <= i < |encoded|
      ensures f[2 * i + 1] == encoded[i]
    {
      assert f[2 * i + 1] == j[2 * i];
    }
    forall i | 0 <= i < |encoded| - 1
      ensures f[2 * i + 2] == ","
    {
      assert f[2 * i + 2] == j[2 * i + 1];
    }
  }

  /** `Frame` read position by position: the bracket, the joined body, then
      the tail. */
  lemma FrameSplit(j: seq<string>, f: seq<string>, failure: Option<Error>, errText: Error -> string)
    requires f == ["["] + j + (if failure.Some? then [errText(failure.value)] else []) + ["]\n"]
    ensures |f| == |j| + 2 + (if failure.Some? then 1 else 0)
    ensures f[0] == "[" && f[|f| - 1] == "]\n"
    ensures failure.Some? ==> f[|f| - 2] == errText(failure.value)
    ensures forall k :: 0 <= k < |j| ==> f[k + 1] == j[k]
  {
  }

  /** The output stream of one request: the chunks written so far, the
      `is_first_yield` flag and the normalised entities written. */
  class Sink {
    const encode: Entity -> string
    var chunks: seq<string>
    var isFirstYield: bool
    var emitted: seq<Entity>

    ghost predicate Valid()
      reads this
    {
      chunks == ["["] + Joined(Encoded(encode, emitted)) && isFirstYield == (emitted == [])
    }

    constructor (encode: Entity -> string)
      ensures Valid() && this.encode == encode && emitted == [] && chunks == ["["]
    {
      this.encode := encode;
      chunks := ["["];
      isFirstYield := true;
      emitted := [];
    }

    /** Writes one entity, preceded by a comma unless it is the first. */
    method Emit(e: Entity)
      requires Valid()
      modifies this
      ensures Valid() && emitted == old(emitted) + [e]
    {
      if isFirstYield {
        isFirstYield := false;
      } else {
        chunks := chunks + [","];
      }
      chunks := chunks + [encode(e)];
      emitted := emitted + [e];
      assert Encoded(encode, emitted)[..|emitted| - 1] == Encoded(encode, old(emitted));
    }
  }

  /** `step` is `sesamify` under configuration `cfg`. The emitting methods
      are stated over such a step rather than over `Sesamify` itself, so
      that their proofs, which are about where entities go, need not look
      inside it. */
  ghost predicate Steps(step: Step, cfg: Config)
  {
    forall e, latest {:trigger Sesamify(e, cfg, latest)} :: step(e, latest) == Sesamify(e, cfg, latest)
  }

  /** `emitted` and `latest` are what writing the normalised `raw`
      after `base`, from watermark `latest0`, leaves. */
  ghost predicate Wrote(emitted: seq<Entity>, latest: string, base: seq<Entity>, raw: seq<Entity>, step: Step,
                        latest0: string)
  {
    var run := NormaliseAll(step, raw, latest0);
    emitted == base + run.entities && latest == run.latest
  }

  lemma WroteStep(mid: seq<Entity>, midLatest: string, out: seq<Entity>, outLatest: string,
                  base: seq<Entity>, xs: seq<Entity>, ys: seq<Entity>, step: Step, latest0: string)
    requires Wrote(mid, midLatest, base, xs, step, latest0)
    requires Wrote(out, outLatest, mid, ys, step, midLatest)
    ensures Wrote(out, outLatest, base, xs + ys, step, latest0)
  {
    NormaliseAllAppend(step, xs, ys, latest0);
  }

  /** Normalises and writes one entity. */
  method EmitOne(sink: Sink, svc: ServiceArgs, x: Entity, ghost step: Step)
    requires sink.Valid()
    requires Steps(step, ConfigOf(svc.params))
    modifies sink, svc
    ensures sink.Valid()
    ensures Wrote(sink.emitted, svc.latestDateModified, old(sink.emitted),
                  [x], step, old(svc.latestDateModified))
  {
    ghost var cfg, latest0 := ConfigOf(svc.params), svc.latestDateModified;
    var e := SesamifyEntity(x, svc);
    NormaliseOne(step, x, latest0);
    sink.Emit(e);
  }

  /** Normalises and writes `es`, in order. */
  method EmitAll(sink: Sink, svc: ServiceArgs, es: seq<Entity>, ghost step: Step)
    requires sink.Valid()
    requires Steps(step, ConfigOf(svc.params))
    modifies sink, svc
    ensures sink.Valid()
    ensures Wrote(sink.emitted, svc.latestDateModified, old(sink.emitted),
                  es, step, old(svc.latestDateModified))
  {
    ghost var cfg := ConfigOf(svc.params);
    for i := 0 to |es|
      invariant sink.Valid()
      invariant Wrote(sink.emitted, svc.latestDateModified, old(sink.emitted), es[..i], step, old(svc.latestDateModified))
    {
      ghost var emitted, latest := sink.emitted, svc.latestDateModified;
      EmitOne(sink, svc, es[i], step);
      WroteStep(emitted, latest, sink.emitted, svc.latestDateModified, old(sink.emitted), es[..i], [es[i]], step,
                old(svc.latestDateModified));
      assert es[..i + 1] == es[..i] + [es[i]];
    }
    assert es[..|es|] == es;
  }

  /** The `k`-th planned sub-fetch of a survey with link `href`, made from
      the rejection expiry `expiry`. */
  ghost predicate PlannedFetch(sub: SubFetch, k: nat, href: string, callerArgs: map<string, ArgValue>,
                               expiry: Option<int>, fetch: Fetcher, credential: string)
    requires k < |Extensions|
  {
    && sub.url == href + Extensions[k].suffix
    && sub.args == ArgsFor(Extensions[k], callerArgs)
    && sub.expiryBefore == expiry
    && Fetched(sub, fetch, credential)
  }

  /** The recorded result is the whole fetch of the sub-fetch's URL and
      arguments from its expiry. */
  ghost predicate Fetched(sub: SubFetch, fetch: Fetcher, credential: string)
  {
    sub.result == fetch(credential, sub.url, sub.args, sub.expiryBefore)
  }

  /** Extending the sub-fetches by the next planned one keeps them on plan. */
  lemma FollowsPlanSnoc(subs: seq<SubFetch>, sub: SubFetch, href: string, callerArgs: map<string, ArgValue>,
                        expiry: Option<int>, fetch: Fetcher, credential: string)
    requires FollowsPlan(subs, href, callerArgs, expiry, fetch, credential)
    requires |subs| < |Extensions|
    requires PlannedFetch(sub, |subs|, href, callerArgs, ExpiryBefore(subs, |subs|, expiry),
                          fetch, credential)
    ensures FollowsPlan(subs + [sub], href, callerArgs, expiry, fetch, credential)
  {
    var s := subs + [sub];
    forall k | 0 <= k < |s|
      ensures PlannedFetch(s[k], k, href, callerArgs, ExpiryBefore(s, k, expiry),
                           fetch, credential)
    {
      assert ExpiryBefore(s, k, expiry) == ExpiryBefore(subs, k, expiry);
      if k < |subs| {
        assert s[k] == subs[k];
        assert PlannedFetch(subs[k], k, href, callerArgs, ExpiryBefore(subs, k, expiry),
                            fetch, credential);
      } else {
        assert s[k] == sub;
      }
    }
  }

  /** The arguments a sub-fetch runs with: a fresh dictionary of its own
      `include` fields, or the caller's own dictionary. */
  method ExtensionTarget(ext: Extension, apiArgs: ArgDict) returns (target: ArgDict)
    ensures target.items == ArgsFor(ext, apiArgs.items)
    ensures ext.args.CallerArgs? ==> target == apiArgs
    ensures ext.args.Include? ==> fresh(target)
  {
    if ext.args.Include? {
      target := new ArgDict(map["include" := Text(ext.args.fields)]);
    } else {
      target := apiArgs;
    }
  }

  /** Makes the `k`-th planned sub-fetch of a survey and writes its entities. */
  method FetchExtension(gov: Governor, up: Upstream, credential: string, baseUrl: string, svc: ServiceArgs,
                        apiArgs: ArgDict, href: string, k: nat, sink: Sink, fuel: nat, ghost fetch: Fetcher, ghost step: Step)
    returns (outcome: Outcome, ghost sub: SubFetch)
    requires k < |Extensions| && sink.Valid()
    requires Steps(step, ConfigOf(svc.params))
    requires Fetches(fetch, up, baseUrl, svc.isPagingOn, fuel)
    modifies gov, svc, apiArgs, sink
    ensures PlannedFetch(sub, k, href, old(apiArgs.items), old(gov.expiresAt), fetch, credential)
    ensures outcome == sub.result.outcome && gov.expiresAt == sub.result.expiry
    ensures apiArgs.items == if Extensions[k].args.CallerArgs? then sub.result.args else old(apiArgs.items)
    ensures sink.Valid()
    ensures Wrote(sink.emitted, svc.latestDateModified, old(sink.emitted),
            sub.result.entities, step, old(svc.latestDateModified))
  {
    var ext := Extensions[k];
    var url := href + ext.suffix;
    var target := ExtensionTarget(ext, apiArgs);
    ghost var p := fetch(credential, url, target.items, gov.expiresAt);
    sub := SubFetch(url, target.items, gov.expiresAt, p);
    var es, delays;
    es, outcome, delays := GenerateEntities(gov, up, credential, url, baseUrl, svc, target, fuel);
    EmitAll(sink, svc, es, step);
  }

  /** The sub-fetches made so far are on plan, none but the last raised,
      and `failure` is the last one's error when it raised. */
  ghost predicate ExtensionsMade(subs: seq<SubFetch>, failure: Option<Error>, href: string,
                                 callerArgs: map<string, ArgValue>, expiry: Option<int>, fetch: Fetcher, credential: string)
  {
    && FollowsPlan(subs, href, callerArgs, expiry, fetch, credential)
    && (forall k :: 0 <= k < |subs| - 1 ==> !subs[k].result.outcome.Raised?)
    && (failure.Some? <==> subs != [] && subs[|subs| - 1].result.outcome.Raised?)
    && (failure.Some? ==> failure.value == subs[|subs| - 1].result.outcome.error)
  }

  lemma ExtensionsMadeSnoc(subs: seq<SubFetch>, sub: SubFetch, href: string, callerArgs: map<string, ArgValue>,
                           expiry: Option<int>, fetch: Fetcher, credential: string)
    requires ExtensionsMade(subs, None, href, callerArgs, expiry, fetch, credential)
    requires |subs| < |Extensions|
    requires PlannedFetch(sub, |subs|, href, callerArgs, ExpiryBefore(subs, |subs|, expiry),
                          fetch, credential)
    ensures var failure := if sub.result.outcome.Raised? then Some(sub.result.outcome.error) else None;
      ExtensionsMade(subs + [sub], failure, href, callerArgs, expiry, fetch, credential)
  {
    FollowsPlanSnoc(subs, sub, href, callerArgs, expiry, fetch, credential);
    var s := subs + [sub];
    forall k | 0 <= k < |s| - 1
      ensures !s[k].result.outcome.Raised?
    {
      assert s[k] == subs[k];
    }
  }

  lemma FlattenSnoc(subs: seq<SubFetch>, sub: SubFetch)
    ensures Flatten(subs + [sub]) == Flatten(subs) + sub.result.entities
  {
    assert (subs + [sub])[..|subs|] == subs;
  }

  /** The error the sub-fetches of a survey ended with: the last one's,
      when it raised. */
  function SubsFailure(subs: seq<SubFetch>): Option<Error>
  {
    if subs != [] && subs[|subs| - 1].result.outcome.Raised? then Some(subs[|subs| - 1].result.outcome.error)
    else None
  }

  /** The caller's arguments after the sub-fetches of a survey: where the
      responses fetch left them, when it was made. */
  function ArgsAfter(subs: seq<SubFetch>, callerArgs: map<string, ArgValue>): map<string, ArgValue>
  {
    if |subs| == |Extensions| then subs[|subs| - 1].result.args else callerArgs
  }

  /** The rejection expiry after the sub-fetches of a survey. */
  function ExpiryAfter(subs: seq<SubFetch>, expiry: Option<int>): Option<int>
  {
    ExpiryBefore(subs, |subs|, expiry)
  }

  /** The planned sub-fetches of a survey with link `href`, from the `k`-th
      on: each a whole fetch from the rejection expiry the previous one
      left, until one raises. */
  function SubFetches(fetch: Fetcher, credential: string, href: string, k: nat, callerArgs: map<string, ArgValue>,
                      expiry: Option<int>): seq<SubFetch>
    requires k <= |Extensions|
    decreases |Extensions| - k
  {
    if k == |Extensions| then []
    else
      var url := href + Extensions[k].suffix;
      var args := ArgsFor(Extensions[k], callerArgs);
      var sub := SubFetch(url, args, expiry, fetch(credential, url, args, expiry));
      if sub.result.outcome.Raised? then [sub]
      else [sub] + SubFetches(fetch, credential, href, k + 1, callerArgs, sub.result.expiry)
  }

  /** The planned sub-fetches from the `k`-th on are each the planned one
      from where the previous left off; none but the last raised, and all
      remaining ones were made unless the last raised. */
  lemma {:induction false} SubFetchesShape(fetch: Fetcher, credential: string, href: string, k: nat,
                                           callerArgs: map<string, ArgValue>, expiry: Option<int>)
    requires k <= |Extensions|
    ensures var s := SubFetches(fetch, credential, href, k, callerArgs, expiry);
      && |s| <= |Extensions| - k && (s == [] <==> k == |Extensions|)
      && (forall m :: 0 <= m < |s| ==>
            PlannedFetch(s[m], k + m, href, callerArgs, ExpiryBefore(s, m, expiry), fetch, credential))
      && (forall m :: 0 <= m < |s| - 1 ==> !s[m].result.outcome.Raised?)
      && (SubsFailure(s).None? ==> |s| == |Extensions| - k)
    decreases |Extensions| - k
  {
    if k < |Extensions| {
      var url := href + Extensions[k].suffix;
      var args := ArgsFor(Extensions[k], callerArgs);
      var sub := SubFetch(url, args, expiry, fetch(credential, url, args, expiry));
      if !sub.result.outcome.Raised? {
        var rest := SubFetches(fetch, credential, href, k + 1, callerArgs, sub.result.expiry);
        SubFetchesShape(fetch, credential, href, k + 1, callerArgs, sub.result.expiry);
        ConsOnPlan(rest, sub, k, href, callerArgs, expiry, fetch, credential);
      }
    }
  }

  /** Putting the `k`-th planned sub-fetch in front of planned ones from
      the next on, made from where it left off, keeps them on plan. */
  lemma ConsOnPlan(rest: seq<SubFetch>, sub: SubFetch, k: nat, href: string, callerArgs: map<string, ArgValue>,
                   expiry: Option<int>, fetch: Fetcher, credential: string)
    requires k + 1 + |rest| <= |Extensions| && !sub.result.outcome.Raised?
    requires PlannedFetch(sub, k, href, callerArgs, expiry, fetch, credential)
    requires forall m :: 0 <= m < |rest| ==>
      PlannedFetch(rest[m], k + 1 + m, href, callerArgs, ExpiryBefore(rest, m, sub.result.expiry), fetch, credential)
    requires forall m :: 0 <= m < |rest| - 1 ==> !rest[m].result.outcome.Raised?
    ensures var s := [sub] + rest;
      && (forall m :: 0 <= m < |s| ==>
            PlannedFetch(s[m], k + m, href, callerArgs, ExpiryBefore(s, m, expiry), fetch, credential))
      && (forall m :: 0 <= m < |s| - 1 ==> !s[m].result.outcome.Raised?)
      && SubsFailure(s) == SubsFailure(rest)
  {
    var s := [sub] + rest;
    forall m | 0 <= m < |s|
      ensures PlannedFetch(s[m], k + m, href, callerArgs, ExpiryBefore(s, m, expiry), fetch, credential)
    {
      if m > 0 {
        assert s[m] == rest[m - 1];
        if m > 1 {
          assert s[m - 1] == rest[m - 2];
        }
        assert ExpiryBefore(s, m, expiry) == ExpiryBefore(rest, m - 1, sub.result.expiry);
      }
    }
    forall m | 0 <= m < |s| - 1
      ensures !s[m].result.outcome.Raised?
    {
      if m > 0 {
        assert s[m] == rest[m - 1];
      }
    }
    if rest != [] {
      assert s[|s| - 1] == rest[|rest| - 1];
    }
  }

  /** Sub-fetches that are on plan, in which only the last may have raised
      and which are all made unless one raised, are the planned ones from
      the `k`-th on. */
  lemma {:induction false} ExtensionsMadeFrom(subs: seq<SubFetch>, failure: Option<Error>, href: string,
                                              callerArgs: map<string, ArgValue>, expiry: Option<int>,
                                              fetch: Fetcher, credential: string, k: nat)
    requires ExtensionsMade(subs, failure, href, callerArgs, expiry, fetch, credential)
    requires failure.None? ==> |subs| == |Extensions|
    requires k < |subs|
    ensures subs[k..] == SubFetches(fetch, credential, href, k, callerArgs, ExpiryBefore(subs, k, expiry))
    decreases |subs| - k
  {
    var sub := subs[k];
    assert PlannedFetch(sub, k, href, callerArgs, ExpiryBefore(subs, k, expiry), fetch, credential);
    if k < |subs| - 1 {
      assert !sub.result.outcome.Raised?;
      ExtensionsMadeFrom(subs, failure, href, callerArgs, expiry, fetch, credential, k + 1);
      assert subs[k..] == [sub] + subs[k + 1..];
    } else {
      assert subs[k..] == [sub];
    }
  }

  /** Sub-fetches that satisfy `ExtensionsMade` and are complete unless
      they failed are exactly the planned ones. */
  lemma ExtensionsDetermined(subs: seq<SubFetch>, failure: Option<Error>, href: string,
                             callerArgs: map<string, ArgValue>, expiry: Option<int>, fetch: Fetcher, credential: string)
    requires ExtensionsMade(subs, failure, href, callerArgs, expiry, fetch, credential)
    requires failure.None? ==> |subs| == |Extensions|
    ensures subs == SubFetches(fetch, credential, href, 0, callerArgs, expiry) && failure == SubsFailure(subs)
  {
    assert subs != [];
    ExtensionsMadeFrom(subs, failure, href, callerArgs, expiry, fetch, credential, 0);
    assert subs[0..] == subs;
  }

  /** Makes the planned sub-fetches of a survey with link `href`, in
      order, until one raises. */
  method FetchExtensions(gov: Governor, up: Upstream, credential: string, baseUrl: string, svc: ServiceArgs,
                         apiArgs: ArgDict, href: string, sink: Sink, fuel: nat, ghost fetch: Fetcher, ghost step: Step)
    returns (failure: Option<Error>, ghost subs: seq<SubFetch>)
    requires sink.Valid()
    requires Steps(step, ConfigOf(svc.params))
    requires Fetches(fetch, up, baseUrl, svc.isPagingOn, fuel)
    modifies gov, svc, apiArgs, sink
    ensures sink.Valid()
    ensures Wrote(sink.emitted, svc.latestDateModified, old(sink.emitted),
                  Flatten(subs), step, old(svc.latestDateModified))
    ensures subs == SubFetches(fetch, credential, href, 0, old(apiArgs.items), old(gov.expiresAt))
    ensures failure == SubsFailure(subs)
    ensures gov.expiresAt == ExpiryAfter(subs, old(gov.expiresAt))
    ensures apiArgs.items == ArgsAfter(subs, old(apiArgs.items))
  {
    failure, subs := None, [];
    ghost var cfg := ConfigOf(svc.params);
    var k := 0;
    while k < |Extensions| && failure.None?
      invariant 0 <= k <= |Extensions| && |subs| == k
      invariant sink.Valid()
      invariant Wrote(sink.emitted, svc.latestDateModified, old(sink.emitted),
                      Flatten(subs), step, old(svc.latestDateModified))
      invariant ExtensionsMade(subs, failure, href, old(apiArgs.items), old(gov.expiresAt), fetch, credential)
      invariant gov.expiresAt == ExpiryBefore(subs, k, old(gov.expiresAt))
      invariant apiArgs.items == if k == |Extensions| then subs[k - 1].result.args else old(apiArgs.items)
    {
      ghost var before, mid, midLatest := Flatten(subs), sink.emitted, svc.latestDateModified;
      var outcome, sub := FetchExtension(gov, up, credential, baseUrl, svc, apiArgs, href, k, sink, fuel, fetch, step);
      WroteStep(mid, midLatest, sink.emitted, svc.latestDateModified, old(sink.emitted), before,
                sub.result.entities, step, old(svc.latestDateModified));
      ExtensionsMadeSnoc(subs, sub, href, old(apiArgs.items), old(gov.expiresAt), fetch, credential);
      FlattenSnoc(subs, sub);
      subs := subs + [sub];
      if outcome.Raised? {
        failure := Some(outcome.error);
      }
      k := k + 1;
    }
    ExtensionsDetermined(subs, failure, href, old(apiArgs.items), old(gov.expiresAt), fetch, credential);
  }

  /** What `ExpandSurvey` does with one survey, declaratively: nothing for a
      blacklisted one, a KeyError for one without `href`, otherwise the
      planned sub-fetches until one raises. */
  ghost predicate SurveyExpanded(survey: Entity, blacklist: seq<string>, subs: seq<SubFetch>, failure: Option<Error>,
                                 callerArgs: map<string, ArgValue>, expiry: Option<int>, fetch: Fetcher, credential: string)
  {
    if Blacklisted(survey, blacklist) then failure == None && subs == []
    else if "href" !in survey then failure == Some(KeyError("href")) && subs == []
    else
      && ExtensionsMade(subs, failure, survey["href"], callerArgs, expiry, fetch, credential)
      && (failure.None? ==> |subs| == |Extensions|)
  }

  /** The sub-fetches of one survey and the error they ended with. */
  datatype Expansion = Expansion(subs: seq<SubFetch>, failure: Option<Error>)

  /** What the composite flow does with one survey, from the caller's
      arguments and rejection expiry the previous survey left. */
  function Expand(fetch: Fetcher, credential: string, survey: Entity, blacklist: seq<string>,
                  callerArgs: map<string, ArgValue>, expiry: Option<int>): Expansion
  {
    if Blacklisted(survey, blacklist) then Expansion([], None)
    else if "href" !in survey then Expansion([], Some(KeyError("href")))
    else
      var subs := SubFetches(fetch, credential, survey["href"], 0, callerArgs, expiry);
      Expansion(subs, SubsFailure(subs))
  }

  /** `Expand` is the one expansion that meets the declarative account. */
  lemma ExpandCharacterised(survey: Entity, blacklist: seq<string>, subs: seq<SubFetch>, failure: Option<Error>,
                            callerArgs: map<string, ArgValue>, expiry: Option<int>, fetch: Fetcher, credential: string)
    ensures SurveyExpanded(survey, blacklist, subs, failure, callerArgs, expiry, fetch, credential) <==>
      Expansion(subs, failure) == Expand(fetch, credential, survey, blacklist, callerArgs, expiry)
  {
    if !Blacklisted(survey, blacklist) && "href" in survey {
      var href := survey["href"];
      SubFetchesShape(fetch, credential, href, 0, callerArgs, expiry);
      if SurveyExpanded(survey, blacklist, subs, failure, callerArgs, expiry, fetch, credential) {
        ExtensionsDetermined(subs, failure, href, callerArgs, expiry, fetch, credential);
      }
    }
  }

  /** Fetches the sub-resources of one survey of the composite flow and
      writes their entities. Only the responses fetch uses, and advances,
      the caller's arguments. */
  method ExpandSurvey(gov: Governor, up: Upstream, credential: string, baseUrl: string, svc: ServiceArgs,
                      apiArgs: ArgDict, survey: Entity, blacklist: seq<string>, sink: Sink, fuel: nat,
                      ghost fetch: Fetcher, ghost step: Step)
    returns (failure: Option<Error>, ghost subs: seq<SubFetch>)
    requires sink.Valid()
    requires Steps(step, ConfigOf(svc.params))
    requires Fetches(fetch, up, baseUrl, svc.isPagingOn, fuel)
    modifies gov, svc, apiArgs, sink
    ensures sink.Valid()
    ensures Wrote(sink.emitted, svc.latestDateModified, old(sink.emitted),
                  Flatten(subs), step, old(svc.latestDateModified))
    ensures Expansion(subs, failure) == Expand(fetch, credential, survey, blacklist, old(apiArgs.items), old(gov.expiresAt))
    ensures gov.expiresAt == ExpiryAfter(subs, old(gov.expiresAt))
    ensures apiArgs.items == ArgsAfter(subs, old(apiArgs.items))
  {
    if Blacklisted(survey, blacklist) {
      failure, subs := None, [];
    } else if "href" !in survey {
      failure, subs := Some(KeyError("href")), [];
    } else {
      failure, subs := FetchExtensions(gov, up, credential, baseUrl, svc, apiArgs, survey["href"], sink, fuel, fetch, step);
    }
  }

  /** The caller's arguments after the responses fetches of `expansions`:
      each complete survey leaves them where its responses fetch ended. */
  function CallerArgsAfter(expansions: seq<seq<SubFetch>>, initial: map<string, ArgValue>): map<string, ArgValue>
    decreases |expansions|
  {
    if expansions == [] then initial
    else ArgsAfter(expansions[|expansions| - 1], CallerArgsAfter(expansions[..|expansions| - 1], initial))
  }

  /** The rejection expiry after the sub-fetches of `expansions`. */
  function ExpiriesAfter(expansions: seq<seq<SubFetch>>, initial: Option<int>): Option<int>
    decreases |expansions|
  {
    if expansions == [] then initial
    else ExpiryAfter(expansions[|expansions| - 1], ExpiriesAfter(expansions[..|expansions| - 1], initial))
  }

  /** The shape of the sub-fetches of one survey. */
  ghost predicate Planned(survey: Entity, blacklist: seq<string>, subs: seq<SubFetch>)
  {
    if Blacklisted(survey, blacklist) || "href" !in survey then subs == []
    else
      && |subs| <= |Extensions|
      && forall k :: 0 <= k < |subs| ==>
           && subs[k].url == survey["href"] + Extensions[k].suffix
           && (Extensions[k].args.Include? ==> subs[k].args == map["include" := Text(Extensions[k].args.fields)])
  }

  /** Every planned sub-fetch of the survey was made. */
  predicate Complete(survey: Entity, blacklist: seq<string>, subs: seq<SubFetch>)
  {
    |subs| == if Blacklisted(survey, blacklist) then 0 else |Extensions|
  }

  /** The expansion of one survey meets the declarative account, has the
      planned shape, and is complete unless it failed. */
  lemma ExpansionShape(fetch: Fetcher, credential: string, survey: Entity, blacklist: seq<string>,
                       callerArgs: map<string, ArgValue>, expiry: Option<int>)
    ensures var x := Expand(fetch, credential, survey, blacklist, callerArgs, expiry);
      && SurveyExpanded(survey, blacklist, x.subs, x.failure, callerArgs, expiry, fetch, credential)
      && Planned(survey, blacklist, x.subs)
      && (x.failure.None? ==> Complete(survey, blacklist, x.subs))
  {
    var x := Expand(fetch, credential, survey, blacklist, callerArgs, expiry);
    ExpandCharacterised(survey, blacklist, x.subs, x.failure, callerArgs, expiry, fetch, credential);
    if !Blacklisted(survey, blacklist) && "href" in survey {
      var subs := x.subs;
      forall k | 0 <= k < |subs| && Extensions[k].args.Include?
        ensures subs[k].args == map["include" := Text(Extensions[k].args.fields)]
      {
        assert PlannedFetch(subs[k], k, survey["href"], callerArgs, ExpiryBefore(subs, k, expiry),
                            fetch, credential);
      }
    }
  }

  /** Every survey has the planned shape; all are complete but, after a
      failure, the last. */
  ghost predicate SurveysPlanned(surveys: seq<Entity>, expansions: seq<seq<SubFetch>>, failure: Option<Error>,
                                 blacklist: seq<string>)
  {
    && |expansions| == |surveys|
    && (forall i :: 0 <= i < |surveys| ==> Planned(surveys[i], blacklist, expansions[i]))
    && forall i :: 0 <= i < |surveys| && (failure.None? || i < |surveys| - 1) ==>
         Complete(surveys[i], blacklist, expansions[i])
  }

  lemma ExpansionsSnoc(expansions: seq<seq<SubFetch>>, subs: seq<SubFetch>, initial: map<string, ArgValue>,
                       expiry: Option<int>)
    ensures FlattenAll(expansions + [subs]) == FlattenAll(expansions) + Flatten(subs)
    ensures CallerArgsAfter(expansions + [subs], initial) == ArgsAfter(subs, CallerArgsAfter(expansions, initial))
    ensures ExpiriesAfter(expansions + [subs], expiry) == ExpiryAfter(subs, ExpiriesAfter(expansions, expiry))
  {
    assert (expansions + [subs])[..|expansions|] == expansions;
  }

  lemma SurveysPlannedFailed(surveys: seq<Entity>, expansions: seq<seq<SubFetch>>, failure: Option<Error>,
                             blacklist: seq<string>)
    requires SurveysPlanned(surveys, expansions, None, blacklist)
    ensures SurveysPlanned(surveys, expansions, failure, blacklist)
  {
  }

  lemma {:induction false} FlattenAllAppend(xs: seq<seq<SubFetch>>, ys: seq<seq<SubFetch>>)
    ensures FlattenAll(xs + ys) == FlattenAll(xs) + FlattenAll(ys)
    decreases |ys|
  {
    if ys == [] {
      assert xs + ys == xs;
    } else {
      var zs, ys', last := xs + ys, ys[..|ys| - 1], ys[|ys| - 1];
      assert zs[..|zs| - 1] == xs + ys';
      assert zs[|zs| - 1] == last;
      assert FlattenAll(zs) == FlattenAll(xs + ys') + Flatten(last);
      assert FlattenAll(ys) == FlattenAll(ys') + Flatten(last);
      FlattenAllAppend(xs, ys');
      AppendAssociative(FlattenAll(xs), FlattenAll(ys'), Flatten(last));
    }
  }

  /** The caller's arguments thread through consecutive expansions. */
  lemma {:induction false} CallerArgsAfterAppend(xs: seq<seq<SubFetch>>, ys: seq<seq<SubFetch>>,
                                                 initial: map<string, ArgValue>)
    ensures CallerArgsAfter(xs + ys, initial) == CallerArgsAfter(ys, CallerArgsAfter(xs, initial))
    decreases |ys|
  {
    if ys == [] {
      assert xs + ys == xs;
    } else {
      var ys' := ys[..|ys| - 1];
      CallerArgsAfterAppend(xs, ys', initial);
      assert (xs + ys)[..|xs + ys| - 1] == xs + ys';
      assert (xs + ys)[|xs + ys| - 1] == ys[|ys| - 1];
    }
  }

  /** So does the rejection expiry. */
  lemma {:induction false} ExpiriesAfterAppend(xs: seq<seq<SubFetch>>, ys: seq<seq<SubFetch>>, initial: Option<int>)
    ensures ExpiriesAfter(xs + ys, initial) == ExpiriesAfter(ys, ExpiriesAfter(xs, initial))
    decreases |ys|
  {
    if ys == [] {
      assert xs + ys == xs;
    } else {
      var ys' := ys[..|ys| - 1];
      ExpiriesAfterAppend(xs, ys', initial);
      assert (xs + ys)[..|xs + ys| - 1] == xs + ys';
      assert (xs + ys)[|xs + ys| - 1] == ys[|ys| - 1];
    }
  }

  lemma SurveysPlannedAppend(s1: seq<Entity>, e1: seq<seq<SubFetch>>, s2: seq<Entity>, e2: seq<seq<SubFetch>>,
                             failure: Option<Error>, blacklist: seq<string>)
    requires SurveysPlanned(s1, e1, None, blacklist)
    requires SurveysPlanned(s2, e2, failure, blacklist)
    ensures SurveysPlanned(s1 + s2, e1 + e2, failure, blacklist)
  {
    var ss, es := s1 + s2, e1 + e2;
    forall i | 0 <= i < |ss|
      ensures Planned(ss[i], blacklist, es[i])
      ensures failure.None? || i < |ss| - 1 ==> Complete(ss[i], blacklist, es[i])
    {
      if i < |s1| {
        assert ss[i] == s1[i] && es[i] == e1[i];
      } else {
        assert ss[i] == s2[i - |s1|] && es[i] == e2[i - |s1|];
      }
    }
  }

  /** The surveys of one page that were expanded, their sub-fetches and the
      error the page ended with. */
  datatype PageRun = PageRun(surveys: seq<Entity>, expansions: seq<seq<SubFetch>>, failure: Option<Error>)

  /** The expansion of a page of surveys with a credential, from the
      caller's arguments and the rejection expiry. */
  type Expander = (string, seq<Entity>, map<string, ArgValue>, Option<int>) -> PageRun

  /** The expansions the proxy makes with `fetch`, skipping `blacklist`. */
  function ExpanderOf(fetch: Fetcher, blacklist: seq<string>): Expander
  {
    (credential: string, page: seq<Entity>, callerArgs: map<string, ArgValue>, expiry: Option<int>) =>
      ExpandSurveys(fetch, credential, page, blacklist, callerArgs, expiry)
  }

  /** `expand` is `ExpandSurveys` over `fetch` and `blacklist`. The composite
      flow below is stated over such an expander, so that its proofs, which
      are about the survey pages, need not look inside an expansion. */
  ghost predicate Expands(expand: Expander, fetch: Fetcher, blacklist: seq<string>)
  {
    forall credential, page, callerArgs, expiry
      {:trigger ExpandSurveys(fetch, credential, page, blacklist, callerArgs, expiry)} ::
      expand(credential, page, callerArgs, expiry) == ExpandSurveys(fetch, credential, page, blacklist, callerArgs, expiry)
  }

  /** The surveys of a page expanded in order, each from where the previous
      one left the caller's arguments and the rejection expiry, until one
      fails. */
  function ExpandSurveys(fetch: Fetcher, credential: string, page: seq<Entity>, blacklist: seq<string>,
                         callerArgs: map<string, ArgValue>, expiry: Option<int>): PageRun
    decreases |page|
  {
    if page == [] then PageRun([], [], None)
    else
      var x := Expand(fetch, credential, page[0], blacklist, callerArgs, expiry);
      if x.failure.Some? then PageRun([page[0]], [x.subs], x.failure)
      else
        var rest := ExpandSurveys(fetch, credential, page[1..], blacklist, ArgsAfter(x.subs, callerArgs),
                                  ExpiryAfter(x.subs, expiry));
        PageRun([page[0]] + rest.surveys, [x.subs] + rest.expansions, rest.failure)
  }

  /** The expanded surveys are a prefix of the page, the whole page unless
      one failed, and the failing one is the last; each has the planned
      shape and all but a failing last one are complete. */
  lemma {:induction false} ExpandSurveysPlanned(fetch: Fetcher, credential: string, page: seq<Entity>,
                                                blacklist: seq<string>, callerArgs: map<string, ArgValue>,
                                                expiry: Option<int>)
    ensures var r := ExpandSurveys(fetch, credential, page, blacklist, callerArgs, expiry);
      && |r.surveys| <= |page| && r.surveys == page[..|r.surveys|]
      && (r.failure.None? ==> r.surveys == page)
      && (r.failure.Some? ==> r.surveys != [])
      && SurveysPlanned(r.surveys, r.expansions, r.failure, blacklist)
    decreases |page|
  {
    if page != [] {
      var x := Expand(fetch, credential, page[0], blacklist, callerArgs, expiry);
      ExpansionShape(fetch, credential, page[0], blacklist, callerArgs, expiry);
      assert SurveysPlanned([page[0]], [x.subs], x.failure, blacklist);
      if x.failure.None? {
        var a, e := ArgsAfter(x.subs, callerArgs), ExpiryAfter(x.subs, expiry);
        ExpandSurveysPlanned(fetch, credential, page[1..], blacklist, a, e);
        var rest := ExpandSurveys(fetch, credential, page[1..], blacklist, a, e);
        SurveysPlannedAppend([page[0]], [x.subs], rest.surveys, rest.expansions, rest.failure, blacklist);
        assert page == [page[0]] + page[1..];
        assert ([page[0]] + rest.surveys) == page[..|rest.surveys| + 1];
      }
    }
  }

  /** One level of `ExpandSurveys`: the first survey is expanded from the
      caller's arguments and expiry, and unless it failed the rest of the
      page follows from where it left them. */
  lemma ExpandSurveysHead(fetch: Fetcher, credential: string, page: seq<Entity>, blacklist: seq<string>,
                          callerArgs: map<string, ArgValue>, expiry: Option<int>)
    requires page != []
    ensures var r := ExpandSurveys(fetch, credential, page, blacklist, callerArgs, expiry);
      var x := Expand(fetch, credential, page[0], blacklist, callerArgs, expiry);
      var rest := ExpandSurveys(fetch, credential, page[1..], blacklist, ArgsAfter(x.subs, callerArgs),
                                ExpiryAfter(x.subs, expiry));
      && r.surveys != [] && r.surveys[0] == page[0] && r.expansions != [] && r.expansions[0] == x.subs
      && (|r.surveys| == 1 ==> r.failure == x.failure)
      && (x.failure.Some? ==> |r.surveys| == 1)
      && (x.failure.None? ==>
            r.surveys[1..] == rest.surveys && r.expansions[1..] == rest.expansions && r.failure == rest.failure)
  {
    var x := Expand(fetch, credential, page[0], blacklist, callerArgs, expiry);
    if x.failure.None? {
      var a, e := ArgsAfter(x.subs, callerArgs), ExpiryAfter(x.subs, expiry);
      ExpandSurveysPlanned(fetch, credential, page[1..], blacklist, a, e);
    }
  }

  /** The `i`-th survey expanded is expanded from where the surveys before
      it left the caller's arguments and the rejection expiry; only the
      last may fail. */
  lemma {:induction false} ExpandSurveysEach(fetch: Fetcher, credential: string, page: seq<Entity>,
                                             blacklist: seq<string>, callerArgs: map<string, ArgValue>,
                                             expiry: Option<int>, i: nat)
    requires var r := ExpandSurveys(fetch, credential, page, blacklist, callerArgs, expiry);
      i < |r.surveys| && |r.expansions| == |r.surveys|
    ensures var r := ExpandSurveys(fetch, credential, page, blacklist, callerArgs, expiry);
      Expand(fetch, credential, r.surveys[i], blacklist, CallerArgsAfter(r.expansions[..i], callerArgs),
             ExpiriesAfter(r.expansions[..i], expiry))
      == Expansion(r.expansions[i], if i == |r.surveys| - 1 then r.failure else None)
    decreases i
  {
    var r := ExpandSurveys(fetch, credential, page, blacklist, callerArgs, expiry);
    assert page != [];
    var x := Expand(fetch, credential, page[0], blacklist, callerArgs, expiry);
    var a, e := ArgsAfter(x.subs, callerArgs), ExpiryAfter(x.subs, expiry);
    var rest := ExpandSurveys(fetch, credential, page[1..], blacklist, a, e);
    ExpandSurveysHead(fetch, credential, page, blacklist, callerArgs, expiry);
    if i == 0 {
      assert r.expansions[..0] == [];
      assert CallerArgsAfter([], callerArgs) == callerArgs && ExpiriesAfter([], expiry) == expiry;
      assert x == Expansion(x.subs, x.failure);
    } else {
      assert x.failure.None?;
      assert |rest.surveys| == |r.surveys| - 1 && |rest.expansions| == |r.expansions| - 1;
      ExpandSurveysEach(fetch, credential, page[1..], blacklist, a, e, i - 1);
      var prior := rest.expansions[..i - 1];
      assert r.expansions[..i] == [x.subs] + prior;
      CallerArgsAfterAppend([x.subs], prior, callerArgs);
      ExpiriesAfterAppend([x.subs], prior, expiry);
      assert [x.subs][..0] == [];
      assert CallerArgsAfter([x.subs], callerArgs) == a && ExpiriesAfter([x.subs], expiry) == e;
      assert r.surveys[i] == rest.surveys[i - 1] && r.expansions[i] == rest.expansions[i - 1];
    }
  }

  function Then(surveys: seq<Entity>, expansions: seq<seq<SubFetch>>, r: PageRun): PageRun
  {
    PageRun(surveys + r.surveys, expansions + r.expansions, r.failure)
  }

  /** A page so far: the surveys expanded and, unless one failed, the rest
      of `total` is the page from the `j`-th survey on. */
  ghost predicate PageSoFar(total: PageRun, surveys: seq<Entity>, expansions: seq<seq<SubFetch>>, failure: Option<Error>,
                            fetch: Fetcher, credential: string, page: seq<Entity>, j: nat, blacklist: seq<string>,
                            callerArgs: map<string, ArgValue>, expiry: Option<int>)
    requires j <= |page|
  {
    if failure.None? then
      total == Then(surveys, expansions, ExpandSurveys(fetch, credential, page[j..], blacklist, callerArgs, expiry))
    else total == PageRun(surveys, expansions, failure)
  }

  lemma PageStep(total: PageRun, surveys: seq<Entity>, expansions: seq<seq<SubFetch>>, fetch: Fetcher,
                 credential: string, page: seq<Entity>, j: nat, blacklist: seq<string>,
                 callerArgs: map<string, ArgValue>, expiry: Option<int>, x: Expansion)
    requires j < |page|
    requires PageSoFar(total, surveys, expansions, None, fetch, credential, page, j, blacklist, callerArgs, expiry)
    requires x == Expand(fetch, credential, page[j], blacklist, callerArgs, expiry)
    ensures PageSoFar(total, surveys + [page[j]], expansions + [x.subs], x.failure, fetch, credential, page, j + 1,
                      blacklist, ArgsAfter(x.subs, callerArgs), ExpiryAfter(x.subs, expiry))
  {
    var p := page[j..];
    assert p[0] == page[j] && p[1..] == page[j + 1..];
    if x.failure.None? {
      var rest := ExpandSurveys(fetch, credential, page[j + 1..], blacklist, ArgsAfter(x.subs, callerArgs),
                                ExpiryAfter(x.subs, expiry));
      AppendAssociative(surveys, [page[j]], rest.surveys);
      AppendAssociative(expansions, [x.subs], rest.expansions);
    }
  }

  lemma PageExit(total: PageRun, surveys: seq<Entity>, expansions: seq<seq<SubFetch>>, failure: Option<Error>,
                 fetch: Fetcher, credential: string, page: seq<Entity>, j: nat, blacklist: seq<string>,
                 callerArgs: map<string, ArgValue>, expiry: Option<int>)
    requires j <= |page| && (j == |page| || failure.Some?)
    requires PageSoFar(total, surveys, expansions, failure, fetch, credential, page, j, blacklist, callerArgs, expiry)
    ensures total == PageRun(surveys, expansions, failure)
  {
    if failure.None? {
      assert page[j..] == [];
      assert surveys + [] == surveys && expansions + [] == expansions;
    }
  }

  /** Expands the surveys of one page in order, until one fails. */
  method ExpandPage(gov: Governor, up: Upstream, credential: string, baseUrl: string, svc: ServiceArgs,
                    apiArgs: ArgDict, page: seq<Entity>, blacklist: seq<string>, sink: Sink, fuel: nat,
                    ghost fetch: Fetcher, ghost step: Step)
    returns (failure: Option<Error>, surveys: seq<Entity>, ghost expansions: seq<seq<SubFetch>>)
    requires sink.Valid()
    requires Steps(step, ConfigOf(svc.params))
    requires Fetches(fetch, up, baseUrl, svc.isPagingOn, fuel)
    modifies gov, svc, apiArgs, sink
    ensures sink.Valid()
    ensures Wrote(sink.emitted, svc.latestDateModified, old(sink.emitted),
                  FlattenAll(expansions), step, old(svc.latestDateModified))
    ensures PageRun(surveys, expansions, failure) ==
      ExpandSurveys(fetch, credential, page, blacklist, old(apiArgs.items), old(gov.expiresAt))
    ensures apiArgs.items == CallerArgsAfter(expansions, old(apiArgs.items))
    ensures gov.expiresAt == ExpiriesAfter(expansions, old(gov.expiresAt))
  {
    ghost var total := ExpandSurveys(fetch, credential, page, blacklist, apiArgs.items, gov.expiresAt);
    failure, surveys, expansions := None, [], [];
    assert page[0..] == page;
    var j := 0;
    while j < |page| && failure.None?
      invariant 0 <= j <= |page|
      invariant sink.Valid()
      invariant Wrote(sink.emitted, svc.latestDateModified, old(sink.emitted),
                      FlattenAll(expansions), step, old(svc.latestDateModified))
      invariant apiArgs.items == CallerArgsAfter(expansions, old(apiArgs.items))
      invariant gov.expiresAt == ExpiriesAfter(expansions, old(gov.expiresAt))
      invariant PageSoFar(total, surveys, expansions, failure, fetch, credential, page, j, blacklist,
                          apiArgs.items, gov.expiresAt)
    {
      ghost var mid, midLatest := sink.emitted, svc.latestDateModified;
      ghost var callerArgs, expiry := apiArgs.items, gov.expiresAt;
      var subFailure, subs := ExpandSurvey(gov, up, credential, baseUrl, svc, apiArgs, page[j], blacklist, sink, fuel, fetch, step);
      WroteStep(mid, midLatest, sink.emitted, svc.latestDateModified, old(sink.emitted), FlattenAll(expansions),
                Flatten(subs), step, old(svc.latestDateModified));
      PageStep(total, surveys, expansions, fetch, credential, page, j, blacklist, callerArgs, expiry,
               Expansion(subs, subFailure));
      ExpansionsSnoc(expansions, subs, old(apiArgs.items), old(gov.expiresAt));
      surveys, expansions := surveys + [page[j]], expansions + [subs];
      failure := subFailure;
      j := j + 1;
    }
    PageExit(total, surveys, expansions, failure, fetch, credential, page, j, blacklist, apiArgs.items, gov.expiresAt);
  }

  /** One page of a fetch of `url` with the call arguments `args`, under
      the post-check `check`. */
  function PageOf(check: Checker, up: Upstream, credential: string, url: string, args: map<string, ArgValue>,
                  fromData: bool, pagingOn: bool): PageResult
  {
    var resp := up(credential, url, args);
    Page(check(resp), resp, fromData, pagingOn)
  }

  /** The composite flow for one credential: the surveys expanded, their
      sub-fetches, the error it ended with, the arguments of every survey
      page call and the rejection expiry it left. */
  datatype Composite = Composite(surveys: seq<Entity>, expansions: seq<seq<SubFetch>>, failure: Option<Error>,
                                 calls: seq<map<string, ArgValue>>, expiry: Option<int>)

  /** The composite flow from the survey page call with arguments `args`
      on: no call while a rejection window is open or once the page budget
      is spent; otherwise one page of surveys, each survey of it expanded
      before the next page is asked for, until a survey or the page fails,
      the pages end or the budget does. */
  function CompositeFrom(check: Checker, expand: Expander, up: Upstream, credential: string, surveysUrl: string,
                         fromData: bool, pagingOn: bool, args: map<string, ArgValue>,
                         callerArgs: map<string, ArgValue>, expiry: Option<int>, fuel: nat): Composite
    decreases fuel
  {
    if expiry.Some? || fuel == 0 then Composite([], [], None, [], expiry)
    else
      var r := PageOf(check, up, credential, surveysUrl, args, fromData, pagingOn);
      var run := expand(credential, r.entities, callerArgs, r.expiry);
      var after := ExpiriesAfter(run.expansions, r.expiry);
      if run.failure.Some? then Composite(run.surveys, run.expansions, run.failure, [args], after)
      else if r.status.Failed? then Composite(run.surveys, run.expansions, Some(r.status.error), [args], after)
      else if r.status.More? then
        var rest := CompositeFrom(check, expand, up, credential, surveysUrl, fromData, pagingOn,
                                  args["page" := Number(r.status.nextPage)], CallerArgsAfter(run.expansions, callerArgs),
                                  after, fuel - 1);
        Composite(run.surveys + rest.surveys, run.expansions + rest.expansions, rest.failure, [args] + rest.calls,
                  rest.expiry)
      else Composite(run.surveys, run.expansions, None, [args], after)
  }

  /** The survey page call `next` asks for the page after the one `call`
      got, which reported a further page. */
  ghost predicate Advances(check: Checker, up: Upstream, credential: string, url: string, fromData: bool,
                           pagingOn: bool, call: map<string, ArgValue>, next: map<string, ArgValue>)
  {
    var r := PageOf(check, up, credential, url, call, fromData, pagingOn);
    r.status.More? && next == call["page" := Number(r.status.nextPage)]
  }

  lemma AdvancesCons(check: Checker, up: Upstream, credential: string, url: string, fromData: bool, pagingOn: bool,
                     call: map<string, ArgValue>, rest: seq<map<string, ArgValue>>)
    requires forall k :: 0 <= k < |rest| - 1 ==>
      Advances(check, up, credential, url, fromData, pagingOn, rest[k], rest[k + 1])
    requires rest != [] ==> Advances(check, up, credential, url, fromData, pagingOn, call, rest[0])
    ensures var calls := [call] + rest;
      forall k :: 0 <= k < |calls| - 1 ==>
        Advances(check, up, credential, url, fromData, pagingOn, calls[k], calls[k + 1])
  {
    var calls := [call] + rest;
    forall k | 0 <= k < |calls| - 1
      ensures Advances(check, up, credential, url, fromData, pagingOn, calls[k], calls[k + 1])
    {
      if k > 0 {
        assert calls[k] == rest[k - 1] && calls[k + 1] == rest[k];
      }
    }
  }

  /** The survey page calls start from the given arguments, number at most
      the page budget, and none is made while a rejection window is open. */
  lemma {:induction false} CompositeBudget(check: Checker, expand: Expander, up: Upstream, credential: string,
                                           surveysUrl: string, fromData: bool, pagingOn: bool,
                                           args: map<string, ArgValue>, callerArgs: map<string, ArgValue>,
                                           expiry: Option<int>, fuel: nat)
    ensures var c := CompositeFrom(check, expand, up, credential, surveysUrl, fromData, pagingOn, args,
                                   callerArgs, expiry, fuel);
      && |c.calls| <= fuel
      && (expiry.Some? ==> c == Composite([], [], None, [], expiry))
      && (c.calls != [] ==> c.calls[0] == args)
    decreases fuel
  {
    if expiry.None? && fuel > 0 {
      var r := PageOf(check, up, credential, surveysUrl, args, fromData, pagingOn);
      var run := expand(credential, r.entities, callerArgs, r.expiry);
      if run.failure.None? && r.status.More? {
        var next := args["page" := Number(r.status.nextPage)];
        var a, e := CallerArgsAfter(run.expansions, callerArgs), ExpiriesAfter(run.expansions, r.expiry);
        CompositeBudget(check, expand, up, credential, surveysUrl, fromData, pagingOn, next, a, e, fuel - 1);
        var rest := CompositeFrom(check, expand, up, credential, surveysUrl, fromData, pagingOn, next, a, e,
                                  fuel - 1);
        assert CompositeFrom(check, expand, up, credential, surveysUrl, fromData, pagingOn, args, callerArgs,
                             expiry, fuel).calls == [args] + rest.calls;
      } else {
        assert CompositeFrom(check, expand, up, credential, surveysUrl, fromData, pagingOn, args, callerArgs,
                             expiry, fuel).calls == [args];
      }
    }
  }

  /** Each survey page call asks for the page after the one before. */
  lemma {:induction false} CompositeCalls(check: Checker, expand: Expander, up: Upstream, credential: string,
                                          surveysUrl: string, fromData: bool, pagingOn: bool,
                                          args: map<string, ArgValue>, callerArgs: map<string, ArgValue>,
                                          expiry: Option<int>, fuel: nat)
    ensures var c := CompositeFrom(check, expand, up, credential, surveysUrl, fromData, pagingOn, args,
                                   callerArgs, expiry, fuel);
      forall k :: 0 <= k < |c.calls| - 1 ==>
        Advances(check, up, credential, surveysUrl, fromData, pagingOn, c.calls[k], c.calls[k + 1])
    decreases fuel
  {
    if expiry.None? && fuel > 0 {
      var r := PageOf(check, up, credential, surveysUrl, args, fromData, pagingOn);
      var run := expand(credential, r.entities, callerArgs, r.expiry);
      if run.failure.None? && r.status.More? {
        var next := args["page" := Number(r.status.nextPage)];
        var a, e := CallerArgsAfter(run.expansions, callerArgs), ExpiriesAfter(run.expansions, r.expiry);
        CompositeCalls(check, expand, up, credential, surveysUrl, fromData, pagingOn, next, a, e, fuel - 1);
        CompositeBudget(check, expand, up, credential, surveysUrl, fromData, pagingOn, next, a, e, fuel - 1);
        var rest := CompositeFrom(check, expand, up, credential, surveysUrl, fromData, pagingOn, next, a, e,
                                  fuel - 1);
        AdvancesCons(check, up, credential, surveysUrl, fromData, pagingOn, args, rest.calls);
      }
    }
  }

  /** Every survey of the composite flow has the planned shape, and all are
      complete but, after a failure, the last. */
  lemma {:induction false} CompositePlanned(check: Checker, expand: Expander, fetch: Fetcher, up: Upstream,
                                            credential: string, surveysUrl: string, fromData: bool, pagingOn: bool,
                                            blacklist: seq<string>, args: map<string, ArgValue>,
                                            callerArgs: map<string, ArgValue>, expiry: Option<int>, fuel: nat)
    requires Expands(expand, fetch, blacklist)
    ensures var c := CompositeFrom(check, expand, up, credential, surveysUrl, fromData, pagingOn, args,
                                   callerArgs, expiry, fuel);
      SurveysPlanned(c.surveys, c.expansions, c.failure, blacklist)
    decreases fuel
  {
    if expiry.None? && fuel > 0 {
      var r := PageOf(check, up, credential, surveysUrl, args, fromData, pagingOn);
      var run := expand(credential, r.entities, callerArgs, r.expiry);
      ExpandSurveysPlanned(fetch, credential, r.entities, blacklist, callerArgs, r.expiry);
      if run.failure.None? {
        if r.status.More? {
          var next := args["page" := Number(r.status.nextPage)];
          var a, e := CallerArgsAfter(run.expansions, callerArgs), ExpiriesAfter(run.expansions, r.expiry);
          CompositePlanned(check, expand, fetch, up, credential, surveysUrl, fromData, pagingOn, blacklist, next, a, e,
                           fuel - 1);
          var rest := CompositeFrom(check, expand, up, credential, surveysUrl, fromData, pagingOn, next, a, e,
                                    fuel - 1);
          SurveysPlannedAppend(run.surveys, run.expansions, rest.surveys, rest.expansions, rest.failure, blacklist);
        } else if r.status.Failed? {
          SurveysPlannedFailed(run.surveys, run.expansions, Some(r.status.error), blacklist);
        }
      }
    }
  }

  function ThenComposite(surveys: seq<Entity>, expansions: seq<seq<SubFetch>>, calls: seq<map<string, ArgValue>>,
                         c: Composite): Composite
  {
    Composite(surveys + c.surveys, expansions + c.expansions, c.failure, calls + c.calls, c.expiry)
  }

  /** The composite flow so far: unless it failed or the pages ended, the
      rest of `total` is the flow from the next survey page call on. */
  ghost predicate CompositeSoFar(total: Composite, surveys: seq<Entity>, expansions: seq<seq<SubFetch>>,
                                 failure: Option<Error>, calls: seq<map<string, ArgValue>>, doPage: bool,
                                 check: Checker, expand: Expander, up: Upstream, credential: string, surveysUrl: string,
                                 fromData: bool, pagingOn: bool, args: map<string, ArgValue>,
                                 callerArgs: map<string, ArgValue>, expiry: Option<int>, budget: nat)
  {
    if doPage && failure.None? then
      total == ThenComposite(surveys, expansions, calls,
                             CompositeFrom(check, expand, up, credential, surveysUrl, fromData, pagingOn, args,
                                           callerArgs, expiry, budget))
    else total == Composite(surveys, expansions, failure, calls, expiry)
  }

  lemma CompositeStep(total: Composite, surveys: seq<Entity>, expansions: seq<seq<SubFetch>>,
                      calls: seq<map<string, ArgValue>>, check: Checker, expand: Expander, up: Upstream,
                      credential: string, surveysUrl: string, fromData: bool, pagingOn: bool,
                      args: map<string, ArgValue>, callerArgs: map<string, ArgValue>, budget: nat,
                      r: PageResult, run: PageRun, failure': Option<Error>, doPage': bool,
                      args': map<string, ArgValue>, callerArgs': map<string, ArgValue>, expiry': Option<int>,
                      budget': nat)
    requires budget > 0
    requires CompositeSoFar(total, surveys, expansions, None, calls, true, check, expand, up, credential, surveysUrl,
                            fromData, pagingOn, args, callerArgs, None, budget)
    requires r == PageOf(check, up, credential, surveysUrl, args, fromData, pagingOn)
    requires run == expand(credential, r.entities, callerArgs, r.expiry)
    requires failure' == if run.failure.Some? then run.failure else if r.status.Failed? then Some(r.status.error) else None
    requires doPage' == (failure'.Some? || r.status.More?)
    requires args' == if r.status.More? then args["page" := Number(r.status.nextPage)] else args
    requires callerArgs' == CallerArgsAfter(run.expansions, callerArgs)
    requires expiry' == ExpiriesAfter(run.expansions, r.expiry)
    requires budget' == if failure'.None? && r.status.More? then budget - 1 else budget
    ensures CompositeSoFar(total, surveys + run.surveys, expansions + run.expansions, failure', calls + [args],
                           doPage', check, expand, up, credential, surveysUrl, fromData, pagingOn, args',
                           callerArgs', expiry', budget')
  {
    if run.failure.None? && r.status.More? {
      var rest := CompositeFrom(check, expand, up, credential, surveysUrl, fromData, pagingOn, args', callerArgs',
                                expiry', budget');
      AppendAssociative(surveys, run.surveys, rest.surveys);
      AppendAssociative(expansions, run.expansions, rest.expansions);
      AppendAssociative(calls, [args], rest.calls);
    }
  }

  lemma CompositeExit(total: Composite, surveys: seq<Entity>, expansions: seq<seq<SubFetch>>, failure: Option<Error>,
                      calls: seq<map<string, ArgValue>>, doPage: bool, check: Checker, expand: Expander, up: Upstream,
                      credential: string, surveysUrl: string, fromData: bool, pagingOn: bool,
                      args: map<string, ArgValue>, callerArgs: map<string, ArgValue>, expiry: Option<int>,
                      budget: nat)
    requires !(doPage && expiry.None? && budget > 0 && failure.None?)
    requires CompositeSoFar(total, surveys, expansions, failure, calls, doPage, check, expand, up, credential,
                            surveysUrl, fromData, pagingOn, args, callerArgs, expiry, budget)
    ensures total == Composite(surveys, expansions, failure, calls, expiry)
  {
    if doPage && failure.None? {
      assert surveys + [] == surveys && expansions + [] == expansions && calls + [] == calls;
    }
  }

  /** One survey page of the composite flow: fetches it and expands its
      surveys. */
  method CompositePage(gov: Governor, up: Upstream, credential: string, baseUrl: string, svc: ServiceArgs,
                       surveysUrl: string, fromData: bool, surveyArgs: ArgDict, apiArgs: ArgDict, blacklist: seq<string>,
                       sink: Sink, fuel: nat, ghost check: Checker, ghost fetch: Fetcher, ghost step: Step)
    returns (status: PageStatus, failure: Option<Error>, surveys: seq<Entity>, ghost expansions: seq<seq<SubFetch>>,
             ghost r: PageResult)
    requires gov.expiresAt.None? && surveyArgs != apiArgs
    requires sink.Valid()
    requires Governs(check)
    requires Steps(step, ConfigOf(svc.params))
    requires Fetches(fetch, up, baseUrl, svc.isPagingOn, fuel)
    modifies gov, svc, surveyArgs, apiArgs, sink
    ensures r == PageOf(check, up, credential, surveysUrl, old(surveyArgs.items), fromData, svc.isPagingOn)
    ensures status == r.status
    ensures PageRun(surveys, expansions, failure) ==
      ExpandSurveys(fetch, credential, r.entities, blacklist, old(apiArgs.items), r.expiry)
    ensures surveyArgs.items == if status.More? then old(surveyArgs.items)["page" := Number(status.nextPage)]
                                else old(surveyArgs.items)
    ensures apiArgs.items == CallerArgsAfter(expansions, old(apiArgs.items))
    ensures gov.expiresAt == ExpiriesAfter(expansions, r.expiry)
    ensures sink.Valid()
    ensures Wrote(sink.emitted, svc.latestDateModified, old(sink.emitted),
                  FlattenAll(expansions), step, old(svc.latestDateModified))
  {
    ghost var resp := up(credential, surveysUrl, surveyArgs.items);
    assert check(resp) == Governed(resp);
    r := PageOf(check, up, credential, surveysUrl, surveyArgs.items, fromData, svc.isPagingOn);
    var page, delays;
    page, status, delays := FetchPage(gov, up, credential, surveysUrl, surveyArgs, fromData, svc.isPagingOn);
    failure, surveys, expansions := ExpandPage(gov, up, credential, baseUrl, svc, apiArgs, page, blacklist, sink, fuel,
                                               fetch, step);
  }

  /** One round of the composite flow: a survey page and its expansions,
      after which the flow goes on only if the page reported a further one
      and nothing failed. */
  method CompositeRound(gov: Governor, up: Upstream, credential: string, baseUrl: string, svc: ServiceArgs,
                        surveysUrl: string, fromData: bool, surveyArgs: ArgDict, apiArgs: ArgDict,
                        blacklist: seq<string>, sink: Sink, fuel: nat, ghost check: Checker, ghost expand: Expander,
                        ghost fetch: Fetcher, ghost step: Step, ghost total: Composite, surveys: seq<Entity>,
                        ghost expansions: seq<seq<SubFetch>>, ghost calls: seq<map<string, ArgValue>>, budget: nat,
                        ghost startEmitted: seq<Entity>, ghost startLatest: string,
                        ghost startArgs: map<string, ArgValue>)
    returns (failure': Option<Error>, doPage': bool, surveys': seq<Entity>, ghost expansions': seq<seq<SubFetch>>,
             ghost calls': seq<map<string, ArgValue>>, budget': nat)
    requires gov.expiresAt.None? && surveyArgs != apiArgs && budget > 0
    requires sink.Valid()
    requires Governs(check)
    requires Steps(step, ConfigOf(svc.params))
    requires Fetches(fetch, up, baseUrl, svc.isPagingOn, fuel)
    requires Expands(expand, fetch, blacklist)
    requires Wrote(sink.emitted, svc.latestDateModified, startEmitted, FlattenAll(expansions), step, startLatest)
    requires apiArgs.items == CallerArgsAfter(expansions, startArgs)
    requires CompositeSoFar(total, surveys, expansions, None, calls, true, check, expand, up, credential, surveysUrl,
                            fromData, svc.isPagingOn, surveyArgs.items, apiArgs.items, None, budget)
    modifies gov, svc, surveyArgs, apiArgs, sink
    ensures sink.Valid()
    ensures Wrote(sink.emitted, svc.latestDateModified, startEmitted, FlattenAll(expansions'), step, startLatest)
    ensures apiArgs.items == CallerArgsAfter(expansions', startArgs)
    ensures CompositeSoFar(total, surveys', expansions', failure', calls', doPage', check, expand, up, credential,
                           surveysUrl, fromData, svc.isPagingOn, surveyArgs.items, apiArgs.items, gov.expiresAt, budget')
    ensures budget' < budget || (budget' == budget && !(doPage' && failure'.None?))
  {
    ghost var mid, midLatest := sink.emitted, svc.latestDateModified;
    ghost var args, callerArgs := surveyArgs.items, apiArgs.items;
    var status, pageFailure, pageSurveys, pageExpansions, r :=
      CompositePage(gov, up, credential, baseUrl, svc, surveysUrl, fromData, surveyArgs, apiArgs, blacklist, sink,
                    fuel, check, fetch, step);
    WroteStep(mid, midLatest, sink.emitted, svc.latestDateModified, startEmitted, FlattenAll(expansions),
              FlattenAll(pageExpansions), step, startLatest);
    FlattenAllAppend(expansions, pageExpansions);
    CallerArgsAfterAppend(expansions, pageExpansions, startArgs);
    surveys', expansions', calls' := surveys + pageSurveys, expansions + pageExpansions, calls + [args];
    failure' := if pageFailure.Some? then pageFailure else if status.Failed? then Some(status.error) else None;
    doPage' := failure'.Some? || status.More?;
    budget' := if failure'.None? && status.More? then budget - 1 else budget;
    CompositeStep(total, surveys, expansions, calls, check, expand, up, credential, surveysUrl, fromData,
                  svc.isPagingOn, args, callerArgs, budget, r,
                  PageRun(pageSurveys, pageExpansions, pageFailure), failure', doPage', surveyArgs.items, apiArgs.items,
                  gov.expiresAt, budget');
  }

  /** The composite `minimalreportingdata` flow for one credential: pages
      through the surveys and expands each survey of a page before the
      next page is fetched. */
  method FetchComposite(gov: Governor, up: Upstream, credential: string, baseUrl: string, svc: ServiceArgs,
                        apiArgs: ArgDict, blacklist: seq<string>, sink: Sink, fuel: nat, ghost check: Checker,
                        ghost expand: Expander, ghost fetch: Fetcher, ghost step: Step)
    returns (failure: Option<Error>, surveys: seq<Entity>, ghost expansions: seq<seq<SubFetch>>,
             ghost calls: seq<map<string, ArgValue>>)
    requires sink.Valid()
    requires Governs(check)
    requires Steps(step, ConfigOf(svc.params))
    requires Fetches(fetch, up, baseUrl, svc.isPagingOn, fuel)
    requires Expands(expand, fetch, blacklist)
    modifies gov, svc, apiArgs, sink
    ensures Composite(surveys, expansions, failure, calls, gov.expiresAt) ==
      CompositeFrom(check, expand, up, credential, baseUrl + "surveys", ReadsFromDataField(baseUrl + "surveys", baseUrl),
                    svc.isPagingOn, map[], old(apiArgs.items), old(gov.expiresAt), fuel)
    ensures apiArgs.items == CallerArgsAfter(expansions, old(apiArgs.items))
    ensures sink.Valid()
    ensures Wrote(sink.emitted, svc.latestDateModified, old(sink.emitted),
                  FlattenAll(expansions), step, old(svc.latestDateModified))
  {
    var surveysUrl := baseUrl + "surveys";
    var fromData := ReadsFromDataField(surveysUrl, baseUrl);
    var surveyArgs := new ArgDict(map[]);
    ghost var total := CompositeFrom(check, expand, up, credential, surveysUrl, fromData, svc.isPagingOn, map[],
                                     apiArgs.items, gov.expiresAt, fuel);
    failure, surveys, expansions, calls := None, [], [], [];
    var doPage := true;
    var budget := fuel;
    while doPage && gov.expiresAt.None? && budget > 0 && failure.None?
      invariant sink.Valid()
      invariant Wrote(sink.emitted, svc.latestDateModified, old(sink.emitted),
                      FlattenAll(expansions), step, old(svc.latestDateModified))
      invariant apiArgs.items == CallerArgsAfter(expansions, old(apiArgs.items))
      invariant CompositeSoFar(total, surveys, expansions, failure, calls, doPage, check, expand, up, credential,
                               surveysUrl, fromData, svc.isPagingOn, surveyArgs.items, apiArgs.items, gov.expiresAt,
                               budget)
      decreases budget, if doPage && failure.None? then 1 else 0
    {
      failure, doPage, surveys, expansions, calls, budget :=
        CompositeRound(gov, up, credential, baseUrl, svc, surveysUrl, fromData, surveyArgs, apiArgs, blacklist, sink,
                       fuel, check, expand, fetch, step, total, surveys, expansions, calls, budget, old(sink.emitted),
                       old(svc.latestDateModified), old(apiArgs.items));
    }
    CompositeExit(total, surveys, expansions, failure, calls, doPage, check, expand, up, credential, surveysUrl, fromData,
                  svc.isPagingOn, surveyArgs.items, apiArgs.items, gov.expiresAt, budget);
  }

  /** The path whose requests run the composite survey flow. */
  const CompositePath := "minimalreportingdata"

  /** The fetch the `i`-th credential starts from in the simple flow: the
      arguments and rejection expiry the previous credential's fetch left. */
  function RunArgsBefore(runs: seq<Pagination>, i: nat, args: map<string, ArgValue>): map<string, ArgValue>
    requires i <= |runs|
  {
    if i == 0 then args else runs[i - 1].args
  }

  function RunExpiryBefore(runs: seq<Pagination>, i: nat, expiry: Option<int>): Option<int>
    requires i <= |runs|
  {
    if i == 0 then expiry else runs[i - 1].expiry
  }

  /** The entities of the runs, in order. */
  function RunsEntities(runs: seq<Pagination>): seq<Entity>
    decreases |runs|
  {
    if runs == [] then [] else RunsEntities(runs[..|runs| - 1]) + runs[|runs| - 1].entities
  }

  /** One whole fetch, by `generate_entities`, of a URL with a credential
      from the given arguments and rejection expiry. */
  type Fetcher = (string, string, map<string, ArgValue>, Option<int>) -> Pagination

  /** The fetches the proxy makes against `up` under `baseUrl`. */
  function FetchOf(up: Upstream, baseUrl: string, pagingOn: bool, fuel: nat): Fetcher
  {
    (credential: string, url: string, args: map<string, ArgValue>, expiry: Option<int>) =>
      Paginate(up, credential, url, args, expiry, ReadsFromDataField(url, baseUrl), pagingOn, fuel)
  }

  /** `fetch` is the whole fetch of whatever it is given. The flows below are
      stated over such a fetcher rather than over `Paginate` itself, so that
      their proofs, which are about the order and the arguments of the
      fetches, need not look inside one. */
  ghost predicate Fetches(fetch: Fetcher, up: Upstream, baseUrl: string, pagingOn: bool, fuel: nat)
  {
    forall credential, url, args, expiry
      {:trigger Paginate(up, credential, url, args, expiry, ReadsFromDataField(url, baseUrl), pagingOn, fuel)} ::
      fetch(credential, url, args, expiry) ==
      Paginate(up, credential, url, args, expiry, ReadsFromDataField(url, baseUrl), pagingOn, fuel)
  }

  /** The simple flow from the `i`-th credential on: one whole fetch per
      credential, in order, each from the arguments and rejection expiry the
      previous one left, until one raises. */
  function Accounts(fetch: Fetcher, credentials: seq<string>, i: nat, url: string, args: map<string, ArgValue>,
                    expiry: Option<int>): seq<Pagination>
    requires i <= |credentials|
    decreases |credentials| - i
  {
    if i == |credentials| then []
    else
      var r := fetch(credentials[i], url, args, expiry);
      if r.outcome.Raised? then [r]
      else [r] + Accounts(fetch, credentials, i + 1, url, r.args, r.expiry)
  }

  /** The error the last run raised, if it raised. */
  function RaisedBy(runs: seq<Pagination>): Option<Error>
  {
    if runs != [] && runs[|runs| - 1].outcome.Raised? then Some(runs[|runs| - 1].outcome.error) else None
  }

  /** The simple flow makes at most one fetch per remaining credential, and
      stops early only because its last fetch raised. */
  lemma {:induction false} AccountsLength(fetch: Fetcher, credentials: seq<string>, i: nat, url: string, args: map<string, ArgValue>,
                                          expiry: Option<int>)
    requires i <= |credentials|
    ensures var runs := Accounts(fetch, credentials, i, url, args, expiry);
      && |runs| <= |credentials| - i
      && (|runs| < |credentials| - i ==> RaisedBy(runs).Some?)
      && (forall k :: 0 <= k < |runs| - 1 ==> !runs[k].outcome.Raised?)
    decreases |credentials| - i
  {
    if i < |credentials| {
      var runs := Accounts(fetch, credentials, i, url, args, expiry);
      var r := fetch(credentials[i], url, args, expiry);
      if !r.outcome.Raised? {
        var rest := Accounts(fetch, credentials, i + 1, url, r.args, r.expiry);
        AccountsLength(fetch, credentials, i + 1, url, r.args, r.expiry);
        assert runs == [r] + rest;
        forall k | 0 <= k < |runs| - 1
          ensures !runs[k].outcome.Raised?
        {
          if k > 0 {
            assert runs[k] == rest[k - 1];
          }
        }
        if |runs| < |credentials| - i {
          assert rest != [] && runs[|runs| - 1] == rest[|rest| - 1];
        }
      }
    }
  }

  /** The `k`-th fetch of the simple flow is made with the `k`-th remaining
      credential from where the previous one left off. */
  lemma {:induction false} AccountsRuns(fetch: Fetcher, credentials: seq<string>, i: nat, url: string, args: map<string, ArgValue>,
                                        expiry: Option<int>, k: nat)
    requires i <= |credentials|
    requires k < |Accounts(fetch, credentials, i, url, args, expiry)|
    ensures var runs := Accounts(fetch, credentials, i, url, args, expiry);
      i + k < |credentials| &&
      runs[k] == fetch(credentials[i + k], url, RunArgsBefore(runs, k, args), RunExpiryBefore(runs, k, expiry))
    decreases k
  {
    var runs := Accounts(fetch, credentials, i, url, args, expiry);
    var r := fetch(credentials[i], url, args, expiry);
    if k > 0 {
      var rest := Accounts(fetch, credentials, i + 1, url, r.args, r.expiry);
      assert runs == [r] + rest;
      AccountsRuns(fetch, credentials, i + 1, url, r.args, r.expiry, k - 1);
      assert runs[k] == rest[k - 1];
      assert RunArgsBefore(runs, k, args) == RunArgsBefore(rest, k - 1, r.args);
      assert RunExpiryBefore(runs, k, expiry) == RunExpiryBefore(rest, k - 1, r.expiry);
    }
  }

  /** The simple flow so far: `runs` are the fetches made, and unless the
      last raised, the rest of `total` is the flow over the remaining
      credentials from where the last fetch left off. */
  ghost predicate AccountsSoFar(total: seq<Pagination>, runs: seq<Pagination>, failure: Option<Error>, fetch: Fetcher,
                                credentials: seq<string>, i: nat, url: string, args: map<string, ArgValue>, expiry: Option<int>)
    requires i <= |credentials|
  {
    && failure == RaisedBy(runs)
    && total == runs + (if failure.Some? then [] else Accounts(fetch, credentials, i, url, args, expiry))
  }

  lemma AccountsStep(total: seq<Pagination>, runs: seq<Pagination>, r: Pagination, fetch: Fetcher,
                     credentials: seq<string>, i: nat, url: string, args: map<string, ArgValue>, expiry: Option<int>)
    requires i < |credentials|
    requires AccountsSoFar(total, runs, None, fetch, credentials, i, url, args, expiry)
    requires r == fetch(credentials[i], url, args, expiry)
    ensures AccountsSoFar(total, runs + [r], RaisedBy(runs + [r]), fetch, credentials, i + 1, url, r.args, r.expiry)
    ensures RaisedBy(runs + [r]) == if r.outcome.Raised? then Some(r.outcome.error) else None
  {
    RaisedBySnoc(runs, r);
    var later := if r.outcome.Raised? then [] else Accounts(fetch, credentials, i + 1, url, r.args, r.expiry);
    assert Accounts(fetch, credentials, i, url, args, expiry) == [r] + later;
    AppendAssociative(runs, [r], later);
  }

  lemma AppendAssociative<T>(a: seq<T>, b: seq<T>, c: seq<T>)
    ensures a + (b + c) == (a + b) + c
  {
  }

  /** After a further run, the flow has raised exactly when that run did. */
  lemma RaisedBySnoc(runs: seq<Pagination>, r: Pagination)
    ensures RaisedBy(runs + [r]) == if r.outcome.Raised? then Some(r.outcome.error) else None
  {
    assert (runs + [r])[|runs|] == r;
  }

  lemma RunsEntitiesSnoc(runs: seq<Pagination>, run: Pagination)
    ensures RunsEntities(runs + [run]) == RunsEntities(runs) + run.entities
  {
    assert (runs + [run])[..|runs|] == runs;
  }

  /** The simple flow for one credential: fetches `url` and writes the
      normalised entities. */
  method FetchAccount(gov: Governor, up: Upstream, credential: string, url: string, baseUrl: string,
                      svc: ServiceArgs, apiArgs: ArgDict, sink: Sink, fuel: nat, ghost fetch: Fetcher, ghost step: Step)
    returns (failure: Option<Error>, ghost r: Pagination)
    requires Fetches(fetch, up, baseUrl, svc.isPagingOn, fuel)
    requires sink.Valid()
    requires Steps(step, ConfigOf(svc.params))
    modifies gov, svc, apiArgs, sink
    ensures r == fetch(credential, url, old(apiArgs.items), old(gov.expiresAt))
    ensures failure == if r.outcome.Raised? then Some(r.outcome.error) else None
    ensures gov.expiresAt == r.expiry && apiArgs.items == r.args
    ensures sink.Valid()
    ensures Wrote(sink.emitted, svc.latestDateModified, old(sink.emitted),
                  r.entities, step, old(svc.latestDateModified))
  {
    r := fetch(credential, url, apiArgs.items, gov.expiresAt);
    var es, outcome, delays := GenerateEntities(gov, up, credential, url, baseUrl, svc, apiArgs, fuel);
    EmitAll(sink, svc, es, step);
    failure := if outcome.Raised? then Some(outcome.error) else None;
  }

  /** The simple flow over every credential, until one raises. */
  method FetchAccounts(gov: Governor, up: Upstream, credentials: seq<string>, url: string, baseUrl: string,
                       svc: ServiceArgs, apiArgs: ArgDict, sink: Sink, fuel: nat, ghost fetch: Fetcher, ghost step: Step)
    returns (failure: Option<Error>, ghost runs: seq<Pagination>)
    requires Fetches(fetch, up, baseUrl, svc.isPagingOn, fuel)
    requires sink.Valid()
    requires Steps(step, ConfigOf(svc.params))
    modifies gov, svc, apiArgs, sink
    ensures sink.Valid()
    ensures runs == Accounts(fetch, credentials, 0, url, old(apiArgs.items), old(gov.expiresAt))
    ensures failure == RaisedBy(runs)
    ensures Wrote(sink.emitted, svc.latestDateModified, old(sink.emitted), RunsEntities(runs), step,
                  old(svc.latestDateModified))
    ensures gov.expiresAt == RunExpiryBefore(runs, |runs|, old(gov.expiresAt))
    ensures apiArgs.items == RunArgsBefore(runs, |runs|, old(apiArgs.items))
  {
    ghost var cfg := ConfigOf(svc.params);
    ghost var total := Accounts(fetch, credentials, 0, url, apiArgs.items, gov.expiresAt);
    failure, runs := None, [];
    var i := 0;
    while i < |credentials| && failure.None?
      invariant 0 <= i <= |credentials|
      invariant sink.Valid()
      invariant AccountsSoFar(total, runs, failure, fetch, credentials, i, url, apiArgs.items, gov.expiresAt)
      invariant Wrote(sink.emitted, svc.latestDateModified, old(sink.emitted), RunsEntities(runs), step,
                      old(svc.latestDateModified))
      invariant gov.expiresAt == RunExpiryBefore(runs, |runs|, old(gov.expiresAt))
      invariant apiArgs.items == RunArgsBefore(runs, |runs|, old(apiArgs.items))
    {
      ghost var mid, midLatest, args, expiry := sink.emitted, svc.latestDateModified, apiArgs.items, gov.expiresAt;
      var f, r := FetchAccount(gov, up, credentials[i], url, baseUrl, svc, apiArgs, sink, fuel, fetch, step);
      AccountsStep(total, runs, r, fetch, credentials, i, url, args, expiry);
      WroteStep(mid, midLatest, sink.emitted, svc.latestDateModified, old(sink.emitted), RunsEntities(runs),
                r.entities, step, old(svc.latestDateModified));
      RunsEntitiesSnoc(runs, r);
      runs := runs + [r];
      failure := f;
      i := i + 1;
    }
  }

  /** The composite flow from the `i`-th credential on: one composite flow
      per credential, in order, each from the caller's arguments and the
      rejection expiry the previous one left, until one fails. The survey
      pages of every credential start from empty arguments. */
  function CompositeAccounts(check: Checker, expand: Expander, up: Upstream, credentials: seq<string>, i: nat,
                             surveysUrl: string, fromData: bool, pagingOn: bool, callerArgs: map<string, ArgValue>,
                             expiry: Option<int>, fuel: nat): seq<Composite>
    requires i <= |credentials|
    decreases |credentials| - i
  {
    if i == |credentials| then []
    else
      var c := CompositeFrom(check, expand, up, credentials[i], surveysUrl, fromData, pagingOn, map[], callerArgs,
                             expiry, fuel);
      if c.failure.Some? then [c]
      else [c] + CompositeAccounts(check, expand, up, credentials, i + 1, surveysUrl, fromData, pagingOn,
                                   CallerArgsAfter(c.expansions, callerArgs), c.expiry, fuel)
  }

  /** The error the last composite flow ended with. */
  function CompositeFailure(cs: seq<Composite>): Option<Error>
  {
    if cs == [] then None else cs[|cs| - 1].failure
  }

  /** The entities of the composite flows, in order. */
  function CompositesEntities(cs: seq<Composite>): seq<Entity>
    decreases |cs|
  {
    if cs == [] then [] else CompositesEntities(cs[..|cs| - 1]) + FlattenAll(cs[|cs| - 1].expansions)
  }

  /** The caller's arguments and the rejection expiry after the composite
      flows. */
  function CompositeArgsAfter(cs: seq<Composite>, initial: map<string, ArgValue>): map<string, ArgValue>
    decreases |cs|
  {
    if cs == [] then initial
    else CallerArgsAfter(cs[|cs| - 1].expansions, CompositeArgsAfter(cs[..|cs| - 1], initial))
  }

  function CompositeExpiryAfter(cs: seq<Composite>, initial: Option<int>): Option<int>
  {
    if cs == [] then initial else cs[|cs| - 1].expiry
  }

  /** The composite flow makes at most one run per remaining credential,
      and stops early only because its last run failed. */
  lemma {:induction false} CompositeAccountsLength(check: Checker, expand: Expander, up: Upstream,
                                                   credentials: seq<string>, i: nat, surveysUrl: string,
                                                   fromData: bool, pagingOn: bool, callerArgs: map<string, ArgValue>,
                                                   expiry: Option<int>, fuel: nat)
    requires i <= |credentials|
    ensures var cs := CompositeAccounts(check, expand, up, credentials, i, surveysUrl, fromData, pagingOn, callerArgs,
                                        expiry, fuel);
      && |cs| <= |credentials| - i
      && (|cs| < |credentials| - i ==> CompositeFailure(cs).Some?)
      && (forall k :: 0 <= k < |cs| - 1 ==> cs[k].failure.None?)
    decreases |credentials| - i
  {
    if i < |credentials| {
      var cs := CompositeAccounts(check, expand, up, credentials, i, surveysUrl, fromData, pagingOn, callerArgs,
                                  expiry, fuel);
      var c := CompositeFrom(check, expand, up, credentials[i], surveysUrl, fromData, pagingOn, map[], callerArgs,
                             expiry, fuel);
      if c.failure.None? {
        var a := CallerArgsAfter(c.expansions, callerArgs);
        var rest := CompositeAccounts(check, expand, up, credentials, i + 1, surveysUrl, fromData, pagingOn, a,
                                      c.expiry, fuel);
        CompositeAccountsLength(check, expand, up, credentials, i + 1, surveysUrl, fromData, pagingOn, a, c.expiry,
                                fuel);
        assert cs == [c] + rest;
        forall k | 0 <= k < |cs| - 1
          ensures cs[k].failure.None?
        {
          if k > 0 {
            assert cs[k] == rest[k - 1];
          }
        }
        if |cs| < |credentials| - i {
          assert rest != [] && cs[|cs| - 1] == rest[|rest| - 1];
        }
      }
    }
  }

  /** The composite flows so far: `cs` are the runs made, and unless the
      last failed, the rest of `total` is the flow over the remaining
      credentials from where the last run left off. */
  ghost predicate CompositeAccountsSoFar(total: seq<Composite>, cs: seq<Composite>, failure: Option<Error>,
                                         check: Checker, expand: Expander, up: Upstream, credentials: seq<string>,
                                         i: nat, surveysUrl: string, fromData: bool, pagingOn: bool,
                                         callerArgs: map<string, ArgValue>, expiry: Option<int>, fuel: nat)
    requires i <= |credentials|
  {
    && failure == CompositeFailure(cs)
    && total == cs + (if failure.Some? then [] else
         CompositeAccounts(check, expand, up, credentials, i, surveysUrl, fromData, pagingOn, callerArgs, expiry, fuel))
  }

  lemma CompositeAccountsStep(total: seq<Composite>, cs: seq<Composite>, c: Composite, check: Checker,
                              expand: Expander, up: Upstream, credentials: seq<string>, i: nat, surveysUrl: string,
                              fromData: bool, pagingOn: bool, callerArgs: map<string, ArgValue>, expiry: Option<int>,
                              fuel: nat)
    requires i < |credentials|
    requires CompositeAccountsSoFar(total, cs, None, check, expand, up, credentials, i, surveysUrl, fromData, pagingOn,
                                    callerArgs, expiry, fuel)
    requires c == CompositeFrom(check, expand, up, credentials[i], surveysUrl, fromData, pagingOn, map[], callerArgs,
                                expiry, fuel)
    ensures CompositeAccountsSoFar(total, cs + [c], c.failure, check, expand, up, credentials, i + 1, surveysUrl,
                                   fromData, pagingOn, CallerArgsAfter(c.expansions, callerArgs), c.expiry, fuel)
  {
    var later := if c.failure.Some? then [] else
      CompositeAccounts(check, expand, up, credentials, i + 1, surveysUrl, fromData, pagingOn,
                        CallerArgsAfter(c.expansions, callerArgs), c.expiry, fuel);
    assert CompositeAccounts(check, expand, up, credentials, i, surveysUrl, fromData, pagingOn, callerArgs, expiry,
                             fuel) == [c] + later;
    AppendAssociative(cs, [c], later);
  }

  lemma CompositesSnoc(cs: seq<Composite>, c: Composite, initial: map<string, ArgValue>)
    ensures CompositesEntities(cs + [c]) == CompositesEntities(cs) + FlattenAll(c.expansions)
    ensures CompositeArgsAfter(cs + [c], initial) == CallerArgsAfter(c.expansions, CompositeArgsAfter(cs, initial))
  {
    assert (cs + [c])[..|cs|] == cs;
  }

  /** One credential of the composite flow over every credential: the
      account so far grows by that credential's run. */
  method CompositeAccountsRound(gov: Governor, up: Upstream, credentials: seq<string>, i: nat, baseUrl: string,
                                svc: ServiceArgs, apiArgs: ArgDict, blacklist: seq<string>, sink: Sink, fuel: nat,
                                ghost fromData: bool,
                                ghost check: Checker, ghost expand: Expander, ghost fetch: Fetcher, ghost step: Step,
                                ghost total: seq<Composite>, ghost comps: seq<Composite>, ghost startEmitted: seq<Entity>,
                                ghost startLatest: string, ghost startArgs: map<string, ArgValue>)
    returns (failure: Option<Error>, ghost comps': seq<Composite>)
    requires i < |credentials|
    requires sink.Valid()
    requires Governs(check)
    requires Steps(step, ConfigOf(svc.params))
    requires Fetches(fetch, up, baseUrl, svc.isPagingOn, fuel)
    requires Expands(expand, fetch, blacklist)
    requires fromData == ReadsFromDataField(baseUrl + "surveys", baseUrl)
    requires CompositeAccountsSoFar(total, comps, None, check, expand, up, credentials, i, baseUrl + "surveys",
                                    fromData, svc.isPagingOn, apiArgs.items,
                                    gov.expiresAt, fuel)
    requires Wrote(sink.emitted, svc.latestDateModified, startEmitted, CompositesEntities(comps), step, startLatest)
    requires apiArgs.items == CompositeArgsAfter(comps, startArgs)
    modifies gov, svc, apiArgs, sink
    ensures sink.Valid()
    ensures comps' != []
    ensures CompositeAccountsSoFar(total, comps', failure, check, expand, up, credentials, i + 1, baseUrl + "surveys",
                                   fromData, svc.isPagingOn, apiArgs.items,
                                   gov.expiresAt, fuel)
    ensures Wrote(sink.emitted, svc.latestDateModified, startEmitted, CompositesEntities(comps'), step, startLatest)
    ensures gov.expiresAt == comps'[|comps'| - 1].expiry
    ensures apiArgs.items == CompositeArgsAfter(comps', startArgs)
  {
    ghost var mid, midLatest, args, expiry := sink.emitted, svc.latestDateModified, apiArgs.items, gov.expiresAt;
    var surveys: seq<Entity>;
    ghost var expansions: seq<seq<SubFetch>>, calls: seq<map<string, ArgValue>>;
    failure, surveys, expansions, calls := FetchComposite(gov, up, credentials[i], baseUrl, svc, apiArgs, blacklist,
                                                          sink, fuel, check, expand, fetch, step);
    ghost var c := Composite(surveys, expansions, failure, calls, gov.expiresAt);
    CompositeAccountsStep(total, comps, c, check, expand, up, credentials, i, baseUrl + "surveys",
                          fromData, svc.isPagingOn, args, expiry, fuel);
    WroteStep(mid, midLatest, sink.emitted, svc.latestDateModified, startEmitted, CompositesEntities(comps),
              FlattenAll(expansions), step, startLatest);
    CompositesSnoc(comps, c, startArgs);
    comps' := comps + [c];
  }

  /** `fromData` is whether the survey list under `baseUrl` is read from
      its `data` member. */
  ghost predicate SurveysFromData(fromData: bool, baseUrl: string)
  {
    forall url {:trigger ReadsFromDataField(url, baseUrl)} ::
      url == baseUrl + "surveys" ==> fromData == ReadsFromDataField(url, baseUrl)
  }

  /** The composite flow over every credential, until one fails. */
  method FetchCompositeAccounts(gov: Governor, up: Upstream, credentials: seq<string>, baseUrl: string,
                                svc: ServiceArgs, apiArgs: ArgDict, blacklist: seq<string>, sink: Sink, fuel: nat,
                                ghost fromData: bool,
                                ghost check: Checker, ghost expand: Expander, ghost fetch: Fetcher, ghost step: Step)
    returns (failure: Option<Error>, ghost comps: seq<Composite>)
    requires sink.Valid()
    requires Governs(check)
    requires Steps(step, ConfigOf(svc.params))
    requires Fetches(fetch, up, baseUrl, svc.isPagingOn, fuel)
    requires Expands(expand, fetch, blacklist)
    requires SurveysFromData(fromData, baseUrl)
    modifies gov, svc, apiArgs, sink
    ensures comps == CompositeAccounts(check, expand, up, credentials, 0, baseUrl + "surveys",
                                       fromData, svc.isPagingOn,
                                       old(apiArgs.items), old(gov.expiresAt), fuel)
    ensures failure == CompositeFailure(comps)
    ensures gov.expiresAt == CompositeExpiryAfter(comps, old(gov.expiresAt))
    ensures apiArgs.items == CompositeArgsAfter(comps, old(apiArgs.items))
    ensures sink.Valid()
    ensures Wrote(sink.emitted, svc.latestDateModified, old(sink.emitted), CompositesEntities(comps), step,
                  old(svc.latestDateModified))
  {
    ghost var surveysUrl := baseUrl + "surveys";
    ghost var total := CompositeAccounts(check, expand, up, credentials, 0, surveysUrl, fromData, svc.isPagingOn,
                                         apiArgs.items, gov.expiresAt, fuel);
    failure, comps := None, [];
    var i := 0;
    while i < |credentials| && failure.None?
      invariant 0 <= i <= |credentials|
      invariant sink.Valid()
      invariant CompositeAccountsSoFar(total, comps, failure, check, expand, up, credentials, i, surveysUrl, fromData,
                                       svc.isPagingOn, apiArgs.items, gov.expiresAt, fuel)
      invariant Wrote(sink.emitted, svc.latestDateModified, old(sink.emitted), CompositesEntities(comps), step,
                      old(svc.latestDateModified))
      invariant gov.expiresAt == CompositeExpiryAfter(comps, old(gov.expiresAt))
      invariant apiArgs.items == CompositeArgsAfter(comps, old(apiArgs.items))
    {
      failure, comps := CompositeAccountsRound(gov, up, credentials, i, baseUrl, svc, apiArgs, blacklist, sink, fuel,
                                               fromData, check, expand, fetch, step, total, comps, old(sink.emitted),
                                               old(svc.latestDateModified), old(apiArgs.items));
      i := i + 1;
    }
  }

  /** `fetch_data`: for every credential in turn, the composite flow on
      `minimalreportingdata` and a plain fetch of the path otherwise (the
      path is the same for every credential, so the branch is taken once
      here); the first error ends the stream and is written into it, and
      it is raised to the caller unless the output is streamed. */
  method FetchData(gov: Governor, up: Upstream, credentials: seq<string>, baseUrl: string, path: string,
                   svc: ServiceArgs, apiArgs: ArgDict, blacklist: seq<string>, encode: Entity -> string,
                   errText: Error -> string, fuel: nat)
    returns (chunks: seq<string>, emitted: seq<Entity>, failure: Option<Error>, raised: Option<Error>,
             ghost runs: seq<Pagination>, ghost comps: seq<Composite>)
    modifies gov, svc, apiArgs
    ensures chunks == Frame(Encoded(encode, emitted), failure, errText)
    ensures raised == if svc.doStream then None else failure
    ensures credentials == [] ==> emitted == [] && failure == None
    ensures path != CompositePath ==>
      var url := baseUrl + path;
      && runs == Accounts(FetchOf(up, baseUrl, svc.isPagingOn, fuel), credentials, 0, url,
                          old(apiArgs.items), old(gov.expiresAt))
      && failure == RaisedBy(runs)
      && gov.expiresAt == RunExpiryBefore(runs, |runs|, old(gov.expiresAt))
      && apiArgs.items == RunArgsBefore(runs, |runs|, old(apiArgs.items))
      && var written := SesamifyAll(RunsEntities(runs), ConfigOf(svc.params), old(svc.latestDateModified));
         emitted == written.entities && svc.latestDateModified == written.latest
    ensures path == CompositePath ==>
      var surveysUrl := baseUrl + "surveys";
      && comps == CompositeAccounts(Governed, ExpanderOf(FetchOf(up, baseUrl, svc.isPagingOn, fuel), blacklist), up,
                                    credentials, 0, surveysUrl, ReadsFromDataField(surveysUrl, baseUrl),
                                    svc.isPagingOn, old(apiArgs.items), old(gov.expiresAt), fuel)
      && failure == CompositeFailure(comps)
      && gov.expiresAt == CompositeExpiryAfter(comps, old(gov.expiresAt))
      && apiArgs.items == CompositeArgsAfter(comps, old(apiArgs.items))
      && var written := SesamifyAll(CompositesEntities(comps), ConfigOf(svc.params), old(svc.latestDateModified));
         emitted == written.entities && svc.latestDateModified == written.latest
  {
    var sink := new Sink(encode);
    ghost var cfg := ConfigOf(svc.params);
    ghost var step := SesamifyStep(cfg);
    ghost var fetch := FetchOf(up, baseUrl, svc.isPagingOn, fuel);
    runs, comps := [], [];
    if path == CompositePath {
      failure, comps := FetchCompositeAccounts(gov, up, credentials, baseUrl, svc, apiArgs, blacklist, sink, fuel,
                                               ReadsFromDataField(baseUrl + "surveys", baseUrl), Governed,
                                               ExpanderOf(fetch, blacklist), fetch, step);
      if credentials == [] {
        assert comps == [];
      }
    } else {
      failure, runs := FetchAccounts(gov, up, credentials, baseUrl + path, baseUrl, svc, apiArgs, sink, fuel, fetch, step);
      if credentials == [] {
        assert runs == [];
      }
    }
    emitted := sink.emitted;
    chunks := sink.chunks + (if failure.Some? then [errText(failure.value)] else []) + ["]\n"];
    raised := if svc.doStream then None else failure;
  }

  /** The HTTP status of an error response: the upstream error's own
      `http_status_code` when it carries one, 500 otherwise. */
  function ErrorStatus(e: Error): (status: int)
    ensures e.UpstreamError? && e.payload.ObjectPayload? && e.payload.httpStatusCode.Some? ==>
      status == e.payload.httpStatusCode.value
    ensures !(e.UpstreamError? && e.payload.ObjectPayload? && e.payload.httpStatusCode.Some?) ==> status == 500
  {
    match e
    case UpstreamError(ObjectPayload(Some(code))) => code
    case _ => 500
  }

  /** What the proxy answers: the output chunks with status 200, streamed
      or collected, or an error with its status. */
  datatype Reply = Ok(chunks: seq<string>, streamed: bool) | Failure(status: int, error: Error)

  /** What serving a request whose pre-check passed amounts to, given the
      request arguments: the arguments are split, the fetch of the path (or
      the composite flow) runs from them with no rejection window open, the
      normalised entities are written and framed, and an error the fetch ran
      into is the reply's error unless the output is streamed. `expiry` is
      the rejection window the request leaves for the next one: the one the
      last post-check of the fetches opened, if any. */
  ghost predicate Served(reply: Reply, emitted: seq<Entity>, streamFailure: Option<Error>, runs: seq<Pagination>,
                         comps: seq<Composite>, expiry: Option<int>, up: Upstream, credentials: seq<string>,
                         baseUrl: string, path: string, requestArgs: map<string, ArgValue>, blacklist: seq<string>,
                         encode: Entity -> string, errText: Error -> string, fuel: nat)
  {
    var split := SplitArgs(requestArgs);
    var fetch := FetchOf(up, baseUrl, split.isPagingOn, fuel);
    var surveysUrl := baseUrl + "surveys";
    var composite := path == CompositePath;
    var failure := if composite then CompositeFailure(comps) else RaisedBy(runs);
    var raw := if composite then CompositesEntities(comps) else RunsEntities(runs);
    && (composite ==> comps == CompositeAccounts(Governed, ExpanderOf(fetch, blacklist), up, credentials, 0, surveysUrl,
                                                 ReadsFromDataField(surveysUrl, baseUrl), split.isPagingOn,
                                                 split.apiArgs, None, fuel))
    && (!composite ==> runs == Accounts(fetch, credentials, 0, baseUrl + path, split.apiArgs, None))
    && emitted == SesamifyAll(raw, ConfigOf(split.params), "").entities
    && expiry == (if composite then CompositeExpiryAfter(comps, None) else RunExpiryBefore(runs, |runs|, None))
    && if failure.Some? && !split.doStream then reply == Failure(ErrorStatus(failure.value), failure.value)
       else reply == Ok(Frame(Encoded(encode, emitted), failure, errText), split.doStream) && streamFailure == failure
  }

  /** `get_data`: the rate-limit pre-check, the split of the request
      arguments, then the fetch; an error the fetch raises becomes an error
      reply. */
  method GetData(gov: Governor, up: Upstream, credentials: seq<string>, baseUrl: string, path: string,
                 requestArgs: ArgDict, now: int, blacklist: seq<string>, encode: Entity -> string,
                 errText: Error -> string, fuel: nat)
    returns (reply: Reply, ghost emitted: seq<Entity>, ghost streamFailure: Option<Error>,
             ghost runs: seq<Pagination>, ghost comps: seq<Composite>)
    modifies gov, requestArgs
    ensures old(gov.expiresAt).Some? && old(gov.expiresAt).value > now ==>
      && reply == Failure(500, Rejected(old(gov.expiresAt).value))
      && gov.expiresAt == old(gov.expiresAt) && requestArgs.items == old(requestArgs.items)
    ensures !(old(gov.expiresAt).Some? && old(gov.expiresAt).value > now) ==>
      Served(reply, emitted, streamFailure, runs, comps, gov.expiresAt, up, credentials, baseUrl, path,
             old(requestArgs.items), blacklist, encode, errText, fuel)
    ensures reply.Failure? ==> reply.status == ErrorStatus(reply.error)
    ensures reply.Ok? ==>
      && reply.chunks == Frame(Encoded(encode, emitted), streamFailure, errText)
      && reply.streamed == SplitArgs(old(requestArgs.items)).doStream
      && (!reply.streamed ==> streamFailure == None)
    ensures SplitArgs(old(requestArgs.items)).doStream && reply.Failure? ==> reply.error.Rejected?
  {
    emitted, streamFailure, runs, comps := [], None, [], [];
    var rejection := gov.PreCheck(now);
    if rejection.Some? {
      reply := Failure(ErrorStatus(rejection.value), rejection.value);
      return;
    }
    var svc := GetArgs(requestArgs);
    var chunks: seq<string>, failure: Option<Error>, raised: Option<Error>;
    chunks, emitted, failure, raised, runs, comps := FetchData(gov, up, credentials, baseUrl, path, svc, requestArgs,
                                                               blacklist, encode, errText, fuel);
    if raised.Some? {
      reply := Failure(ErrorStatus(raised.value), raised.value);
    } else {
      reply := Ok(chunks, svc.doStream);
      streamFailure := failure;
    }
  }

  /** The `transform` route: fills the `{{field}}` placeholders of the path
      from the posted entity `incoming` (the first element of the posted
      JSON array), then serves the result like `get_data`; a
      placeholder naming a missing field is a KeyError answered with 500. */
  method TransformData(gov: Governor, up: Upstream, credentials: seq<string>, baseUrl: string, path: string,
                       incoming: map<string, string>, requestArgs: ArgDict, now: int, blacklist: seq<string>,
                       encode: Entity -> string, errText: Error -> string, fuel: nat)
    returns (reply: Reply, ghost emitted: seq<Entity>, ghost streamFailure: Option<Error>,
             ghost runs: seq<Pagination>, ghost comps: seq<Composite>)
    modifies gov, requestArgs
    ensures Substitute(path, incoming).MissingField? ==>
      && reply == Failure(500, KeyError(Substitute(path, incoming).name))
      && gov.expiresAt == old(gov.expiresAt) && requestArgs.items == old(requestArgs.items)
    ensures Substitute(path, incoming).Substituted? ==>
      if old(gov.expiresAt).Some? && old(gov.expiresAt).value > now then
        && reply == Failure(500, Rejected(old(gov.expiresAt).value))
        && gov.expiresAt == old(gov.expiresAt) && requestArgs.items == old(requestArgs.items)
      else
        Served(reply, emitted, streamFailure, runs, comps, gov.expiresAt, up, credentials, baseUrl,
               Substitute(path, incoming).path, old(requestArgs.items), blacklist, encode, errText, fuel)
    ensures reply.Failure? ==> reply.status == ErrorStatus(reply.error)
  {
    emitted, streamFailure, runs, comps := [], None, [], [];
    match Substitute(path, incoming)
    case MissingField(name) =>
      reply := Failure(500, KeyError(name));
    case Substituted(generated) =>
      reply, emitted, streamFailure, runs, comps := GetData(gov, up, credentials, baseUrl, generated, requestArgs, now,
                                                            blacklist, encode, errText, fuel);
  }
}
