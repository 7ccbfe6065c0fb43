/** Splitting an inbound request's query arguments into the proxy's own
    service arguments and the arguments forwarded upstream. */
module RequestArgs {
  import opened Common

  /** The query arguments the proxy keeps for itself. */
  const ServiceParameters: seq<string> := ["_id_src", "_updated_src", "_do_stream", "since", "limit"]

  /** A mutable argument dictionary (the request's arguments, which become
      the upstream arguments). */
  class ArgDict {
    var items: map<string, ArgValue>

    constructor (items: map<string, ArgValue>)
      ensures this.items == items
    {
      this.items := items;
    }
  }

  /** The per-request service arguments. Only the watermark
      `latest_date_modified` changes after they are built. */
  class ServiceArgs {
    const isPagingOn: bool
    const doStream: bool
    const params: map<string, ArgValue>
    var latestDateModified: string

    constructor (isPagingOn: bool, doStream: bool, params: map<string, ArgValue>)
      ensures this.isPagingOn == isPagingOn && this.doStream == doStream && this.params == params
      ensures latestDateModified == ""
    {
      this.isPagingOn := isPagingOn;
      this.doStream := doStream;
      this.params := params;
      latestDateModified := "";
    }
  }

  datatype ArgSplit = ArgSplit(isPagingOn: bool, doStream: bool, params: map<string, ArgValue>, apiArgs: map<string, ArgValue>)

  /** The two dictionaries that argument splitting produces. */
  function SplitArgs(args: map<string, ArgValue>): (r: ArgSplit)
    ensures r.isPagingOn <==> "page" !in args
    ensures r.doStream <==> "_do_stream" in args && args["_do_stream"] == Text("1")
    ensures forall k :: k in r.params <==> k in args && k in ServiceParameters
    ensures forall k :: k in r.params ==> r.params[k] == args[k]
    ensures forall k :: k in r.apiArgs <==>
      (k in args && k !in ServiceParameters) || (k == "start_modified_at" && "since" in args)
    ensures "since" in args ==> r.apiArgs["start_modified_at"] == args["since"]
    ensures forall k :: k in r.apiArgs && (k != "start_modified_at" || "since" !in args) ==> r.apiArgs[k] == args[k]
  {
    var moved := if "since" in args then args["start_modified_at" := args["since"]] else args;
    ArgSplit("page" !in args,
             "_do_stream" in args && args["_do_stream"] == Text("1"),
             map k | k in moved && k in ServiceParameters :: moved[k],
             map k | k in moved && k !in ServiceParameters :: moved[k])
  }

  /** Two dictionaries described key by key are the ones `SplitArgs` builds. */
  lemma SplitArgsFromKeys(args: map<string, ArgValue>, moved: map<string, ArgValue>,
                          params: map<string, ArgValue>, api: map<string, ArgValue>)
    requires moved == if "since" in args then args["start_modified_at" := args["since"]] else args
    requires forall k :: k in params <==> k in moved && k in ServiceParameters
    requires forall k :: k in params ==> params[k] == moved[k]
    requires forall k :: k in api <==> k in moved && k !in ServiceParameters
    requires forall k :: k in api ==> api[k] == moved[k]
    ensures params == SplitArgs(args).params && api == SplitArgs(args).apiArgs
  {
    var r := SplitArgs(args);
    assert params.Keys == r.params.Keys;
    assert api.Keys == r.apiArgs.Keys;
  }

  /** Builds the service arguments and strips them from `args` in place. */
  method GetArgs(args: ArgDict) returns (svc: ServiceArgs)
    modifies args
    ensures fresh(svc)
    ensures var r := SplitArgs(old(args.items));
      && svc.isPagingOn == r.isPagingOn && svc.doStream == r.doStream
      && svc.params == r.params && args.items == r.apiArgs
    ensures svc.latestDateModified == ""
  {
    var pagingOn := "page" !in args.items;
    var doStream := "_do_stream" in args.items && args.items["_do_stream"] == Text("1");
    if "since" in args.items {
      args.items := args.items["start_modified_at" := args.items["since"]];
    }
    ghost var moved := args.items;
    var params: map<string, ArgValue> := map[];
    for i := 0 to |ServiceParameters|
      invariant forall k :: k in params <==> k in moved && k in ServiceParameters[..i]
      invariant forall k :: k in params ==> params[k] == moved[k]
      invariant forall k :: k in args.items <==> k in moved && k !in ServiceParameters[..i]
      invariant forall k :: k in args.items ==> args.items[k] == moved[k]
    {
      var p := ServiceParameters[i];
      assert ServiceParameters[..i + 1] == ServiceParameters[..i] + [p];
      if p in args.items {
        params := params[p := args.items[p]];
        args.items := args.items - {p};
      }
    }
    assert ServiceParameters[..|ServiceParameters|] == ServiceParameters;
    SplitArgsFromKeys(old(args.items), moved, params, args.items);
    svc := new ServiceArgs(pagingOn, doStream, params);
  }
}
