/**
 * servicenow/ws.py: the legacy WebService client.  Requests address
 * `<table>.do?JSONv2` and carry the action as a sysparm option; every write
 * goes out as a POST.
 */
module WebService {
  import opened Wrappers
  import opened Text
  import opened Data
  import Client

  /** The arguments a verb hands to `_call`: method, URL, payload, accepted statuses. */
  datatype Request = Request(verb: Client.Verb, url: string, params: Option<Json>, accepted: set<int>)

  /** The names `get` binds itself: a keyword argument of the call with one of them clashes. */
  const GetBound: set<string> := {"self", "path"}
  /** The names `put` and `post` bind themselves. */
  const SendBound: set<string> := {"self", "path", "params"}

  /** The `tag=value` text for a keyword argument that is present, and the arguments without it. */
  function TakeDisplay(kw: Kwargs, key: string, tag: string): (r: (string, Kwargs))
    ensures !HasKey(r.1, key)
    ensures forall j :: j != key ==> (HasKey(r.1, j) <==> HasKey(kw, j))
    ensures HasKey(kw, key) <==> r.0 != ""
    ensures HasKey(kw, key) ==> r.0 == tag + "=" + Format(Lookup(kw, key)) && r.1 == Remove(kw, key)
    ensures !HasKey(kw, key) ==> r.1 == kw
  {
    if HasKey(kw, key) then (tag + "=" + Format(Lookup(kw, key)), Remove(kw, key)) else ("", kw)
  }

  /** The part of the URL `_url_rewrite` builds after the instance. */
  function Address(path: string, kw: Kwargs): (a: string)
    ensures StartsWith(a, path + ".do?JSONv2&")
  {
    var (value, rest) := TakeDisplay(kw, "display_value", "displayvalue");
    var (variables, others) := TakeDisplay(rest, "display_variables", "displayvariables");
    var options := Client.Options(others);
    var head := path + ".do?JSONv2&";
    var a := head + value + variables + (if options == [] then "" else Join("&", options));
    assert a[..|head|] == head;
    a
  }

  /** The URL `_url_rewrite` builds. */
  function Rewritten(base: string, path: string, kw: Kwargs): (u: string)
    ensures StartsWith(u, base + "/" + path + ".do?JSONv2&")
  {
    PrefixExtended(base + "/", Address(path, kw), path + ".do?JSONv2&");
    assert (base + "/") + (path + ".do?JSONv2&") == base + "/" + path + ".do?JSONv2&";
    base + "/" + Address(path, kw)
  }

  /**
   * Without display arguments the rewritten URL is the JSONv2 address of the
   * table followed by the sysparm options, which read back in argument order.
   */
  lemma {:induction false} RewrittenOptions(base: string, path: string, kw: Kwargs)
    requires !HasKey(kw, "display_value") && !HasKey(kw, "display_variables")
    requires Client.Options(kw) != []
    requires forall i :: 0 <= i < |Client.Options(kw)| ==> '&' !in Client.Options(kw)[i]
    ensures var head := base + "/" + path + ".do?JSONv2&";
      var u := Rewritten(base, path, kw);
      && |head| <= |u| && u[..|head|] == head
      && Split(u[|head|..], '&') == Client.Options(kw)
  {
    var head := base + "/" + path + ".do?JSONv2&";
    var u := Rewritten(base, path, kw);
    assert u == head + Join("&", Client.Options(kw));
    assert u[|head|..] == Join("&", Client.Options(kw));
    SplitJoin(Client.Options(kw), '&');
  }

  /** Every option starts with `sysparm_`. */
  lemma {:induction false} OptionsPrefixed(kw: Kwargs)
    ensures forall i :: 0 <= i < |Client.Options(kw)| ==> StartsWith(Client.Options(kw)[i], "sysparm_")
  {
    if kw != [] {
      OptionsPrefixed(kw[1..]);
      if !kw[0].1.NoneArg? {
        var o := "sysparm_" + kw[0].0 + "=" + Format(kw[0].1);
        assert o[..8] == "sysparm_";
      }
    }
  }

  /** A `display_value` argument is written right after the JSONv2 address, before the options. */
  lemma {:induction false} DisplayValueFirst(base: string, path: string, v: Arg, kw: Kwargs)
    requires !HasKey(kw, "display_value") && !HasKey(kw, "display_variables")
    ensures Rewritten(base, path, [("display_value", v)] + kw)
      == base + "/" + path + ".do?JSONv2&" + ("displayvalue=" + Format(v)) + Join("&", Client.Options(kw))
  {
    LeadingValue(v, kw);
    DisplayArgumentsFirst(base, path, [("display_value", v)] + kw);
    Reassociate(base, path, ".do?JSONv2&", "displayvalue=" + Format(v), Join("&", Client.Options(kw)));
  }

  /** A leading `display_value` is the only display argument, and taking it leaves the rest. */
  lemma LeadingValue(v: Arg, kw: Kwargs)
    requires !HasKey(kw, "display_value") && !HasKey(kw, "display_variables")
    ensures var kw' := [("display_value", v)] + kw;
      && HasKey(kw', "display_value") && Lookup(kw', "display_value") == v
      && !HasKey(kw', "display_variables")
      && Remove(Remove(kw', "display_value"), "display_variables") == kw
  {
    var kw' := [("display_value", v)] + kw;
    assert kw'[1..] == kw;
    RemoveAbsent(kw, "display_value");
    RemoveAbsent(kw, "display_variables");
  }

  /** The instance in front of an address with no `displayvariables` text. */
  lemma Reassociate(base: string, path: string, tag: string, value: string, options: string)
    ensures base + "/" + (path + tag + value + "" + options) == base + "/" + path + tag + value + options
  {
    assert value + "" == value;
  }

  /**
   * Wherever the display arguments stand among the keyword arguments, the
   * address after the instance carries `displayvalue=` first and
   * `displayvariables=` second, straight after `<path>.do?JSONv2&`, and every
   * other argument follows as an option, in argument order.
   */
  lemma {:induction false} DisplayArgumentsFirst(base: string, path: string, kw: Kwargs)
    ensures var value := if HasKey(kw, "display_value")
        then "displayvalue=" + Format(Lookup(kw, "display_value")) else "";
      var variables := if HasKey(kw, "display_variables")
        then "displayvariables=" + Format(Lookup(kw, "display_variables")) else "";
      var others := Remove(Remove(kw, "display_value"), "display_variables");
      Address(path, kw)
        == path + ".do?JSONv2&" + value + variables + Join("&", Client.Options(others))
  {
    var rest := TakeDisplay(kw, "display_value", "displayvalue").1;
    AddressJoined(path, kw);
    ValueText(kw);
    TakeDisplayRemoves(kw, "display_value", "displayvalue");
    VariablesText(kw, rest);
    TakeDisplayRemoves(rest, "display_variables", "displayvariables");
  }

  /** The text a `display_value` argument yields. */
  lemma ValueText(kw: Kwargs)
    ensures TakeDisplay(kw, "display_value", "displayvalue").0
      == if HasKey(kw, "display_value") then "displayvalue=" + Format(Lookup(kw, "display_value")) else ""
  {
    assert "displayvalue" + "=" == "displayvalue=";
  }

  /** The text a `display_variables` argument yields once `display_value` is taken. */
  lemma VariablesText(kw: Kwargs, rest: Kwargs)
    requires rest == TakeDisplay(kw, "display_value", "displayvalue").1
    ensures TakeDisplay(rest, "display_variables", "displayvariables").0
      == if HasKey(kw, "display_variables") then "displayvariables=" + Format(Lookup(kw, "display_variables")) else ""
  {
    TakeDisplayRemoves(kw, "display_value", "displayvalue");
    OtherKeyKept(kw, "display_value", "display_variables");
    assert "displayvariables" + "=" == "displayvariables=";
  }

  /** Deleting one argument keeps another, with its value. */
  lemma OtherKeyKept(kw: Kwargs, gone: string, kept: string)
    requires gone != kept
    ensures HasKey(Remove(kw, gone), kept) <==> HasKey(kw, kept)
    ensures HasKey(kw, kept) ==> Lookup(Remove(kw, gone), kept) == Lookup(kw, kept)
  {
  }

  /** What is left after a display argument is taken is the arguments without it. */
  lemma {:induction false} TakeDisplayRemoves(kw: Kwargs, key: string, tag: string)
    ensures TakeDisplay(kw, key, tag).1 == Remove(kw, key)
  {
    if !HasKey(kw, key) {
      RemoveAbsent(kw, key);
    }
  }

  /** The address with the option part written as one join, empty or not. */
  lemma {:induction false} AddressJoined(path: string, kw: Kwargs)
    ensures var (value, rest) := TakeDisplay(kw, "display_value", "displayvalue");
      var (variables, others) := TakeDisplay(rest, "display_variables", "displayvariables");
      Address(path, kw) == path + ".do?JSONv2&" + value + variables + Join("&", Client.Options(others))
  {
    var (value, rest) := TakeDisplay(kw, "display_value", "displayvalue");
    var (variables, others) := TakeDisplay(rest, "display_variables", "displayvariables");
    var front := path + ".do?JSONv2&" + value + variables;
    if Client.Options(others) == [] {
      assert Join("&", Client.Options(others)) == "" && front + "" == front;
    }
  }

  /** Joined options start like their first one. */
  lemma {:induction false} JoinedOptionsPrefixed(kw: Kwargs)
    requires Client.Options(kw) != []
    ensures StartsWith(Join("&", Client.Options(kw)), "sysparm_")
  {
    var options := Client.Options(kw);
    OptionsPrefixed(kw);
    if |options| > 1 {
      assert Join("&", options) == options[0] + "&" + Join("&", options[1..]);
    }
  }

  /**
   * A `display_value` argument is glued to the first sysparm option: nothing
   * separates `displayvalue=<v>` from `sysparm_`.
   */
  lemma {:induction false} DisplayValueGluedToNext(base: string, path: string, v: Arg, kw: Kwargs)
    requires !HasKey(kw, "display_value") && !HasKey(kw, "display_variables")
    requires Client.Options(kw) != []
    ensures var glued := "displayvalue=" + Format(v) + "sysparm_";
      var at := |base + "/" + path + ".do?JSONv2&"|;
      OccursAt(Rewritten(base, path, [("display_value", v)] + kw), glued, at)
  {
    var head := base + "/" + path + ".do?JSONv2&";
    var value := "displayvalue=" + Format(v);
    var tail := Join("&", Client.Options(kw));
    assert Rewritten(base, path, [("display_value", v)] + kw) == head + value + tail by {
      DisplayValueFirst(base, path, v, kw);
    }
    assert tail[..8] == "sysparm_" by {
      JoinedOptionsPrefixed(kw);
    }
    GluedAt(head, value, tail, "sysparm_");
  }

  /** Text followed by a string that starts with `next` occurs glued to `next`. */
  lemma GluedAt(head: string, value: string, tail: string, next: string)
    requires |next| <= |tail| && tail[..|next|] == next
    ensures OccursAt(head + value + tail, value + next, |head|)
  {
    var u := head + value + tail;
    assert u[|head|..] == value + tail;
    assert (value + tail)[..|value| + |next|] == value + next;
  }

  /** A `t/id` path names table `t` and record `id`. */
  lemma {:induction false} TableAndSysid(table: string, sysid: string)
    requires '/' !in table && '/' !in sysid
    ensures Split(table + "/" + sysid, '/') == [table, sysid]
  {
    assert Join("/", [table, sysid]) == table + "/" + sysid;
    SplitJoin([table, sysid], '/');
  }

  /**
   * The URL `_call` fetches as written: it puts the instance URL in front of
   * any path holding a `/`.
   */
  function SentUrlAsWritten(base: string, req: Request): (u: string)
    ensures '/' in req.url ==> u == base + "/" + req.url
  {
    Client.CallUrl(base, req.url, [])
  }

  /** A rewritten URL always holds a `/`, so the instance appears twice in what is fetched. */
  lemma {:induction false} BaseDoubled(base: string, path: string, kw: Kwargs, req: Request)
    requires req.url == Rewritten(base, path, kw)
    ensures SentUrlAsWritten(base, req) == base + "/" + req.url
    ensures StartsWith(SentUrlAsWritten(base, req), (base + "/") + (base + "/" + path + ".do?JSONv2&"))
  {
    var address := base + "/" + path + ".do?JSONv2&";
    assert StartsWith(req.url, address);
    assert address[|base|] == '/';
    SentDoubled(base, address, req);
  }

  /** A URL that starts with the instance and a `/` is fetched with the instance in front again. */
  lemma SentDoubled(base: string, address: string, req: Request)
    requires StartsWith(req.url, address) && |base| < |address| && address[|base|] == '/'
    ensures SentUrlAsWritten(base, req) == base + "/" + req.url
    ensures StartsWith(SentUrlAsWritten(base, req), (base + "/") + address)
  {
    var u := req.url;
    assert u[|base|] == '/' by {
      assert u[..|address|] == address;
    }
    PrefixExtended(base + "/", u, address);
  }

  /** Putting the same text in front keeps a prefix. */
  lemma PrefixExtended(front: string, s: string, prefix: string)
    requires StartsWith(s, prefix)
    ensures StartsWith(front + s, front + prefix)
  {
    assert (front + s)[..|front + prefix|] == front + s[..|prefix|];
  }

  /** The WebService client of servicenow/ws.py. */
  class ServiceNow {
    const url: string

    constructor (url: string)
      ensures this.url == url
    {
      this.url := url;
    }

    /**
     * `_url_rewrite`: the table's JSONv2 address, then any display
     * arguments, then the remaining arguments as sysparm options.
     */
    method UrlRewrite(path: string, kwargs: Kwargs) returns (u: string)
      ensures u == Rewritten(url, path, kwargs)
    {
      var address := path + ".do?JSONv2&";
      var kw := kwargs;
      if HasKey(kw, "display_value") {
        address := address + ("displayvalue=" + Format(Lookup(kw, "display_value")));
        kw := Remove(kw, "display_value");
      }
      ghost var (value, rest) := TakeDisplay(kwargs, "display_value", "displayvalue");
      assert address == path + ".do?JSONv2&" + value && kw == rest;
      if HasKey(kw, "display_variables") {
        address := address + ("displayvariables=" + Format(Lookup(kw, "display_variables")));
        kw := Remove(kw, "display_variables");
      }
      ghost var (variables, others) := TakeDisplay(rest, "display_variables", "displayvariables");
      assert address == path + ".do?JSONv2&" + value + variables && kw == others;
      var options := Client.Options(kw);
      if options != [] {
        address := address + Join("&", options);
      }
      assert address == Address(path, kwargs);
      return url + "/" + address;
    }

    /**
     * `get`: a `t/id` path reads record `id` of table `t`; the display flags
     * go last.  The flags are named parameters, so they never arrive among
     * the keyword arguments; a `self` or `path` keyword argument clashes
     * with `get`'s own parameters.
     */
    method Get(path: string, displayVariables: Arg, displayValue: Arg, kwargs: Kwargs) returns (r: Result<Request, Error>)
      requires !HasKey(kwargs, "display_value") && !HasKey(kwargs, "display_variables")
      ensures r.Failure? <==> Clashes(kwargs, GetBound)
      ensures r.Failure? ==> r.error == TypeError
      ensures r.Success? ==> r.value.verb == Client.GET && r.value.params == None && r.value.accepted == {200}
      ensures r.Success? ==> var parts := Split(path, '/');
        var table := if '/' in path then parts[0] else path;
        var kw := if '/' in path then Assign(kwargs, "sys_id", StrArg(parts[|parts| - 1])) else kwargs;
        r.value.url == Rewritten(url, table, kw)
          + "&displayvalue=" + Format(displayValue) + "&displayvariables=" + Format(displayVariables)
    {
      if Clashes(kwargs, GetBound) {
        return Failure(TypeError);
      }
      var req := GetRequest(path, displayVariables, displayValue, kwargs);
      return Success(req);
    }

    /** The body of `get` once its arguments are bound. */
    method GetRequest(path: string, displayVariables: Arg, displayValue: Arg, kwargs: Kwargs) returns (req: Request)
      ensures req.verb == Client.GET && req.params == None && req.accepted == {200}
      ensures var parts := Split(path, '/');
        var table := if '/' in path then parts[0] else path;
        var kw := if '/' in path then Assign(kwargs, "sys_id", StrArg(parts[|parts| - 1])) else kwargs;
        req.url == Rewritten(url, table, kw)
          + "&displayvalue=" + Format(displayValue) + "&displayvariables=" + Format(displayVariables)
    {
      var table := path;
      var kw := kwargs;
      var parts := Split(path, '/');
      if |parts| > 1 {
        kw := Assign(kw, "sys_id", StrArg(parts[|parts| - 1]));
        table := parts[0];
      }
      var u := UrlRewrite(table, kw);
      u := u + "&displayvalue=" + Format(displayValue);
      u := u + "&displayvariables=" + Format(displayVariables);
      return Request(Client.GET, u, None, {200});
    }

    /**
     * `put` (also `update`): without a `query` argument the path must be
     * `t/id`, which becomes `query=sys_id=id` on table `t`.  The action is
     * the first option; an `action` argument of the caller clashes with it,
     * as a `self`, `path` or `params` one clashes with `put`'s own parameters.
     */
    method Put(path: string, params: Json, kwargs: Kwargs) returns (r: Result<Request, Error>)
      ensures Clashes(kwargs, SendBound) ==> r == Failure(TypeError)
      ensures !Clashes(kwargs, SendBound) && !HasKey(kwargs, "query") && '/' !in path ==>
        r == Failure(ValueError("no sys_id specified on " + path))
      ensures (HasKey(kwargs, "query") || '/' in path) && HasKey(kwargs, "action") ==> r == Failure(TypeError)
      ensures r.Success? <==> !Clashes(kwargs, SendBound) && (HasKey(kwargs, "query") || '/' in path) && !HasKey(kwargs, "action")
      ensures r.Success? ==> r.value.verb == Client.POST && r.value.params == Some(params) && r.value.accepted == {200, 204}
      ensures r.Success? && HasKey(kwargs, "query") ==>
        r.value.url == Rewritten(url, path, [("action", StrArg("update"))] + kwargs)
      ensures r.Success? && !HasKey(kwargs, "query") ==>
        var parts := Split(path, '/');
        r.value.url == Rewritten(url, parts[0], [("action", StrArg("update"))] + kwargs + [("query", StrArg("sys_id=" + parts[1]))])
    {
      if Clashes(kwargs, SendBound) {
        return Failure(TypeError);
      }
      var table := path;
      var kw := kwargs;
      if !HasKey(kw, "query") {
        var parts := Split(path, '/');
        if |parts| < 2 {
          return Failure(ValueError("no sys_id specified on " + path));
        }
        AssignAppends(kw, "query", StrArg("sys_id=" + parts[1]));
        kw := Assign(kw, "query", StrArg("sys_id=" + parts[1]));
        table := parts[0];
      }
      if HasKey(kw, "action") {
        return Failure(TypeError);
      }
      assert [("action", StrArg("update"))] + kw == [("action", StrArg("update"))] + kwargs + (kw[|kwargs|..]);
      var u := UrlRewrite(table, [("action", StrArg("update"))] + kw);
      return Success(Request(Client.POST, u, Some(params), {200, 204}));
    }

    /** `post` (also `insert`): the action is the first option. */
    method Post(path: string, params: Json, kwargs: Kwargs) returns (r: Result<Request, Error>)
      ensures r.Failure? <==> Clashes(kwargs, SendBound) || HasKey(kwargs, "action")
      ensures r.Failure? ==> r.error == TypeError
      ensures r.Success? ==>
        r.value == Request(Client.POST, Rewritten(url, path, [("action", StrArg("insert"))] + kwargs), Some(params), {200, 204})
    {
      if Clashes(kwargs, SendBound) || HasKey(kwargs, "action") {
        return Failure(TypeError);
      }
      var u := UrlRewrite(path, [("action", StrArg("insert"))] + kwargs);
      return Success(Request(Client.POST, u, Some(params), {200, 204}));
    }

    /** `delete`: the path must be `t/id`; the record is named by the last segment. */
    method Delete(path: string) returns (r: Result<Request, Error>)
      ensures r.Failure? <==> '/' !in path
      ensures r.Failure? ==> r.error == ValueError("no sys_id specified on " + path)
      ensures r.Success? ==> var parts := Split(path, '/');
        r.value == Request(Client.POST,
          Rewritten(url, parts[0], [("action", StrArg("deleteRecord")), ("sys_id", StrArg(parts[|parts| - 1]))]),
          None, {200, 202, 204})
    {
      var parts := Split(path, '/');
      if |parts| < 2 {
        return Failure(ValueError("no sys_id specified on " + path));
      }
      var sysid := parts[|parts| - 1];
      var u := UrlRewrite(parts[0], [("action", StrArg("deleteRecord")), ("sys_id", StrArg(sysid))]);
      return Success(Request(Client.POST, u, None, {200, 202, 204}));
    }

    /**
     * The request fetched at the URL the verb built, which already holds the
     * instance; the answer goes through the same status and body rules as
     * every other call.
     */
    method Send(req: Request, wire: Client.Wire) returns (r: Result<Option<Json>, Error>)
      ensures r == Client.Outcome(
        wire.send(req.verb, req.url, if req.params.Some? && Truthy(req.params.value) then req.params else None),
        req.url, req.accepted, wire.decode)
    {
      r := Client.Fetch(req.verb, req.url, req.params, req.accepted, wire);
    }
  }
}
