/**
 * The REST client of servicenow/__init__.py: URL and option assembly, the
 * accepted-status policy, the empty-body and `result`-envelope rules, the
 * per-verb status sets, `HTTPError`, and `tables()`.
 *
 * The HTTP exchange itself (opener, authentication, proxies, headers, body
 * encoding) is a `Wire` given by the caller: `send` answers one request,
 * `decode` stands for `json.loads` and answers `None` when the text is not JSON.
 */
module Client {
  import opened Wrappers
  import opened Text
  import opened Data

  datatype Verb = GET | PUT | POST | DELETE

  /** How one request ended at the transport. */
  datatype Exchange =
    /** A response arrived: its status code, its reason phrase and its body text. */
    | Answered(status: int, reason: string, body: string)
    /** urllib raised `HTTPError` with a status code. */
    | Refused(code: int, reason: string)
    /** urllib raised `URLError`, which has no status code. */
    | Unreachable(reason: string)

  datatype Wire = Wire(send: (Verb, string, Option<Json>) -> Exchange, decode: string -> Option<Json>)

  /** Status codes `_call` accepts when its caller names none. */
  const DefaultCodes: set<int> := {200, 201, 204}
  const GetCodes: set<int> := {200}
  const PutCodes: set<int> := {200, 204}
  const PostCodes: set<int> := {201, 204}
  const DeleteCodes: set<int> := {200, 202, 204}

  /** The names `get` and `_call` bind themselves besides `params`: a keyword argument of the call with one of them clashes. */
  const GetBound: set<string> := {"self", "path", "method", "status_codes"}
  /** The names `put`, `post` and `_call` bind themselves. */
  const SendBound: set<string> := {"self", "path", "params", "method", "status_codes"}

  /** `HTTPError(url, code, msg)`: a code that is not an integer is stored as -1. */
  function NewHttpError(url: string, code: Option<int>, message: string): (e: Error)
    ensures e.HttpError? && e.url == url && e.message == message
    ensures e.code == if code.Some? then code.value else -1
  {
    HttpError(url, if code.Some? then code.value else -1, message)
  }

  /** `str(HTTPError)`. */
  function Describe(e: Error): (d: string)
    requires e.HttpError?
    ensures StartsWith(d, "HTTP Error ")
  {
    var d := "HTTP Error " + IntToString(e.code) + ": " + e.message;
    assert d[..11] == "HTTP Error ";
    d
  }

  lemma FirstColon(x: string, y: string)
    requires ':' !in x
    ensures Contains(x + ":" + y, ":") && FirstIndexOf(x + ":" + y, ":") == |x|
  {
    var s := x + ":" + y;
    assert OccursAt(s, ":", |x|) by { assert s[|x|..|x| + 1] == ":"; }
    forall j | 0 <= j < |x| ensures !OccursAt(s, ":", j) {
      assert s[j..j + 1] == [x[j]];
    }
  }

  /** Text laid out as head, colon-free digits, colon, tail reads back piece by piece. */
  lemma {:induction false} ReadBack(head: string, digits: string, tail: string)
    requires ':' !in digits
    ensures var d := head + digits + ":" + tail;
      && StartsWith(d, head)
      && d[|head|..] == digits + ":" + tail
  {
    var d := head + digits + ":" + tail;
    assert d[..|head|] == head;
    assert d[|head|..] == digits + ":" + tail;
  }

  /**
   * The text of an `HTTPError` reads "HTTP Error <code>: <message>", and the
   * number before the first colon is the stored code: the given integer, or -1.
   */
  lemma {:induction false} DescribeShowsCode(url: string, code: Option<int>, message: string)
    ensures var d := Describe(NewHttpError(url, code, message));
      && StartsWith(d, "HTTP Error ")
      && var rest := d[|"HTTP Error "|..];
      && Contains(rest, ":")
      && var colon := FirstIndexOf(rest, ":");
      && ParseInt(rest[..colon]) == Some(if code.Some? then code.value else -1)
      && rest[colon..] == ": " + message
  {
    var c := if code.Some? then code.value else -1;
    var digits := IntToString(c);
    IntToStringRoundTrip(c);
    var d := Describe(NewHttpError(url, code, message));
    assert d == "HTTP Error " + digits + ":" + (" " + message) by {
      assert ": " + message == ":" + (" " + message);
    }
    ReadBack("HTTP Error ", digits, " " + message);
    FirstColon(digits, " " + message);
    ColonPieces(digits, " " + message);
  }

  /** Colon-free digits, a colon and a tail split back at the colon. */
  lemma ColonPieces(digits: string, tail: string)
    ensures var rest := digits + ":" + tail;
      && rest[..|digits|] == digits
      && rest[|digits|..] == ":" + tail
  {
  }

  /** The URL `_call` starts from: a bare table name goes under the Table API. */
  function Target(base: string, path: string): (t: string)
    ensures StartsWith(t, base + "/") && |path| < |t| && t[|t| - |path|..] == path
    ensures '/' !in path ==> StartsWith(t, base + "/api/now/table/")
  {
    if '/' !in path then
      var t := base + "/api/now/table/" + path;
      assert t[..|base| + 1] == base + "/" && t[..|base| + 15] == base + "/api/now/table/";
      t
    else
      var t := base + "/" + path;
      assert t[..|base| + 1] == base + "/";
      t
  }

  /** The `sysparm_k=v` options for the keyword arguments that are not None, in order. */
  function Options(kw: Kwargs): (o: seq<string>)
    ensures |o| <= |kw|
  {
    if kw == [] then []
    else
      (if kw[0].1.NoneArg? then [] else ["sysparm_" + kw[0].0 + "=" + Format(kw[0].1)])
      + Options(kw[1..])
  }

  /** The URL `_call` requests. */
  function CallUrl(base: string, path: string, kw: Kwargs): (u: string)
    ensures StartsWith(u, Target(base, path))
  {
    var url := Target(base, path);
    var options := Options(kw);
    if options == [] then url
    else
      var sep := if '?' in url then "&" else "?";
      assert (url + sep + Join("&", options))[..|url|] == url;
      url + sep + Join("&", options)
  }

  /** Options of a concatenation are the concatenated options: argument order is kept. */
  lemma {:induction false} OptionsAppend(a: Kwargs, b: Kwargs)
    ensures Options(a + b) == Options(a) + Options(b)
    decreases |a|
  {
    if a != [] {
      assert (a + b)[1..] == a[1..] + b;
      OptionsAppend(a[1..], b);
    } else {
      assert a + b == b;
    }
  }

  /** There are no options exactly when every keyword argument is None. */
  lemma {:induction false} OptionsEmpty(kw: Kwargs)
    ensures Options(kw) == [] <==> forall i :: 0 <= i < |kw| ==> kw[i].1 == NoneArg
    decreases |kw|
  {
    if kw != [] {
      OptionsEmpty(kw[1..]);
      assert forall i :: 1 <= i < |kw| ==> kw[i] == kw[1..][i - 1];
    }
  }

  /** With every keyword argument None the URL is the target URL, unchanged. */
  lemma CallUrlWithoutOptions(base: string, path: string, kw: Kwargs)
    requires forall i :: 0 <= i < |kw| ==> kw[i].1 == NoneArg
    ensures CallUrl(base, path, kw) == Target(base, path)
  {
    OptionsEmpty(kw);
  }

  /**
   * When the target has no `?`, the options follow a `?` and splitting what
   * follows it at `&` gives the options back, provided no option holds a `&`.
   */
  lemma CallUrlQuery(base: string, path: string, kw: Kwargs)
    requires '?' !in Target(base, path)
    requires Options(kw) != []
    requires forall i :: 0 <= i < |Options(kw)| ==> '&' !in Options(kw)[i]
    ensures var t := Target(base, path); var url := CallUrl(base, path, kw);
      && StartsWith(url, t + "?")
      && Split(url[|t| + 1..], '&') == Options(kw)
  {
    var t := Target(base, path);
    var q := Join("&", Options(kw));
    var url := CallUrl(base, path, kw);
    assert url == t + "?" + q;
    assert url[..|t| + 1] == t + "?";
    assert url[|t| + 1..] == q;
    SplitJoin(Options(kw), '&');
  }

  /** When the target already has a `?`, the options are added after a `&`. */
  lemma CallUrlExtendsQuery(base: string, path: string, kw: Kwargs)
    requires '?' in Target(base, path)
    requires exists i :: 0 <= i < |kw| && kw[i].1 != NoneArg
    ensures CallUrl(base, path, kw) == Target(base, path) + "&" + Join("&", Options(kw))
  {
    OptionsEmpty(kw);
  }

  /** The value `_call` returns for a status outside the accepted set. */
  function ErrorValue(status: int, reason: string): (j: Json)
    ensures j.Obj? && j.fields.Keys == {"error"}
    ensures j.fields["error"] == Obj(map["code" := Int(status), "message" := Str(reason)])
  {
    Obj(map["error" := Obj(map["code" := Int(status), "message" := Str(reason)])])
  }

  /** `if 'result' in result: result = result['result']` on a decoded value. */
  function Unwrap(j: Json): (r: Result<Json, Error>)
    ensures j.Obj? ==> r == Success(if "result" in j.fields then j.fields["result"] else j)
    ensures j.Arr? ==> r == if Str("result") in j.items then Failure(TypeError) else Success(j)
    ensures j.Str? ==> r == if Contains(j.s, "result") then Failure(TypeError) else Success(j)
    ensures j.Null? || j.Bool? || j.Int? ==> r == Failure(TypeError)
  {
    match j
    case Obj(fields) => Success(if "result" in fields then fields["result"] else j)
    // `'result' in` a list tests membership, then indexing a list by a string fails
    case Arr(items) => if Str("result") in items then Failure(TypeError) else Success(j)
    // `'result' in` a string tests for a substring, then indexing a string by a string fails
    case Str(s) => if Contains(s, "result") then Failure(TypeError) else Success(j)
    // `in` on None, a boolean or a number fails
    case _ => Failure(TypeError)
  }

  /** What `_call` makes of the transport's answer: a value (possibly None) or a raised error. */
  function Outcome(x: Exchange, url: string, accepted: set<int>, decode: string -> Option<Json>)
    : (r: Result<Option<Json>, Error>)
    ensures r.Failure? && x.Answered? ==> x.status in accepted && x.body != ""
  {
    match x
    case Refused(code, reason) => Failure(NewHttpError(url, Some(code), reason))
    case Unreachable(reason) => Failure(NewHttpError(url, None, reason))
    case Answered(status, reason, body) =>
      if status !in accepted then Success(Some(ErrorValue(status, reason)))
      else if |body| == 0 then Success(None)
      else match decode(body)
        case None => Failure(DecodeError(body))
        case Some(j) =>
          match Unwrap(j)
          case Success(v) => Success(Some(v))
          case Failure(e) => Failure(e)
  }

  /** A status outside the accepted set gives the error value; nothing is raised and the body is not read. */
  lemma RejectedStatusIsValue(status: int, reason: string, body: string, url: string,
                              accepted: set<int>, decode: string -> Option<Json>)
    requires status !in accepted
    ensures Outcome(Answered(status, reason, body), url, accepted, decode)
         == Success(Some(Obj(map["error" := Obj(map["code" := Int(status), "message" := Str(reason)])])))
  {
  }

  /** An accepted response with an empty body gives None. */
  lemma EmptyBodyIsNone(status: int, reason: string, url: string,
                        accepted: set<int>, decode: string -> Option<Json>)
    requires status in accepted
    ensures Outcome(Answered(status, reason, ""), url, accepted, decode) == Success(None)
  {
  }

  /** A decoded object with a `result` field gives that field; one without gives itself. */
  lemma EnvelopeUnwrapped(status: int, reason: string, body: string, url: string,
                          accepted: set<int>, decode: string -> Option<Json>)
    requires status in accepted && body != ""
    requires decode(body).Some? && decode(body).value.Obj?
    ensures var fields := decode(body).value.fields;
      Outcome(Answered(status, reason, body), url, accepted, decode)
        == Success(Some(if "result" in fields then fields["result"] else decode(body).value))
  {
  }

  /**
   * `_call` raises exactly on a transport failure, on a body that is not JSON,
   * and on a decoded value that `'result' in` cannot inspect; the status
   * policy alone never raises.
   */
  lemma RaisesExactly(x: Exchange, url: string, accepted: set<int>, decode: string -> Option<Json>)
    ensures Outcome(x, url, accepted, decode).Failure? <==>
      || !x.Answered?
      || (x.status in accepted && x.body != ""
          && (decode(x.body).None? || Unwrap(decode(x.body).value).Failure?))
  {
  }

  /** A failed transport raises `HTTPError` with the request URL; a missing code reads -1. */
  lemma TransportFailureRaises(x: Exchange, url: string, accepted: set<int>, decode: string -> Option<Json>)
    requires !x.Answered?
    ensures Outcome(x, url, accepted, decode)
         == Failure(HttpError(url, if x.Refused? then x.code else -1, x.reason))
  {
  }

  /** `table['name']` for one element of the list `tables()` receives. */
  function NameOf(item: Json): (r: Result<Json, Error>)
    ensures r.Success? <==> item.Obj? && "name" in item.fields
    ensures r.Success? ==> r.value == item.fields["name"]
    ensures item.Obj? && "name" !in item.fields ==> r == Failure(KeyError("name"))
    ensures !item.Obj? ==> r == Failure(TypeError)
  {
    match item
    case Obj(fields) => if "name" in fields then Success(fields["name"]) else Failure(KeyError("name"))
    case _ => Failure(TypeError)
  }

  /** `[table['name'] for table in items]`: the first failing element raises. */
  function NamesOf(items: seq<Json>): (r: Result<seq<Json>, Error>)
    ensures r.Success? ==> |r.value| == |items|
    decreases |items|
  {
    if items == [] then Success([])
    else match NameOf(items[0])
      case Failure(e) => Failure(e)
      case Success(n) =>
        match NamesOf(items[1..])
        case Failure(e) => Failure(e)
        case Success(ns) => Success([n] + ns)
  }

  /** The comprehension in `tables()` over whatever `_call` returned. */
  function Names(tables: Option<Json>): (r: Result<seq<Json>, Error>)
    ensures tables.None? ==> r.Failure?
    ensures r.Success? && tables.Some? && tables.value.Arr? ==> |r.value| == |tables.value.items|
  {
    NamesInOrder(if tables.Some? && tables.value.Arr? then tables.value.items else []);
    match tables
    case None => Failure(TypeError)
    case Some(Arr(items)) => NamesOf(items)
    // iterating a dict gives its keys, and a string cannot be indexed by 'name'
    case Some(Obj(fields)) => if fields == map[] then Success([]) else Failure(TypeError)
    case Some(Str(s)) => if s == "" then Success([]) else Failure(TypeError)
    case Some(_) => Failure(TypeError)
  }

  /**
   * The names come out one per record and in record order, exactly when every
   * record is an object with a `name` field.
   */
  lemma {:induction false} NamesInOrder(items: seq<Json>)
    ensures NamesOf(items).Success? <==> forall i :: 0 <= i < |items| ==> items[i].Obj? && "name" in items[i].fields
    ensures NamesOf(items).Success? ==>
      && |NamesOf(items).value| == |items|
      && forall i :: 0 <= i < |items| ==> NamesOf(items).value[i] == items[i].fields["name"]
    decreases |items|
  {
    if items != [] {
      NamesInOrder(items[1..]);
      assert forall i :: 1 <= i < |items| ==> items[i] == items[1..][i - 1];
    }
  }

  /**
   * The second half of `_call`: send the request (a falsy payload is not
   * sent), turn a transport failure into HTTPError, then apply the status
   * policy and the body rules.
   */
  method Fetch(verb: Verb, u: string, params: Option<Json>, accepted: set<int>, wire: Wire)
    returns (r: Result<Option<Json>, Error>)
    ensures r == Outcome(wire.send(verb, u, if params.Some? && Truthy(params.value) then params else None),
                         u, accepted, wire.decode)
  {
    var body: Option<Json> := None;
    if params.Some? && Truthy(params.value) {
      body := params;
    }
    var response := wire.send(verb, u, body);
    match response {
      case Refused(code, reason) =>
        return Failure(NewHttpError(u, Some(code), reason));
      case Unreachable(reason) =>
        return Failure(NewHttpError(u, None, reason));
      case Answered(status, reason, text) =>
        if status !in accepted {
          return Success(Some(ErrorValue(status, reason)));
        }
        if |text| == 0 {
          return Success(None);
        }
        var result := wire.decode(text);
        if result.None? {
          return Failure(DecodeError(text));
        }
        var unwrapped := Unwrap(result.value);
        if unwrapped.Failure? {
          return Failure(unwrapped.error);
        }
        return Success(Some(unwrapped.value));
    }
  }

  /** The client object of servicenow/__init__.py. */
  class ServiceNow {
    const url: string
    var proxies: map<string, string>

    /** Only non-empty proxy settings are kept; credentials go to the opener, which is not modelled. */
    constructor (url: string, httpProxy: Option<string>, httpsProxy: Option<string>)
      ensures this.url == url
      ensures "http" in proxies <==> httpProxy.Some? && httpProxy.value != ""
      ensures "https" in proxies <==> httpsProxy.Some? && httpsProxy.value != ""
      ensures "http" in proxies ==> proxies["http"] == httpProxy.value
      ensures "https" in proxies ==> proxies["https"] == httpsProxy.value
      ensures proxies.Keys <= {"http", "https"}
    {
      this.url := url;
      var settings: map<string, string> := map[];
      if httpProxy.Some? && httpProxy.value != "" {
        settings := settings["http" := httpProxy.value];
      }
      if httpsProxy.Some? && httpsProxy.value != "" {
        settings := settings["https" := httpsProxy.value];
      }
      proxies := settings;
    }

    /** `_call`: build the URL, send, then apply the status policy and the body rules. */
    method Call(verb: Verb, path: string, params: Option<Json>, accepted: set<int>,
                kwargs: Kwargs, wire: Wire)
      returns (r: Result<Option<Json>, Error>)
      ensures var u := CallUrl(url, path, kwargs);
        r == Outcome(wire.send(verb, u, if params.Some? && Truthy(params.value) then params else None),
                     u, accepted, wire.decode)
    {
      var u: string;
      if '/' !in path {
        u := url + "/api/now/table/" + path;
      } else {
        u := url + "/" + path;
      }
      var options := Options(kwargs);
      if options != [] {
        u := u + if '?' in u then "&" else "?";
        u := u + Join("&", options);
      }
      r := Fetch(verb, u, params, accepted, wire);
    }

    /** `tables()`: the `name` of every record of sys_db_object, in order. */
    method Tables(wire: Wire) returns (r: Result<seq<Json>, Error>)
      ensures var u := CallUrl(url, "/api/now/table/sys_db_object", []);
        r == match Outcome(wire.send(GET, u, None), u, DefaultCodes, wire.decode)
             case Failure(e) => Failure(e)
             case Success(tables) => Names(tables)
    {
      var tables := Call(GET, "/api/now/table/sys_db_object", None, DefaultCodes, [], wire);
      if tables.Failure? {
        return Failure(tables.error);
      }
      r := Names(tables.value);
    }

    /**
     * `get`: only status 200 is accepted.  A `params=` keyword argument of
     * the call binds `_call`'s own parameter and becomes the request body;
     * it is passed as `params`, the other keyword arguments as `kwargs`.
     */
    method Get(path: string, params: Option<Json>, kwargs: Kwargs, wire: Wire) returns (r: Result<Option<Json>, Error>)
      requires !HasKey(kwargs, "params")
      ensures Clashes(kwargs, GetBound) ==> r == Failure(TypeError)
      ensures !Clashes(kwargs, GetBound) ==> var u := CallUrl(url, path, kwargs);
        r == Outcome(wire.send(GET, u, if params.Some? && Truthy(params.value) then params else None), u, {200}, wire.decode)
    {
      if Clashes(kwargs, GetBound) {
        return Failure(TypeError);
      }
      r := Call(GET, path, params, GetCodes, kwargs, wire);
    }

    /** `put`: statuses 200 and 204 are accepted. */
    method Put(path: string, params: Json, kwargs: Kwargs, wire: Wire) returns (r: Result<Option<Json>, Error>)
      ensures Clashes(kwargs, SendBound) ==> r == Failure(TypeError)
      ensures !Clashes(kwargs, SendBound) ==> var u := CallUrl(url, path, kwargs);
        r == Outcome(wire.send(PUT, u, if Truthy(params) then Some(params) else None), u, {200, 204}, wire.decode)
    {
      if Clashes(kwargs, SendBound) {
        return Failure(TypeError);
      }
      r := Call(PUT, path, Some(params), PutCodes, kwargs, wire);
    }

    /** `post`: statuses 201 and 204 are accepted. */
    method Post(path: string, params: Json, kwargs: Kwargs, wire: Wire) returns (r: Result<Option<Json>, Error>)
      ensures Clashes(kwargs, SendBound) ==> r == Failure(TypeError)
      ensures !Clashes(kwargs, SendBound) ==> var u := CallUrl(url, path, kwargs);
        r == Outcome(wire.send(POST, u, if Truthy(params) then Some(params) else None), u, {201, 204}, wire.decode)
    {
      if Clashes(kwargs, SendBound) {
        return Failure(TypeError);
      }
      r := Call(POST, path, Some(params), PostCodes, kwargs, wire);
    }

    /** `delete`: statuses 200, 202 and 204 are accepted; no options are sent. */
    method Delete(path: string, wire: Wire) returns (r: Result<Option<Json>, Error>)
      ensures var u := Target(url, path);
        r == Outcome(wire.send(DELETE, u, None), u, {200, 202, 204}, wire.decode)
    {
      r := Call(DELETE, path, None, DeleteCodes, [], wire);
    }
  }
}
