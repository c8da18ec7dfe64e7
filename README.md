# python-servicenow in Dafny

A model of the python-servicenow client library and proofs about it. The library talks to a ServiceNow instance over its REST Table API and over the older JSONv2 WebService API. The model covers three parts:

- **`Client`** (client.dfy) models the base client in `servicenow/__init__.py`:
  - how `_call` builds the request URL from a path and keyword arguments;
  - its accepted-status policy, where a status outside the accepted set is returned as an error value instead of being raised;
  - empty bodies and the `result` envelope;
  - how transport failures become `HTTPError`, and that error's text;
  - `tables()`;
  - the accepted status codes of each verb.
- **`Tables`** (tables.dfy) models `servicenow/table.py`:
  - the memoising client, whose two reference lookups share one cache;
  - the `Table` facade: indexing, length by binary search, `insert`, and the filter parser of `search`;
  - `TableRow`: field lookup, equality, membership, length and field update.
- **`WebService`** (webservice.dfy) models `servicenow/ws.py`:
  - `_url_rewrite`;
  - the `get`/`put`/`post`/`delete` verbs, which split `table/sys_id` paths.

Three support modules hold shared pieces:

- **`Text`** (text.dfy) has Python string operations: substring search, `split`, `join` and `str()` of integers.
- **`Data`** (data.dfy) has JSON values, keyword arguments and the exceptions.
- **`Wrappers`** (wrappers.dfy) has `Option` and `Result`.

Python objects become values or classes:

- Keyword arguments are an ordered sequence of name/value pairs in call order, which is the order Python 3.6 and later keep for `**kwargs`. `del kwargs[k]` is `Data.Remove`. `kwargs[k] = v` is `Data.Assign`, which keeps an existing entry in place and appends a new one.
- The network is a `Client.Wire` value. Its `send` function answers an exchange for a method, a URL and an optional payload. Its `decode` function stands for `json.loads`.
- A remote table is a sequence of records. A request for `limit` records from `offset` answers the slice `Tables.Page`.
- The parent class's reference lookups, which belong to the `byg_servicenow` package, are a `Tables.Parent` value. Each lookup answers a string or raises.
- Every object whose fields change becomes a Dafny class:
  - the memoising client (its cache);
  - the table (its display flag);
  - the row (its keys and data).

In two places the tests disagree with the code, and the model follows the code:

- In `tests/test_ws.py`, `get` expects the display flags before the sysparm options. The code appends them after the options (servicenow/ws.py:44-45).
- In `tests/test_ws.py`, `put` expects `sysparm_query=sys_id%3D123`. The code formats options with `%s` and does not URL-encode them (servicenow/ws.py:28-32).

The model also keeps one detail of the code that no test checks: `tables()` passes the path `/api/now/table/sys_db_object`. That path holds a `/`, so `_call` builds `<instance>//api/now/table/sys_db_object` with a double slash.

## Model

| member | source | states |
|---|---|---|
| Client.NewHttpError | servicenow/__init__.py:19-23 | The error is an HTTPError that keeps the URL and the message. Its code is the given integer, or -1 when none is given. |
| Client.Describe | servicenow/__init__.py:25-26 | The text of an HTTPError starts with "HTTP Error ". |
| Client.DescribeShowsCode | servicenow/__init__.py:19-26 | The text of an HTTPError starts with "HTTP Error ". The text up to the first colon parses back to the stored code, which is the given integer or -1. The rest reads ": " followed by the message. |
| Client.TransportFailureRaises | servicenow/__init__.py:73-84 | A refused request raises HTTPError with the request URL, the status code and the reason. An unreachable host raises HTTPError with code -1. |
| Client.Options | servicenow/__init__.py:52-56 | There are never more options than keyword arguments. |
| Client.OptionsAppend | servicenow/__init__.py:52-56 | The options of two argument lists in sequence are the options of each in sequence, so argument order is kept. |
| Client.OptionsEmpty | servicenow/__init__.py:52-56 | There are no sysparm options exactly when every keyword argument is None. |
| Client.Target | servicenow/__init__.py:48-51 | The target starts with the instance and a `/`, and ends with the path. A path without `/` is placed under `<instance>/api/now/table/`. |
| Client.CallUrl | servicenow/__init__.py:48-59 | The requested URL starts with the target: the Table API address for a bare table name, the instance and the path otherwise. |
| Client.CallUrlWithoutOptions | servicenow/__init__.py:48-59 | With every keyword argument None, the URL is the target URL unchanged. |
| Client.CallUrlQuery | servicenow/__init__.py:48-59 | A target without `?` is followed by `?`. Splitting the rest at `&` gives the options back in argument order, when no option holds `&`. |
| Client.CallUrlExtendsQuery | servicenow/__init__.py:57-59 | A target that already holds `?` gets `&` and then the joined options. |
| Client.Unwrap | servicenow/__init__.py:97-99 | A decoded object with `result` gives that field, and any other object gives itself. A list holding the string "result" raises TypeError. A string containing "result" raises TypeError. None, booleans and numbers raise TypeError. Any other list or string is returned unchanged. |
| Client.Outcome | servicenow/__init__.py:73-99 | When the transport answered, `_call` raises only for an accepted status with a non-empty body: the status policy and an empty body never raise. |
| Client.ErrorValue | servicenow/__init__.py:86-89 | The value is an object whose only key is `error`, holding the status as `code` and the reason as `message`. |
| Client.RejectedStatusIsValue | servicenow/__init__.py:85-89 | A status outside the accepted set yields `{'error': {'code': status, 'message': reason}}` and raises nothing. |
| Client.EmptyBodyIsNone | servicenow/__init__.py:90-92 | An accepted response with an empty body yields None. |
| Client.EnvelopeUnwrapped | servicenow/__init__.py:93-99 | For an accepted non-empty body that decodes to an object, the result is its `result` field if present, otherwise the whole object. |
| Client.RaisesExactly | servicenow/__init__.py:73-99 | `_call` raises if and only if one of these holds: the transport failed; an accepted non-empty body is not JSON; or the decoded value cannot be inspected for `result`. |
| Client.NameOf | servicenow/__init__.py:107 | `item['name']` succeeds exactly for an object with a `name` field and gives that field. An object without it raises KeyError("name"). Anything else raises TypeError. |
| Client.NamesOf | servicenow/__init__.py:107 | On success there is one name per item. |
| Client.Names | servicenow/__init__.py:107 | A None from `_call` (an empty body) makes the comprehension raise. For a list of records the names come one per record. |
| Client.NamesInOrder | servicenow/__init__.py:101-107 | The table names come out one per record, in record order. This happens exactly when every record is an object with a `name` field. |
| Client.Fetch | servicenow/__init__.py:60-99 | The result is the response policy applied to what the transport answers for the URL. A falsy payload is not sent. |
| Client.ServiceNow.constructor | servicenow/__init__.py:31-44 | Only non-empty proxy settings are kept, under `http` and `https`. |
| Client.ServiceNow.Call | servicenow/__init__.py:46-99 | The call requests the URL built from the path and the options, then applies the response policy. |
| Client.ServiceNow.Tables | servicenow/__init__.py:101-107 | A GET of sys_db_object with the default status set {200, 201, 204}, then the names of the records. |
| Client.ServiceNow.Get | servicenow/__init__.py:109-126 | A keyword argument named `path`, `method` or `status_codes` raises TypeError, since it binds a parameter twice. Otherwise it is a GET of the call URL that accepts only status 200. A `params=` keyword binds `_call`'s own parameter and becomes the body when truthy. |
| Client.ServiceNow.Put | servicenow/__init__.py:128-143 | A keyword argument named `path`, `params`, `method` or `status_codes` raises TypeError. Otherwise it is a PUT of the call URL that sends the payload when truthy and accepts statuses 200 and 204. |
| Client.ServiceNow.Post | servicenow/__init__.py:145-160 | A keyword argument named `path`, `params`, `method` or `status_codes` raises TypeError. Otherwise it is a POST of the call URL that sends the payload when truthy and accepts statuses 201 and 204. |
| Client.ServiceNow.Delete | servicenow/__init__.py:162-168 | A DELETE with no options that accepts statuses 200, 202 and 204. |
| Text.Split | servicenow/table.py:193-195 | `split` gives at least one piece. No piece holds the separator. There is more than one piece exactly when the separator occurs. |
| Text.JoinSplit | servicenow/table.py:193-195 | Joining the pieces of a split with the separator gives back the string. |
| Text.SplitJoin | servicenow/table.py:127 | Splitting a join of separator-free pieces gives back the pieces. |
| Text.FirstIndexOf | servicenow/table.py:109-114 | The index is an occurrence of the operator, with no occurrence before it. |
| Text.LastIndexOf | servicenow/table.py:110-114 | The index is an occurrence of the operator, with no occurrence after it. This is the cut of the greedy first group. |
| Text.IntToStringRoundTrip | servicenow/__init__.py:26 | `str()` of an integer parses back to that integer and holds no colon. |
| Data.Remove | servicenow/ws.py:22-27 | After `del kwargs[k]`, k is gone. Every other argument is kept with its value, and nothing is added. |
| Data.RemoveConcat | servicenow/ws.py:22-27 | Deleting distributes over concatenation, so the remaining arguments keep their order. With the contract of `Remove` on one argument this fixes `Remove` completely. |
| Data.Assign | servicenow/ws.py:40-42 | After `kwargs[k] = v`, k maps to v. Every argument keeps its position and name, and every other argument keeps its value. The count grows only when k is new. |
| Data.AssignAppends | servicenow/ws.py:52 | Assigning an absent key appends it as the last argument. |
| Data.RemoveAbsent | servicenow/ws.py:22-27 | Deleting an absent key changes nothing. |
| Data.ClashesExactly | servicenow/__init__.py:109-126 | The argument list clashes with a set of bound parameter names exactly when it holds one of them. Such a call raises TypeError. |
| Tables.CacheKey | servicenow/table.py:25 | The key is the table, a `.` and the value, with nothing else. |
| Tables.CacheKeysCollide | servicenow/table.py:25 | The key `table + '.' + x` does not delimit its parts. For every t, a and b, the pairs (t + "." + a, b) and (t, a + "." + b) differ but share one entry. |
| Tables.AddedByTrans | servicenow/table.py:25-43 | Entries the parent answered, added over two steps, are entries the parent answered. |
| Tables.ServiceNow.constructor | servicenow/table.py:13-17 | A new client starts with an empty cache. |
| Tables.ServiceNow.SysidToValue | servicenow/table.py:19-30 | A hit answers the stored value, does not ask the parent, and leaves the cache as it was. A miss stores and answers the parent's value. A raising parent leaves the cache unchanged. No entry is ever removed or changed. |
| Tables.ServiceNow.ValueToSysid | servicenow/table.py:32-43 | The same memoisation in the same key space. |
| Tables.RepeatedLookup | servicenow/table.py:25-30 | A second lookup of the same pair answers the first lookup's value, whatever the parent would answer now. After a failed first lookup it asks again. |
| Tables.SharedKeySpace | servicenow/table.py:25-43 | `value_to_sysid(t, x)` after a successful `sysid_to_value(t, x)` answers the cached display value. |
| Tables.Page | servicenow/table.py:79-80 | The remote answer to `offset`/`limit` holds min(limit, N - offset) records, or none past the end, and they are the records from `offset` on. |
| Tables.Table.constructor | servicenow/table.py:50-53 | A table holds its client and its name, and starts with `display_value` off. |
| Tables.Table.GetItem | servicenow/table.py:58-66 | There is no row exactly when the index is negative or past the end. Otherwise the row is the record at the index. |
| Tables.Table.Length | servicenow/table.py:73-87 | For every table of at most 65536 records the answer is exactly the record count, found with at most 17 probes. |
| Tables.ProbesBeyondWindowFindTwo | servicenow/table.py:73-87 | With more than 65536 records every probe inside the window answers two records, so the loop never meets its exit. The window bound is a real limit. |
| Tables.EnumeratedSize | servicenow/table.py:168-171 | A dict has as many entries as its iteration visits keys. |
| Tables.TableRow.ReadFields | servicenow/table.py:98-100 | The loop over the row's fields, skipping some, reads each field through the cache. Every entry it adds to the cache is the parent's `sysid_to_value` answer for its key. On success the payload holds exactly the fields read, each as the row reads it. It succeeds whenever every field would read without raising at the start. A failure carries the error of the first field, in iteration order, that raises; every field before it resolved. |
| Tables.Table.Insert | servicenow/table.py:95-102 | The row wraps the data. The post goes to the table and covers every field but `sys_id`, each as the row reads it. It is made whenever every such field reads without raising. Otherwise the error is the first raising field's. Cache entries are kept, and every added entry is the parent's `sysid_to_value` answer. |
| Tables.LinkParts | servicenow/table.py:193-195 | A link that is not a string raises AttributeError. A string link succeeds exactly when it holds a `/`, and raises IndexError otherwise. |
| Tables.LinkPartsAreLastSegments | servicenow/table.py:193-195 | The two parts are free of `/`. The link ends with `table/sys_id`, preceded by a `/` or by nothing. |
| Tables.AttributeOf | servicenow/table.py:123-138 | A record field is the row's attribute of that name, as `getattr(row, field)` reads it. The row's own `table`, `snow` and private data attributes shadow fields of the same name. |
| Tables.Groups | servicenow/table.py:110-117 | The groups are field, operator and value. Together they rebuild the first line holding the operator. The operator does not occur after the field. |
| Tables.ParseFilter | servicenow/table.py:109-116 | A parsed filter uses `!=`, `LIKE` or `=`. A filter that does not parse raises AttributeError("operator not implemented"). |
| Tables.ParseFilterPriority | servicenow/table.py:109-116 | `!=` is chosen first, then `LIKE`, then `=`. A filter with none of them raises AttributeError("operator not implemented"). |
| Tables.ParseSplitsAtLastOperator | servicenow/table.py:109-117 | On a single-line filter, field + operator + value is the filter, and the operator does not occur again after the field. |
| Tables.NonEmpty | servicenow/table.py:104-108 | The filters kept are no more than those given, and none is empty. |
| Tables.Check | servicenow/table.py:109-122 | A filter passes exactly when it parses, there is a first row and the row has the field. A parse failure raises its error, a missing first row raises TypeError, and a missing field raises KeyError(field). |
| Tables.ClauseText | servicenow/table.py:117-126 | A field that is not a dict gives field + operator + value. Any clause text starts with field + operator. |
| Tables.SysparmQuery | servicenow/table.py:127 | No clauses give the empty query. One clause gives that clause alone. |
| Tables.QueryKeepsClauses | servicenow/table.py:127 | Clauses without `^` read back, in order, from the `sysparm_query` they are joined into. |
| Tables.ClauseOutcome | servicenow/table.py:109-126 | A filter that fails to parse, meets no first row or names an unknown field raises that error. A clause is built only from a filter that passes those checks. For a field that is not a dict the clause is field + operator + value. A dict field without `link` raises KeyError("link"), and a link that does not split raises its split error. |
| Tables.ClauseCache | servicenow/table.py:117-126 | The cache after building a clause only grows, and each new entry is the parent's `value_to_sysid` answer for its key. A failure leaves it unchanged. A built clause is what the filter builds at the new cache. |
| Tables.Table.BuildClause | servicenow/table.py:109-126 | The result is `ClauseOutcome` at the cache the call meets, and the new cache is exactly `ClauseCache`. A field that is not a dict gives field + operator + value. A dict without `link` raises KeyError("link"). A bad link raises its split error. Otherwise `value_to_sysid` on the link's table gives the cached sys_id, or the parent's answer or error. A failure leaves the cache unchanged. A built clause shows the filter builds it at the new cache. |
| Tables.Table.Search | servicenow/table.py:104-127 | There is one clause per non-empty filter, in input order, each built from its filter as above. It succeeds whenever every non-empty filter would yield a clause at the start. A failure carries the error of the first filter that raises; every filter before it yields a clause. When the first filter fails its checks, its error is raised. Cache entries are kept, and every added entry is the parent's `value_to_sysid` answer. |
| Tables.TableRow.constructor | servicenow/table.py:134-138 | The row takes the table and the client of its parent and wraps the data. |
| Tables.TableRow.Len | servicenow/table.py:168-171 | `len(row)` is the number of keys iterated. It is 0 exactly for empty data. |
| Tables.TableRow.Contains | servicenow/table.py:177-180 | `key in row` holds exactly for the keys the row iterates. |
| Tables.TableRow.Lookup | servicenow/table.py:182-195 | The checks run in this order. A missing field raises KeyError(name). A non-dict value is returned. A dict answers its `display_value`. Then `sys_domain` answers its `value`, or raises KeyError("value"). Then a dict without `link` answers None. A link that is not a string, or has no `/`, raises its split error. A lookup is made exactly for a dict with a string link holding a `/`, and it uses the link's last two segments. |
| Tables.AfterAttempt | servicenow/table.py:19-30 | The cache after a field lookup only grows, and each new entry is the parent's `sysid_to_value` answer for its key. After a success the lookup resolves in the new cache to the answer. After a failure the cache is unchanged. |
| Tables.Attempt | servicenow/table.py:182-195 | A lookup answers its value when the cache already resolves it. A raising lookup raises its error. An unresolved reference answers exactly when the parent's `sysid_to_value` does. |
| Tables.TableRow.Get | servicenow/table.py:182-195 | The answer is `Attempt` at the cache the call meets. The new cache is exactly `AfterAttempt`: unchanged except for one entry of a missed reference, which holds the parent's answer. A successful answer is what the lookup resolves to in the new cache. |
| Tables.TableRow.Equals | servicenow/table.py:147-160 | Equality holds exactly when two conditions hold. First, every key of the other record is a key of the row with an equal value. Second, every key of the row without the `sys_` prefix is in the other record. |
| Tables.TableRow.SetItem | servicenow/table.py:197-203 | Only the named field changes, and a new field goes last. The put goes to the row's `sys_id` and covers every field, each as the row reads it. It is made whenever `sys_id` is present and every field reads without raising. A failure is either the first raising field's error, or KeyError("sys_id") after every field read. Every entry added to the cache is the parent's `sysid_to_value` answer. |
| WebService.TakeDisplay | servicenow/ws.py:22-27 | A present display argument yields `tag=<value>`, and the rest is the arguments with it deleted, in order. An absent one yields no text and leaves the arguments as they were. |
| WebService.Address | servicenow/ws.py:21-34 | The rewritten address starts with `<path>.do?JSONv2&`. |
| WebService.Rewritten | servicenow/ws.py:21-35 | Every rewritten URL starts with `<instance>/<path>.do?JSONv2&`. |
| WebService.DisplayArgumentsFirst | servicenow/ws.py:21-34 | Wherever they stand among the arguments, `displayvalue=<v>` comes first and `displayvariables=<v>` second, straight after `<path>.do?JSONv2&`. All other arguments follow as options, in argument order. |
| WebService.RewrittenOptions | servicenow/ws.py:21-35 | Without display arguments, the sysparm options follow the JSONv2 address and read back in argument order when split at `&`. |
| WebService.OptionsPrefixed | servicenow/ws.py:28-32 | Every option starts with `sysparm_`. |
| WebService.DisplayValueFirst | servicenow/ws.py:22-24 | A leading `display_value` argument is written right after the JSONv2 address, before the options. |
| WebService.DisplayValueGluedToNext | servicenow/ws.py:22-34 | Nothing separates `displayvalue=<v>` from the first `sysparm_` option. |
| WebService.TableAndSysid | servicenow/ws.py:40-42 | A `t/id` path splits into table `t` and record `id`. |
| WebService.SentUrlAsWritten | servicenow/__init__.py:48-51 | `_call` puts the instance URL in front of any path that holds a `/`. |
| WebService.BaseDoubled | servicenow/ws.py:35 | `_call` puts the instance in front of every rewritten URL, so what it fetches starts with the instance twice. |
| WebService.ServiceNow.constructor | servicenow/__init__.py:31-33 | The WebService client inherits the base constructor (servicenow/ws.py:10) and keeps the instance URL it was given. |
| WebService.ServiceNow.UrlRewrite | servicenow/ws.py:13-35 | The URL is the instance, the JSONv2 address of the path, the display arguments, then the remaining non-None arguments as options. |
| WebService.ServiceNow.Get | servicenow/ws.py:37-46 | A keyword argument named `self` or `path` raises TypeError, and nothing else does. A `t/id` path reads table `t` with `sys_id` set to the last segment. The display flags come after the rewritten URL. It is a GET with no payload that accepts only status 200. |
| WebService.ServiceNow.Put | servicenow/ws.py:48-57 | A keyword argument named `self`, `path` or `params` raises TypeError. Without `query`, a path with no `/` raises ValueError("no sys_id specified on <path>"). An `action` argument raises TypeError. It succeeds exactly otherwise. On success, `action=update` comes first and `query=sys_id=<second segment>` last, and it is a POST of the payload that accepts statuses 200 and 204. |
| WebService.ServiceNow.Post | servicenow/ws.py:59-63 | A keyword argument named `self`, `path`, `params` or `action` raises TypeError. Otherwise it is a POST with `action=insert` first that accepts statuses 200 and 204. |
| WebService.ServiceNow.Delete | servicenow/ws.py:65-73 | It raises ValueError exactly for a path without `/`. Otherwise it is a POST with `action=deleteRecord` and `sys_id` set to the last segment, accepting statuses 200, 202 and 204. |
| WebService.ServiceNow.Send | servicenow/__init__.py:60-99 | A WebService request is fetched at the URL its verb built, and the response goes through the same status and body rules. |

## Left out

- HTTP transport, basic authentication and the proxy handler: the network is the `Client.Wire` value. The constructor keeps only the proxy settings.
- `json.dumps` and `json.loads`: decoding is the `decode` function of `Client.Wire`. Floating-point JSON numbers are not part of `Data.Json`.
- The `byg_servicenow` parent lookups are the `Tables.Parent` value. The requests behind `Table` (indexing, length, search) are `Tables.Page` over a record sequence. The `display_value` flag they pass along is not modelled.
- `Table.__iter__`, `Table.__delitem__`, `Table.remove`, the `__repr__`/`__str__` methods and `ServiceNow.Table`: plain delegation or display only, outside the modelled core.
- Tables.Table.Search: the model returns the clauses. The final `get` with the URL-encoded `sysparm_query` is not modelled, nor is the generator's laziness. An empty first row makes the source yield `[]` before it raises; the model only raises.
- Tables.Table.Length: tables of more than 65536 records are excluded by a precondition. The source loops forever on them, as `Tables.ProbesBeyondWindowFindTwo` shows.
- Tables.Table.Insert: the post itself is not sent. The method returns the request it would make. It also returns the row on the error path, where the source raises instead.
- Tables.TableRow.SetItem: the source changes the caller's dict in place, because the row keeps a reference to it. The model changes the row's own copy. The `sys_id` is kept as a JSON value rather than formatted into the path.
- Tables.TableRow.Equals: JSON values compare structurally. Python's `1 == True` and `1 == 1.0` are not modelled.
- Tables.TableRow.Equals: the other side is a dict. With another row there, `k not in data` and `data[k]` go through that row's `__contains__` and `__getitem__`, which resolve display values and references. The model does not cover that case.
- Client.Outcome: a body that is not JSON raises `DecodeError` with the body text. Under Python 3 the handler's `e.message` would itself fail; the model keeps the intended behaviour.
- Data.Assign: keyword arguments keep call order only from Python 3.6 on. The code also supports Python 2 (the `urllib2` branches of servicenow/__init__.py:3-6 and 61-84). There `**kwargs` is an unordered dict, so the order of the sysparm options follows the dict's hash order, which the model does not capture.
- Data.Remove, Data.Assign: Python keyword arguments never repeat a name, but the model's sequence may. `Remove` deletes every entry with the name and `Assign` updates the first one.
- Client.ServiceNow.Get: a `params=` keyword argument is passed as the separate `params` parameter, because the model's keyword values cannot hold a dict. `kwargs` holds the other keyword arguments.
- WebService verbs: each returns the request handed to `_call`. The response goes through `WebService.ServiceNow.Send`.
- `setup.py` and packaging.

## Findings

| source | as written | input that shows it | evidently intended | confidence | as-written member | corrected member |
|---|---|---|---|---|---|---|
| servicenow/ws.py:35 | `_url_rewrite` returns `<instance>/<table>.do?...`. Because that holds a `/`, `_call` prefixes the instance URL again (servicenow/__init__.py:50-51). | `delete('u_goal_uh/123')` on instance `http://h:1` fetches `http://h:1/http://h:1/u_goal_uh.do?JSONv2&sysparm_action=deleteRecord&sysparm_sys_id=123` | the rewritten URL is fetched as is, which is also what `tests/test_ws.py` expects `_call` to receive | high; not executed | WebService.BaseDoubled | WebService.ServiceNow.Send |
