/**
 * servicenow/table.py: the memoising client, the `Table` collection facade
 * (indexing, length by binary search, insert, search) and `TableRow`.
 *
 * The remote table is a sequence of records; a request for `limit` records
 * from `offset` answers the slice `Page(recs, offset, limit)`.  The parent
 * class's reference lookups (module byg_servicenow) are a `Parent` value.
 */
module Tables {
  import opened Wrappers
  import opened Text
  import opened Data

  /** One record, as `json.loads` gives it. */
  type Record = map<string, Json>

  /** The lookups the parent class provides; each answers a value or raises. */
  datatype Parent = Parent(
    sysidToValue: (string, string) -> Result<string, Error>,
    valueToSysid: (string, string) -> Result<string, Error>)

  /** The key both cached lookups use. */
  function CacheKey(table: string, x: string): (k: string)
    ensures |k| == |table| + 1 + |x| && k[..|table|] == table && k[|table|] == '.' && k[|table| + 1..] == x
  {
    table + "." + x
  }

  /**
   * Different lookups share a key: the table name and the looked-up text are
   * not delimited, so a dot may move from one to the other.
   */
  lemma CacheKeysCollide(t: string, a: string, b: string)
    ensures (t + "." + a, b) != (t, a + "." + b)
    ensures CacheKey(t + "." + a, b) == CacheKey(t, a + "." + b)
  {
    assert |t + "." + a| != |t|;
    assert t + "." + a + "." + b == t + "." + (a + "." + b);
  }

  /** Every entry of `before` is still in `after`, with the same value. */
  predicate Extends(before: map<string, string>, after: map<string, string>) {
    forall k :: k in before ==> k in after && after[k] == before[k]
  }

  /**
   * Every entry `after` holds beyond `before` is what `answer` gave for a
   * pair with that key: the cache only learns answers of the parent.
   */
  ghost predicate AddedBy(before: map<string, string>, after: map<string, string>,
                          answer: (string, string) -> Result<string, Error>) {
    forall k :: k in after && k !in before ==>
      exists t, x :: CacheKey(t, x) == k && answer(t, x) == Success(after[k])
  }

  /** Entries learnt in two steps were learnt from the parent. */
  lemma AddedByTrans(a: map<string, string>, b: map<string, string>, c: map<string, string>,
                     answer: (string, string) -> Result<string, Error>)
    requires Extends(b, c) && AddedBy(a, b, answer) && AddedBy(b, c, answer)
    ensures AddedBy(a, c, answer)
  {
    forall k | k in c && k !in a
      ensures exists t, x :: CacheKey(t, x) == k && answer(t, x) == Success(c[k])
    {
      if k in b {
        var t, x :| CacheKey(t, x) == k && answer(t, x) == Success(b[k]);
        assert answer(t, x) == Success(c[k]);
      }
    }
  }

  /** The memoising subclass of the parent client. */
  class ServiceNow {
    var cache: map<string, string>

    constructor ()
      ensures cache == map[]
    {
      cache := map[];
    }

    /**
     * `sysid_to_value`: a hit answers the stored value and the parent is not
     * asked; a miss stores the parent's answer; a raising parent leaves the
     * cache as it was.
     */
    method SysidToValue(table: string, sysid: string, parent: Parent) returns (r: Result<string, Error>)
      modifies this
      ensures Extends(old(cache), cache)
      ensures var key := CacheKey(table, sysid);
        if key in old(cache) then r == Success(old(cache)[key]) && cache == old(cache)
        else (r == parent.sysidToValue(table, sysid)
              && cache == if r.Success? then old(cache)[key := r.value] else old(cache))
    {
      var key := CacheKey(table, sysid);
      if key !in cache {
        var answer := parent.sysidToValue(table, sysid);
        if answer.Failure? {
          return answer;
        }
        cache := cache[key := answer.value];
      }
      return Success(cache[key]);
    }

    /** `value_to_sysid`: the same memoisation, in the same key space. */
    method ValueToSysid(table: string, value: string, parent: Parent) returns (r: Result<string, Error>)
      modifies this
      ensures Extends(old(cache), cache)
      ensures var key := CacheKey(table, value);
        if key in old(cache) then r == Success(old(cache)[key]) && cache == old(cache)
        else (r == parent.valueToSysid(table, value)
              && cache == if r.Success? then old(cache)[key := r.value] else old(cache))
    {
      var key := CacheKey(table, value);
      if key !in cache {
        var answer := parent.valueToSysid(table, value);
        if answer.Failure? {
          return answer;
        }
        cache := cache[key := answer.value];
      }
      return Success(cache[key]);
    }
  }

  /** A second lookup of the same pair answers the first one's value, whatever the parent would say now. */
  method RepeatedLookup(table: string, sysid: string, parent: Parent, later: Parent)
    returns (first: Result<string, Error>, second: Result<string, Error>)
    ensures first == parent.sysidToValue(table, sysid)
    ensures first.Success? ==> second == first
    ensures first.Failure? ==> second == later.sysidToValue(table, sysid)
  {
    var snow := new ServiceNow();
    first := snow.SysidToValue(table, sysid, parent);
    second := snow.SysidToValue(table, sysid, later);
  }

  /** Both directions share one key space: a value lookup after a sys_id lookup of the same text answers the cached display value. */
  method SharedKeySpace(table: string, text: string, parent: Parent)
    returns (display: Result<string, Error>, sysid: Result<string, Error>)
    ensures display == parent.sysidToValue(table, text)
    ensures display.Success? ==> sysid == display
    ensures display.Failure? ==> sysid == parent.valueToSysid(table, text)
  {
    var snow := new ServiceNow();
    display := snow.SysidToValue(table, text, parent);
    sysid := snow.ValueToSysid(table, text, parent);
  }

  /** The fixed search window of `__len__`: offsets 0 to 65535. */
  const Window: nat := 65536

  /** What the remote table answers for `offset=offset, limit=limit`. */
  function Page(recs: seq<Record>, offset: nat, limit: nat): (page: seq<Record>)
    ensures |page| == if offset >= |recs| then 0 else if limit < |recs| - offset then limit else |recs| - offset
    ensures forall i :: 0 <= i < |page| ==> page[i] == recs[offset + i]
  {
    if offset >= |recs| then []
    else recs[offset..if offset + limit < |recs| then offset + limit else |recs|]
  }

  /** Two to the power `k`: the width sixteen halvings of the window bring down to one. */
  function Pow2(k: nat): nat {
    if k == 0 then 1 else 2 * Pow2(k - 1)
  }

  lemma {:induction false} Pow2Add(a: nat, b: nat)
    ensures Pow2(a + b) == Pow2(a) * Pow2(b)
  {
    if a > 0 {
      Pow2Add(a - 1, b);
    }
  }

  /** Sixteen halvings take the window down to one offset. */
  lemma Pow2Window()
    ensures Pow2(16) == Window
  {
    assert Pow2(4) == 16;
    Pow2Add(4, 4);
    Pow2Add(8, 8);
  }

  /**
   * Beyond the window every probe of `__len__` finds two records, so the
   * loop never meets its one-record exit: the window bound is a real limit.
   */
  lemma ProbesBeyondWindowFindTwo(recs: seq<Record>, offset: nat)
    requires |recs| > Window && offset < Window
    ensures |Page(recs, offset, 2)| == 2
  {
  }

  /** What a `PUT` or `POST` issued by a row or a table carries. */
  datatype Outgoing =
    /** `post(table, params)` */
    | Create(table: string, params: Record)
    /** `put(table + '/' + str(sysid), params)` */
    | Update(table: string, sysid: Json, params: Record)

  /** `keys` lists the keys of `data`, each once: a Python dict's iteration order. */
  ghost predicate Enumerates(keys: seq<string>, data: Record) {
    && (forall k :: k in data <==> k in keys)
    && (forall i, j :: 0 <= i < j < |keys| ==> keys[i] != keys[j])
  }

  lemma {:induction false} DistinctCount(keys: seq<string>)
    requires forall i, j :: 0 <= i < j < |keys| ==> keys[i] != keys[j]
    ensures |set k | k in keys| == |keys|
    decreases |keys|
  {
    if keys != [] {
      var init := keys[..|keys| - 1];
      DistinctCount(init);
      assert (set k | k in keys) == (set k | k in init) + {keys[|keys| - 1]};
      assert keys[|keys| - 1] !in init;
    }
  }

  /** A dict has as many entries as its iteration visits keys. */
  lemma EnumeratedSize(keys: seq<string>, data: Record)
    requires Enumerates(keys, data)
    ensures |data| == |keys|
  {
    DistinctCount(keys);
    assert data.Keys == set k | k in keys;
  }

  /**
   * `link.split('/')[-2]` and `[-1]`: a link that is not a string has no
   * `split`, one without a `/` has no second-to-last segment.
   */
  function LinkParts(link: Json): (r: Result<(string, string), Error>)
    ensures !link.Str? ==> r == Failure(AttributeError("split"))
    ensures link.Str? ==> (r.Success? <==> '/' in link.s)
    ensures link.Str? && r.Failure? ==> r.error == IndexError
  {
    match link
    case Str(s) =>
      var parts := Split(s, '/');
      if |parts| < 2 then Failure(IndexError)
      else Success((parts[|parts| - 2], parts[|parts| - 1]))
    case _ => Failure(AttributeError("split"))
  }

  /** The two parts are the link's last two `/`-separated segments. */
  lemma LinkPartsAreLastSegments(s: string)
    requires '/' in s
    ensures var (table, sysid) := LinkParts(Str(s)).value;
      var tail := table + "/" + sysid;
      && '/' !in table && '/' !in sysid
      && |tail| <= |s| && s[|s| - |tail|..] == tail
      && (|s| == |tail| || s[|s| - |tail| - 1] == '/')
  {
    var parts := Split(s, '/');
    var n := |parts|;
    var table, sysid := parts[n - 2], parts[n - 1];
    JoinSplit(s, '/');
    var front := parts[..n - 2];
    assert parts == front + [table] + [sysid];
    if front == [] {
      assert Join("/", parts) == table + "/" + sysid;
    } else {
      JoinAppend("/", front, table);
      JoinAppend("/", front + [table], sysid);
      assert s == Join("/", front) + "/" + (table + "/" + sysid);
    }
  }

  /** What a row field lookup does before any request: answer, raise, or resolve a reference. */
  datatype FieldLookup =
    | Plain(value: Json)
    | Raised(error: Error)
    /** `sysid_to_value(table, sysid)` is to be called */
    | Reference(table: string, sysid: string)

  /** The value a lookup yields once the cache holds what it needs. */
  function Resolved(l: FieldLookup, cache: map<string, string>): Option<Json> {
    match l
    case Plain(v) => Some(v)
    case Raised(_) => None
    case Reference(t, id) => if CacheKey(t, id) in cache then Some(Str(cache[CacheKey(t, id)])) else None
  }

  /** A resolved value stays resolved, to the same value, as the cache grows. */
  lemma ResolvedStable(l: FieldLookup, before: map<string, string>, after: map<string, string>)
    requires Extends(before, after) && Resolved(l, before).Some?
    ensures Resolved(l, after) == Resolved(l, before)
  {
  }

  /** What `row[name]` answers for a lookup, given the cache it meets. */
  function Attempt(l: FieldLookup, cache: map<string, string>, parent: Parent): (r: Result<Json, Error>)
    ensures Resolved(l, cache).Some? ==> r == Success(Resolved(l, cache).value)
    ensures l.Raised? ==> r == Failure(l.error)
    ensures l.Reference? && Resolved(l, cache).None? ==> r.Success? == parent.sysidToValue(l.table, l.sysid).Success?
  {
    match l
    case Plain(v) => Success(v)
    case Raised(e) => Failure(e)
    case Reference(t, id) =>
      if CacheKey(t, id) in cache then Success(Str(cache[CacheKey(t, id)]))
      else match parent.sysidToValue(t, id)
        case Success(v) => Success(Str(v))
        case Failure(e) => Failure(e)
  }
  /**
   * The cache once `row[name]` has answered: a reference missing from the
   * cache stores what `sysid_to_value` answered; nothing else changes.
   */
  function AfterAttempt(l: FieldLookup, cache: map<string, string>, parent: Parent): (after: map<string, string>)
    ensures Extends(cache, after)
    ensures AddedBy(cache, after, parent.sysidToValue)
    ensures Attempt(l, cache, parent).Success? ==> Resolved(l, after) == Some(Attempt(l, cache, parent).value)
    ensures Attempt(l, cache, parent).Failure? ==> after == cache
  {
    match l
    case Reference(t, id) =>
      var key := CacheKey(t, id);
      if key !in cache && parent.sysidToValue(t, id).Success? then
        assert parent.sysidToValue(t, id) == Success(cache[key := parent.sysidToValue(t, id).value][key]);
        cache[key := parent.sysidToValue(t, id).value]
      else cache
    case _ => cache
  }


  /** A lookup that answers keeps answering as the cache grows. */
  lemma AttemptStable(l: FieldLookup, before: map<string, string>, after: map<string, string>, parent: Parent)
    requires Extends(before, after) && Attempt(l, before, parent).Success?
    ensures Attempt(l, after, parent).Success?
  {
  }

  /**
   * `row.__dict__[name]`: the row object's own attributes `snow`, `table` and
   * the private data dict shadow record fields of the same name.  The client
   * object under `snow` is not a dict, which is all that matters here.
   */
  function AttributeOf(rec: Record, name: string, table: string): (a: Json)
    requires name in rec
    ensures name != "table" && name != "snow" && name != "_TableRow__data" ==> a == rec[name]
    ensures name == "table" ==> a == Str(table)
    ensures name == "snow" ==> !a.Obj?
    ensures name == "_TableRow__data" ==> a == Obj(rec)
  {
    if name == "table" then Str(table)
    else if name == "snow" then Null
    else if name == "_TableRow__data" then Obj(rec)
    else rec[name]
  }

  /** The three groups of a search filter: field, operator, value. */
  datatype Clause = Clause(field: string, op: string, value: string)

  /** Start of the line holding index `i` (the regex `.` does not match a newline). */
  function LineStart(f: string, i: nat): (start: nat)
    requires i <= |f|
    ensures start <= i
    ensures forall k :: start <= k < i ==> f[k] != '\n'
    ensures start == 0 || f[start - 1] == '\n'
  {
    if i == 0 || f[i - 1] == '\n' then i else LineStart(f, i - 1)
  }

  /** End of the line holding index `i`. */
  function LineEnd(f: string, i: nat): (end: nat)
    requires i <= |f|
    ensures i <= end <= |f|
    ensures forall k :: i <= k < end ==> f[k] != '\n'
    ensures end == |f| || f[end] == '\n'
    decreases |f| - i
  {
    if i == |f| || f[i] == '\n' then i else LineEnd(f, i + 1)
  }

  /** An occurrence of a newline-free operator lies inside the line that holds its first character. */
  lemma OperatorWithinLine(f: string, op: string, at: nat)
    requires OccursAt(f, op, at) && '\n' !in op
    ensures at + |op| <= LineEnd(f, at)
    ensures OccursAt(f[LineStart(f, at)..LineEnd(f, at)], op, at - LineStart(f, at))
  {
    var start, end := LineStart(f, at), LineEnd(f, at);
    assert f[start..end][at - start..at - start + |op|] == f[at..at + |op|];
  }

  /**
   * The groups of `re.search('(.*)(op)(.*)', f)`: the match lies on the first
   * line holding `op`, and the greedy first group splits that line at its
   * last occurrence of `op`.
   */
  function Groups(f: string, op: string): (c: Clause)
    requires Contains(f, op) && '\n' !in op
    ensures c.op == op
    ensures var first := FirstIndexOf(f, op);
      c.field + op + c.value == f[LineStart(f, first)..LineEnd(f, first)]
    ensures forall j :: |c.field| < j ==> !OccursAt(c.field + op + c.value, op, j)
  {
    var first := FirstIndexOf(f, op);
    OperatorWithinLine(f, op, first);
    var line := f[LineStart(f, first)..LineEnd(f, first)];
    var j := LastIndexOf(line, op);
    SplitAround(line, op, j);
    Clause(line[..j], op, line[j + |op|..])
  }

  /** Cutting out an occurrence and gluing it back rebuilds the text. */
  lemma SplitAround(s: string, sub: string, j: nat)
    requires OccursAt(s, sub, j)
    ensures |s[..j]| == j
    ensures s[..j] + sub + s[j + |sub|..] == s
  {
    assert s == s[..j] + s[j..j + |sub|] + s[j + |sub|..];
  }

  /** On a single-line filter the groups rebuild the whole filter. */
  lemma GroupsOfOneLine(f: string, op: string)
    requires Contains(f, op) && '\n' !in op && '\n' !in f
    ensures var c := Groups(f, op); c.field + op + c.value == f
  {
    var first := FirstIndexOf(f, op);
    var start, end := LineStart(f, first), LineEnd(f, first);
    assert f[0..|f|] == f;
  }

  /** The clause `search` builds from one filter: `!=` before `LIKE` before `=`. */
  function ParseFilter(f: string): (r: Result<Clause, Error>)
    ensures r.Success? ==> r.value.op == "!=" || r.value.op == "LIKE" || r.value.op == "="
    ensures r.Failure? ==> r.error == AttributeError("operator not implemented")
  {
    if Contains(f, "!=") then Success(Groups(f, "!="))
    else if Contains(f, "LIKE") then Success(Groups(f, "LIKE"))
    else if Contains(f, "=") then Success(Groups(f, "="))
    else Failure(AttributeError("operator not implemented"))
  }

  /** The operator is chosen by priority, and a filter with none of them raises. */
  lemma ParseFilterPriority(f: string)
    ensures var r := ParseFilter(f);
      && (r.Failure? <==> !Contains(f, "!=") && !Contains(f, "LIKE") && !Contains(f, "="))
      && (r.Failure? ==> r.error == AttributeError("operator not implemented"))
      && (r.Success? ==> r.value.op == if Contains(f, "!=") then "!=" else if Contains(f, "LIKE") then "LIKE" else "=")
  {
  }

  /**
   * A single-line filter is cut at the last occurrence of the chosen operator:
   * the field, the operator and the value rebuild it, and the operator does not
   * occur again after the field.
   */
  lemma ParseSplitsAtLastOperator(f: string)
    requires '\n' !in f && ParseFilter(f).Success?
    ensures var c := ParseFilter(f).value;
      && c.field + c.op + c.value == f
      && forall j :: |c.field| < j ==> !OccursAt(f, c.op, j)
  {
    var op := ParseFilter(f).value.op;
    GroupsOfOneLine(f, op);
  }

  /** The non-empty filters, in order. */
  function NonEmpty(filters: seq<string>): (r: seq<string>)
    ensures |r| <= |filters|
    ensures forall i :: 0 <= i < |r| ==> r[i] != ""
  {
    if filters == [] then []
    else NonEmpty(filters[..|filters| - 1]) + (if filters[|filters| - 1] == "" then [] else [filters[|filters| - 1]])
  }

  /** The checks `search` makes on one filter before any lookup: operator, first row, field. */
  function Check(f: string, first: Option<Record>): (r: Result<Clause, Error>)
    ensures r.Success? <==> ParseFilter(f).Success? && first.Some? && ParseFilter(f).value.field in first.value
    ensures r.Success? ==> r.value == ParseFilter(f).value
    ensures ParseFilter(f).Failure? ==> r == Failure(ParseFilter(f).error)
    ensures ParseFilter(f).Success? && first.None? ==> r == Failure(TypeError)
    ensures ParseFilter(f).Success? && first.Some? && ParseFilter(f).value.field !in first.value ==>
      r == Failure(KeyError(ParseFilter(f).value.field))
  {
    match ParseFilter(f)
    case Failure(e) => Failure(e)
    case Success(c) =>
      if first.None? then Failure(TypeError)
      else if c.field !in first.value then Failure(KeyError(c.field))
      else Success(c)
  }

  /** The text of the clause once any reference value is resolved through the cache. */
  function ClauseText(c: Clause, first: Record, table: string, cache: map<string, string>): (t: Option<string>)
    requires c.field in first
    ensures !AttributeOf(first, c.field, table).Obj? ==> t == Some(c.field + c.op + c.value)
    ensures t.Some? ==> StartsWith(t.value, c.field + c.op)
  {
    var attr := AttributeOf(first, c.field, table);
    if !attr.Obj? then Some(c.field + c.op + c.value)
    else if "link" !in attr.fields || LinkParts(attr.fields["link"]).Failure? then None
    else
      var key := CacheKey(LinkParts(attr.fields["link"]).value.0, c.value);
      if key in cache then Some(c.field + c.op + cache[key]) else None
  }

  /** `text` is the query clause `search` builds from filter `f`, given the first row and the cache. */
  predicate Builds(f: string, first: Option<Record>, table: string, cache: map<string, string>, text: string) {
    && Check(f, first).Success? && first.Some?
    && ClauseText(Check(f, first).value, first.value, table, cache) == Some(text)
  }

  lemma BuildsStable(f: string, first: Option<Record>, table: string, before: map<string, string>, after: map<string, string>, text: string)
    requires Builds(f, first, table, before, text) && Extends(before, after)
    ensures Builds(f, first, table, after, text)
  {
  }

  /**
   * What `search` makes of filter `f` when the cache is `cache`: the checks,
   * then, for a field the first row holds as a dict, the `value_to_sysid`
   * of the value in the table the field's link names.
   */
  function ClauseOutcome(f: string, first: Option<Record>, table: string, cache: map<string, string>, parent: Parent)
    : (r: Result<string, Error>)
    ensures Check(f, first).Failure? ==> r == Failure(Check(f, first).error)
    ensures r.Success? ==> Check(f, first).Success?
    ensures Check(f, first).Success? ==>
      var c := Check(f, first).value;
      var attr := AttributeOf(first.value, c.field, table);
      && (!attr.Obj? ==> r == Success(c.field + c.op + c.value))
      && (attr.Obj? && "link" !in attr.fields ==> r == Failure(KeyError("link")))
      && (attr.Obj? && "link" in attr.fields && LinkParts(attr.fields["link"]).Failure? ==>
            r == Failure(LinkParts(attr.fields["link"]).error))
  {
    match Check(f, first)
    case Failure(e) => Failure(e)
    case Success(c) =>
      var attr := AttributeOf(first.value, c.field, table);
      if !attr.Obj? then Success(c.field + c.op + c.value)
      else if "link" !in attr.fields then Failure(KeyError("link"))
      else match LinkParts(attr.fields["link"])
        case Failure(e) => Failure(e)
        case Success(parts) =>
          var key := CacheKey(parts.0, c.value);
          if key in cache then Success(c.field + c.op + cache[key])
          else match parent.valueToSysid(parts.0, c.value)
            case Success(v) => Success(c.field + c.op + v)
            case Failure(e) => Failure(e)
  }
  /**
   * The cache once filter `f` has been turned into a clause: a reference
   * value missing from the cache stores what `value_to_sysid` answered;
   * nothing else changes.
   */
  function ClauseCache(f: string, first: Option<Record>, table: string, cache: map<string, string>, parent: Parent)
    : (after: map<string, string>)
    ensures Extends(cache, after)
    ensures AddedBy(cache, after, parent.valueToSysid)
    ensures ClauseOutcome(f, first, table, cache, parent).Failure? ==> after == cache
    ensures ClauseOutcome(f, first, table, cache, parent).Success? ==>
      Builds(f, first, table, after, ClauseOutcome(f, first, table, cache, parent).value)
  {
    match Check(f, first)
    case Failure(_) => cache
    case Success(c) =>
      var attr := AttributeOf(first.value, c.field, table);
      if !attr.Obj? || "link" !in attr.fields then cache
      else match LinkParts(attr.fields["link"])
        case Failure(_) => cache
        case Success(parts) =>
          var key := CacheKey(parts.0, c.value);
          if key !in cache && parent.valueToSysid(parts.0, c.value).Success? then
            assert parent.valueToSysid(parts.0, c.value) == Success(cache[key := parent.valueToSysid(parts.0, c.value).value][key]);
            cache[key := parent.valueToSysid(parts.0, c.value).value]
          else cache
  }


  /** Filter `f` yields a clause when the cache is `cache`. */
  predicate Passes(f: string, first: Option<Record>, table: string, cache: map<string, string>, parent: Parent) {
    ClauseOutcome(f, first, table, cache, parent).Success?
  }

  /** A filter that yields a clause keeps yielding one as the cache grows. */
  lemma PassesStable(f: string, first: Option<Record>, table: string, before: map<string, string>,
                     after: map<string, string>, parent: Parent)
    requires Extends(before, after) && Passes(f, first, table, before, parent)
    ensures Passes(f, first, table, after, parent)
  {
  }

  /** A clause that was built from a filter shows that the filter yields one. */
  lemma BuildsPasses(f: string, first: Option<Record>, table: string, cache: map<string, string>, text: string, parent: Parent)
    requires Builds(f, first, table, cache, text)
    ensures Passes(f, first, table, cache, parent)
  {
  }

  /** Every filter of `fs` yields a clause when the cache is `cache`. */
  ghost predicate AllPass(fs: seq<string>, first: Option<Record>, table: string, cache: map<string, string>, parent: Parent) {
    forall i :: 0 <= i < |fs| ==> Passes(fs[i], first, table, cache, parent)
  }

  /** `fs[i]` is the first filter of `fs` that raises, and it raises `e`. */
  ghost predicate FirstFailing(fs: seq<string>, i: int, first: Option<Record>, table: string,
                               cache: map<string, string>, parent: Parent, e: Error) {
    && 0 <= i < |fs|
    && ClauseOutcome(fs[i], first, table, cache, parent) == Failure(e)
    && forall j :: 0 <= j < i ==> Passes(fs[j], first, table, cache, parent)
  }

  /** `"^".join(query)`, the `sysparm_query` of a search. */
  function SysparmQuery(clauses: seq<string>): (q: string)
    ensures clauses == [] ==> q == ""
    ensures |clauses| == 1 ==> q == clauses[0]
  {
    Join("^", clauses)
  }

  /** Clauses free of `^` can be read back from the query, in order. */
  lemma QueryKeepsClauses(clauses: seq<string>)
    requires clauses != []
    requires forall i :: 0 <= i < |clauses| ==> '^' !in clauses[i]
    ensures Split(SysparmQuery(clauses), '^') == clauses
  {
    SplitJoin(clauses, '^');
  }

  /** The collection facade over one remote table. */
  class Table {
    const snow: ServiceNow
    const table: string
    var displayValue: bool

    constructor (snow: ServiceNow, table: string)
      ensures this.snow == snow && this.table == table && !displayValue
    {
      this.snow := snow;
      this.table := table;
      displayValue := false;
    }

    /** `table[index]`: a negative index asks nothing; past the end there is no row. */
    function GetItem(recs: seq<Record>, index: int): (row: Option<Record>)
      ensures row.None? <==> index < 0 || index >= |recs|
      ensures row.Some? ==> row.value == recs[index]
    {
      if index < 0 then None
      else
        var result := Page(recs, index, 1);
        if |result| == 0 then None else Some(result[0])
    }

    /**
     * `len(table)`: binary search over the window for the offset whose
     * two-record probe answers one record.  Exact for every table the window
     * covers, with at most 17 probes.
     */
    method Length(recs: seq<Record>) returns (n: nat, ghost probes: nat)
      requires |recs| <= Window
      ensures n == |recs|
      ensures probes <= 17
    {
      var min, max := 0, Window;
      var res: seq<Record> := [];
      var offset := 0;
      probes := 0;
      Pow2Window();
      while |res| != 1
        invariant 0 <= min < max <= Window
        invariant min < |recs| || min == 0
        invariant |recs| <= max
        invariant |res| == 1 ==> offset + 1 == |recs|
        invariant probes <= 17
        invariant |res| != 1 ==> probes <= 16 && max - min <= Pow2(16 - probes)
        decreases max - min, if |res| == 1 then 0 else 1
      {
        ghost var width := max - min;
        offset := (max + min) / 2;
        res := Page(recs, offset, 2);
        probes := probes + 1;
        if |res| == 0 {
          if offset == 0 {
            return 0, probes;
          }
          max := offset;
        } else {
          min := offset;
        }
        if |res| != 1 {
          assert width >= 2;
          assert 16 - (probes - 1) >= 1;
          assert Pow2(16 - (probes - 1)) == 2 * Pow2(16 - probes);
        }
      }
      return offset + 1, probes;
    }

    /** `insert(data)`: posts every field but `sys_id`, each as the row would read it. */
    method Insert(keys: seq<string>, data: Record, parent: Parent) returns (r: Result<Outgoing, Error>, row: TableRow)
      requires Enumerates(keys, data)
      modifies snow
      ensures fresh(row) && row.snow == snow && row.table == table
      ensures row.keys == keys && row.data == data
      ensures Extends(old(snow.cache), snow.cache)
      ensures AddedBy(old(snow.cache), snow.cache, parent.sysidToValue)
      ensures r.Success? ==> r.value.Create? && r.value.table == table
      ensures r.Success? ==> r.value.params.Keys == data.Keys - {"sys_id"}
      ensures r.Success? ==> forall k :: k in r.value.params ==> Resolved(row.Lookup(k), snow.cache) == Some(r.value.params[k])
      ensures row.AllRead({"sys_id"}, old(snow.cache), parent) ==> r.Success?
      ensures r.Failure? ==> exists i :: row.FirstRaise(i, {"sys_id"}, snow.cache, parent, r.error)
    {
      row := new TableRow(this, keys, data);
      var params := row.ReadFields({"sys_id"}, parent);
      if params.Failure? {
        return Failure(params.error), row;
      }
      r := Success(Create(table, params.value));
    }

    /** One filter of `search` turned into a clause of the query, its reference value resolved. */
    method BuildClause(f: string, recs: seq<Record>, parent: Parent) returns (r: Result<string, Error>)
      modifies snow
      ensures Extends(old(snow.cache), snow.cache)
      ensures r == ClauseOutcome(f, GetItem(recs, 0), table, old(snow.cache), parent)
      ensures snow.cache == ClauseCache(f, GetItem(recs, 0), table, old(snow.cache), parent)
      ensures r.Failure? ==> snow.cache == old(snow.cache)
      ensures r.Success? ==> Builds(f, GetItem(recs, 0), table, snow.cache, r.value)
    {
      var g := ParseFilter(f);
      if g.Failure? {
        return Failure(g.error);
      }
      var c := g.value;
      var v := c.value;
      var first := GetItem(recs, 0);
      if first.None? {
        return Failure(TypeError);
      }
      if c.field !in first.value {
        return Failure(KeyError(c.field));
      }
      var attr := AttributeOf(first.value, c.field, table);
      if attr.Obj? {
        if "link" !in attr.fields {
          return Failure(KeyError("link"));
        }
        var parts := LinkParts(attr.fields["link"]);
        if parts.Failure? {
          return Failure(parts.error);
        }
        var resolved := snow.ValueToSysid(parts.value.0, v, parent);
        if resolved.Failure? {
          return Failure(resolved.error);
        }
        v := resolved.value;
      }
      return Success(c.field + c.op + v);
    }

    /**
     * The sysparm_query clauses of `search(*filters)`.  Each non-empty filter is
     * split at its operator and checked against the first row; a reference
     * field's value is turned into a sys_id through the cache.
     */
    method Search(filters: seq<string>, recs: seq<Record>, parent: Parent) returns (r: Result<seq<string>, Error>)
      modifies snow
      ensures Extends(old(snow.cache), snow.cache)
      ensures AddedBy(old(snow.cache), snow.cache, parent.valueToSysid)
      ensures r.Success? ==> |r.value| == |NonEmpty(filters)|
      ensures r.Success? ==> forall i :: 0 <= i < |r.value| ==>
        Builds(NonEmpty(filters)[i], GetItem(recs, 0), table, snow.cache, r.value[i])
      ensures NonEmpty(filters) != [] && Check(NonEmpty(filters)[0], GetItem(recs, 0)).Failure?
        ==> r == Failure(Check(NonEmpty(filters)[0], GetItem(recs, 0)).error)
      ensures AllPass(NonEmpty(filters), GetItem(recs, 0), table, old(snow.cache), parent) ==> r.Success?
      ensures r.Failure? ==> exists i :: FirstFailing(NonEmpty(filters), i, GetItem(recs, 0), table, snow.cache, parent, r.error)
    {
      var query: seq<string> := [];
      for i := 0 to |filters|
        invariant |query| == |NonEmpty(filters[..i])|
        invariant forall k :: 0 <= k < |query| ==>
          Builds(NonEmpty(filters[..i])[k], GetItem(recs, 0), table, snow.cache, query[k])
        invariant Extends(old(snow.cache), snow.cache)
        invariant AddedBy(old(snow.cache), snow.cache, parent.valueToSysid)
        invariant AllPass(NonEmpty(filters), GetItem(recs, 0), table, old(snow.cache), parent)
          ==> AllPass(NonEmpty(filters), GetItem(recs, 0), table, snow.cache, parent)
      {
        var f := filters[i];
        NonEmptyStep(filters, i);
        if f == "" {
          continue;
        }
        NonEmptyNext(filters, i);
        ghost var before := snow.cache;
        var clause := BuildClause(f, recs, parent);
        if clause.Failure? {
          FirstFailingAfter(NonEmpty(filters), NonEmpty(filters[..i]), query, GetItem(recs, 0), table, snow.cache, parent, clause.error);
          FirstCheckRaisesFirst(NonEmpty(filters), |query|, GetItem(recs, 0), table, snow.cache, parent, clause.error);
          return Failure(clause.error);
        }
        SearchStep(NonEmpty(filters), NonEmpty(filters[..i]), query, f, clause.value, GetItem(recs, 0), table,
                   old(snow.cache), before, snow.cache, parent);
        query := query + [clause.value];
      }
      assert filters[..|filters|] == filters;
      return Success(query);
    }
  }

  /** One more clause built keeps what the loop of `search` knows about the clauses so far and the cache. */
  lemma SearchStep(fs: seq<string>, done: seq<string>, query: seq<string>, f: string, clause: string,
                   first: Option<Record>, table: string, start: map<string, string>,
                   before: map<string, string>, after: map<string, string>, parent: Parent)
    requires Extends(start, before) && Extends(before, after)
    requires AddedBy(start, before, parent.valueToSysid) && AddedBy(before, after, parent.valueToSysid)
    requires |query| == |done| && forall k :: 0 <= k < |query| ==> Builds(done[k], first, table, before, query[k])
    requires Builds(f, first, table, after, clause)
    requires AllPass(fs, first, table, start, parent) ==> AllPass(fs, first, table, before, parent)
    ensures Extends(start, after) && AddedBy(start, after, parent.valueToSysid)
    ensures forall k :: 0 <= k < |query| + 1 ==> Builds((done + [f])[k], first, table, after, (query + [clause])[k])
    ensures AllPass(fs, first, table, start, parent) ==> AllPass(fs, first, table, after, parent)
  {
    AddedByTrans(start, before, after, parent.valueToSysid);
    if AllPass(fs, first, table, start, parent) {
      AllPassStable(fs, first, table, before, after, parent);
    }
    forall k | 0 <= k < |query| + 1
      ensures Builds((done + [f])[k], first, table, after, (query + [clause])[k])
    {
      if k < |query| {
        BuildsStable(done[k], first, table, before, after, query[k]);
      }
    }
  }

  /** One more filter: an empty one adds nothing; a non-empty one goes last, and first overall when nothing came before. */
  lemma {:induction false} NonEmptyStep(filters: seq<string>, i: nat)
    requires i < |filters|
    ensures NonEmpty(filters[..i + 1]) == NonEmpty(filters[..i]) + (if filters[i] == "" then [] else [filters[i]])
    ensures filters[i] != "" && NonEmpty(filters[..i]) == [] ==> NonEmpty(filters) != [] && NonEmpty(filters)[0] == filters[i]
  {
    assert filters[..i + 1][..i] == filters[..i];
    if filters[i] != "" && NonEmpty(filters[..i]) == [] {
      assert NonEmpty(filters[..i + 1]) == [filters[i]];
      assert filters == filters[..i + 1] + filters[i + 1..];
      NonEmptyConcat(filters[..i + 1], filters[i + 1..]);
    }
  }

  /** A non-empty filter follows the non-empty filters before it in the non-empty filters of the whole. */
  lemma NonEmptyNext(filters: seq<string>, i: nat)
    requires i < |filters| && filters[i] != ""
    ensures var done := NonEmpty(filters[..i]);
      |done| < |NonEmpty(filters)| && NonEmpty(filters)[..|done|] == done && NonEmpty(filters)[|done|] == filters[i]
  {
    NonEmptyStep(filters, i);
    assert filters == filters[..i + 1] + filters[i + 1..];
    NonEmptyConcat(filters[..i + 1], filters[i + 1..]);
    var done := NonEmpty(filters[..i]);
    assert NonEmpty(filters)[..|done| + 1] == done + [filters[i]];
  }

  /** A filter that raises after every earlier filter was built is the first to raise. */
  lemma FirstFailingAfter(fs: seq<string>, done: seq<string>, query: seq<string>, first: Option<Record>,
                          table: string, cache: map<string, string>, parent: Parent, e: Error)
    requires |done| < |fs| && fs[..|done|] == done
    requires |query| == |done| && forall k :: 0 <= k < |query| ==> Builds(done[k], first, table, cache, query[k])
    requires ClauseOutcome(fs[|done|], first, table, cache, parent) == Failure(e)
    ensures FirstFailing(fs, |done|, first, table, cache, parent, e)
  {
    forall j | 0 <= j < |done| ensures Passes(fs[j], first, table, cache, parent) {
      assert fs[j] == done[j];
      BuildsPasses(done[j], first, table, cache, query[j], parent);
    }
  }

  /** When the first filter fails its checks, it is the one that raises. */
  lemma FirstCheckRaisesFirst(fs: seq<string>, i: int, first: Option<Record>, table: string,
                              cache: map<string, string>, parent: Parent, e: Error)
    requires FirstFailing(fs, i, first, table, cache, parent, e)
    ensures Check(fs[0], first).Failure? ==> i == 0 && e == Check(fs[0], first).error
  {
  }

  /** Filters that all yield clauses keep doing so as the cache grows. */
  lemma AllPassStable(fs: seq<string>, first: Option<Record>, table: string, before: map<string, string>,
                      after: map<string, string>, parent: Parent)
    requires Extends(before, after) && AllPass(fs, first, table, before, parent)
    ensures AllPass(fs, first, table, after, parent)
  {
    forall i | 0 <= i < |fs| ensures Passes(fs[i], first, table, after, parent) {
      PassesStable(fs[i], first, table, before, after, parent);
    }
  }

  lemma {:induction false} NonEmptyConcat(a: seq<string>, b: seq<string>)
    ensures NonEmpty(a + b) == NonEmpty(a) + NonEmpty(b)
    decreases |b|
  {
    if b == [] {
      assert a + b == a;
    } else {
      var init := b[..|b| - 1];
      NonEmptyConcat(a, init);
      assert (a + b)[..|a + b| - 1] == a + init;
    }
  }

  /** One record wrapped as a row of its table. */
  class TableRow {
    const snow: ServiceNow
    const table: string
    var keys: seq<string>
    var data: Record

    ghost predicate Valid()
      reads this
    {
      Enumerates(keys, data)
    }

    constructor (parent: Table, keys: seq<string>, data: Record)
      requires Enumerates(keys, data)
      ensures Valid()
      ensures snow == parent.snow && table == parent.table
      ensures this.keys == keys && this.data == data
    {
      snow := parent.snow;
      table := parent.table;
      this.keys := keys;
      this.data := data;
    }

    /** Every field outside `skip` is read without raising, given the cache. */
    ghost predicate AllRead(skip: set<string>, cache: map<string, string>, parent: Parent)
      reads this
    {
      forall k :: k in data && k !in skip ==> Attempt(Lookup(k), cache, parent).Success?
    }

    /**
     * `keys[i]` is the first field outside `skip` whose lookup raises `e` with
     * the cache as it is: every field iterated before it resolves.
     */
    ghost predicate FirstRaise(i: int, skip: set<string>, cache: map<string, string>, parent: Parent, e: Error)
      reads this
    {
      && 0 <= i < |keys| && keys[i] !in skip
      && Attempt(Lookup(keys[i]), cache, parent) == Failure(e)
      && forall j :: 0 <= j < i && keys[j] !in skip ==> Resolved(Lookup(keys[j]), cache).Some?
    }

    /** Reading without raising survives a growing cache. */
    lemma AllReadStable(skip: set<string>, before: map<string, string>, after: map<string, string>, parent: Parent)
      requires Extends(before, after) && AllRead(skip, before, parent)
      ensures AllRead(skip, after, parent)
    {
      forall k | k in data && k !in skip ensures Attempt(Lookup(k), after, parent).Success? {
        AttemptStable(Lookup(k), before, after, parent);
      }
    }

    /** The field that raises after every earlier field was read into `params` is the first to raise. */
    lemma RaiseAfterReads(i: int, skip: set<string>, cache: map<string, string>, parent: Parent, e: Error, params: Record)
      requires 0 <= i < |keys| && keys[i] !in skip && Attempt(Lookup(keys[i]), cache, parent) == Failure(e)
      requires params.Keys == ReadBefore(i, skip)
      requires forall k :: k in params ==> Resolved(Lookup(k), cache) == Some(params[k])
      ensures FirstRaise(i, skip, cache, parent, e)
    {
      forall j | 0 <= j < i && keys[j] !in skip ensures Resolved(Lookup(keys[j]), cache).Some? {
        assert keys[j] in params;
      }
    }

    /** The fields outside `skip` among the first `i` the row iterates. */
    ghost function ReadBefore(i: nat, skip: set<string>): set<string>
      reads this
      requires i <= |keys|
    {
      set j | 0 <= j < i && keys[j] !in skip :: keys[j]
    }

    lemma ReadBeforeNext(i: nat, skip: set<string>)
      requires i < |keys|
      ensures ReadBefore(i + 1, skip) == ReadBefore(i, skip) + (if keys[i] in skip then {} else {keys[i]})
    {
    }

    /** One more field read keeps what the loop of `ReadFields` knows about the fields read so far. */
    lemma ReadStep(i: nat, skip: set<string>, parent: Parent, start: map<string, string>,
                   before: map<string, string>, after: map<string, string>, params: Record, value: Json)
      requires i < |keys| && keys[i] !in skip
      requires Extends(start, before) && Extends(before, after)
      requires params.Keys == ReadBefore(i, skip)
      requires ReadBefore(i + 1, skip) == ReadBefore(i, skip) + {keys[i]}
      requires forall k :: k in params ==> Resolved(Lookup(k), before) == Some(params[k])
      requires Resolved(Lookup(keys[i]), after) == Some(value)
      requires AllRead(skip, start, parent) ==> AllRead(skip, before, parent)
      requires AddedBy(start, before, parent.sysidToValue) && AddedBy(before, after, parent.sysidToValue)
      ensures params[keys[i] := value].Keys == ReadBefore(i + 1, skip)
      ensures forall k :: k in params[keys[i] := value] ==> Resolved(Lookup(k), after) == Some(params[keys[i] := value][k])
      ensures Extends(start, after)
      ensures AllRead(skip, start, parent) ==> AllRead(skip, after, parent)
      ensures AddedBy(start, after, parent.sysidToValue)
    {
      AddedByTrans(start, before, after, parent.sysidToValue);
      forall k | k in params ensures Resolved(Lookup(k), after) == Some(params[k]) {
        ResolvedStable(Lookup(k), before, after);
      }
      if AllRead(skip, start, parent) {
        AllReadStable(skip, before, after, parent);
      }
    }

    /** Once the iteration is over, the fields read are all fields outside `skip`. */
    lemma ReadBeforeAll(skip: set<string>)
      requires Valid()
      ensures ReadBefore(|keys|, skip) == data.Keys - skip
    {
    }

    /** `len(row)`: the number of fields the row iterates over. */
    function Len(): (n: nat)
      reads this
      requires Valid()
      ensures n == |keys|
      ensures n == 0 <==> data == map[]
    {
      EnumeratedSize(keys, data);
      if data != map[] then |data| else 0
    }

    /** `key in row`: a field the row iterates over. */
    predicate Contains(key: string)
      reads this
      requires Valid()
      ensures Contains(key) <==> key in keys
    {
      key in data
    }

    /**
     * `row[name]` up to the reference lookup: a missing field raises, a plain
     * value is answered, a dict answers its `display_value`, then `sys_domain`
     * answers its `value`, a dict without `link` answers None, and otherwise
     * the link's last two segments are looked up.
     */
    function Lookup(name: string): (l: FieldLookup)
      reads this
      ensures name !in data <==> l == Raised(KeyError(name))
      ensures name in data && !data[name].Obj? ==> l == Plain(data[name])
      ensures name in data && data[name].Obj? && "display_value" in data[name].fields
        ==> l == Plain(data[name].fields["display_value"])
      ensures l.Reference? <==>
        && name in data && data[name].Obj? && name != "sys_domain"
        && var fields := data[name].fields;
        && "display_value" !in fields && "link" in fields
        && fields["link"].Str? && '/' in fields["link"].s
      ensures l.Reference? ==> (l.table, l.sysid) == LinkParts(data[name].fields["link"]).value
      ensures name in data && data[name].Obj? && "display_value" !in data[name].fields && name == "sys_domain" ==>
        var fields := data[name].fields;
        l == if "value" in fields then Plain(fields["value"]) else Raised(KeyError("value"))
      ensures name in data && data[name].Obj? && "display_value" !in data[name].fields && name != "sys_domain" ==>
        var fields := data[name].fields;
        && ("link" !in fields ==> l == Plain(Null))
        && ("link" in fields && LinkParts(fields["link"]).Failure? ==> l == Raised(LinkParts(fields["link"]).error))
    {
      if name !in data then Raised(KeyError(name))
      else match data[name]
        case Obj(fields) =>
          if "display_value" in fields then Plain(fields["display_value"])
          else if name == "sys_domain" then
            (if "value" in fields then Plain(fields["value"]) else Raised(KeyError("value")))
          else if "link" !in fields then Plain(Null)
          else
            (match LinkParts(fields["link"])
             case Success(parts) => Reference(parts.0, parts.1)
             case Failure(e) => Raised(e))
        case _ => Plain(data[name])
    }

    /** `row[name]`, with the reference lookup going through the cache. */
    method Get(name: string, parent: Parent) returns (r: Result<Json, Error>)
      modifies snow
      ensures Extends(old(snow.cache), snow.cache)
      ensures r == Attempt(Lookup(name), old(snow.cache), parent)
      ensures snow.cache == AfterAttempt(Lookup(name), old(snow.cache), parent)
      ensures r.Success? ==> Resolved(Lookup(name), snow.cache) == Some(r.value)
      ensures !Lookup(name).Reference? || r.Failure? ==> snow.cache == old(snow.cache)
    {
      var l := Lookup(name);
      match l {
        case Plain(v) => return Success(v);
        case Raised(e) => return Failure(e);
        case Reference(t, id) =>
          var answer := snow.SysidToValue(t, id, parent);
          if answer.Failure? {
            return Failure(answer.error);
          }
          return Success(Str(answer.value));
      }
    }

    /**
     * `row == other`: every key of `other` is a key of the row with the same
     * value, and every key of the row outside the `sys_` prefix is in `other`.
     */
    method Equals(other: Record) returns (eq: bool)
      requires Valid()
      ensures eq <==>
        && (forall k :: k in data && !StartsWith(k, "sys_") ==> k in other)
        && (forall k :: k in other ==> k in data && data[k] == other[k])
    {
      for i := 0 to |keys|
        invariant forall j :: 0 <= j < i && !StartsWith(keys[j], "sys_") ==> keys[j] in other && data[keys[j]] == other[keys[j]]
      {
        var k := keys[i];
        if StartsWith(k, "sys_") {
          continue;
        }
        if k !in other {
          return false;
        }
        if data[k] != other[k] {
          return false;
        }
      }
      var rest := other.Keys;
      while rest != {}
        invariant rest <= other.Keys
        invariant forall k :: k in other && k !in rest ==> k in data && data[k] == other[k]
        decreases |rest|
      {
        var k :| k in rest;
        if k !in data {
          return false;
        }
        if data[k] != other[k] {
          return false;
        }
        rest := rest - {k};
      }
      return true;
    }

    /**
     * `for k in row: params[k] = row[k]`, leaving out the fields in `skip`:
     * every field in iteration order, each read through the cache; the first
     * field that raises ends the loop.
     */
    method ReadFields(skip: set<string>, parent: Parent) returns (r: Result<Record, Error>)
      requires Valid()
      modifies snow
      ensures Extends(old(snow.cache), snow.cache)
      ensures AddedBy(old(snow.cache), snow.cache, parent.sysidToValue)
      ensures r.Success? ==> r.value.Keys == data.Keys - skip
      ensures r.Success? ==> forall k :: k in r.value ==> Resolved(Lookup(k), snow.cache) == Some(r.value[k])
      ensures AllRead(skip, old(snow.cache), parent) ==> r.Success?
      ensures r.Failure? ==> exists i :: FirstRaise(i, skip, snow.cache, parent, r.error)
    {
      var params: Record := map[];
      for i := 0 to |keys|
        invariant params.Keys == ReadBefore(i, skip)
        invariant forall k :: k in params ==> Resolved(Lookup(k), snow.cache) == Some(params[k])
        invariant Extends(old(snow.cache), snow.cache)
        invariant AllRead(skip, old(snow.cache), parent) ==> AllRead(skip, snow.cache, parent)
        invariant AddedBy(old(snow.cache), snow.cache, parent.sysidToValue)
      {
        var field := keys[i];
        ReadBeforeNext(i, skip);
        if field !in skip {
          ghost var before := snow.cache;
          var v := Get(field, parent);
          if v.Failure? {
            RaiseAfterReads(i, skip, snow.cache, parent, v.error, params);
            return Failure(v.error);
          }
          ReadStep(i, skip, parent, old(snow.cache), before, snow.cache, params, v.value);
          params := params[field := v.value];
        }
      }
      ReadBeforeAll(skip);
      return Success(params);
    }

    /**
     * `row[name] = value`: the named field changes (a new one goes last), then
     * every field is read back into the payload and the row is put to its
     * table under its `sys_id`.
     */
    method SetItem(name: string, value: Json, parent: Parent) returns (r: Result<Outgoing, Error>)
      requires Valid()
      modifies this, snow
      ensures Valid()
      ensures data == old(data)[name := value]
      ensures keys == if name in old(data) then old(keys) else old(keys) + [name]
      ensures Extends(old(snow.cache), snow.cache)
      ensures AddedBy(old(snow.cache), snow.cache, parent.sysidToValue)
      ensures "sys_id" !in data ==> r.Failure?
      ensures r.Success? ==> r.value == Update(table, data["sys_id"], r.value.params)
      ensures r.Success? ==> r.value.params.Keys == data.Keys
      ensures r.Success? ==> forall k :: k in r.value.params ==> Resolved(Lookup(k), snow.cache) == Some(r.value.params[k])
      ensures AllRead({}, old(snow.cache), parent) && "sys_id" in data ==> r.Success?
      ensures r.Failure? ==>
        || (exists i :: FirstRaise(i, {}, snow.cache, parent, r.error))
        || (&& "sys_id" !in data && r.error == KeyError("sys_id")
            && forall k :: k in data ==> Resolved(Lookup(k), snow.cache).Some?)
    {
      if name !in data {
        keys := keys + [name];
      }
      data := data[name := value];
      var params := ReadFields({}, parent);
      if params.Failure? {
        return Failure(params.error);
      }
      if "sys_id" !in data {
        return Failure(KeyError("sys_id"));
      }
      return Success(Update(table, data["sys_id"], params.value));
    }
  }
}
