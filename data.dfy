/**
 * Python values the client passes around: decoded JSON, keyword-argument values,
 * ordered keyword-argument dictionaries, and the exceptions the code can raise.
 */
module Data {
  import opened Text

  /** A value produced by `json.loads` (floating-point numbers are not modelled). */
  datatype Json =
    | Null
    | Bool(b: bool)
    | Int(i: int)
    | Str(s: string)
    | Arr(items: seq<Json>)
    | Obj(fields: map<string, Json>)

  /** Python truthiness of a decoded value (`if params:`). */
  predicate Truthy(j: Json) {
    match j
    case Null => false
    case Bool(b) => b
    case Int(i) => i != 0
    case Str(s) => s != ""
    case Arr(items) => items != []
    case Obj(fields) => fields != map[]
  }

  /** The value of one keyword argument. */
  datatype Arg = NoneArg | StrArg(s: string) | BoolArg(b: bool) | IntArg(i: int)

  /** Python's `'%s' % v`. */
  function Format(a: Arg): string {
    match a
    case NoneArg => "None"
    case StrArg(s) => s
    case BoolArg(b) => if b then "True" else "False"
    case IntArg(i) => IntToString(i)
  }

  /** A `**kwargs` dictionary, in insertion order. */
  type Kwargs = seq<(string, Arg)>

  /** `k in kwargs`. */
  predicate HasKey(kw: Kwargs, k: string) {
    kw != [] && (kw[0].0 == k || HasKey(kw[1..], k))
  }

  /** `kwargs[k]`. */
  function Lookup(kw: Kwargs, k: string): (v: Arg)
    requires HasKey(kw, k)
  {
    if kw[0].0 == k then kw[0].1 else Lookup(kw[1..], k)
  }

  /** `del kwargs[k]`: the entry leaves, the others keep their order. */
  function Remove(kw: Kwargs, k: string): (r: Kwargs)
    ensures |r| <= |kw|
    ensures !HasKey(r, k)
    ensures forall j :: j != k ==> (HasKey(r, j) <==> HasKey(kw, j))
    ensures forall j :: j != k && HasKey(kw, j) ==> Lookup(r, j) == Lookup(kw, j)
  {
    if kw == [] then []
    else if kw[0].0 == k then Remove(kw[1..], k)
    else [kw[0]] + Remove(kw[1..], k)
  }

  /** `kwargs[k] = v`: an existing entry keeps its place, a new one goes last. */
  function Assign(kw: Kwargs, k: string, v: Arg): (r: Kwargs)
    ensures HasKey(r, k) && Lookup(r, k) == v
    ensures forall j :: j != k ==> (HasKey(r, j) <==> HasKey(kw, j))
    ensures forall j :: j != k && HasKey(kw, j) ==> Lookup(r, j) == Lookup(kw, j)
    ensures |r| == if HasKey(kw, k) then |kw| else |kw| + 1
    ensures forall i :: 0 <= i < |kw| ==> r[i].0 == kw[i].0 && (kw[i].0 != k ==> r[i].1 == kw[i].1)
  {
    if kw == [] then [(k, v)]
    else if kw[0].0 == k then [(k, v)] + kw[1..]
    else [kw[0]] + Assign(kw[1..], k, v)
  }

  /**
   * Deleting distributes over concatenation, so the remaining arguments keep
   * their order.  With the contract of `Remove` on a single argument this
   * determines `Remove` completely.
   */
  lemma {:induction false} RemoveConcat(a: Kwargs, b: Kwargs, k: string)
    ensures Remove(a + b, k) == Remove(a, k) + Remove(b, k)
    decreases |a|
  {
    if a == [] {
      assert a + b == b;
    } else {
      assert (a + b)[1..] == a[1..] + b;
      assert (a + b)[0] == a[0];
      RemoveConcat(a[1..], b, k);
      if a[0].0 != k {
        assert Remove(a + b, k) == [a[0]] + (Remove(a[1..], k) + Remove(b, k));
      }
    }
  }

  /** Deleting a key that is not there changes nothing. */
  lemma {:induction false} RemoveAbsent(kw: Kwargs, k: string)
    requires !HasKey(kw, k)
    ensures Remove(kw, k) == kw
  {
    if kw != [] {
      RemoveAbsent(kw[1..], k);
      assert kw == [kw[0]] + kw[1..];
    }
  }

  /** Assigning a key that is not there appends it: the new argument comes last. */
  lemma {:induction false} AssignAppends(kw: Kwargs, k: string, v: Arg)
    requires !HasKey(kw, k)
    ensures Assign(kw, k, v) == kw + [(k, v)]
  {
    if kw != [] {
      AssignAppends(kw[1..], k, v);
      assert kw == [kw[0]] + kw[1..];
    }
  }

  /**
   * Some keyword argument of a call names a parameter the callee binds
   * itself (`self`, `path`, `status_codes`, ...): Python refuses the call
   * with TypeError ("got multiple values for argument") before the body runs.
   */
  predicate Clashes(kw: Kwargs, named: set<string>) {
    kw != [] && (kw[0].0 in named || Clashes(kw[1..], named))
  }

  /** A call clashes exactly when one of its keyword arguments is one of the bound names. */
  lemma {:induction false} ClashesExactly(kw: Kwargs, named: set<string>)
    ensures Clashes(kw, named) <==> exists n :: n in named && HasKey(kw, n)
    decreases |kw|
  {
    if kw != [] {
      ClashesExactly(kw[1..], named);
      if kw[0].0 in named {
        assert HasKey(kw, kw[0].0);
      } else if Clashes(kw[1..], named) {
        var n :| n in named && HasKey(kw[1..], n);
        assert HasKey(kw, n);
      } else {
        forall n | n in named ensures !HasKey(kw, n) {
          assert !HasKey(kw[1..], n);
        }
      }
    }
  }

  /** The exceptions the modelled code raises. */
  datatype Error =
    | KeyError(key: string)
    | TypeError
    | IndexError
    | AttributeError(attribute: string)
    | ValueError(message: string)
    /** servicenow.HTTPError */
    | HttpError(url: string, code: int, message: string)
    /** servicenow.DecodeError */
    | DecodeError(text: string)
    /** Whatever the parent class's reference lookup raises. */
    | LookupFailed(message: string)
}
