/**
 * Decoded payload values, device records and the exceptions the core raises.
 *
 * A payload is what the transport's JSON decoder hands to the parsers: objects
 * keep their keys in document order (Python dicts are ordered), and a key
 * that occurs twice keeps the last value. A device record is the flat
 * string-keyed dict a device reads; its field order is never observed, so it
 * is a map. Command parameters are ordered dicts whose order is the order
 * the request sends them in.
 */
module Json {
  import opened Wrappers
  import opened Text

  datatype Value =
    | Str(s: string)
    | Int(i: int)
    | Bool(b: bool)
    | Null
    | Object(fields: seq<(string, Value)>)
    | Array(items: seq<Value>)

  /** A device's data dict. */
  type Record = map<string, Value>

  /** An ordered dict of command parameters. */
  type Params = seq<(string, Value)>

  /**
   * The exceptions raised by the classifier, the devices and the system.
   * The first six are the library's own exception classes; the others are
   * the Python built-in errors that the code lets escape when a record or a
   * payload lacks a field or holds a value of an unexpected type.
   */
  datatype Fault =
    | NotSupported              // AqualinkDeviceNotSupported: the reconciler skips the record
    | InvalidParameter          // AqualinkInvalidParameterException: a command argument out of range
    | OperationNotSupported     // AqualinkOperationNotSupportedException: a capability the device lacks
    | NotImplemented            // NotImplementedError raised by a base-class member
    | SystemOffline             // AqualinkSystemOfflineException: the controller reports "Offline"
    | ServiceFailure            // AqualinkServiceException raised by the transport
    | KeyError(key: Value)      // a subscript on a missing key
    | IndexError                // a subscript past the end of a list or string
    | TypeError                 // an operation on a value of the wrong type
    | ValueError                // a conversion of a malformed value (int(), an enum lookup)
    | AttributeError(attr: string)  // a member the value or the device class does not have
    | StopIteration             // next(iter(x)) on an empty object
    | RecursionError            // a thermostat whose chain of heater siblings never ends

  /** Python truthiness: empty strings, zero, False, None and empty containers are false. */
  predicate Truthy(v: Value) {
    match v
    case Str(s) => s != ""
    case Int(i) => i != 0
    case Bool(b) => b
    case Null => false
    case Object(fields) => fields != []
    case Array(items) => items != []
  }

  /** The value an object or a dict literal holds under key k: the last occurrence wins. */
  function Lookup<V>(fields: seq<(string, V)>, k: string): (r: Option<V>)
    ensures r.Some? <==> exists i :: 0 <= i < |fields| && fields[i].0 == k
    ensures r.Some? ==> exists i :: 0 <= i < |fields| && fields[i] == (k, r.value)
  {
    if fields == [] then None
    else if fields[|fields| - 1].0 == k then Some(fields[|fields| - 1].1)
    else Lookup(fields[..|fields| - 1], k)
  }

  /** A key no later entry repeats reads back the value stored with it. */
  lemma {:induction false} LookupAt<V>(fields: seq<(string, V)>, i: nat)
    requires i < |fields| && forall j :: i < j < |fields| ==> fields[j].0 != fields[i].0
    ensures Lookup(fields, fields[i].0) == Some(fields[i].1)
    decreases |fields|
  {
    if i < |fields| - 1 {
      LookupAt(fields[..|fields| - 1], i);
    }
  }

  /** dict(obj): the record an object converts to. */
  function ToRecord(fields: seq<(string, Value)>): (r: Record)
    ensures forall k :: k in r <==> Lookup(fields, k).Some?
    ensures forall k :: k in r ==> r[k] == Lookup(fields, k).value
  {
    if fields == [] then map[]
    else ToRecord(fields[..|fields| - 1])[fields[|fields| - 1].0 := fields[|fields| - 1].1]
  }

  /** d[k] on a record */
  function Field(d: Record, k: string): (r: Result<Value, Fault>)
    ensures r.Ok? <==> k in d
    ensures r.Ok? ==> r.value == d[k]
    ensures r.Err? ==> r.error == KeyError(Str(k))
  {
    if k in d then Ok(d[k]) else Err(KeyError(Str(k)))
  }

  /** d.get(k, default) on a record */
  function Get(d: Record, k: string, default: Value): (r: Value)
    ensures k in d ==> r == d[k]
    ensures k !in d ==> r == default
  {
    if k in d then d[k] else default
  }

  /** v[k] on a payload value: only objects accept a string subscript. */
  function Member(v: Value, k: string): (r: Result<Value, Fault>)
    ensures r.Ok? <==> v.Object? && Lookup(v.fields, k).Some?
    ensures r.Ok? ==> r.value == Lookup(v.fields, k).value
  {
    match v
    case Object(fields) => if Lookup(fields, k).Some? then Ok(Lookup(fields, k).value) else Err(KeyError(Str(k)))
    case _ => Err(TypeError)
  }

  /** v[i] on a payload value: a list or a string accepts an index, an object looks the number up as a key. */
  function Item(v: Value, i: nat): (r: Result<Value, Fault>)
    ensures r.Ok? <==> (v.Array? && i < |v.items|) || (v.Str? && i < |v.s|)
    ensures r.Ok? && v.Array? ==> r.value == v.items[i]
  {
    match v
    case Array(items) => if i < |items| then Ok(items[i]) else Err(IndexError)
    case Str(s) => if i < |s| then Ok(Str([s[i]])) else Err(IndexError)
    case Object(_) => Err(KeyError(Int(i)))
    case _ => Err(TypeError)
  }

  /** The elements of v[from:] when iterated: a list's items, a string's characters. */
  function Slice(v: Value, from: nat): (r: Result<seq<Value>, Fault>)
    ensures r.Ok? <==> v.Array? || v.Str?
    ensures v.Array? ==> r == Ok(if from <= |v.items| then v.items[from..] else [])
    ensures v.Str? ==> |r.value| == if from <= |v.s| then |v.s| - from else 0
  {
    match v
    case Array(items) => Ok(if from <= |items| then items[from..] else [])
    case Str(s) =>
      var rest := if from <= |s| then s[from..] else "";
      Ok(seq(|rest|, i requires 0 <= i < |rest| => Str([rest[i]])))
    case _ => Err(TypeError)
  }

  /** The keys of an object in the order a dict keeps them: first occurrence first, each once. */
  function KeyOrder(fields: seq<(string, Value)>): (r: seq<string>)
    ensures forall k :: k in r <==> Lookup(fields, k).Some?
    ensures forall i, j :: 0 <= i < j < |r| ==> r[i] != r[j]
    ensures |r| <= |fields|
  {
    if fields == [] then []
    else
      var ks := KeyOrder(fields[..|fields| - 1]);
      var k := fields[|fields| - 1].0;
      if k in ks then ks else ks + [k]
  }

  /** The elements of iter(v): a list's items, a string's characters, a dict's keys. */
  function Iterate(v: Value): (r: Result<seq<Value>, Fault>)
    ensures r.Ok? <==> v.Array? || v.Str? || v.Object?
    ensures v.Array? ==> r == Ok(v.items)
    ensures v.Str? ==> |r.value| == |v.s| && forall i :: 0 <= i < |v.s| ==> r.value[i] == Str([v.s[i]])
    ensures v.Object? ==> |r.value| == |KeyOrder(v.fields)| && forall i :: 0 <= i < |r.value| ==> r.value[i] == Str(KeyOrder(v.fields)[i])
    ensures r.Err? ==> r.error == TypeError
  {
    match v
    case Array(items) => Ok(items)
    case Str(s) => Ok(seq(|s|, i requires 0 <= i < |s| => Str([s[i]])))
    case Object(fields) =>
      var ks := KeyOrder(fields);
      Ok(seq(|ks|, i requires 0 <= i < |ks| => Str(ks[i])))
    case _ => Err(TypeError)
  }

  /** (next(iter(x.keys())), next(iter(x.values()))): an object's first key and its value. */
  function FirstEntry(x: Value): (r: Result<(string, Value), Fault>)
    ensures r.Ok? <==> x.Object? && x.fields != []
    ensures r.Ok? ==> r.value.0 == x.fields[0].0 && Lookup(x.fields, r.value.0) == Some(r.value.1)
    ensures x.Object? && x.fields == [] ==> r == Err(StopIteration)
  {
    match x
    case Object(fields) =>
      if fields == [] then Err(StopIteration)
      else
        var k := fields[0].0;
        assert fields[0].0 == k;
        Ok((k, Lookup(fields, k).value))
    case _ => Err(AttributeError("keys"))
  }

  /** The Python expression `key in v` for a string key. */
  function In(key: string, v: Value): (r: Result<bool, Fault>)
    ensures v.Object? ==> r == Ok(Lookup(v.fields, key).Some?)
    ensures v.Array? ==> r == Ok(Str(key) in v.items)
    ensures v.Str? ==> r == Ok(Contains(v.s, key))
    ensures r.Err? <==> !(v.Object? || v.Array? || v.Str?)
  {
    match v
    case Object(fields) => Ok(Lookup(fields, key).Some?)
    case Array(items) => Ok(Str(key) in items)
    case Str(s) => Ok(Contains(s, key))
    case _ => Err(TypeError)
  }

  /** str(v) for a scalar, as an f-string formats it. */
  function Format(v: Value): (r: Result<string, Fault>)
    ensures v.Str? ==> r == Ok(v.s)
    ensures v.Int? ==> r == Ok(IntToStr(v.i))
    ensures r.Err? <==> v.Object? || v.Array?
  {
    match v
    case Str(s) => Ok(s)
    case Int(i) => Ok(IntToStr(i))
    case Bool(b) => Ok(if b then "True" else "False")
    case Null => Ok("None")
    case _ => Err(TypeError)
  }

  /** int(v): None stands for the ValueError or TypeError Python raises. */
  function ToInt(v: Value): (r: Option<int>)
    ensures v.Int? ==> r == Some(v.i)
    ensures v.Str? ==> r == ParseInt(v.s)
    ensures v.Null? || v.Object? || v.Array? ==> r.None?
  {
    match v
    case Str(s) => ParseInt(s)
    case Int(i) => Some(i)
    case Bool(b) => Some(if b then 1 else 0)
    case _ => None
  }

  /** The fault int(v) raises when it fails. */
  function ToIntFault(v: Value): Fault {
    if v.Str? then ValueError else TypeError
  }

  /** int(str(n)) == n on values: a number a command sends as text reads back as that number. */
  lemma ToIntOfStr(n: int)
    ensures ToInt(Str(IntToStr(n))) == Some(n)
  {
    IntRoundTrip(n);
  }

  /** Every entry under key k takes the value v; the keys keep their positions. */
  function Replace(p: Params, k: string, v: Value): (r: Params)
    ensures |r| == |p|
    ensures forall i :: 0 <= i < |p| ==> r[i].0 == p[i].0
    ensures forall k' :: k' != k ==> Lookup(r, k') == Lookup(p, k')
    ensures Lookup(r, k) == if Lookup(p, k).Some? then Some(v) else None
  {
    if p == [] then []
    else
      var last := p[|p| - 1];
      var r := Replace(p[..|p| - 1], k, v) + [if last.0 == k then (k, v) else last];
      assert r[..|r| - 1] == Replace(p[..|p| - 1], k, v);
      r
  }

  /** d[k] = v on an ordered dict: an existing key keeps its place, a new key goes last. */
  function Assign(p: Params, k: string, v: Value): (r: Params)
    ensures Lookup(r, k) == Some(v)
    ensures forall k' :: k' != k ==> Lookup(r, k') == Lookup(p, k')
    ensures Lookup(p, k).None? ==> r == p + [(k, v)]
    ensures Lookup(p, k).Some? ==> |r| == |p| && forall i :: 0 <= i < |p| ==> r[i].0 == p[i].0
  {
    if Lookup(p, k).Some? then Replace(p, k, v)
    else
      var r := p + [(k, v)];
      assert r[..|r| - 1] == p;
      r
  }

  /** p.update(q): q's values override p's, in q's order. */
  function Update(p: Params, q: Params): (r: Params)
    ensures forall k :: Lookup(r, k) == if Lookup(q, k).Some? then Lookup(q, k) else Lookup(p, k)
  {
    if q == [] then p
    else
      var last := q[|q| - 1];
      assert forall k :: k != last.0 ==> Lookup(q, k) == Lookup(q[..|q| - 1], k);
      Assign(Update(p, q[..|q| - 1]), last.0, last.1)
  }

  /** for x in xs: acc = step(acc, x) -- stopping at the first exception. */
  function Fold<A>(step: (A, Value) -> Result<A, Fault>, a: A, xs: seq<Value>): Result<A, Fault>
  {
    if xs == [] then Ok(a)
    else
      var b :- Fold(step, a, xs[..|xs| - 1]);
      step(b, xs[|xs| - 1])
  }

  /** One more element: the fold of xs[..i+1] is step applied to the fold of xs[..i]. */
  lemma FoldNext<A>(step: (A, Value) -> Result<A, Fault>, a: A, xs: seq<Value>, i: nat)
    requires i < |xs|
    ensures Fold(step, a, xs[..i + 1]) == match Fold(step, a, xs[..i]) case Ok(b) => step(b, xs[i]) case Err(e) => Err(e)
  {
    assert xs[..i + 1][..i] == xs[..i];
  }

  /** Once the fold of a prefix raised, the whole fold raises the same exception. */
  lemma {:induction false} FoldStaysFailed<A>(step: (A, Value) -> Result<A, Fault>, a: A, xs: seq<Value>, i: nat)
    requires i <= |xs| && Fold(step, a, xs[..i]).Err?
    ensures Fold(step, a, xs) == Fold(step, a, xs[..i])
    decreases |xs| - i
  {
    if i < |xs| {
      FoldNext(step, a, xs, i);
      FoldStaysFailed(step, a, xs, i + 1);
    } else {
      assert xs[..i] == xs;
    }
  }

  /** A fold whose step fails exactly on the elements ok rejects succeeds exactly when ok accepts every element. */
  lemma {:induction false} FoldOkAll<A>(step: (A, Value) -> Result<A, Fault>, ok: Value -> bool, a: A, xs: seq<Value>)
    requires forall b, x :: step(b, x).Ok? <==> ok(x)
    ensures Fold(step, a, xs).Ok? <==> forall i :: 0 <= i < |xs| ==> ok(xs[i])
  {
    if xs != [] {
      var p := xs[..|xs| - 1];
      FoldOkAll(step, ok, a, p);
      assert forall i :: 0 <= i < |p| ==> p[i] == xs[i];
    }
  }
}
