// Decoded JSON values as the Python code handles them: truthiness, `len()`,
// iteration, `str()`, `dict.get`, item assignment on a copied dict, and the
// `a.get(k1) or a.get(k2) or ...` idiom. Dicts keep insertion order, as
// Python's do, so an object is a list of fields.

module PyValue {

  import opened Wrappers
  import opened PyText

  /** The exceptions the modelled code raises, catches or re-raises. */
  datatype Exc =
    | RequestError          // requests.exceptions.RequestException other than HTTPError
    | HttpError(status: int) // requests.exceptions.HTTPError from raise_for_status()
    | TypeError             // len() or iteration of a value that has neither, an unhashable key
    | AttributeError        // `.get` on a value that is not a dict
    | KeyError
    | ValueError(message: string)

  /** How a call ends: a value, an exception that escapes it, or (for the
      loops that page through a server) no verdict within the fuel given. */
  datatype Outcome<+T> = Done(value: T) | Raised(error: Exc) | OutOfFuel

  datatype Json =
    | Null
    | Bool(b: bool)
    | Int(i: int)
    | Str(s: string)
    | List(items: seq<Json>)
    | Object(fields: seq<Field>)

  datatype Field = Field(key: string, value: Json)

  /** Python truthiness: None, False, 0, "", [] and {} are false. */
  predicate Truthy(j: Json)
  {
    match j
    case Null => false
    case Bool(b) => b
    case Int(i) => i != 0
    case Str(s) => s != []
    case List(xs) => xs != []
    case Object(fs) => fs != []
  }

  /** `x or y` on two values. */
  function Or(x: Json, y: Json): Json
  {
    if Truthy(x) then x else y
  }

  /** What `for x in j` visits: list elements, the characters of a string,
      the keys of a dict; `None` where Python raises TypeError. */
  function Iter(j: Json): Option<seq<Json>>
  {
    match j
    case List(xs) => Some(xs)
    case Str(s) => Some(seq(|s|, i requires 0 <= i < |s| => Str([s[i]])))
    case Object(fs) => Some(seq(|fs|, i requires 0 <= i < |fs| => Str(fs[i].key)))
    case _ => None
  }

  /** `len(j)`; `None` where Python raises TypeError. */
  function Len(j: Json): (r: Option<nat>)
    ensures r.Some? <==> Iter(j).Some?
    ensures r.Some? ==> r.value == |Iter(j).value|
    ensures r.Some? ==> (Truthy(j) <==> r.value > 0)
  {
    match j
    case List(xs) => Some(|xs|)
    case Str(s) => Some(|s|)
    case Object(fs) => Some(|fs|)
    case _ => None
  }

  /** Whether `j` can be a dict key (lists and dicts cannot). */
  predicate Hashable(j: Json)
  {
    !j.List? && !j.Object?
  }

  // ---------------------------------------------------------------------------
  // Dicts

  /** `d[k]` if present. A decoded JSON object has distinct keys; the first
      field with the key is the one read. */
  function Lookup(fields: seq<Field>, k: string): (r: Option<Json>)
    ensures r.Some? <==> exists i :: 0 <= i < |fields| && fields[i].key == k
    ensures r.Some? ==> exists i :: 0 <= i < |fields| && fields[i] == Field(k, r.value)
  {
    if fields == [] then None
    else if fields[0].key == k then Some(fields[0].value)
    else Lookup(fields[1..], k)
  }

  /** `k in d`. */
  predicate Has(fields: seq<Field>, k: string)
  {
    Lookup(fields, k).Some?
  }

  /** `d.get(k, default)`. */
  function Get(fields: seq<Field>, k: string, default: Json): Json
  {
    match Lookup(fields, k)
    case Some(v) => v
    case None => default
  }

  /** `d[k] = v` on a dict: an existing key keeps its place, a new key goes last. */
  function Put(fields: seq<Field>, k: string, v: Json): (r: seq<Field>)
    ensures Lookup(r, k) == Some(v)
    ensures forall k' :: k' != k ==> Lookup(r, k') == Lookup(fields, k')
    ensures |r| == if Has(fields, k) then |fields| else |fields| + 1
  {
    if fields == [] then [Field(k, v)]
    else if fields[0].key == k then [Field(k, v)] + fields[1..]
    else [fields[0]] + Put(fields[1..], k, v)
  }

  /** Assigning a key the value it already holds leaves the dict as it was. */
  lemma {:induction false} PutSame(fields: seq<Field>, k: string, v: Json)
    requires Lookup(fields, k) == Some(v)
    ensures Put(fields, k, v) == fields
  {
    if fields[0].key != k {
      PutSame(fields[1..], k, v);
    }
  }

  /** Four assignments to distinct keys: each key holds its value and every
      other key keeps the one it had. */
  lemma PutFour(fields: seq<Field>, a: string, va: Json, b: string, vb: Json,
                c: string, vc: Json, d: string, vd: Json)
    requires a != b && a != c && a != d && b != c && b != d && c != d
    ensures var r := Put(Put(Put(Put(fields, a, va), b, vb), c, vc), d, vd);
            Lookup(r, a) == Some(va) && Lookup(r, b) == Some(vb) &&
            Lookup(r, c) == Some(vc) && Lookup(r, d) == Some(vd) &&
            forall k :: k != a && k != b && k != c && k != d ==> Lookup(r, k) == Lookup(fields, k)
  {
    var f1 := Put(fields, a, va);
    var f2 := Put(f1, b, vb);
    var f3 := Put(f2, c, vc);
    var f4 := Put(f3, d, vd);
    assert Lookup(f4, c) == Lookup(f3, c);
    assert Lookup(f4, b) == Lookup(f3, b) == Lookup(f2, b);
    assert Lookup(f4, a) == Lookup(f3, a) == Lookup(f2, a) == Lookup(f1, a);
    forall k | k != a && k != b && k != c && k != d ensures Lookup(f4, k) == Lookup(fields, k) {
      assert Lookup(f4, k) == Lookup(f3, k) == Lookup(f2, k) == Lookup(f1, k);
    }
  }

  /** `d.get(keys[0]) or d.get(keys[1]) or ... or d.get(keys[n-1])`: the first
      truthy value, or else the value read for the last key. */
  function FirstTruthy(fields: seq<Field>, keys: seq<string>): (r: Json)
    requires |keys| > 0
    ensures Truthy(r) <==> exists i :: 0 <= i < |keys| && Truthy(Get(fields, keys[i], Null))
    ensures Truthy(r) ==> exists i :: 0 <= i < |keys| && r == Get(fields, keys[i], Null)
                            && forall j :: 0 <= j < i ==> !Truthy(Get(fields, keys[j], Null))
    ensures !Truthy(r) ==> r == Get(fields, keys[|keys| - 1], Null)
  {
    var v := Get(fields, keys[0], Null);
    if |keys| == 1 || Truthy(v) then v
    else
      var r := FirstTruthy(fields, keys[1..]);
      assert forall i :: 1 <= i < |keys| ==> keys[i] == keys[1..][i - 1];
      r
  }

  /** When the first key's value is truthy, `or` stops there. */
  lemma FirstTruthyHead(fields: seq<Field>, keys: seq<string>)
    requires |keys| > 0 && Truthy(Get(fields, keys[0], Null))
    ensures FirstTruthy(fields, keys) == Get(fields, keys[0], Null)
  {
  }

  // ---------------------------------------------------------------------------
  // str()

  function DigitChar(d: nat): char
    requires d < 10
  {
    "0123456789"[d]
  }

  predicate IsDigit(c: char)
  {
    '0' <= c <= '9'
  }

  /** The decimal digits of a natural number. */
  function NatText(n: nat): (r: string)
    ensures |r| > 0
    ensures forall i :: 0 <= i < |r| ==> IsDigit(r[i])
  {
    if n < 10 then [DigitChar(n)] else NatText(n / 10) + [DigitChar(n % 10)]
  }

  /** `str(n)` for an int. */
  function IntText(n: int): (r: string)
  {
    if n < 0 then "-" + NatText(-n) else NatText(n)
  }

  /** `repr(j)`. Strings are shown in single quotes, without the escaping
      Python adds for quotes and control characters. */
  function Repr(j: Json): (r: string)
    ensures |r| > 0 && !IsSpace(r[0]) && !IsSpace(r[|r| - 1])
  {
    match j
    case Null => "None"
    case Bool(b) => if b then "True" else "False"
    case Int(i) =>
      var t := IntText(i);
      assert IsDigit(t[|t| - 1]);
      t
    case Str(s) => "'" + s + "'"
    case List(xs) => "[" + ReprItems(xs) + "]"
    case Object(fs) => "{" + ReprFields(fs) + "}"
  }

  function ReprItems(xs: seq<Json>): string
    decreases xs
  {
    if xs == [] then ""
    else if |xs| == 1 then Repr(xs[0])
    else Repr(xs[0]) + ", " + ReprItems(xs[1..])
  }

  function ReprFields(fs: seq<Field>): string
    decreases fs
  {
    if fs == [] then ""
    else
      var one := "'" + fs[0].key + "': " + Repr(fs[0].value);
      if |fs| == 1 then one else one + ", " + ReprFields(fs[1..])
  }

  /** `str(j)`: a string is itself; anything else is its repr, which is
      never empty and never starts or ends with whitespace. */
  function PyStr(j: Json): (r: string)
    ensures j.Str? ==> r == j.s
    ensures !j.Str? ==> |r| > 0 && !IsSpace(r[0]) && !IsSpace(r[|r| - 1])
  {
    if j.Str? then j.s else Repr(j)
  }

  /** Every value but a blank string has a non-blank `str()`. */
  lemma StrippedStrNonEmpty(j: Json)
    requires !j.Str?
    ensures Strip(PyStr(j)) == PyStr(j) && PyStr(j) != []
  {
    var r := PyStr(j);
    assert LStrip(r) == r;
    assert RStrip(r) == r;
  }
}
