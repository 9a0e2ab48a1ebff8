// Application configuration: the dotted-key lookup into Streamlit's secrets,
// and the URLs and headers derived from the configured base URL and token.

module Config {

  import opened Wrappers
  import opened PyText
  import opened PyValue
  import opened Http

  /** The two values the dashboard reads from its secrets at start-up. */
  datatype AppConfig = AppConfig(token: string, baseUrl: string)

  // ---------------------------------------------------------------------------
  // Secret lookup

  /** One step of the walk down a dotted key: a map is indexed (a missing key
      and a stored null both end the walk), anything else ends it. */
  function Walk(v: Json, keys: seq<string>): (r: Option<Json>)
    ensures keys == [] ==> r == Some(v)
    ensures keys != [] && r.Some? ==> r.value != Null
  {
    if keys == [] then Some(v)
    else if !v.Object? then None
    else match Lookup(v.fields, keys[0])
      case None => None
      case Some(w) => if w == Null then None else Walk(w, keys[1..])
  }

  /** Walking `a + b` is walking `a`, then walking `b` from where `a` ended. */
  lemma {:induction false} WalkConcat(v: Json, a: seq<string>, b: seq<string>)
    ensures Walk(v, a + b) == match Walk(v, a) case None => None case Some(w) => Walk(w, b)
  {
    if a != [] {
      assert (a + b)[0] == a[0];
      assert (a + b)[1..] == a[1..] + b;
      if v.Object? {
        match Lookup(v.fields, a[0])
        case None =>
        case Some(w) =>
          if w != Null {
            WalkConcat(w, a[1..], b);
          }
      }
    } else {
      assert a + b == b;
    }
  }

  /** The nested maps in which `keys` leads to `v`. */
  function Nest(keys: seq<string>, v: Json): Json
  {
    if keys == [] then v else Object([Field(keys[0], Nest(keys[1..], v))])
  }

  /** Every non-null value can be reached through the keys it is nested under. */
  lemma {:induction false} WalkNest(keys: seq<string>, v: Json)
    requires v != Null
    ensures Walk(Nest(keys, v), keys) == Some(v)
  {
    if keys != [] {
      WalkNest(keys[1..], v);
    }
  }

  /** A stripped value loses one character at each end when both ends are the
      same quote character; a lone quote character leaves nothing. */
  predicate Quoted(s: string)
  {
    |s| > 0 && ((s[0] == '"' && s[|s| - 1] == '"') || (s[0] == '\'' && s[|s| - 1] == '\''))
  }

  function Unquote(s: string): (r: string)
    ensures !Quoted(s) ==> r == s
    ensures Quoted(s) && |s| == 1 ==> r == []
    ensures Quoted(s) && |s| >= 2 ==> s == [s[0]] + r + [s[|s| - 1]]
  {
    if Quoted(s) then (if |s| >= 2 then s[1..|s| - 1] else []) else s
  }

  /** Quoting a text with either quote character and unquoting it gives it back. */
  lemma UnquoteQuote(q: char, t: string)
    requires q == '"' || q == '\''
    ensures Unquote([q] + t + [q]) == t
  {
    var s := [q] + t + [q];
    assert s[1..|s| - 1] == t;
  }

  /** What a found value turns into: a string is stripped and unquoted,
      anything else is converted with `str()`. */
  function Rendered(v: Json): string
  {
    if v.Str? then Unquote(Strip(v.s)) else PyStr(v)
  }

  /** The value `_get_secret_value(key, default)` returns. `secrets` is `None`
      when reading Streamlit's secrets raises. */
  function SecretSpec(key: string, default: string, hasStreamlit: bool, secrets: Option<Json>): string
  {
    if !hasStreamlit || secrets.None? then default
    else match Walk(secrets.value, Split(key, "."))
      case None => default
      case Some(v) => Rendered(v)
  }

  /** The walk of `_get_secret_value`, one dotted segment per iteration. */
  method SecretValue(key: string, default: string, hasStreamlit: bool, secrets: Option<Json>)
    returns (r: string)
    ensures r == SecretSpec(key, default, hasStreamlit, secrets)
  {
    if !hasStreamlit {
      return default;
    }
    if secrets.None? {
      return default;
    }
    var keys := Split(key, ".");
    var value := secrets.value;
    for i := 0 to |keys|
      invariant Walk(secrets.value, keys) == Walk(value, keys[i..])
    {
      if value.Object? {
        value := Get(value.fields, keys[i], Null);
      } else {
        return default;
      }
      if value == Null {
        return default;
      }
    }
    if value.Str? {
      var s := Strip(value.s);
      r := Unquote(s);
    } else {
      r := PyStr(value);
    }
  }

  /** A secret stored under the nested maps its dotted key names is found, and
      a string secret comes back stripped and unquoted. */
  lemma SecretFound(key: string, default: string, v: Json)
    requires v != Null
    ensures SecretSpec(key, default, true, Some(Nest(Split(key, "."), v))) == Rendered(v)
  {
    WalkNest(Split(key, "."), v);
  }

  /** Without Streamlit, or when the secrets cannot be read, the default is used. */
  lemma SecretDefault(key: string, default: string, hasStreamlit: bool, secrets: Option<Json>)
    requires !hasStreamlit || secrets.None?
    ensures SecretSpec(key, default, hasStreamlit, secrets) == default
  {
  }

  /** A segment that is missing, null, or below a value that is not a map
      yields the default. */
  lemma {:induction false} SecretMissing(key: string, default: string, root: Json, i: nat)
    requires i < |Split(key, ".")|
    requires var keys := Split(key, ".");
             match Walk(root, keys[..i])
             case None => true
             case Some(w) => !w.Object? || Get(w.fields, keys[i], Null) == Null
    ensures SecretSpec(key, default, true, Some(root)) == default
  {
    var keys := Split(key, ".");
    assert keys == keys[..i] + keys[i..];
    WalkConcat(root, keys[..i], keys[i..]);
  }

  // ---------------------------------------------------------------------------
  // Derived URLs and headers

  function PhoneNumbersUrl(c: AppConfig): (r: string)
    ensures StartsWith(r, c.baseUrl) && EndsWith(r, "?show_free_phone_numbers=true")
    ensures Contains(r, "/phone-numbers")
  {
    ContainsMiddle(c.baseUrl, "/phone-numbers", "?show_free_phone_numbers=true");
    c.baseUrl + "/phone-numbers" + "?show_free_phone_numbers=true"
  }

  function EndpointsUrl(c: AppConfig): (r: string)
    ensures StartsWith(r, c.baseUrl) && EndsWith(r, "/endpoints")
  {
    c.baseUrl + "/endpoints"
  }

  /** The headers every JSON call to the backend carries. */
  function BearerHeaders(token: string): (r: Headers)
    ensures |r| == 3
    ensures Header(r, "Authorization") == Some("Bearer " + token)
    ensures Header(r, "Accept") == Some("application/json")
    ensures Header(r, "Content-Type") == Some("application/json")
  {
    var r := [("Authorization", "Bearer " + token), ("Accept", "application/json"),
              ("Content-Type", "application/json")];
    assert Header(r[2..], "Content-Type") == Some("application/json");
    r
  }

  function GetHeaders(c: AppConfig): (r: Headers)
    ensures |r| == 3 && Header(r, "Authorization") == Some("Bearer " + c.token)
  {
    BearerHeaders(c.token)
  }
}
