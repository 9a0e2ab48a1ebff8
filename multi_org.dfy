// Multi-organization resolution (streamlit_app/utils/multi_org_config.py):
// normalise the connections of a workspace, list the organizations by name,
// resolve an organization name to its id, list the providers of an
// organization and build the phone-numbers URL of a connection. The values the
// admin login and the org listings produce are memoised in the Streamlit
// session, which is a `Session` object here.

module MultiOrg {

  import opened Wrappers
  import opened PyText
  import opened PyValue
  import opened Http
  import OrgFetch

  // ---------------------------------------------------------------------------
  // Connection normalisation

  /** The fields tried, in order, for the id of a connection dict. */
  const NormalizeIdKeys: seq<string> := ["id", "connection_id", "connectionId", "name"]

  /** `str(conn_id).strip()` for the first truthy id field. */
  function ProvidedId(fs: seq<Field>): string
  {
    Strip(PyStr(FirstTruthy(fs, NormalizeIdKeys)))
  }

  /** `normalized_conn.get("provider") or "exotel"` stored under
      "channel_provider", only when that key is absent. */
  function WithProvider(fs: seq<Field>): seq<Field>
  {
    if Has(fs, "channel_provider") then fs
    else Put(fs, "channel_provider", Or(Get(fs, "provider", Null), Str("exotel")))
  }

  /** A dict whose first truthy id field has a non-blank `str()` is copied
      with "id", "name" and "channel_provider" settled; any other dict is
      skipped. */
  function NormalizeDict(fs: seq<Field>): Option<Json>
  {
    if Truthy(FirstTruthy(fs, NormalizeIdKeys)) && ProvidedId(fs) != [] then
      Some(Object(Settle(fs, ProvidedId(fs))))
    else None
  }

  /** What `_normalize_connections` makes of one entry: a string with a
      non-blank character becomes `{"id": s, "name": s}` unstripped, a dict
      goes through `NormalizeDict`, anything else is skipped. */
  function Normalize(conn: Json): Option<Json>
  {
    match conn
    case Str(s) =>
      if s != [] && Strip(s) != [] then Some(Object([Field("id", conn), Field("name", conn)])) else None
    case Object(fs) => NormalizeDict(fs)
    case _ => None
  }

  /** The copy `NormalizeDict` keeps, with "id" set to `id`. */
  function Settle(fs: seq<Field>, id: string): seq<Field>
  {
    WithProvider(OrgFetch.Named(fs, id))
  }

  /** "channel_provider" is the old one when there was one and otherwise the
      provider or "exotel"; every other field is as it was. */
  lemma WithProviderFields(fs: seq<Field>)
    ensures Has(fs, "channel_provider") ==> WithProvider(fs) == fs
    ensures !Has(fs, "channel_provider") ==>
              Lookup(WithProvider(fs), "channel_provider") == Some(Or(Get(fs, "provider", Null), Str("exotel")))
    ensures forall k :: k != "channel_provider" ==> Lookup(WithProvider(fs), k) == Lookup(fs, k)
  {
  }

  /** The copy holds the id, and the old name when it was truthy and the id
      otherwise. */
  lemma SettleIdName(fs: seq<Field>, id: string)
    ensures Lookup(Settle(fs, id), "id") == Some(Str(id))
    ensures Truthy(Get(fs, "name", Null)) ==> Lookup(Settle(fs, id), "name") == Lookup(fs, "name")
    ensures !Truthy(Get(fs, "name", Null)) ==> Lookup(Settle(fs, id), "name") == Some(Str(id))
  {
    var named := OrgFetch.Named(fs, id);
    OrgFetch.NamedFields(fs, id);
    WithProviderFields(named);
  }

  /** The copy holds the old channel provider when there was one and
      otherwise the provider or "exotel", and every field other than "id" and
      "name" as it was. */
  lemma SettleOthers(fs: seq<Field>, id: string)
    ensures Has(fs, "channel_provider") ==> Lookup(Settle(fs, id), "channel_provider") == Lookup(fs, "channel_provider")
    ensures !Has(fs, "channel_provider") ==>
              Lookup(Settle(fs, id), "channel_provider") == Some(Or(Get(fs, "provider", Null), Str("exotel")))
    ensures forall k :: k != "id" && k != "name" && k != "channel_provider" ==>
              Lookup(Settle(fs, id), k) == Lookup(fs, k)
  {
    var named := OrgFetch.Named(fs, id);
    OrgFetch.NamedFields(fs, id);
    WithProviderFields(named);
    assert Lookup(named, "channel_provider") == Lookup(fs, "channel_provider");
    assert Lookup(named, "provider") == Lookup(fs, "provider");
  }

  /** A dict that already has a stripped, non-blank string id, a truthy name
      and a channel provider is kept exactly as it is. */
  lemma NormalizeDictFixed(fs: seq<Field>, id: string)
    requires Lookup(fs, "id") == Some(Str(id)) && id != [] && Strip(id) == id
    requires Truthy(Get(fs, "name", Null)) && Has(fs, "channel_provider")
    ensures NormalizeDict(fs) == Some(Object(fs))
  {
    FirstTruthyHead(fs, NormalizeIdKeys);
    OrgFetch.NamedFixed(fs, id);
  }

  /** A settled copy with a stripped, non-blank id is kept as it is. */
  lemma SettleFixed(fs: seq<Field>, id: string)
    requires id != [] && Strip(id) == id
    ensures NormalizeDict(Settle(fs, id)) == Some(Object(Settle(fs, id)))
  {
    var n := Settle(fs, id);
    SettleIdName(fs, id);
    SettleOthers(fs, id);
    assert Truthy(Get(n, "name", Null));
    assert Has(n, "channel_provider");
    NormalizeDictFixed(n, id);
  }

  /** Every kept entry is a dict whose "id" is a string with a non-blank
      character. */
  lemma NormalizedIsConnection(conn: Json)
    requires Normalize(conn).Some?
    ensures OrgFetch.IsConnection(Normalize(conn).value)
  {
    if conn.Object? {
      SettleIdName(conn.fields, ProvidedId(conn.fields));
      StripIdempotent(PyStr(FirstTruthy(conn.fields, NormalizeIdKeys)));
    }
  }

  /** Normalising a connection that came from a dict again changes nothing. */
  lemma RenormalizeDict(fs: seq<Field>)
    requires NormalizeDict(fs).Some?
    ensures Normalize(NormalizeDict(fs).value) == NormalizeDict(fs)
  {
    var id := ProvidedId(fs);
    StripIdempotent(PyStr(FirstTruthy(fs, NormalizeIdKeys)));
    SettleFixed(fs, id);
    assert NormalizeDict(fs) == Some(Object(Settle(fs, id)));
  }

  /** `_normalize_connections(connections)`: the kept entries, in order. */
  function NormalizeAll(conns: seq<Json>): seq<Json>
  {
    if conns == [] then []
    else
      var last := Normalize(conns[|conns| - 1]);
      NormalizeAll(conns[..|conns| - 1]) + (if last.Some? then [last.value] else [])
  }

  /** Normalising never grows the list, and everything kept is a connection. */
  lemma {:induction false} NormalizeAllKept(conns: seq<Json>)
    ensures |NormalizeAll(conns)| <= |conns|
    ensures forall i :: 0 <= i < |NormalizeAll(conns)| ==> OrgFetch.IsConnection(NormalizeAll(conns)[i])
  {
    if conns != [] {
      NormalizeAllKept(conns[..|conns| - 1]);
      if Normalize(conns[|conns| - 1]).Some? {
        NormalizedIsConnection(conns[|conns| - 1]);
      }
    }
  }

  /** Normalising works entry by entry, so it distributes over concatenation:
      entries keep their relative order. */
  lemma {:induction false} NormalizeAllConcat(a: seq<Json>, b: seq<Json>)
    ensures NormalizeAll(a + b) == NormalizeAll(a) + NormalizeAll(b)
    decreases |b|
  {
    if b == [] {
      assert a + b == a;
    } else {
      var b' := b[..|b| - 1];
      assert (a + b)[..|a + b| - 1] == a + b';
      assert (a + b)[|a + b| - 1] == b[|b| - 1];
      NormalizeAllConcat(a, b');
    }
  }

  /** A list without bare strings is settled by one normalisation: normalising
      the result again, as the cached path does, changes nothing. */
  lemma {:induction false} NormalizeAllIdempotent(conns: seq<Json>)
    requires forall i :: 0 <= i < |conns| ==> !conns[i].Str?
    ensures NormalizeAll(NormalizeAll(conns)) == NormalizeAll(conns)
  {
    if conns != [] {
      var init := conns[..|conns| - 1];
      var last := Normalize(conns[|conns| - 1]);
      NormalizeAllIdempotent(init);
      var tail := if last.Some? then [last.value] else [];
      NormalizeAllConcat(NormalizeAll(init), tail);
      if last.Some? {
        RenormalizeDict(conns[|conns| - 1].fields);
        assert [last.value][..0] == [];
      }
    }
  }

  /** The loop of `_normalize_connections`. */
  method NormalizeConnections(conns: seq<Json>) returns (normalized: seq<Json>)
    ensures normalized == NormalizeAll(conns)
  {
    normalized := [];
    for i := 0 to |conns|
      invariant normalized == NormalizeAll(conns[..i])
    {
      assert conns[..i + 1][..i] == conns[..i];
      var kept := Normalize(conns[i]);
      if kept.Some? {
        normalized := normalized + [kept.value];
      }
    }
    assert conns[..|conns|] == conns;
  }

  // ---------------------------------------------------------------------------
  // The organization list

  /** The fields tried, in order, for the name `get_org_list` shows. */
  const OrgNameKeys: seq<string> := ["name", "display_name", "domain", "id", "org_id", "orgId"]

  /** The name one org contributes: `str()` of its first truthy name field,
      none when it has none; `.get` on an entry that is not a dict raises
      AttributeError. A name is never empty. */
  function OrgName(org: Json): (r: Result<Option<string>, Exc>)
    ensures r.Ok? <==> org.Object?
    ensures r.Ok? && r.value.Some? ==> r.value.value != []
  {
    if !org.Object? then Err(AttributeError)
    else
      var name := FirstTruthy(org.fields, OrgNameKeys);
      if Truthy(name) then Ok(Some(PyStr(name))) else Ok(None)
  }

  /** The names a loop collects reading each org with `read`, in org order;
      `None` once a read raised. */
  function Names(read: Json -> Result<Option<string>, Exc>, orgs: seq<Json>): Option<seq<string>>
  {
    if orgs == [] then Some([])
    else match Names(read, orgs[..|orgs| - 1])
      case None => None
      case Some(names) =>
        match read(orgs[|orgs| - 1])
        case Err(_) => None
        case Ok(one) => Some(names + (if one.Some? then [one.value] else []))
  }

  /** `get_org_list(env)` on what `_get_orgs_data(env)` gave: the sorted
      names, or nothing when fetching, iterating or reading the orgs raised. */
  function OrgList(orgs: Result<Json, Exc>): (r: seq<string>)
    ensures SortedStrings(r)
    ensures orgs.Ok? && Iter(orgs.value).Some? && Names(OrgName, Iter(orgs.value).value).Some? ==>
              multiset(r) == multiset(Names(OrgName, Iter(orgs.value).value).value)
    ensures !(orgs.Ok? && Iter(orgs.value).Some? && Names(OrgName, Iter(orgs.value).value).Some?) ==> r == []
  {
    match orgs
    case Err(_) => []
    case Ok(o) =>
      match Iter(o)
      case None => []
      case Some(xs) =>
        match Names(OrgName, xs)
        case None => []
        case Some(names) => Sort(names)
  }

  /** Collecting works org by org: the names of `a + b` are those of `a`
      followed by those of `b`, and it fails exactly when either part does. */
  lemma {:induction false} NamesConcat(read: Json -> Result<Option<string>, Exc>, a: seq<Json>, b: seq<Json>)
    ensures Names(read, a + b).Some? <==> Names(read, a).Some? && Names(read, b).Some?
    ensures Names(read, a + b).Some? ==> Names(read, a + b).value == Names(read, a).value + Names(read, b).value
    decreases |b|
  {
    if b == [] {
      assert a + b == a;
    } else {
      var b' := b[..|b| - 1];
      assert (a + b)[..|a + b| - 1] == a + b';
      assert (a + b)[|a + b| - 1] == b[|b| - 1];
      NamesConcat(read, a, b');
    }
  }

  /** With a reader that fails exactly on entries that are not dicts and
      never yields an empty name, each org contributes at most one name,
      never an empty one, and the collection fails exactly when some entry is
      not a dict. */
  lemma {:induction false} NamesBounds(read: Json -> Result<Option<string>, Exc>, orgs: seq<Json>)
    requires forall o :: read(o).Ok? <==> o.Object?
    requires forall o :: read(o).Ok? && read(o).value.Some? ==> read(o).value.value != []
    ensures Names(read, orgs).Some? <==> forall i :: 0 <= i < |orgs| ==> orgs[i].Object?
    ensures Names(read, orgs).Some? ==> |Names(read, orgs).value| <= |orgs|
    ensures Names(read, orgs).Some? ==>
              forall i :: 0 <= i < |Names(read, orgs).value| ==> Names(read, orgs).value[i] != []
  {
    if orgs != [] {
      var init := orgs[..|orgs| - 1];
      NamesBounds(read, init);
      assert forall i :: 0 <= i < |init| ==> init[i] == orgs[i];
    }
  }

  /** `get_org_list` reads at most one non-empty name per org, and fails
      exactly when some org is not a dict. */
  lemma OrgNamesBounds(orgs: seq<Json>)
    ensures Names(OrgName, orgs).Some? <==> forall i :: 0 <= i < |orgs| ==> orgs[i].Object?
    ensures Names(OrgName, orgs).Some? ==> |Names(OrgName, orgs).value| <= |orgs|
    ensures Names(OrgName, orgs).Some? ==>
              forall i :: 0 <= i < |Names(OrgName, orgs).value| ==> Names(OrgName, orgs).value[i] != []
  {
    NamesBounds(OrgName, orgs);
  }

  /** The loop of `get_org_list`. */
  method CollectOrgNames(orgs: seq<Json>) returns (r: Option<seq<string>>)
    ensures r == Names(OrgName, orgs)
  {
    var names: seq<string> := [];
    for i := 0 to |orgs|
      invariant Names(OrgName, orgs[..i]) == Some(names)
    {
      assert orgs[..i + 1][..i] == orgs[..i];
      var one := OrgName(orgs[i]);
      if one.Err? {
        NamesConcat(OrgName, orgs[..i + 1], orgs[i + 1..]);
        assert orgs[..i + 1] + orgs[i + 1..] == orgs;
        return None;
      }
      ghost var upTo := orgs[..i + 1];
      assert upTo[..|upTo| - 1] == orgs[..i] && upTo[|upTo| - 1] == orgs[i];
      if one.value.Some? {
        names := names + [one.value.value];
      } else {
        assert names + [] == names;
      }
    }
    assert orgs[..|orgs|] == orgs;
    return Some(names);
  }

  // ---------------------------------------------------------------------------
  // Resolving an organization name

  /** `s.split(".")[0]` when `"." in s`. */
  function DotPrefix(s: string): Option<string>
  {
    if Contains(s, ".") && |Split(s, ".")| > 1 then Some(Split(s, ".")[0]) else None
  }

  /** The text before the first "." of a dotted name, and nothing for any
      other. */
  lemma DotPrefixFirst(s: string)
    ensures DotPrefix(s).Some? <==> Contains(s, ".")
    ensures DotPrefix(s).Some? ==>
              DotPrefix(s).value == s[..IndexOf(s, ".").value] && '.' !in DotPrefix(s).value
  {
    SplitHead(s, ".");
    if Contains(s, ".") {
      var i := IndexOf(s, ".").value;
      assert |Split(s, ".")| > 1;
      forall j | 0 <= j < i ensures s[j] != '.' {
        assert !OccursAt(s, ".", j);
        assert s[j..j + 1] == [s[j]];
      }
    }
  }

  /** `str(v).lower().strip()`. */
  function Folded(v: Json): string
  {
    Strip(Lower(PyStr(v)))
  }

  /** Whether an org matches the query: one of its name, domain or id fields
      equals it exactly, or (for a non-empty query) the query occurs in its
      name, display name or domains, or its non-empty name occurs in the
      query. */
  predicate ExactMatch(fs: seq<Field>, search: string)
  {
    Folded(Get(fs, "name", Str(""))) == search || Folded(Get(fs, "display_name", Str(""))) == search ||
    Folded(Get(fs, "domain", Str(""))) == search || Folded(Get(fs, "org_domain", Str(""))) == search ||
    Folded(Get(fs, "id", Str(""))) == search || Folded(Or(Get(fs, "org_id", Null), Str(""))) == search ||
    Folded(Get(fs, "orgId", Str(""))) == search
  }

  predicate PartialMatch(fs: seq<Field>, search: string)
  {
    var name := Folded(Get(fs, "name", Str("")));
    search != [] &&
    (Contains(name, search) || Contains(Folded(Get(fs, "display_name", Str(""))), search) ||
     Contains(Folded(Get(fs, "domain", Str(""))), search) ||
     Contains(Folded(Get(fs, "org_domain", Str(""))), search) ||
     (name != [] && Contains(search, name)))
  }

  /** `org_name.lower().strip()`. */
  function Search(orgName: string): string
  {
    Strip(Lower(orgName))
  }

  predicate Matches(fs: seq<Field>, orgName: string)
  {
    ExactMatch(fs, Search(orgName)) || PartialMatch(fs, Search(orgName))
  }

  /** Whether the exact match was on a domain field. */
  predicate ByDomain(fs: seq<Field>, orgName: string)
  {
    ExactMatch(fs, Search(orgName)) &&
    (Folded(Get(fs, "domain", Str(""))) == Search(orgName) || Folded(Get(fs, "org_domain", Str(""))) == Search(orgName))
  }

  /** The id `org_id or orgId`, in its original case. */
  function ActualOrgId(fs: seq<Field>): Json
  {
    if Truthy(Get(fs, "org_id", Null)) then Get(fs, "org_id", Null)
    else if Truthy(Get(fs, "orgId", Null)) then Get(fs, "orgId", Null)
    else Null
  }

  /** The id a matching org resolves to, tried in the order the code tries:
      its org id, its id unless that reads as its domain, its domain or the
      query for a domain match, the text before the "." of the query, of its
      domain, of its id, and of the query again. `None` lets the scan go on to
      the next org. */
  function MatchedId(fs: seq<Field>, orgName: string, byDomain: bool): Option<string>
  {
    var id := Get(fs, "id", Null);
    var domains := Or(Get(fs, "org_domain", Null), Get(fs, "domain", Null));
    if Truthy(ActualOrgId(fs)) then Some(PyStr(ActualOrgId(fs)))
    else if Truthy(id) && PyStr(id) != PyStr(Get(fs, "domain", Str(""))) then Some(PyStr(id))
    else if byDomain && Truthy(Or(domains, Str(orgName))) then Some(PyStr(Or(domains, Str(orgName))))
    else if byDomain && DotPrefix(orgName).Some? then DotPrefix(orgName)
    else if Truthy(domains) && DotPrefix(PyStr(domains)).Some? then DotPrefix(PyStr(domains))
    else if Truthy(id) && id != Get(fs, "domain", Null) then
      if DotPrefix(PyStr(id)).Some? then DotPrefix(PyStr(id)) else Some(PyStr(id))
    else DotPrefix(orgName)
  }

  /** What one org of the scan decides: an id, or `None` to go on. */
  function OrgVerdict(fs: seq<Field>, orgName: string): Option<string>
  {
    if !Matches(fs, orgName) then None else MatchedId(fs, orgName, ByDomain(fs, orgName))
  }

  /** The scan of `get_org_id_by_name` over the orgs, with its final fallback
      to the text before the "." of the query. */
  function ScanOrgs(orgs: seq<Json>, orgName: string): Result<Option<string>, Exc>
  {
    if orgs == [] then Ok(DotPrefix(orgName))
    else if !orgs[0].Object? then Err(AttributeError)
    else match OrgVerdict(orgs[0].fields, orgName)
      case Some(id) => Ok(Some(id))
      case None => ScanOrgs(orgs[1..], orgName)
  }

  /** `get_org_id_by_name(org_name, env)` on what `_get_orgs_data(env)` gave:
      nothing for an empty org list; iterating a value that is not a list
      raises TypeError. */
  function OrgIdByName(orgName: string, orgs: Json): Result<Option<string>, Exc>
  {
    if !Truthy(orgs) then Ok(None)
    else match Iter(orgs)
      case None => Err(TypeError)
      case Some(xs) => ScanOrgs(xs, orgName)
  }

  /** An org that does not match is passed over; a matching org with a truthy
      `org_id` resolves to it, else to a truthy `orgId`, in its original case. */
  lemma OrgVerdictPrefersOrgId(fs: seq<Field>, orgName: string)
    ensures !Matches(fs, orgName) ==> OrgVerdict(fs, orgName) == None
    ensures Matches(fs, orgName) && Truthy(Get(fs, "org_id", Null)) ==>
              OrgVerdict(fs, orgName) == Some(PyStr(Get(fs, "org_id", Null)))
    ensures Matches(fs, orgName) && !Truthy(Get(fs, "org_id", Null)) && Truthy(Get(fs, "orgId", Null)) ==>
              OrgVerdict(fs, orgName) == Some(PyStr(Get(fs, "orgId", Null)))
  {
  }

  /** Looking an org up by its own string `org_id` finds it: the id matches
      itself exactly once folded. */
  lemma OrgVerdictOwnId(fs: seq<Field>, id: string)
    requires Lookup(fs, "org_id") == Some(Str(id)) && id != []
    ensures OrgVerdict(fs, id) == Some(id)
  {
    assert Folded(Or(Get(fs, "org_id", Null), Str(""))) == Search(id);
  }

  /** The scan stops at the first org that decides, and passes over the ones
      before it. */
  lemma {:induction false} ScanOrgsFirst(orgs: seq<Json>, orgName: string, i: nat)
    requires i < |orgs| && orgs[i].Object? && OrgVerdict(orgs[i].fields, orgName).Some?
    requires forall j :: 0 <= j < i ==> orgs[j].Object? && OrgVerdict(orgs[j].fields, orgName).None?
    ensures ScanOrgs(orgs, orgName) == Ok(OrgVerdict(orgs[i].fields, orgName))
  {
    if i > 0 {
      ScanOrgsFirst(orgs[1..], orgName, i - 1);
    }
  }

  /** When no org decides, the query resolves to the text before its first
      ".", and to nothing when it has none. */
  lemma {:induction false} ScanOrgsFallback(orgs: seq<Json>, orgName: string)
    requires forall j :: 0 <= j < |orgs| ==> orgs[j].Object? && OrgVerdict(orgs[j].fields, orgName).None?
    ensures ScanOrgs(orgs, orgName) == Ok(DotPrefix(orgName))
  {
    if orgs != [] {
      ScanOrgsFallback(orgs[1..], orgName);
    }
  }

  /** The scan raises only AttributeError, and only when it reaches an entry
      that is not a dict. */
  lemma {:induction false} ScanOrgsRaises(orgs: seq<Json>, orgName: string)
    ensures ScanOrgs(orgs, orgName).Err? ==>
              ScanOrgs(orgs, orgName).error == AttributeError && exists j :: 0 <= j < |orgs| && !orgs[j].Object?
  {
    if orgs != [] && orgs[0].Object? && OrgVerdict(orgs[0].fields, orgName).None? {
      ScanOrgsRaises(orgs[1..], orgName);
      if ScanOrgs(orgs, orgName).Err? {
        var j :| 0 <= j < |orgs[1..]| && !orgs[1..][j].Object?;
        assert !orgs[j + 1].Object?;
      }
    }
  }

  // ---------------------------------------------------------------------------
  // The session cache

  /** A key of `st.session_state`; Streamlit takes strings and integers. */
  datatype Key = StrKey(s: string) | IntKey(n: int)

  /** A dict keyed by hashable values, in insertion order, as Python keeps it. */
  type Dict<V> = seq<(Json, V)>

  /** What `_get_org_full_data` caches: the workspace listing and the
      normalised connections under each workspace id. */
  datatype FullData = FullData(workspaces: Json, connections: Dict<seq<Json>>)

  /** A session value: the admin token, the org listing, an org's full data,
      or a value some other part of the app stored. */
  datatype Entry = Token(token: string) | Orgs(orgs: Json) | Full(data: FullData) | Widget(value: Json)

  /** What the memo getters call: `utils.login`, `utils.get_orgs`,
      `utils.get_base_url` and the backend behind the requests. */
  datatype Services = Services(login: string -> Result<string, Exc>,
                               getOrgs: (string, string) -> Result<Json, Exc>,
                               baseUrl: string -> Result<string, Exc>,
                               server: Request -> Reply)

  /** What a call that reads and writes the session gives back, with the
      session after it. */
  datatype Memo<T> = Memo(result: Result<T, Exc>, state: map<Key, Entry>)

  function TokenKey(env: string): Key
  {
    StrKey("admin_token_" + env)
  }

  function OrgsKey(env: string): Key
  {
    StrKey("orgs_data_" + env)
  }

  function FullKey(orgId: string, env: string): Key
  {
    StrKey("org_full_data_" + orgId + "_" + env)
  }

  predicate IsTokenKey(k: Key)
  {
    k.StrKey? && StartsWith(k.s, "admin_token_")
  }

  predicate IsOrgsKey(k: Key)
  {
    k.StrKey? && StartsWith(k.s, "orgs_data_")
  }

  predicate IsFullKey(k: Key)
  {
    k.StrKey? && StartsWith(k.s, "org_full_data_")
  }

  /** The three kinds of cache key never collide. */
  lemma KeyKinds(orgId: string, env: string)
    ensures IsTokenKey(TokenKey(env)) && !IsOrgsKey(TokenKey(env)) && !IsFullKey(TokenKey(env))
    ensures !IsTokenKey(OrgsKey(env)) && IsOrgsKey(OrgsKey(env)) && !IsFullKey(OrgsKey(env))
    ensures !IsTokenKey(FullKey(orgId, env)) && !IsOrgsKey(FullKey(orgId, env)) && IsFullKey(FullKey(orgId, env))
  {
    var t := TokenKey(env).s;
    var o := OrgsKey(env).s;
    var f := FullKey(orgId, env).s;
    assert t[..12] == "admin_token_" && t[0] == 'a';
    assert o[..10] == "orgs_data_" && o[0] == 'o' && o[3] == 's';
    assert f[..14] == "org_full_data_" && f[0] == 'o' && f[3] == '_';
    assert "orgs_data_"[3] == 's' && "org_full_data_"[3] == '_';
  }

  /** Every cached connection list is its own normalisation. */
  predicate Settled(d: Dict<seq<Json>>)
  {
    forall i :: 0 <= i < |d| ==> NormalizeAll(d[i].1) == d[i].1
  }

  /** A cache key holds the kind of value its getter stores. */
  predicate ValidEntry(k: Key, e: Entry)
  {
    (IsTokenKey(k) ==> e.Token?) && (IsOrgsKey(k) ==> e.Orgs?) &&
    (IsFullKey(k) ==> e.Full? && Settled(e.data.connections))
  }

  predicate ValidState(s: map<Key, Entry>)
  {
    forall k :: k in s ==> ValidEntry(k, s[k])
  }

  lemma ValidUpdate(s: map<Key, Entry>, k: Key, e: Entry)
    requires ValidState(s) && ValidEntry(k, e)
    ensures ValidState(s[k := e])
  {
  }

  // ---------------------------------------------------------------------------
  // Dicts keyed by workspace id

  /** `d[k]` if present. */
  function Find<V>(d: Dict<V>, k: Json): (r: Option<V>)
    ensures r.Some? ==> exists i :: 0 <= i < |d| && d[i] == (k, r.value)
  {
    if d == [] then None
    else if d[0].0 == k then Some(d[0].1)
    else Find(d[1..], k)
  }

  /** `d[k] = v`: an existing key keeps its place, a new key goes last. */
  function Assign<V>(d: Dict<V>, k: Json, v: V): (r: Dict<V>)
    ensures Find(r, k) == Some(v)
    ensures forall k' :: k' != k ==> Find(r, k') == Find(d, k')
    ensures forall i :: 0 <= i < |r| ==> r[i].1 == v || r[i] in d
    ensures forall i :: 0 <= i < |r| ==> r[i].0 == k || r[i] in d
  {
    if d == [] then [(k, v)]
    else if d[0].0 == k then [(k, v)] + d[1..]
    else
      var rest := Assign(d[1..], k, v);
      assert forall x :: x in d[1..] ==> x in d;
      [d[0]] + rest
  }

  /** `{k: _normalize_connections(v) for k, v in d.items()}`, the rewrite of
      the cached path. */
  function Renormalized(d: Dict<seq<Json>>): (r: Dict<seq<Json>>)
    ensures |r| == |d|
  {
    seq(|d|, i requires 0 <= i < |d| => (d[i].0, NormalizeAll(d[i].1)))
  }

  /** Rewriting a settled cache changes nothing. */
  lemma RenormalizedSettled(d: Dict<seq<Json>>)
    requires Settled(d)
    ensures Renormalized(d) == d
  {
  }

  // ---------------------------------------------------------------------------
  // _get_org_full_data

  /** `get_connections_from_workspace(env, token, org_id, workspace_id)`. */
  function ConnectionsFetch(svc: Services, env: string, token: string, orgId: string): Json -> Result<seq<Json>, Exc>
  {
    (id: Json) =>
      match svc.baseUrl(env)
      case Err(e) => Err(e)
      case Ok(base) =>
        OrgFetch.ConnectionsOf(svc.server(HttpGet(OrgFetch.ConnectionsUrl(base, orgId, PyStr(id)),
                                                  OrgFetch.AuthHeaders(token))))
  }

  /** The workspace loop of `_get_org_full_data`, from `acc` onwards: a dict
      workspace with a truthy id gets its normalised connections, or an empty
      list when fetching them raised; other workspaces are skipped. An id that
      cannot be a dict key raises TypeError, even from the handler. */
  function Gather(fetch: Json -> Result<seq<Json>, Exc>, ws: seq<Json>, acc: Dict<seq<Json>>)
    : Result<Dict<seq<Json>>, Exc>
    decreases |ws|
  {
    if ws == [] then Ok(acc)
    else if !ws[0].Object? then Gather(fetch, ws[1..], acc)
    else
      var id := OrgFetch.WorkspaceId(ws[0].fields);
      if !Truthy(id) then Gather(fetch, ws[1..], acc)
      else if !Hashable(id) then Err(TypeError)
      else
        var conns := match fetch(id) case Ok(cs) => NormalizeAll(cs) case Err(_) => [];
        Gather(fetch, ws[1..], Assign(acc, id, conns))
  }

  predicate NoStrings(conns: seq<Json>)
  {
    forall i :: 0 <= i < |conns| ==> !conns[i].Str?
  }

  /** When every fetched list is free of bare strings, every list the loop
      stores is settled: normalising it again changes nothing. */
  lemma {:induction false} GatherSettled(fetch: Json -> Result<seq<Json>, Exc>, ws: seq<Json>, acc: Dict<seq<Json>>)
    requires Settled(acc)
    requires forall id :: fetch(id).Ok? ==> NoStrings(fetch(id).value)
    ensures Gather(fetch, ws, acc).Ok? ==> Settled(Gather(fetch, ws, acc).value)
    decreases |ws|
  {
    if ws != [] && ws[0].Object? {
      var id := OrgFetch.WorkspaceId(ws[0].fields);
      if Truthy(id) && Hashable(id) {
        var conns := match fetch(id) case Ok(cs) => NormalizeAll(cs) case Err(_) => [];
        if fetch(id).Ok? {
          NormalizeAllIdempotent(fetch(id).value);
        }
        var acc' := Assign(acc, id, conns);
        forall i | 0 <= i < |acc'| ensures NormalizeAll(acc'[i].1) == acc'[i].1 {
          if acc'[i] in acc {
            var j :| 0 <= j < |acc| && acc[j] == acc'[i];
          }
        }
        GatherSettled(fetch, ws[1..], acc');
      } else if !Truthy(id) {
        GatherSettled(fetch, ws[1..], acc);
      }
    } else if ws != [] {
      GatherSettled(fetch, ws[1..], acc);
    }
  }

  /** The ids the loop stores: those of the dict workspaces with a truthy id. */
  function WorkspaceIds(ws: seq<Json>): set<Json>
  {
    if ws == [] then {}
    else
      var rest := WorkspaceIds(ws[1..]);
      if ws[0].Object? && Truthy(OrgFetch.WorkspaceId(ws[0].fields)) then {OrgFetch.WorkspaceId(ws[0].fields)} + rest
      else rest
  }

  function Keys<V>(d: Dict<V>): set<Json>
  {
    set i | 0 <= i < |d| :: d[i].0
  }

  /** The loop stores an entry under exactly the ids of the dict workspaces
      with a truthy id, and raises only TypeError, for an id that cannot be a
      dict key. */
  lemma {:induction false} GatherKeys(fetch: Json -> Result<seq<Json>, Exc>, ws: seq<Json>, acc: Dict<seq<Json>>)
    ensures Gather(fetch, ws, acc).Ok? ==> Keys(Gather(fetch, ws, acc).value) == Keys(acc) + WorkspaceIds(ws)
    ensures Gather(fetch, ws, acc).Err? ==> Gather(fetch, ws, acc).error == TypeError &&
                                            exists w :: w in WorkspaceIds(ws) && !Hashable(w)
    decreases |ws|
  {
    if ws != [] {
      if ws[0].Object? && Truthy(OrgFetch.WorkspaceId(ws[0].fields)) {
        var id := OrgFetch.WorkspaceId(ws[0].fields);
        if Hashable(id) {
          var conns := match fetch(id) case Ok(cs) => NormalizeAll(cs) case Err(_) => [];
          var acc' := Assign(acc, id, conns);
          assert Keys(acc') == Keys(acc) + {id} by {
            forall x | x in Keys(acc') ensures x in Keys(acc) + {id} {
              var i :| 0 <= i < |acc'| && acc'[i].0 == x;
              if acc'[i] in acc {
                var j :| 0 <= j < |acc| && acc[j] == acc'[i];
              }
            }
            forall x | x in Keys(acc) + {id} ensures x in Keys(acc') {
              var fx := Find(acc', x);
              if x != id {
                var j :| 0 <= j < |acc| && acc[j].0 == x;
                FindPresent(acc, x, j);
              }
            }
          }
          GatherKeys(fetch, ws[1..], acc');
        }
      } else {
        GatherKeys(fetch, ws[1..], acc);
      }
    }
  }

  /** A key stored in the dict is found. */
  lemma {:induction false} FindPresent<V>(d: Dict<V>, k: Json, i: nat)
    requires i < |d| && d[i].0 == k
    ensures Find(d, k).Some?
  {
    if i > 0 && d[0].0 != k {
      FindPresent(d[1..], k, i - 1);
    }
  }

  /** Every list `get_connections_from_workspace` returns is free of bare
      strings: its entries are all dicts. */
  lemma ConnectionsFetchNoStrings(svc: Services, env: string, token: string, orgId: string)
    ensures forall id :: ConnectionsFetch(svc, env, token, orgId)(id).Ok? ==>
                           NoStrings(ConnectionsFetch(svc, env, token, orgId)(id).value)
  {
    forall id | ConnectionsFetch(svc, env, token, orgId)(id).Ok?
      ensures NoStrings(ConnectionsFetch(svc, env, token, orgId)(id).value)
    {
      var base := svc.baseUrl(env).value;
      OrgFetch.ConnectionsAreConnections(svc.server(HttpGet(OrgFetch.ConnectionsUrl(base, orgId, PyStr(id)),
                                                            OrgFetch.AuthHeaders(token))));
    }
  }

  // ---------------------------------------------------------------------------
  // The memo getters

  /** `s'` agrees with `s` on every key outside `keys`. */
  ghost predicate Outside(s: map<Key, Entry>, s': map<Key, Entry>, keys: set<Key>)
  {
    forall k :: k !in keys ==> (k in s' <==> k in s) && (k in s ==> s'[k] == s[k])
  }

  /** `_get_admin_token(env)`: the cached token, or a fresh login that is
      cached when it succeeds. */
  function TokenMemo(s: map<Key, Entry>, env: string, svc: Services): (m: Memo<string>)
    requires ValidState(s)
    ensures ValidState(m.state)
    ensures Outside(s, m.state, {TokenKey(env)})
    ensures m.result.Ok? ==> TokenKey(env) in m.state && m.state[TokenKey(env)] == Token(m.result.value)
    ensures TokenKey(env) in s ==> m.state == s
  {
    KeyKinds("", env);
    var k := TokenKey(env);
    if k in s then Memo(Ok(s[k].token), s)
    else match svc.login(env)
      case Err(e) => Memo(Err(e), s)
      case Ok(t) =>
        ValidUpdate(s, k, Token(t));
        Memo(Ok(t), s[k := Token(t)])
  }

  /** `_get_orgs_data(env)`: the cached listing, or one fetched with the
      admin token and cached when the fetch succeeds. */
  function OrgsMemo(s: map<Key, Entry>, env: string, svc: Services): (m: Memo<Json>)
    requires ValidState(s)
    ensures ValidState(m.state)
    ensures Outside(s, m.state, {TokenKey(env), OrgsKey(env)})
    ensures m.result.Ok? ==> OrgsKey(env) in m.state && m.state[OrgsKey(env)] == Orgs(m.result.value)
    ensures OrgsKey(env) in s ==> m.state == s
  {
    KeyKinds("", env);
    var k := OrgsKey(env);
    if k in s then Memo(Ok(s[k].orgs), s)
    else
      var t := TokenMemo(s, env, svc);
      match t.result
      case Err(e) => Memo(Err(e), t.state)
      case Ok(token) =>
        match svc.getOrgs(env, token)
        case Err(e) => Memo(Err(e), t.state)
        case Ok(o) =>
          ValidUpdate(t.state, k, Orgs(o));
          Memo(Ok(o), t.state[k := Orgs(o)])
  }

  /** The workspace listing `get_workspaces(env, token, org_id)` returns. */
  function WorkspacesOf(svc: Services, env: string, token: string, orgId: string): Result<Json, Exc>
  {
    match svc.baseUrl(env)
    case Err(e) => Err(e)
    case Ok(base) =>
      OrgFetch.GetWorkspaces(svc.server(HttpGet(OrgFetch.WorkspacesUrl(base, orgId), OrgFetch.AuthHeaders(token))))
  }

  /** The connections of a fetched listing, gathered workspace by workspace. */
  function GatherAll(svc: Services, env: string, token: string, orgId: string, ws: Json): (r: Result<Dict<seq<Json>>, Exc>)
    ensures r.Ok? ==> Settled(r.value)
  {
    var fetch := ConnectionsFetch(svc, env, token, orgId);
    ConnectionsFetchNoStrings(svc, env, token, orgId);
    match Iter(ws)
    case None => Err(TypeError)
    case Some(xs) =>
      GatherSettled(fetch, xs, []);
      Gather(fetch, xs, [])
  }

  /** `_get_org_full_data(org_id, env)`: the cached data with its connection
      lists normalised again, or the workspaces and their connections fetched
      with the admin token and cached. */
  function FullMemo(s: map<Key, Entry>, orgId: string, env: string, svc: Services): (m: Memo<FullData>)
    requires ValidState(s)
    ensures ValidState(m.state)
    ensures Outside(s, m.state, {TokenKey(env), FullKey(orgId, env)})
    ensures m.result.Ok? ==> FullKey(orgId, env) in m.state && m.state[FullKey(orgId, env)] == Full(m.result.value)
  {
    KeyKinds(orgId, env);
    var k := FullKey(orgId, env);
    if k in s then
      var d := s[k].data;
      var d' := FullData(d.workspaces, Renormalized(d.connections));
      RenormalizedSettled(d.connections);
      ValidUpdate(s, k, Full(d'));
      Memo(Ok(d'), s[k := Full(d')])
    else
      var t := TokenMemo(s, env, svc);
      match t.result
      case Err(e) => Memo(Err(e), t.state)
      case Ok(token) =>
        match WorkspacesOf(svc, env, token, orgId)
        case Err(e) => Memo(Err(e), t.state)
        case Ok(ws) =>
          match GatherAll(svc, env, token, orgId, ws)
          case Err(e) => Memo(Err(e), t.state)
          case Ok(c) =>
            ValidUpdate(t.state, k, Full(FullData(ws, c)));
            Memo(Ok(FullData(ws, c)), t.state[k := Full(FullData(ws, c))])
  }

  /** Once the token is cached, asking again neither logs in nor changes the
      session. */
  lemma TokenMemoAgain(s: map<Key, Entry>, env: string, svc: Services, svc': Services)
    requires ValidState(s) && TokenMemo(s, env, svc).result.Ok?
    ensures TokenMemo(TokenMemo(s, env, svc).state, env, svc') == TokenMemo(s, env, svc)
  {
  }

  /** Once the listing is cached, asking again neither fetches nor changes
      the session. */
  lemma OrgsMemoAgain(s: map<Key, Entry>, env: string, svc: Services, svc': Services)
    requires ValidState(s) && OrgsMemo(s, env, svc).result.Ok?
    ensures OrgsMemo(OrgsMemo(s, env, svc).state, env, svc') == OrgsMemo(s, env, svc)
  {
  }

  /** The cached path of `_get_org_full_data` changes nothing: the lists it
      normalises again are already settled. */
  lemma FullMemoCached(s: map<Key, Entry>, orgId: string, env: string, svc: Services)
    requires ValidState(s) && FullKey(orgId, env) in s
    ensures FullMemo(s, orgId, env, svc) == Memo(Ok(s[FullKey(orgId, env)].data), s)
  {
    KeyKinds(orgId, env);
    var d := s[FullKey(orgId, env)].data;
    RenormalizedSettled(d.connections);
    assert s[FullKey(orgId, env) := Full(d)] == s;
  }

  /** Once an org's data is cached, asking again neither fetches nor changes
      the session. */
  lemma FullMemoAgain(s: map<Key, Entry>, orgId: string, env: string, svc: Services, svc': Services)
    requires ValidState(s) && FullMemo(s, orgId, env, svc).result.Ok?
    ensures FullMemo(FullMemo(s, orgId, env, svc).state, orgId, env, svc') == FullMemo(s, orgId, env, svc)
  {
    FullMemoCached(FullMemo(s, orgId, env, svc).state, orgId, env, svc');
  }

  // ---------------------------------------------------------------------------
  // get_providers_for_org

  /** One entry of `get_providers_for_org`. */
  datatype ProviderRow = ProviderRow(name: string, connection: string, workspaceId: string,
                                     workspaceName: string, providerName: string)

  /** `conn.get("channel_provider") or conn.get("provider") or fallback`. */
  function ProviderOf(fs: seq<Field>, fallback: Json): Json
  {
    Or(Or(Get(fs, "channel_provider", Null), Get(fs, "provider", Null)), fallback)
  }

  /** The entry one connection of a workspace yields: none for an entry that
      is not a dict or whose id is falsy or blank. */
  function RowOf(workspaceId: Json, workspaceName: Json, conn: Json): Option<ProviderRow>
  {
    if !conn.Object? then None
    else
      var id := Get(conn.fields, "id", Null);
      if !Truthy(id) || Strip(PyStr(id)) == [] then None
      else
        Some(ProviderRow(PyStr(workspaceName) + " - " + PyStr(Get(conn.fields, "name", id)), PyStr(id),
                         if Truthy(workspaceId) then PyStr(workspaceId) else "", PyStr(workspaceName),
                         PyStr(ProviderOf(conn.fields, Str("exotel")))))
  }

  /** An entry names its connection by a non-blank id, is labelled
      "{workspace_name} - ..." and always has a provider. */
  lemma RowOfShape(workspaceId: Json, workspaceName: Json, conn: Json)
    requires RowOf(workspaceId, workspaceName, conn).Some?
    ensures var r := RowOf(workspaceId, workspaceName, conn).value;
            Strip(r.connection) != [] && r.providerName != [] &&
            StartsWith(r.name, r.workspaceName + " - ") && r.workspaceName == PyStr(workspaceName)
  {
    var r := RowOf(workspaceId, workspaceName, conn).value;
    var prov := ProviderOf(conn.fields, Str("exotel"));
    assert Truthy(prov);
    assert r.name[..|r.workspaceName + " - "|] == r.workspaceName + " - ";
  }

  /** A normalised connection is never skipped: its entry carries its id and
      its provider. */
  lemma RowOfConnection(workspaceId: Json, workspaceName: Json, conn: Json)
    requires OrgFetch.IsConnection(conn)
    ensures RowOf(workspaceId, workspaceName, conn).Some?
    ensures RowOf(workspaceId, workspaceName, conn).value.connection == OrgFetch.ConnectionId(conn)
    ensures RowOf(workspaceId, workspaceName, conn).value.providerName == PyStr(ProviderOf(conn.fields, Str("exotel")))
  {
    assert Truthy(Get(conn.fields, "id", Null));
  }

  /** `RowOf` for the connections of one workspace. */
  function RowFor(workspaceId: Json, workspaceName: Json): Json -> Option<ProviderRow>
  {
    conn => RowOf(workspaceId, workspaceName, conn)
  }

  /** The inner loop over the connections of one workspace, keeping the
      entries `row` yields. */
  function ConnectionRows(row: Json -> Option<ProviderRow>, conns: seq<Json>): seq<ProviderRow>
  {
    if conns == [] then []
    else
      var last := row(conns[|conns| - 1]);
      ConnectionRows(row, conns[..|conns| - 1]) + (if last.Some? then [last.value] else [])
  }

  /** When `row` yields an entry for every connection, the loop keeps them
      all, in list order. */
  lemma {:induction false} ConnectionRowsAllKept(row: Json -> Option<ProviderRow>, conns: seq<Json>)
    requires forall i :: 0 <= i < |conns| ==> row(conns[i]).Some?
    ensures |ConnectionRows(row, conns)| == |conns|
    ensures forall i :: 0 <= i < |conns| ==> Some(ConnectionRows(row, conns)[i]) == row(conns[i])
  {
    if conns != [] {
      ConnectionRowsAllKept(row, conns[..|conns| - 1]);
    }
  }

  /** Every connection of a normalised list yields its entry, in list order,
      naming that connection. */
  lemma ConnectionRowsOfNormalized(workspaceId: Json, workspaceName: Json, conns: seq<Json>)
    requires forall i :: 0 <= i < |conns| ==> OrgFetch.IsConnection(conns[i])
    ensures |ConnectionRows(RowFor(workspaceId, workspaceName), conns)| == |conns|
    ensures forall i :: 0 <= i < |conns| ==>
              ConnectionRows(RowFor(workspaceId, workspaceName), conns)[i].connection == OrgFetch.ConnectionId(conns[i])
  {
    var row := RowFor(workspaceId, workspaceName);
    forall i | 0 <= i < |conns|
      ensures row(conns[i]).Some? && row(conns[i]).value.connection == OrgFetch.ConnectionId(conns[i])
    {
      RowOfConnection(workspaceId, workspaceName, conns[i]);
    }
    ConnectionRowsAllKept(row, conns);
  }

  /** The workspace loop of `get_providers_for_org`, from `acc` onwards:
      workspaces that are not dicts are skipped, and looking up an id that
      cannot be a dict key raises TypeError. */
  function WorkspaceRows(conns: Dict<seq<Json>>, ws: seq<Json>, acc: seq<ProviderRow>): Result<seq<ProviderRow>, Exc>
    decreases |ws|
  {
    if ws == [] then Ok(acc)
    else if !ws[0].Object? then WorkspaceRows(conns, ws[1..], acc)
    else
      var id := OrgFetch.WorkspaceId(ws[0].fields);
      var name := Get(ws[0].fields, "name", id);
      if !Hashable(id) then Err(TypeError)
      else
        var cs := match Find(conns, id) case Some(v) => v case None => [];
        WorkspaceRows(conns, ws[1..], acc + ConnectionRows(RowFor(id, name), cs))
  }

  /** Workspaces are taken in order: the rows of `a + b` are those of `b`
      after those of `a`, and the rows gathered so far are kept. */
  lemma {:induction false} WorkspaceRowsSplit(conns: Dict<seq<Json>>, a: seq<Json>, b: seq<Json>, acc: seq<ProviderRow>)
    ensures WorkspaceRows(conns, a + b, acc) ==
            match WorkspaceRows(conns, a, acc)
            case Ok(rows) => WorkspaceRows(conns, b, rows)
            case Err(e) => Err(e)
    ensures WorkspaceRows(conns, a, acc).Ok? ==>
              |acc| <= |WorkspaceRows(conns, a, acc).value| && WorkspaceRows(conns, a, acc).value[..|acc|] == acc
    decreases |a|
  {
    if a == [] {
      assert a + b == b;
    } else {
      assert (a + b)[0] == a[0] && (a + b)[1..] == a[1..] + b;
      if a[0].Object? {
        var id := OrgFetch.WorkspaceId(a[0].fields);
        if Hashable(id) {
          var cs := match Find(conns, id) case Some(v) => v case None => [];
          var acc' := acc + ConnectionRows(RowFor(id, Get(a[0].fields, "name", id)), cs);
          WorkspaceRowsSplit(conns, a[1..], b, acc');
          if WorkspaceRows(conns, a[1..], acc').Ok? {
            assert acc'[..|acc|] == acc;
            assert WorkspaceRows(conns, a[1..], acc').value[..|acc|] == acc'[..|acc|];
          }
        }
      } else {
        WorkspaceRowsSplit(conns, a[1..], b, acc);
      }
    }
  }

  /** The rows `get_providers_for_org` lists from an org's data; nothing when
      there are no workspaces or reading them raised. */
  function ProvidersOf(d: FullData): seq<ProviderRow>
  {
    if !Truthy(d.workspaces) then []
    else match Iter(d.workspaces)
      case None => []
      case Some(ws) =>
        match WorkspaceRows(d.connections, ws, [])
        case Err(_) => []
        case Ok(rows) => rows
  }

  // ---------------------------------------------------------------------------
  // build_api_url

  /** The id the search compares: a dict's "id", a string itself. */
  function SearchId(conn: Json): Json
  {
    if conn.Object? then Get(conn.fields, "id", Null) else if conn.Str? then conn else Null
  }

  /** The inner search loop over one workspace's connections: whether
      `connection_id` was found, and the provider found so far. A dict seen
      while the provider is unset or "exotel" sets it; the dict found sets it
      last. */
  function ScanConnections(conns: seq<Json>, connectionId: string, provider: string, found: Json): (bool, Json)
    decreases |conns|
  {
    if conns == [] then (false, found)
    else
      var c := conns[0];
      var found' := if c.Object? && (!Truthy(found) || found == Str("exotel")) then ProviderOf(c.fields, Str(provider))
                    else found;
      if SearchId(c) == Str(connectionId) then
        (true, if c.Object? then ProviderOf(c.fields, Str(provider)) else found')
      else ScanConnections(conns[1..], connectionId, provider, found')
  }

  /** The outer search loop: the workspace id set by a match, and the
      provider found; the search stops once the workspace id is truthy. */
  function ScanWorkspaces(d: Dict<seq<Json>>, connectionId: string, provider: string, workspaceId: Json, found: Json)
    : (Json, Json)
    decreases |d|
  {
    if d == [] then (workspaceId, found)
    else
      var (matched, found') := ScanConnections(d[0].1, connectionId, provider, found);
      var workspaceId' := if matched then d[0].0 else workspaceId;
      if Truthy(workspaceId') then (workspaceId', found')
      else ScanWorkspaces(d[1..], connectionId, provider, workspaceId', found')
  }

  /** Whether some connection of the list has the id. */
  predicate Holds(conns: seq<Json>, connectionId: string)
  {
    exists i :: 0 <= i < |conns| && SearchId(conns[i]) == Str(connectionId)
  }

  /** The search stops at the first connection with the id, and takes the
      provider of that connection when it is a dict. */
  lemma {:induction false} ScanConnectionsFirst(conns: seq<Json>, connectionId: string, provider: string,
                                                found: Json, i: nat)
    requires i < |conns| && SearchId(conns[i]) == Str(connectionId)
    requires forall j :: 0 <= j < i ==> SearchId(conns[j]) != Str(connectionId)
    ensures ScanConnections(conns, connectionId, provider, found).0
    ensures conns[i].Object? ==>
              ScanConnections(conns, connectionId, provider, found).1 == ProviderOf(conns[i].fields, Str(provider))
  {
    if i > 0 {
      var c := conns[0];
      var found' := if c.Object? && (!Truthy(found) || found == Str("exotel")) then ProviderOf(c.fields, Str(provider))
                    else found;
      ScanConnectionsFirst(conns[1..], connectionId, provider, found', i - 1);
    }
  }

  /** A match is reported exactly when some connection has the id. */
  lemma {:induction false} ScanConnectionsHolds(conns: seq<Json>, connectionId: string, provider: string, found: Json)
    ensures ScanConnections(conns, connectionId, provider, found).0 <==> Holds(conns, connectionId)
  {
    if conns != [] {
      var c := conns[0];
      var found' := if c.Object? && (!Truthy(found) || found == Str("exotel")) then ProviderOf(c.fields, Str(provider))
                    else found;
      ScanConnectionsHolds(conns[1..], connectionId, provider, found');
      if Holds(conns[1..], connectionId) {
        var i :| 0 <= i < |conns[1..]| && SearchId(conns[1..][i]) == Str(connectionId);
        assert SearchId(conns[i + 1]) == Str(connectionId);
      }
      if Holds(conns, connectionId) && SearchId(c) != Str(connectionId) {
        var i :| 0 <= i < |conns| && SearchId(conns[i]) == Str(connectionId);
        assert conns[1..][i - 1] == conns[i];
      }
    }
  }

  /** The search settles on the first workspace with a truthy id whose
      connections hold the id, and takes the provider of the first
      connection there with the id when that is a dict. */
  lemma {:induction false} ScanWorkspacesFirst(d: Dict<seq<Json>>, connectionId: string, provider: string,
                                               workspaceId: Json, found: Json, j: nat, i: nat)
    requires !Truthy(workspaceId)
    requires j < |d| && Truthy(d[j].0)
    requires i < |d[j].1| && SearchId(d[j].1[i]) == Str(connectionId)
    requires forall k :: 0 <= k < i ==> SearchId(d[j].1[k]) != Str(connectionId)
    requires forall k :: 0 <= k < j ==> !Holds(d[k].1, connectionId) || !Truthy(d[k].0)
    ensures ScanWorkspaces(d, connectionId, provider, workspaceId, found).0 == d[j].0
    ensures d[j].1[i].Object? ==>
              ScanWorkspaces(d, connectionId, provider, workspaceId, found).1 == ProviderOf(d[j].1[i].fields, Str(provider))
  {
    var (matched, found') := ScanConnections(d[0].1, connectionId, provider, found);
    ScanConnectionsHolds(d[0].1, connectionId, provider, found);
    if j > 0 {
      var workspaceId' := if matched then d[0].0 else workspaceId;
      ScanWorkspacesFirst(d[1..], connectionId, provider, workspaceId', found', j - 1, i);
    } else {
      ScanConnectionsFirst(d[0].1, connectionId, provider, found, i);
    }
  }

  /** `workspaces[0].get("id") or workspaces[0].get("workspace_id")` on a
      truthy listing; `None` where indexing or `.get` raises. */
  function FirstWorkspaceId(ws: Json): Option<Json>
  {
    match ws
    case List(xs) => if xs != [] && xs[0].Object? then Some(OrgFetch.WorkspaceId(xs[0].fields)) else None
    case _ => None
  }

  /** The workspace id and the provider the `try` block of `build_api_url`
      settles on from an org's data. */
  function Resolve(d: FullData, connectionId: string, workspaceId: Json, provider: string): (Json, Json)
  {
    var (w, p) := ScanWorkspaces(d.connections, connectionId, provider, workspaceId, Str(provider));
    if !Truthy(w) && Truthy(d.workspaces) && FirstWorkspaceId(d.workspaces).Some? then
      (FirstWorkspaceId(d.workspaces).value, p)
    else (w, p)
  }

  /** The URL built once the ids are known: empty without a workspace id, a
      connection id or a base URL. */
  function UrlOf(svc: Services, env: string, orgId: string, workspaceId: Json, provider: Json, connectionId: string)
    : (r: string)
    ensures r != [] <==> Truthy(workspaceId) && connectionId != [] && svc.baseUrl(env).Ok?
    ensures r != [] ==> r == OrgFetch.PhoneNumbersUrl(svc.baseUrl(env).value, orgId, PyStr(workspaceId),
                                                      PyStr(provider), connectionId)
  {
    if !Truthy(workspaceId) || connectionId == [] then ""
    else match svc.baseUrl(env)
      case Err(_) => ""
      case Ok(base) => OrgFetch.PhoneNumbersUrl(base, orgId, PyStr(workspaceId), PyStr(provider), connectionId)
  }

  /** The search resolves a connection found in the first workspace with a
      truthy id that holds it to that workspace, whatever the listing says. */
  lemma ResolveFinds(d: FullData, connectionId: string, workspaceId: Json, provider: string, j: nat, i: nat)
    requires !Truthy(workspaceId)
    requires j < |d.connections| && Truthy(d.connections[j].0)
    requires i < |d.connections[j].1| && SearchId(d.connections[j].1[i]) == Str(connectionId)
    requires forall k :: 0 <= k < i ==> SearchId(d.connections[j].1[k]) != Str(connectionId)
    requires forall k :: 0 <= k < j ==> !Holds(d.connections[k].1, connectionId) || !Truthy(d.connections[k].0)
    ensures Resolve(d, connectionId, workspaceId, provider).0 == d.connections[j].0
    ensures d.connections[j].1[i].Object? ==>
              Resolve(d, connectionId, workspaceId, provider).1 == ProviderOf(d.connections[j].1[i].fields, Str(provider))
  {
    ScanWorkspacesFirst(d.connections, connectionId, provider, workspaceId, Str(provider), j, i);
  }

  /** A connection held by no workspace falls back to the first workspace
      of the listing, with the provider the caller gave when no connection
      was a dict. */
  lemma {:induction false} ScanWorkspacesMissing(d: Dict<seq<Json>>, connectionId: string, provider: string,
                                                 workspaceId: Json, found: Json)
    requires !Truthy(workspaceId)
    requires forall k :: 0 <= k < |d| ==> !Holds(d[k].1, connectionId)
    ensures ScanWorkspaces(d, connectionId, provider, workspaceId, found).0 == workspaceId
  {
    if d != [] {
      ScanConnectionsHolds(d[0].1, connectionId, provider, found);
      var (matched, found') := ScanConnections(d[0].1, connectionId, provider, found);
      ScanWorkspacesMissing(d[1..], connectionId, provider, workspaceId, found');
    }
  }

  // ---------------------------------------------------------------------------
  // The public getters on a session

  /** `s'` agrees with `s` on every key other than the admin token, the org
      listing and the org data of `env`: values the rest of the app keeps in
      the session are untouched. */
  ghost predicate Untouched(s: map<Key, Entry>, s': map<Key, Entry>, env: string)
  {
    forall k :: k != TokenKey(env) && k != OrgsKey(env) && !IsFullKey(k) ==>
      (k in s' <==> k in s) && (k in s ==> s'[k] == s[k])
  }

  /** `get_org_id_by_name(org_name, env)`: what the scan decides on the
      org listing; an error fetching the listing propagates. */
  function OrgIdMemo(s: map<Key, Entry>, orgName: string, env: string, svc: Services): (m: Memo<Option<string>>)
    requires ValidState(s)
    ensures ValidState(m.state) && m.state == OrgsMemo(s, env, svc).state
    ensures OrgsKey(env) in s ==> m == Memo(OrgIdByName(orgName, s[OrgsKey(env)].orgs), s)
  {
    var o := OrgsMemo(s, env, svc);
    match o.result
    case Err(e) => Memo(Err(e), o.state)
    case Ok(orgs) => Memo(OrgIdByName(orgName, orgs), o.state)
  }

  /** `get_org_list(env)`: never raises, and lists the names sorted. */
  function OrgListMemo(s: map<Key, Entry>, env: string, svc: Services): (m: Memo<seq<string>>)
    requires ValidState(s)
    ensures ValidState(m.state) && m.state == OrgsMemo(s, env, svc).state
    ensures m.result.Ok? && SortedStrings(m.result.value)
    ensures OrgsKey(env) in s ==> m.state == s && m.result == Ok(OrgList(Ok(s[OrgsKey(env)].orgs)))
  {
    var o := OrgsMemo(s, env, svc);
    Memo(Ok(OrgList(o.result)), o.state)
  }

  /** `get_providers_for_org(org_name, env)`: nothing for an org that is
      not found, and nothing when fetching its data or listing it raised;
      only the org lookup raises. */
  function ProvidersMemo(s: map<Key, Entry>, orgName: string, env: string, svc: Services): (m: Memo<seq<ProviderRow>>)
    requires ValidState(s)
    ensures ValidState(m.state) && Untouched(s, m.state, env)
    ensures m.result.Err? <==> OrgIdMemo(s, orgName, env, svc).result.Err?
    ensures OrgIdMemo(s, orgName, env, svc).result in {Ok(None), Ok(Some(""))} ==>
              m == Memo(Ok([]), OrgIdMemo(s, orgName, env, svc).state)
  {
    var o := OrgIdMemo(s, orgName, env, svc);
    match o.result
    case Err(e) => Memo(Err(e), o.state)
    case Ok(id) =>
      if id.None? || id.value == [] then Memo(Ok([]), o.state)
      else
        var f := FullMemo(o.state, id.value, env, svc);
        KeyKinds(id.value, env);
        Memo(Ok(if f.result.Ok? then ProvidersOf(f.result.value) else []), f.state)
  }

  /** `build_api_url(org_name, connection_id, workspace_id, provider, env)`:
      the phone-numbers URL, or "" when the org, the workspace, the
      connection id or the base URL is missing; only the org lookup raises.
      A given workspace id is used as is, without fetching the org's data. */
  function ApiUrlMemo(s: map<Key, Entry>, orgName: string, connectionId: string, workspaceId: Json,
                      provider: string, env: string, svc: Services): (m: Memo<string>)
    requires ValidState(s)
    ensures ValidState(m.state) && Untouched(s, m.state, env)
    ensures m.result.Err? <==> OrgIdMemo(s, orgName, env, svc).result.Err?
    ensures m.result.Ok? && m.result.value != [] ==>
              connectionId != [] && svc.baseUrl(env).Ok? &&
              exists orgId, w, p :: OrgIdMemo(s, orgName, env, svc).result == Ok(Some(orgId)) &&
                                   m.result.value == OrgFetch.PhoneNumbersUrl(svc.baseUrl(env).value, orgId, w, p, connectionId)
    ensures Truthy(workspaceId) && OrgIdMemo(s, orgName, env, svc).result.Ok? ==>
              m.state == OrgIdMemo(s, orgName, env, svc).state
  {
    var o := OrgIdMemo(s, orgName, env, svc);
    match o.result
    case Err(e) => Memo(Err(e), o.state)
    case Ok(id) =>
      if id.None? || id.value == [] then Memo(Ok(""), o.state)
      else if Truthy(workspaceId) then Memo(Ok(UrlOf(svc, env, id.value, workspaceId, Str(provider), connectionId)), o.state)
      else
        var f := FullMemo(o.state, id.value, env, svc);
        KeyKinds(id.value, env);
        var wp := if f.result.Ok? then Resolve(f.result.value, connectionId, workspaceId, provider)
                  else (workspaceId, Str(provider));
        Memo(Ok(UrlOf(svc, env, id.value, wp.0, wp.1, connectionId)), f.state)
  }

  /** With the org found, `build_api_url` builds the URL from the workspace id
      given, or else from the workspace and provider the org's data resolves
      the connection to (the caller's when fetching the data failed). */
  lemma ApiUrlBuilt(s: map<Key, Entry>, orgName: string, connectionId: string, workspaceId: Json,
                    provider: string, env: string, svc: Services, orgId: string)
    requires ValidState(s)
    requires OrgIdMemo(s, orgName, env, svc).result == Ok(Some(orgId)) && orgId != []
    ensures Truthy(workspaceId) ==>
              ApiUrlMemo(s, orgName, connectionId, workspaceId, provider, env, svc) ==
              Memo(Ok(UrlOf(svc, env, orgId, workspaceId, Str(provider), connectionId)),
                   OrgIdMemo(s, orgName, env, svc).state)
    ensures !Truthy(workspaceId) ==>
              var f := FullMemo(OrgIdMemo(s, orgName, env, svc).state, orgId, env, svc);
              var wp := if f.result.Ok? then Resolve(f.result.value, connectionId, workspaceId, provider)
                        else (workspaceId, Str(provider));
              ApiUrlMemo(s, orgName, connectionId, workspaceId, provider, env, svc) ==
              Memo(Ok(UrlOf(svc, env, orgId, wp.0, wp.1, connectionId)), f.state)
  {
  }

  /** With the org found and no workspace id given, a connection held by a
      workspace of the org's data gets the URL under that workspace and the
      provider of the connection. */
  lemma ApiUrlOfHeldConnection(s: map<Key, Entry>, orgName: string, connectionId: string, workspaceId: Json,
                               provider: string, env: string, svc: Services, orgId: string, j: nat, i: nat)
    requires ValidState(s)
    requires OrgIdMemo(s, orgName, env, svc).result == Ok(Some(orgId)) && orgId != []
    requires !Truthy(workspaceId)
    requires FullMemo(OrgIdMemo(s, orgName, env, svc).state, orgId, env, svc).result.Ok?
    requires var d := FullMemo(OrgIdMemo(s, orgName, env, svc).state, orgId, env, svc).result.value;
             j < |d.connections| && Truthy(d.connections[j].0) &&
             i < |d.connections[j].1| && SearchId(d.connections[j].1[i]) == Str(connectionId) &&
             d.connections[j].1[i].Object? &&
             (forall k :: 0 <= k < i ==> SearchId(d.connections[j].1[k]) != Str(connectionId)) &&
             (forall k :: 0 <= k < j ==> !Holds(d.connections[k].1, connectionId) || !Truthy(d.connections[k].0))
    ensures var d := FullMemo(OrgIdMemo(s, orgName, env, svc).state, orgId, env, svc).result.value;
            ApiUrlMemo(s, orgName, connectionId, workspaceId, provider, env, svc).result ==
              Ok(UrlOf(svc, env, orgId, d.connections[j].0,
                       ProviderOf(d.connections[j].1[i].fields, Str(provider)), connectionId))
  {
    var d := FullMemo(OrgIdMemo(s, orgName, env, svc).state, orgId, env, svc).result.value;
    ResolveFinds(d, connectionId, workspaceId, provider, j, i);
  }

  // ---------------------------------------------------------------------------
  // clear_cache

  /** Whether `clear_cache(env)` removes the key: the admin token and the
      org listing of `env`, and every string key starting "org_full_data_"
      and ending "_" + env. */
  predicate Cleared(k: Key, env: string)
  {
    k == TokenKey(env) || k == OrgsKey(env) ||
    (k.StrKey? && StartsWith(k.s, "org_full_data_") && EndsWith(k.s, "_" + env))
  }

  /** The session after `clear_cache(env)`. */
  function ClearedState(s: map<Key, Entry>, env: string): (r: map<Key, Entry>)
    ensures forall k :: k in r <==> k in s && !Cleared(k, env)
    ensures forall k :: k in r ==> r[k] == s[k]
  {
    map k | k in s && !Cleared(k, env) :: s[k]
  }

  /** Clearing drops the token, the listing and the org data of `env`, for
      every org. */
  lemma ClearedOwn(orgId: string, env: string)
    ensures Cleared(TokenKey(env), env) && Cleared(OrgsKey(env), env) && Cleared(FullKey(orgId, env), env)
  {
    var f := FullKey(orgId, env).s;
    assert f[|f| - |"_" + env|..] == "_" + env;
    assert f[..|"org_full_data_"|] == "org_full_data_";
  }

  /** Clearing keeps the token and the listing of every other environment. */
  lemma ClearedKeepsOthers(env: string, other: string)
    requires other != env
    ensures !Cleared(TokenKey(other), env) && !Cleared(OrgsKey(other), env)
  {
    KeyKinds("", env);
    KeyKinds("", other);
    assert TokenKey(other).s[12..] == other && TokenKey(env).s[12..] == env;
    assert OrgsKey(other).s[10..] == other && OrgsKey(env).s[10..] == env;
    assert TokenKey(other) != OrgsKey(env) && OrgsKey(other) != TokenKey(env);
  }

  /** The suffix test reaches further than one environment: clearing `env`
      also drops the org data cached under any environment whose name ends
      in "_" + env. */
  lemma ClearedSuffix(orgId: string, prefix: string, env: string)
    ensures Cleared(FullKey(orgId, prefix + "_" + env), env)
  {
    var f := FullKey(orgId, prefix + "_" + env).s;
    assert f == "org_full_data_" + orgId + "_" + prefix + "_" + env;
    assert f[|f| - |"_" + env|..] == "_" + env;
    assert f[..|"org_full_data_"|] == "org_full_data_";
  }

  /** Clearing keeps the session valid, and clearing twice is clearing once. */
  lemma ClearedValid(s: map<Key, Entry>, env: string)
    requires ValidState(s)
    ensures ValidState(ClearedState(s, env))
    ensures ClearedState(ClearedState(s, env), env) == ClearedState(s, env)
  {
  }

  /** After clearing, the token, the listing and the org data of `env` are
      fetched again on their next use. */
  lemma ClearedRefetches(s: map<Key, Entry>, orgId: string, env: string)
    ensures TokenKey(env) !in ClearedState(s, env)
    ensures OrgsKey(env) !in ClearedState(s, env)
    ensures FullKey(orgId, env) !in ClearedState(s, env)
  {
    ClearedOwn(orgId, env);
  }

  // ---------------------------------------------------------------------------
  // The loops, on values

  /** The loop of `get_org_id_by_name`. */
  method FindOrgId(orgs: seq<Json>, orgName: string) returns (r: Result<Option<string>, Exc>)
    ensures r == ScanOrgs(orgs, orgName)
  {
    for i := 0 to |orgs|
      invariant ScanOrgs(orgs, orgName) == ScanOrgs(orgs[i..], orgName)
    {
      assert orgs[i..][1..] == orgs[i + 1..];
      if !orgs[i].Object? {
        return Err(AttributeError);
      }
      var verdict := OrgVerdict(orgs[i].fields, orgName);
      if verdict.Some? {
        return Ok(verdict);
      }
    }
    assert orgs[|orgs|..] == [];
    return Ok(DotPrefix(orgName));
  }

  /** The workspace loop of `_get_org_full_data`. */
  method GatherConnections(fetch: Json -> Result<seq<Json>, Exc>, ws: seq<Json>) returns (r: Result<Dict<seq<Json>>, Exc>)
    ensures r == Gather(fetch, ws, [])
  {
    var byWorkspace: Dict<seq<Json>> := [];
    for i := 0 to |ws|
      invariant Gather(fetch, ws, []) == Gather(fetch, ws[i..], byWorkspace)
    {
      assert ws[i..][1..] == ws[i + 1..];
      if ws[i].Object? {
        var id := OrgFetch.WorkspaceId(ws[i].fields);
        if Truthy(id) {
          if !Hashable(id) {
            return Err(TypeError);
          }
          var fetched := fetch(id);
          var conns: seq<Json> := [];
          if fetched.Ok? {
            conns := NormalizeConnections(fetched.value);
          }
          byWorkspace := Assign(byWorkspace, id, conns);
        }
      }
    }
    assert ws[|ws|..] == [];
    return Ok(byWorkspace);
  }

  /** The loop of the cached path of `_get_org_full_data`, which normalises
      each stored list again in place. */
  method RenormalizeCache(d: Dict<seq<Json>>) returns (r: Dict<seq<Json>>)
    ensures r == Renormalized(d)
  {
    r := d;
    for i := 0 to |d|
      invariant |r| == |d|
      invariant forall j :: 0 <= j < i ==> r[j] == (d[j].0, NormalizeAll(d[j].1))
      invariant forall j :: i <= j < |d| ==> r[j] == d[j]
    {
      var conns := NormalizeConnections(d[i].1);
      r := r[i := (d[i].0, conns)];
    }
  }

  /** The inner loop of `get_providers_for_org`, over the connections of
      one workspace. */
  method CollectRows(row: Json -> Option<ProviderRow>, conns: seq<Json>) returns (rows: seq<ProviderRow>)
    ensures rows == ConnectionRows(row, conns)
  {
    rows := [];
    for j := 0 to |conns|
      invariant rows == ConnectionRows(row, conns[..j])
    {
      assert conns[..j + 1][..j] == conns[..j];
      var one := row(conns[j]);
      if one.Some? {
        rows := rows + [one.value];
      }
    }
    assert conns[..|conns|] == conns;
  }

  /** The outer loop of `get_providers_for_org`, over the workspaces. */
  method ListProviders(conns: Dict<seq<Json>>, ws: seq<Json>) returns (r: Result<seq<ProviderRow>, Exc>)
    ensures r == WorkspaceRows(conns, ws, [])
  {
    var rows: seq<ProviderRow> := [];
    for i := 0 to |ws|
      invariant WorkspaceRows(conns, ws, []) == WorkspaceRows(conns, ws[i..], rows)
    {
      assert ws[i..][1..] == ws[i + 1..];
      if ws[i].Object? {
        var id := OrgFetch.WorkspaceId(ws[i].fields);
        var name := Get(ws[i].fields, "name", id);
        if !Hashable(id) {
          return Err(TypeError);
        }
        var found := Find(conns, id);
        var cs := if found.Some? then found.value else [];
        var more := CollectRows(RowFor(id, name), cs);
        rows := rows + more;
      }
    }
    assert ws[|ws|..] == [];
    return Ok(rows);
  }

  /** The inner search loop of `build_api_url`. */
  method SearchConnections(conns: seq<Json>, connectionId: string, provider: string, found: Json)
    returns (matched: bool, providerFound: Json)
    ensures (matched, providerFound) == ScanConnections(conns, connectionId, provider, found)
  {
    providerFound := found;
    for j := 0 to |conns|
      invariant ScanConnections(conns, connectionId, provider, found) ==
                ScanConnections(conns[j..], connectionId, provider, providerFound)
    {
      assert conns[j..][1..] == conns[j + 1..];
      var c := conns[j];
      var id := Null;
      if c.Object? {
        id := Get(c.fields, "id", Null);
        if !Truthy(providerFound) || providerFound == Str("exotel") {
          providerFound := ProviderOf(c.fields, Str(provider));
        }
      } else if c.Str? {
        id := c;
      }
      if id == Str(connectionId) {
        if c.Object? {
          providerFound := ProviderOf(c.fields, Str(provider));
        }
        return true, providerFound;
      }
    }
    assert conns[|conns|..] == [];
    return false, providerFound;
  }

  /** The outer search loop of `build_api_url`. */
  method SearchWorkspaces(d: Dict<seq<Json>>, connectionId: string, provider: string, workspaceId: Json)
    returns (w: Json, p: Json)
    ensures (w, p) == ScanWorkspaces(d, connectionId, provider, workspaceId, Str(provider))
  {
    w, p := workspaceId, Str(provider);
    for i := 0 to |d|
      invariant ScanWorkspaces(d, connectionId, provider, workspaceId, Str(provider)) ==
                ScanWorkspaces(d[i..], connectionId, provider, w, p)
    {
      assert d[i..][1..] == d[i + 1..];
      var matched;
      matched, p := SearchConnections(d[i].1, connectionId, provider, p);
      if matched {
        w := d[i].0;
      }
      if Truthy(w) {
        return;
      }
    }
    assert d[|d|..] == [];
  }

  // ---------------------------------------------------------------------------
  // The session

  /** `st.session_state`, which the getters of this module read and write
      under their cache keys. */
  class Session {
    var state: map<Key, Entry>

    /** Every cache key holds what its getter stores. */
    predicate Valid()
      reads this
    {
      ValidState(state)
    }

    constructor()
      ensures Valid() && state == map[]
    {
      state := map[];
    }

    /** `_get_admin_token(env)`. */
    method AdminToken(env: string, svc: Services) returns (r: Result<string, Exc>)
      requires Valid()
      modifies this
      ensures Valid() && Memo(r, state) == TokenMemo(old(state), env, svc)
    {
      KeyKinds("", env);
      var key := TokenKey(env);
      if key !in state {
        var login := svc.login(env);
        if login.Err? {
          return Err(login.error);
        }
        ValidUpdate(state, key, Token(login.value));
        state := state[key := Token(login.value)];
      }
      r := Ok(state[key].token);
    }

    /** `_get_orgs_data(env)`. */
    method OrgsData(env: string, svc: Services) returns (r: Result<Json, Exc>)
      requires Valid()
      modifies this
      ensures Valid() && Memo(r, state) == OrgsMemo(old(state), env, svc)
    {
      KeyKinds("", env);
      var key := OrgsKey(env);
      if key !in state {
        var token := AdminToken(env, svc);
        if token.Err? {
          return Err(token.error);
        }
        var orgs := svc.getOrgs(env, token.value);
        if orgs.Err? {
          return Err(orgs.error);
        }
        state := state[key := Orgs(orgs.value)];
      }
      r := Ok(state[key].orgs);
    }

    /** `_get_org_full_data(org_id, env)`. */
    method OrgFullData(orgId: string, env: string, svc: Services) returns (r: Result<FullData, Exc>)
      requires Valid()
      modifies this
      ensures Valid() && Memo(r, state) == FullMemo(old(state), orgId, env, svc)
    {
      KeyKinds(orgId, env);
      var key := FullKey(orgId, env);
      if key in state {
        var cached := state[key].data;
        var conns := RenormalizeCache(cached.connections);
        state := state[key := Full(FullData(cached.workspaces, conns))];
        return Ok(FullData(cached.workspaces, conns));
      }
      r := FetchFullData(orgId, env, svc);
    }

    /** The uncached path of `_get_org_full_data`. */
    method FetchFullData(orgId: string, env: string, svc: Services) returns (r: Result<FullData, Exc>)
      requires Valid() && FullKey(orgId, env) !in state
      modifies this
      ensures Valid() && Memo(r, state) == FullMemo(old(state), orgId, env, svc)
    {
      KeyKinds(orgId, env);
      var token := AdminToken(env, svc);
      if token.Err? {
        return Err(token.error);
      }
      var ws := WorkspacesOf(svc, env, token.value, orgId);
      if ws.Err? {
        return Err(ws.error);
      }
      var xs := Iter(ws.value);
      if xs.None? {
        return Err(TypeError);
      }
      var conns := GatherConnections(ConnectionsFetch(svc, env, token.value, orgId), xs.value);
      if conns.Err? {
        return Err(conns.error);
      }
      assert GatherAll(svc, env, token.value, orgId, ws.value) == conns;
      ValidUpdate(state, FullKey(orgId, env), Full(FullData(ws.value, conns.value)));
      state := state[FullKey(orgId, env) := Full(FullData(ws.value, conns.value))];
      r := Ok(FullData(ws.value, conns.value));
    }

    /** `get_org_list(env)`. */
    method GetOrgList(env: string, svc: Services) returns (names: seq<string>)
      requires Valid()
      modifies this
      ensures Valid() && Memo(Ok(names), state) == OrgListMemo(old(state), env, svc)
    {
      var orgs := OrgsData(env, svc);
      if orgs.Err? {
        return [];
      }
      var xs := Iter(orgs.value);
      if xs.None? {
        return [];
      }
      var collected := CollectOrgNames(xs.value);
      if collected.None? {
        return [];
      }
      names := Sort(collected.value);
    }

    /** `get_org_id_by_name(org_name, env)`. */
    method GetOrgIdByName(orgName: string, env: string, svc: Services) returns (r: Result<Option<string>, Exc>)
      requires Valid()
      modifies this
      ensures Valid() && Memo(r, state) == OrgIdMemo(old(state), orgName, env, svc)
    {
      var orgs := OrgsData(env, svc);
      if orgs.Err? {
        return Err(orgs.error);
      }
      if !Truthy(orgs.value) {
        return Ok(None);
      }
      var xs := Iter(orgs.value);
      if xs.None? {
        return Err(TypeError);
      }
      r := FindOrgId(xs.value, orgName);
    }

    /** `get_providers_for_org(org_name, env)`. */
    method GetProvidersForOrg(orgName: string, env: string, svc: Services) returns (r: Result<seq<ProviderRow>, Exc>)
      requires Valid()
      modifies this
      ensures Valid() && Memo(r, state) == ProvidersMemo(old(state), orgName, env, svc)
    {
      var id := GetOrgIdByName(orgName, env, svc);
      if id.Err? {
        return Err(id.error);
      }
      if id.value.None? || id.value.value == [] {
        return Ok([]);
      }
      var data := OrgFullData(id.value.value, env, svc);
      if data.Err? || !Truthy(data.value.workspaces) {
        return Ok([]);
      }
      var xs := Iter(data.value.workspaces);
      if xs.None? {
        return Ok([]);
      }
      var rows := ListProviders(data.value.connections, xs.value);
      if rows.Err? {
        return Ok([]);
      }
      r := Ok(rows.value);
    }

    /** `build_api_url(org_name, connection_id, workspace_id, provider, env)`. */
    method BuildApiUrl(orgName: string, connectionId: string, workspaceId: Json, provider: string, env: string,
                       svc: Services) returns (r: Result<string, Exc>)
      requires Valid()
      modifies this
      ensures Valid() && Memo(r, state) == ApiUrlMemo(old(state), orgName, connectionId, workspaceId, provider, env, svc)
    {
      var id := GetOrgIdByName(orgName, env, svc);
      if id.Err? {
        return Err(id.error);
      }
      if id.value.None? || id.value.value == [] {
        return Ok("");
      }
      var orgId := id.value.value;
      var w, p := workspaceId, Str(provider);
      if !Truthy(workspaceId) {
        var data := OrgFullData(orgId, env, svc);
        if data.Ok? {
          w, p := SearchWorkspaces(data.value.connections, connectionId, provider, workspaceId);
          if !Truthy(w) && Truthy(data.value.workspaces) {
            var first := FirstWorkspaceId(data.value.workspaces);
            if first.Some? {
              w := first.value;
            }
          }
        }
      }
      r := Ok(UrlOf(svc, env, orgId, w, p, connectionId));
    }

    /** `clear_cache(env)`: collects the keys to drop, then drops them. */
    method ClearCache(env: string)
      requires Valid()
      modifies this
      ensures Valid() && state == ClearedState(old(state), env)
    {
      var doomed: set<Key> := {TokenKey(env), OrgsKey(env)};
      var pending := state.Keys;
      while pending != {}
        invariant pending <= state.Keys
        invariant TokenKey(env) in doomed && OrgsKey(env) in doomed
        invariant forall k :: k in doomed ==> Cleared(k, env)
        invariant forall k :: k in state && k !in pending && Cleared(k, env) ==> k in doomed
        decreases pending
      {
        var k :| k in pending;
        if k.StrKey? && StartsWith(k.s, "org_full_data_") && EndsWith(k.s, "_" + env) {
          doomed := doomed + {k};
        }
        pending := pending - {k};
      }
      state := map k | k in state && k !in doomed :: state[k];
    }
  }
}
