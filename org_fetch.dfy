// The org-data layer of utils.py: list the workspaces of an org, the
// connections of each workspace and the phone numbers of each connection,
// reading whatever shape the backend answers in, and flatten everything into
// one list of phone-number records that carry their workspace and connection.

module OrgFetch {

  import opened Wrappers
  import opened PyText
  import opened PyValue
  import opened Http
  import ApiClient

  type Page = ApiClient.Page

  // ---------------------------------------------------------------------------
  // Requests

  /** `{"Authorization": f"Bearer {token}"}`. */
  function AuthHeaders(token: string): (r: Headers)
    ensures Header(r, "Authorization") == Some("Bearer " + token)
  {
    [("Authorization", "Bearer " + token)]
  }

  function WorkspacesUrl(baseUrl: string, orgId: string): string
  {
    baseUrl + "/api/org/orgs/" + orgId + "/workspaces"
  }

  function ConnectionsUrl(baseUrl: string, orgId: string, workspaceId: string): string
  {
    baseUrl + "/api/app-authoring/orgs/" + orgId + "/workspaces/" + workspaceId + "/connections"
  }

  function PhoneNumbersUrl(baseUrl: string, orgId: string, workspaceId: string, provider: string,
                           connectionId: string): string
  {
    baseUrl + "/api/app-authoring/orgs/" + orgId + "/workspaces/" + workspaceId +
    "/channels/v2v/providers/" + provider + "/connections/" + connectionId + "/phone-numbers"
  }

  /** The URL `requests` builds from `full_url` and the page parameters.
      `full_url` is the base URL followed by the path `PhoneNumbersUrl` writes, so it
      holds no query and `requests` joins the parameters with "?"; a base URL
      that already carried a query would get "&" instead, which this join
      does not model. */
  function PageRequestUrl(fullUrl: string, showFree: bool, offset: int, limit: int): (r: string)
    ensures StartsWith(r, fullUrl + "?show_free_phone_numbers=")
  {
    fullUrl + "?show_free_phone_numbers=" + (if showFree then "true" else "false") +
    "&offset=" + IntText(offset) + "&limit=" + IntText(limit)
  }

  /** `raise_for_status()` followed by `json()`: an error status raises
      HTTPError, a failed transport or an undecodable body a RequestException. */
  function Decoded(reply: Reply): (r: Result<Json, Exc>)
    ensures r.Ok? <==> reply.Response? && !IsHttpError(reply.status) && reply.body.Json?
    ensures r.Ok? ==> r.value == reply.body.value
    ensures reply.Response? && IsHttpError(reply.status) ==> r == Err(HttpError(reply.status))
    ensures r.Err? && !reply.Response? ==> r.error == RequestError
  {
    match reply
    case TransportFailure => Err(RequestError)
    case Response(status, _, body) =>
      if IsHttpError(status) then Err(HttpError(status))
      else if body.NotJson? then Err(RequestError)
      else Ok(body.value)
  }

  // ---------------------------------------------------------------------------
  // Workspaces

  /** The shape rule of the workspace and connection listings: the `items` of a
      dict that has them, a non-empty dict on its own, a list as it is, and
      nothing for an empty dict or any other value. */
  function Listing(result: Json): Json
  {
    match result
    case Object(fs) =>
      if Has(fs, "items") then Get(fs, "items", Null)
      else if fs != [] then List([result])
      else List([])
    case List(_) => result
    case _ => List([])
  }

  /** `get_workspaces` on the backend's reply. The count it logs takes `len()`
      of the listing, which raises TypeError when `items` holds a number, a
      boolean or null. */
  function GetWorkspaces(reply: Reply): (r: Result<Json, Exc>)
    ensures Decoded(reply).Err? ==> r == Err(Decoded(reply).error)
    ensures r.Ok? ==> Iter(r.value).Some?
    ensures r.Err? && Decoded(reply).Ok? ==> r.error == TypeError
  {
    match Decoded(reply)
    case Err(e) => Err(e)
    case Ok(result) =>
      var ws := Listing(result);
      if Len(ws).None? then Err(TypeError) else Ok(ws)
  }

  /** The listing of each documented shape: the items of a paginated dict, a
      single record, a bare list, or nothing. */
  lemma ListingShapes(result: Json)
    ensures result.Object? && Has(result.fields, "items") && Get(result.fields, "items", Null).List? ==>
              Iter(Listing(result)) == Some(Get(result.fields, "items", Null).items)
    ensures result.Object? && !Has(result.fields, "items") ==>
              Iter(Listing(result)) == Some(if result.fields == [] then [] else [result])
    ensures result.List? ==> Iter(Listing(result)) == Some(result.items)
    ensures !result.Object? && !result.List? ==> Iter(Listing(result)) == Some([])
  {
  }

  // ---------------------------------------------------------------------------
  // Connections

  /** The id keys of a connection record, in the order they are tried. */
  const ConnectionIdKeys: seq<string> := ["id", "connection_id", "connectionId"]

  /** The id a connection dict is kept under: `str()` of its first truthy id
      field, stripped. */
  function DictId(fs: seq<Field>): string
  {
    Strip(PyStr(FirstTruthy(fs, ConnectionIdKeys)))
  }

  /** A copy of the dict with "id" set to `id`, and "name" set to it too when
      missing or falsy. */
  function Named(fs: seq<Field>, id: string): seq<Field>
  {
    var withId := Put(fs, "id", Str(id));
    if Has(withId, "name") && Truthy(Get(withId, "name", Null)) then withId else Put(withId, "name", Str(id))
  }

  /** What `Named` holds: the id, the old name when it was truthy and the id
      otherwise, and every other field as it was. */
  lemma NamedFields(fs: seq<Field>, id: string)
    ensures Lookup(Named(fs, id), "id") == Some(Str(id))
    ensures Truthy(Get(fs, "name", Null)) ==> Lookup(Named(fs, id), "name") == Lookup(fs, "name")
    ensures !Truthy(Get(fs, "name", Null)) ==> Lookup(Named(fs, id), "name") == Some(Str(id))
    ensures forall k :: k != "id" && k != "name" ==> Lookup(Named(fs, id), k) == Lookup(fs, k)
  {
    var withId := Put(fs, "id", Str(id));
    assert Lookup(withId, "name") == Lookup(fs, "name");
  }

  /** What `get_connections_from_workspace` keeps of one listed entry. A string
      with a non-blank character becomes `{"id": s, "name": s}` unstripped; a
      dict whose first truthy id has a non-blank `str()` is kept `Named` after
      it; anything else is dropped. */
  function NormalizeConnection(conn: Json): (r: Option<Json>)
  {
    match conn
    case Str(s) =>
      if s != [] && Strip(s) != [] then Some(Object([Field("id", conn), Field("name", conn)])) else None
    case Object(fs) => KeepDict(fs)
    case _ => None
  }

  function KeepDict(fs: seq<Field>): Option<Json>
  {
    if Truthy(FirstTruthy(fs, ConnectionIdKeys)) && DictId(fs) != [] then Some(Object(Named(fs, DictId(fs))))
    else None
  }

  /** A kept connection is a dict whose "id" is a string with a non-blank
      character. */
  predicate IsConnection(c: Json)
  {
    c.Object? && Lookup(c.fields, "id").Some? && Lookup(c.fields, "id").value.Str? &&
    Strip(Lookup(c.fields, "id").value.s) != []
  }

  /** Every entry that survives is a connection, and a string entry keeps
      its text as both id and name. */
  lemma NormalizedIsConnection(conn: Json)
    requires NormalizeConnection(conn).Some?
    ensures IsConnection(NormalizeConnection(conn).value)
    ensures conn.Str? ==> NormalizeConnection(conn).value == Object([Field("id", conn), Field("name", conn)])
  {
    if conn.Object? {
      NamedFields(conn.fields, DictId(conn.fields));
      StripIdempotent(PyStr(FirstTruthy(conn.fields, ConnectionIdKeys)));
    }
  }

  /** A dict whose "id" already holds a stripped, non-blank string and whose
      name is truthy is kept exactly as it is. */
  lemma NormalizeFixed(fs: seq<Field>, id: string)
    requires Lookup(fs, "id") == Some(Str(id)) && id != [] && Strip(id) == id
    requires Truthy(Get(fs, "name", Null))
    ensures KeepDict(fs) == Some(Object(fs))
  {
    DictIdOfId(fs, id);
    NamedFixed(fs, id);
  }

  lemma DictIdOfId(fs: seq<Field>, id: string)
    requires Lookup(fs, "id") == Some(Str(id)) && id != [] && Strip(id) == id
    ensures FirstTruthy(fs, ConnectionIdKeys) == Str(id) && DictId(fs) == id
  {
    FirstTruthyHead(fs, ConnectionIdKeys);
  }

  lemma NamedFixed(fs: seq<Field>, id: string)
    requires Lookup(fs, "id") == Some(Str(id)) && Truthy(Get(fs, "name", Null))
    ensures Named(fs, id) == fs
  {
    PutSame(fs, "id", Str(id));
  }

  /** A `Named` copy has a stripped, non-blank id and a truthy name. */
  lemma NamedSettled(fs: seq<Field>)
    requires DictId(fs) != []
    ensures var id := DictId(fs);
            Lookup(Named(fs, id), "id") == Some(Str(id)) && Strip(id) == id &&
            Truthy(Get(Named(fs, id), "name", Null))
  {
    NamedFields(fs, DictId(fs));
    StripIdempotent(PyStr(FirstTruthy(fs, ConnectionIdKeys)));
  }

  /** Normalising a connection that came from a dict again changes nothing. */
  lemma RenormalizeDict(fs: seq<Field>)
    requires NormalizeConnection(Object(fs)).Some?
    ensures NormalizeConnection(NormalizeConnection(Object(fs)).value) == NormalizeConnection(Object(fs))
  {
    NamedSettled(fs);
    NormalizeFixed(Named(fs, DictId(fs)), DictId(fs));
  }

  /** The kept connections of a listing, in listing order. */
  function Connections(raw: seq<Json>): seq<Json>
  {
    if raw == [] then []
    else
      var last := NormalizeConnection(raw[|raw| - 1]);
      Connections(raw[..|raw| - 1]) + (if last.Some? then [last.value] else [])
  }

  /** Keeping never grows the list, and everything kept is a connection. */
  lemma {:induction false} ConnectionsKept(raw: seq<Json>)
    ensures |Connections(raw)| <= |raw|
    ensures forall i :: 0 <= i < |Connections(raw)| ==> IsConnection(Connections(raw)[i])
  {
    if raw != [] {
      ConnectionsKept(raw[..|raw| - 1]);
      var last := NormalizeConnection(raw[|raw| - 1]);
      if last.Some? {
        NormalizedIsConnection(raw[|raw| - 1]);
      }
    }
  }

  /** Keeping works entry by entry, so it distributes over concatenation:
      entries keep their relative order. */
  lemma {:induction false} ConnectionsConcat(a: seq<Json>, b: seq<Json>)
    ensures Connections(a + b) == Connections(a) + Connections(b)
    decreases |b|
  {
    if b == [] {
      assert a + b == a;
    } else {
      var b' := b[..|b| - 1];
      assert (a + b)[..|a + b| - 1] == a + b';
      assert (a + b)[|a + b| - 1] == b[|b| - 1];
      ConnectionsConcat(a, b');
    }
  }

  /** The `for conn in connections_raw` loop of `get_connections_from_workspace`. */
  method KeepConnections(raw: seq<Json>) returns (connections: seq<Json>)
    ensures connections == Connections(raw)
  {
    connections := [];
    for i := 0 to |raw|
      invariant connections == Connections(raw[..i])
    {
      assert raw[..i + 1][..i] == raw[..i];
      var kept := NormalizeConnection(raw[i]);
      if kept.Some? {
        connections := connections + [kept.value];
      }
    }
    assert raw[..|raw|] == raw;
  }

  /** `get_connections_from_workspace` on the backend's reply, as a value.
      Iterating a listing that is a number, a boolean or null raises
      TypeError; the HTTPError it logs is raised again. */
  function ConnectionsOf(reply: Reply): (r: Result<seq<Json>, Exc>)
    ensures Decoded(reply).Err? ==> r == Err(Decoded(reply).error)
    ensures r.Err? && Decoded(reply).Ok? ==> r.error == TypeError
  {
    match Decoded(reply)
    case Err(e) => Err(e)
    case Ok(result) =>
      var raw := Iter(Listing(result));
      if raw.None? then Err(TypeError) else Ok(Connections(raw.value))
  }

  method GetConnectionsFromWorkspace(reply: Reply) returns (r: Result<seq<Json>, Exc>)
    ensures r == ConnectionsOf(reply)
  {
    var decoded := Decoded(reply);
    if decoded.Err? {
      return Err(decoded.error);
    }
    var raw := Iter(Listing(decoded.value));
    if raw.None? {
      return Err(TypeError);
    }
    var connections := KeepConnections(raw.value);
    return Ok(connections);
  }

  /** Whatever the reply, every connection returned is a dict with a non-blank
      string id. */
  lemma ConnectionsAreConnections(reply: Reply)
    requires ConnectionsOf(reply).Ok?
    ensures forall i :: 0 <= i < |ConnectionsOf(reply).value| ==> IsConnection(ConnectionsOf(reply).value[i])
  {
    var raw := Iter(Listing(Decoded(reply).value));
    ConnectionsKept(raw.value);
  }

  // ---------------------------------------------------------------------------
  // Phone numbers

  /** How `get_phone_numbers` reads one decoded page. A dict with "items" takes
      them, `has_more` defaulting to whether the page is full; the `total` it
      reads first takes `len()` of the items, which raises TypeError when they
      have none. A dict without "items" is one record (none when empty) and the
      last page; a list is the page; anything else an empty page. */
  function PhonePage(result: Json, limit: int): (r: Result<Page, Exc>)
    ensures r.Err? ==> r.error == TypeError
    ensures result.Object? && Has(result.fields, "items") && Has(result.fields, "has_more") && r.Ok? ==>
              r.value.hasMore == Truthy(Get(result.fields, "has_more", Null))
    ensures result.Object? && !Has(result.fields, "items") ==> r.Ok? && !r.value.hasMore
  {
    match result
    case Object(fs) =>
      if Has(fs, "items") then
        var items := Get(fs, "items", Null);
        if Len(items).None? then Err(TypeError)
        else Ok(ApiClient.Page(Iter(items).value, Truthy(Get(fs, "has_more", Bool(Len(items).value == limit)))))
      else Ok(ApiClient.Page(if fs != [] then [result] else [], false))
    case List(xs) => Ok(ApiClient.Page(xs, |xs| == limit))
    case _ => Ok(ApiClient.Page([], false))
  }

  /** The page the backend serves at `offset`, or the exception reading it raises. */
  function PhoneRound(server: Request -> Reply, fullUrl: string, headers: Headers, showFree: bool,
                      limit: int, offset: nat): Result<Page, Exc>
  {
    match Decoded(server(HttpGet(PageRequestUrl(fullUrl, showFree, offset, limit), headers)))
    case Err(e) => Err(e)
    case Ok(result) => PhonePage(result, limit)
  }

  function PhoneRounds(server: Request -> Reply, fullUrl: string, headers: Headers, showFree: bool,
                       limit: int): nat -> Result<Page, Exc>
  {
    (o: nat) => PhoneRound(server, fullUrl, headers, showFree, limit, o)
  }

  /** Whether the loop asks for another page after the one at `offset`: it was
      read, is at least `limit` long and says there is more. */
  predicate MorePages(pages: nat -> Result<Page, Exc>, limit: int, offset: nat)
  {
    pages(offset).Ok? && pages(offset).value.items != [] &&
    |pages(offset).value.items| >= limit && pages(offset).value.hasMore
  }

  /** The loop of `get_phone_numbers` from `offset`, with `acc` gathered so far
      and at most `fuel` requests left. */
  function Collect(pages: nat -> Result<Page, Exc>, limit: int, offset: nat, acc: seq<Json>, fuel: nat)
    : Outcome<seq<Json>>
    requires limit > 0
    decreases fuel
  {
    if fuel == 0 then OutOfFuel
    else match pages(offset)
      case Err(e) => Raised(e)
      case Ok(p) =>
        if p.items == [] then Done(acc)
        else if |p.items| < limit || !p.hasMore then Done(acc + p.items)
        else Collect(pages, limit, offset + limit, acc + p.items, fuel - 1)
  }

  /** The items of `n` consecutive pages from `offset`, in offset order. */
  function Concat(pages: nat -> Result<Page, Exc>, limit: int, offset: nat, n: nat): seq<Json>
    requires limit > 0
    decreases n
  {
    if n == 0 || pages(offset).Err? then []
    else pages(offset).value.items + Concat(pages, limit, offset + limit, n - 1)
  }

  /** A page that ends the loop. */
  lemma CollectLast(pages: nat -> Result<Page, Exc>, limit: int, offset: nat, acc: seq<Json>, fuel: nat)
    requires limit > 0 && fuel > 0 && !MorePages(pages, limit, offset)
    ensures pages(offset).Err? ==> Collect(pages, limit, offset, acc, fuel) == Raised(pages(offset).error)
    ensures pages(offset).Ok? ==> Collect(pages, limit, offset, acc, fuel) == Done(acc + pages(offset).value.items)
  {
    if pages(offset).Ok? && pages(offset).value.items == [] {
      assert acc + pages(offset).value.items == acc;
    }
  }

  /** The loop's invariant: going on from `offset` with `all` gathered after
      `n` requests gives what the whole loop gives. */
  predicate CollectResumes(pages: nat -> Result<Page, Exc>, limit: int, fuel: nat, n: nat, offset: nat,
                           all: seq<Json>)
    requires limit > 0 && n <= fuel
  {
    Collect(pages, limit, 0, [], fuel) == Collect(pages, limit, offset, all, fuel - n)
  }

  lemma CollectResumesNext(pages: nat -> Result<Page, Exc>, limit: int, fuel: nat, n: nat, offset: nat,
                           all: seq<Json>)
    requires limit > 0 && n < fuel && CollectResumes(pages, limit, fuel, n, offset, all)
    requires MorePages(pages, limit, offset)
    ensures CollectResumes(pages, limit, fuel, n + 1, offset + limit, all + pages(offset).value.items)
  {
  }

  /** The `while True` loop of `get_phone_numbers` over the pages the backend
      serves, allowing at most `fuel` requests. */
  method CollectLoop(pages: nat -> Result<Page, Exc>, limit: int, fuel: nat) returns (r: Outcome<seq<Json>>)
    requires limit > 0
    ensures r == Collect(pages, limit, 0, [], fuel)
  {
    var all: seq<Json> := [];
    var offset: nat := 0;
    var n: nat := 0;
    while n < fuel
      invariant n <= fuel
      invariant CollectResumes(pages, limit, fuel, n, offset, all)
      decreases fuel - n
    {
      var page := pages(offset);
      if !MorePages(pages, limit, offset) {
        CollectLast(pages, limit, offset, all, fuel - n);
        return if page.Err? then Raised(page.error) else Done(all + page.value.items);
      }
      CollectResumesNext(pages, limit, fuel, n, offset, all);
      all := all + page.value.items;
      offset := offset + limit;
      n := n + 1;
    }
    return OutOfFuel;
  }

  /** `get_phone_numbers(...)` against the backend, allowing at most `fuel`
      requests. Every exception escapes. */
  method GetPhoneNumbers(server: Request -> Reply, fullUrl: string, headers: Headers, showFree: bool,
                         limit: int, fuel: nat) returns (r: Outcome<seq<Json>>)
    requires limit > 0
    ensures r == Collect(PhoneRounds(server, fullUrl, headers, showFree, limit), limit, 0, [], fuel)
  {
    r := CollectLoop(PhoneRounds(server, fullUrl, headers, showFree, limit), limit, fuel);
  }

  /** The offset of the `k`-th page from `offset`: `offset + k * limit`. */
  function At(offset: nat, limit: int, k: nat): nat
    requires limit > 0
  {
    if k == 0 then offset else At(offset, limit, k - 1) + limit
  }

  lemma {:induction false} AtShift(offset: nat, limit: int, k: nat)
    requires limit > 0
    ensures At(offset + limit, limit, k) == At(offset, limit, k + 1)
  {
    if k > 0 {
      AtShift(offset, limit, k - 1);
    }
  }

  /** How many pages the loop requests from `offset` within `fuel` requests. */
  function Reads(pages: nat -> Result<Page, Exc>, limit: int, offset: nat, fuel: nat): nat
    requires limit > 0
    decreases fuel
  {
    if fuel == 0 then 0
    else if MorePages(pages, limit, offset) then 1 + Reads(pages, limit, offset + limit, fuel - 1)
    else 1
  }

  /** The loop asks for the next page only after a full page that said there
      was more: every page it reads but the last was one of those, and when it
      stops with fuel to spare the last one was not. */
  lemma {:induction false} ReadsFullPages(pages: nat -> Result<Page, Exc>, limit: int, offset: nat, fuel: nat)
    requires limit > 0
    ensures Reads(pages, limit, offset, fuel) <= fuel
    ensures forall k :: 0 <= k < Reads(pages, limit, offset, fuel) - 1 ==> MorePages(pages, limit, At(offset, limit, k))
    ensures 0 < Reads(pages, limit, offset, fuel) < fuel ==>
              !MorePages(pages, limit, At(offset, limit, Reads(pages, limit, offset, fuel) - 1))
    decreases fuel
  {
    if fuel > 0 && MorePages(pages, limit, offset) {
      var n := Reads(pages, limit, offset + limit, fuel - 1);
      ReadsFullPages(pages, limit, offset + limit, fuel - 1);
      forall k | 0 <= k < n
        ensures MorePages(pages, limit, At(offset, limit, k))
      {
        if k > 0 {
          AtShift(offset, limit, k - 1);
        }
      }
      if n > 0 {
        AtShift(offset, limit, n - 1);
      }
    }
  }

  /** A finished loop returns what it had plus the items of every page it
      read, in offset order and with repeats kept. */
  lemma {:induction false} CollectConcatenates(pages: nat -> Result<Page, Exc>, limit: int, offset: nat,
                                               acc: seq<Json>, fuel: nat)
    requires limit > 0 && Collect(pages, limit, offset, acc, fuel).Done?
    ensures Collect(pages, limit, offset, acc, fuel).value == acc + Concat(pages, limit, offset, Reads(pages, limit, offset, fuel))
    decreases fuel
  {
    if !MorePages(pages, limit, offset) {
      CollectLast(pages, limit, offset, acc, fuel);
      assert Concat(pages, limit, offset + limit, 0) == [];
    } else {
      var items := pages(offset).value.items;
      CollectConcatenates(pages, limit, offset + limit, acc + items, fuel - 1);
      assert acc + items + Concat(pages, limit, offset + limit, Reads(pages, limit, offset + limit, fuel - 1)) ==
             acc + (items + Concat(pages, limit, offset + limit, Reads(pages, limit, offset + limit, fuel - 1)));
    }
  }

  /** A loop that raises does so on the last page it reads, and what it
      gathered before is lost. */
  lemma {:induction false} CollectRaises(pages: nat -> Result<Page, Exc>, limit: int, offset: nat,
                                         acc: seq<Json>, fuel: nat)
    requires limit > 0 && Collect(pages, limit, offset, acc, fuel).Raised?
    ensures Reads(pages, limit, offset, fuel) > 0
    ensures pages(At(offset, limit, Reads(pages, limit, offset, fuel) - 1)) ==
              Err(Collect(pages, limit, offset, acc, fuel).error)
    decreases fuel
  {
    if !MorePages(pages, limit, offset) {
      CollectLast(pages, limit, offset, acc, fuel);
    } else {
      var items := pages(offset).value.items;
      CollectRaises(pages, limit, offset + limit, acc + items, fuel - 1);
      AtShift(offset, limit, Reads(pages, limit, offset + limit, fuel - 1) - 1);
    }
  }

  /** A non-empty dict without "items" is one record and ends the loop. */
  lemma SingleRecordEndsPaging(pages: nat -> Result<Page, Exc>, limit: int, offset: nat, acc: seq<Json>,
                               fuel: nat, fs: seq<Field>)
    requires limit > 0 && fuel > 0 && fs != [] && !Has(fs, "items")
    requires pages(offset) == PhonePage(Object(fs), limit)
    ensures Collect(pages, limit, offset, acc, fuel) == Done(acc + [Object(fs)])
  {
    assert pages(offset).value.items == [Object(fs)];
  }

  // ---------------------------------------------------------------------------
  // The whole org

  /** The backend, where `get_base_url(env)` points, and the token `login`
      returned. */
  datatype Backend = Backend(server: Request -> Reply, baseUrl: string, token: string)

  /** What `auto_fetch_org_data` returns: the workspace listing, the
      connections under each workspace id and the phone numbers under each
      connection id. */
  datatype OrgData = OrgData(orgId: string, workspaces: Json, connections: map<Json, seq<Json>>,
                             phoneNumbers: map<string, seq<Json>>, token: string)

  /** The two dicts the workspace loop fills. */
  datatype Gathered = Gathered(connections: map<Json, seq<Json>>, phoneNumbers: map<string, seq<Json>>)

  /** `workspace.get("id") or workspace.get("workspace_id")`. */
  function WorkspaceId(fs: seq<Field>): Json
  {
    Or(Get(fs, "id", Null), Get(fs, "workspace_id", Null))
  }

  /** The id of a kept connection. */
  function ConnectionId(c: Json): string
    requires IsConnection(c)
  {
    Lookup(c.fields, "id").value.s
  }

  /** `get_phone_numbers(env, token, org_id, workspace_id, connection_id)`
      with its defaults: provider "exotel", free numbers shown, 100 a page. */
  function NumbersOf(b: Backend, orgId: string, workspaceId: Json, connectionId: string, fuel: nat)
    : Outcome<seq<Json>>
  {
    var fullUrl := PhoneNumbersUrl(b.baseUrl, orgId, PyStr(workspaceId), "exotel", connectionId);
    Collect(PhoneRounds(b.server, fullUrl, AuthHeaders(b.token), true, 100), 100, 0, [], fuel)
  }

  /** What one connection's fetch leaves under its id: the numbers, or an
      empty list when fetching them raised. */
  function Recorded(o: Outcome<seq<Json>>): Option<seq<Json>>
  {
    match o
    case Done(ns) => Some(ns)
    case Raised(_) => Some([])
    case OutOfFuel => None
  }

  /** The phone-number fetch of every connection of one workspace. */
  function NumbersFetch(b: Backend, orgId: string, workspaceId: Json, fuel: nat): string -> Outcome<seq<Json>>
  {
    (id: string) => NumbersOf(b, orgId, workspaceId, id, fuel)
  }

  /** The ids of kept connections, in order. */
  function Ids(conns: seq<Json>): (r: seq<string>)
    requires forall i :: 0 <= i < |conns| ==> IsConnection(conns[i])
    ensures |r| == |conns| && forall i :: 0 <= i < |conns| ==> r[i] == ConnectionId(conns[i])
  {
    seq(|conns|, i requires 0 <= i < |conns| && IsConnection(conns[i]) => ConnectionId(conns[i]))
  }

  /** The inner loop of `auto_fetch_org_data` over the connections of one
      workspace, from `phones` onwards: each connection id gets what `fetch`
      gives for it. */
  function ConnectionsNumbers(fetch: string -> Outcome<seq<Json>>, ids: seq<string>,
                              phones: map<string, seq<Json>>): Outcome<map<string, seq<Json>>>
    decreases |ids|
  {
    if ids == [] then Done(phones)
    else
      var rec := Recorded(fetch(ids[0]));
      if rec.None? then OutOfFuel else ConnectionsNumbers(fetch, ids[1..], phones[ids[0] := rec.value])
  }

  /** One pass of the workspace loop. `.get` on a workspace that is not a dict
      raises AttributeError; an id that cannot be a dict key raises TypeError,
      even from the handler that records a failed fetch. A failed connection
      fetch leaves an empty list under the workspace id. */
  function WorkspaceData(b: Backend, orgId: string, g: Gathered, w: Json, fuel: nat): Outcome<Gathered>
  {
    if !w.Object? then Raised(AttributeError)
    else
      var id := WorkspaceId(w.fields);
      var reply := b.server(HttpGet(ConnectionsUrl(b.baseUrl, orgId, PyStr(id)), AuthHeaders(b.token)));
      var conns := ConnectionsOf(reply);
      if !Hashable(id) then Raised(TypeError)
      else if conns.Err? then Done(g.(connections := g.connections[id := []]))
      else
        ConnectionsAreConnections(reply);
        match ConnectionsNumbers(NumbersFetch(b, orgId, id, fuel), Ids(conns.value), g.phoneNumbers)
        case Done(p) => Done(Gathered(g.connections[id := conns.value], p))
        case Raised(e) => Raised(e)
        case OutOfFuel => OutOfFuel
  }

  /** One pass of the workspace loop against the backend. */
  function Step(b: Backend, orgId: string, fuel: nat): (Gathered, Json) -> Outcome<Gathered>
  {
    (g: Gathered, w: Json) => WorkspaceData(b, orgId, g, w, fuel)
  }

  /** The workspace loop of `auto_fetch_org_data`, from `g` onwards, taking
      each workspace through `step`. */
  function WorkspacesData(step: (Gathered, Json) -> Outcome<Gathered>, ws: seq<Json>, g: Gathered): Outcome<Gathered>
    decreases |ws|
  {
    if ws == [] then Done(g)
    else match step(g, ws[0])
      case Done(g') => WorkspacesData(step, ws[1..], g')
      case Raised(e) => Raised(e)
      case OutOfFuel => OutOfFuel
  }

  /** `auto_fetch_org_data(org_id, env)` once logged in, allowing each
      phone-number loop at most `fuel` requests. */
  function AutoFetch(b: Backend, orgId: string, fuel: nat): Outcome<OrgData>
  {
    match GetWorkspaces(b.server(HttpGet(WorkspacesUrl(b.baseUrl, orgId), AuthHeaders(b.token))))
    case Err(e) => Raised(e)
    case Ok(ws) =>
      match WorkspacesData(Step(b, orgId, fuel), Iter(ws).value, Gathered(map[], map[]))
      case Done(g) => Done(OrgData(orgId, ws, g.connections, g.phoneNumbers, b.token))
      case Raised(e) => Raised(e)
      case OutOfFuel => OutOfFuel
  }

  /** The connection loop of `auto_fetch_org_data` for one workspace. */
  method FetchConnectionsNumbers(fetch: string -> Outcome<seq<Json>>, conns: seq<Json>,
                                 phones: map<string, seq<Json>>)
    returns (r: Outcome<map<string, seq<Json>>>)
    requires forall i :: 0 <= i < |conns| ==> IsConnection(conns[i])
    ensures r == ConnectionsNumbers(fetch, Ids(conns), phones)
  {
    ghost var ids := Ids(conns);
    var p := phones;
    for i := 0 to |conns|
      invariant ConnectionsNumbers(fetch, ids, phones) == ConnectionsNumbers(fetch, ids[i..], p)
    {
      assert ids[i..][1..] == ids[i + 1..];
      var id := ConnectionId(conns[i]);
      var numbers := fetch(id);
      if numbers.OutOfFuel? {
        return OutOfFuel;
      }
      p := p[id := if numbers.Done? then numbers.value else []];
    }
    return Done(p);
  }

  /** `auto_fetch_org_data(org_id, env)` once logged in. */
  method AutoFetchOrgData(b: Backend, orgId: string, fuel: nat) returns (r: Outcome<OrgData>)
    ensures r == AutoFetch(b, orgId, fuel)
  {
    var workspaces := GetWorkspaces(b.server(HttpGet(WorkspacesUrl(b.baseUrl, orgId), AuthHeaders(b.token))));
    if workspaces.Err? {
      return Raised(workspaces.error);
    }
    var ws := Iter(workspaces.value).value;
    var g := Gathered(map[], map[]);
    for i := 0 to |ws|
      invariant WorkspacesData(Step(b, orgId, fuel), ws, Gathered(map[], map[])) ==
                WorkspacesData(Step(b, orgId, fuel), ws[i..], g)
    {
      assert ws[i..][1..] == ws[i + 1..];
      var w := ws[i];
      if !w.Object? {
        return Raised(AttributeError);
      }
      var id := WorkspaceId(w.fields);
      var reply := b.server(HttpGet(ConnectionsUrl(b.baseUrl, orgId, PyStr(id)), AuthHeaders(b.token)));
      var conns := GetConnectionsFromWorkspace(reply);
      if !Hashable(id) {
        return Raised(TypeError);
      }
      if conns.Err? {
        g := g.(connections := g.connections[id := []]);
      } else {
        ConnectionsAreConnections(reply);
        var phones := FetchConnectionsNumbers(NumbersFetch(b, orgId, id, fuel), conns.value, g.phoneNumbers);
        if !phones.Done? {
          return if phones.Raised? then Raised(phones.error) else OutOfFuel;
        }
        g := Gathered(g.connections[id := conns.value], phones.value);
      }
    }
    return Done(OrgData(orgId, workspaces.value, g.connections, g.phoneNumbers, b.token));
  }

  /** Fetching one connection's numbers never raises out of the loop: every
      connection id ends up holding its numbers, or an empty list when the
      fetch failed, and ids of no connection keep what they held. */
  lemma {:induction false} ConnectionsNumbersRecorded(fetch: string -> Outcome<seq<Json>>, ids: seq<string>,
                                                      phones: map<string, seq<Json>>)
    requires forall i :: 0 <= i < |ids| ==> !fetch(ids[i]).OutOfFuel?
    ensures ConnectionsNumbers(fetch, ids, phones).Done?
    ensures forall i :: 0 <= i < |ids| ==>
              ids[i] in ConnectionsNumbers(fetch, ids, phones).value &&
              Some(ConnectionsNumbers(fetch, ids, phones).value[ids[i]]) == Recorded(fetch(ids[i]))
    ensures forall k :: k in phones && k !in ids ==>
              k in ConnectionsNumbers(fetch, ids, phones).value &&
              ConnectionsNumbers(fetch, ids, phones).value[k] == phones[k]
    decreases |ids|
  {
    if ids != [] {
      var phones' := phones[ids[0] := Recorded(fetch(ids[0])).value];
      var rest := ids[1..];
      ConnectionsNumbersRecorded(fetch, rest, phones');
      var p := ConnectionsNumbers(fetch, rest, phones');
      assert ConnectionsNumbers(fetch, ids, phones) == p;
      forall i | 0 <= i < |ids|
        ensures ids[i] in p.value && Some(p.value[ids[i]]) == Recorded(fetch(ids[i]))
      {
        if i > 0 {
          assert ids[i] == rest[i - 1];
        }
      }
    }
  }

  /** The connection loop never raises. */
  lemma {:induction false} ConnectionsNumbersNeverRaise(fetch: string -> Outcome<seq<Json>>, ids: seq<string>,
                                                        phones: map<string, seq<Json>>)
    ensures !ConnectionsNumbers(fetch, ids, phones).Raised?
    decreases |ids|
  {
    if ids != [] {
      var rec := Recorded(fetch(ids[0]));
      if rec.Some? {
        ConnectionsNumbersNeverRaise(fetch, ids[1..], phones[ids[0] := rec.value]);
      }
    }
  }

  /** The reply to a workspace's connections request. */
  function ConnectionsReply(b: Backend, orgId: string, id: Json): Reply
  {
    b.server(HttpGet(ConnectionsUrl(b.baseUrl, orgId, PyStr(id)), AuthHeaders(b.token)))
  }

  /** The exceptions a pass may raise on a workspace: AttributeError on one
      that is not a dict, TypeError on one whose id cannot be a dict key. */
  predicate ShapeError(w: Json, e: Exc)
  {
    (!w.Object? && e == AttributeError) || (w.Object? && !Hashable(WorkspaceId(w.fields)) && e == TypeError)
  }

  /** A pass against the backend never lets a failed fetch escape. */
  lemma StepRaisesOnlyOnShape(b: Backend, orgId: string, fuel: nat, g: Gathered, w: Json)
    ensures Step(b, orgId, fuel)(g, w).Raised? ==> ShapeError(w, Step(b, orgId, fuel)(g, w).error)
  {
    if w.Object? && Hashable(WorkspaceId(w.fields)) {
      var reply := ConnectionsReply(b, orgId, WorkspaceId(w.fields));
      if ConnectionsOf(reply).Ok? {
        ConnectionsAreConnections(reply);
        ConnectionsNumbersNeverRaise(NumbersFetch(b, orgId, WorkspaceId(w.fields), fuel),
                                     Ids(ConnectionsOf(reply).value), g.phoneNumbers);
      }
    }
  }

  /** The workspace loop raises only what one of its passes raised on the
      shape of a workspace. */
  lemma {:induction false} WorkspacesDataRaises(step: (Gathered, Json) -> Outcome<Gathered>, ws: seq<Json>,
                                                g: Gathered)
    requires forall g', w :: step(g', w).Raised? ==> ShapeError(w, step(g', w).error)
    requires WorkspacesData(step, ws, g).Raised?
    ensures exists i :: 0 <= i < |ws| && ShapeError(ws[i], WorkspacesData(step, ws, g).error)
    decreases |ws|
  {
    var one := step(g, ws[0]);
    if one.Done? {
      WorkspacesDataRaises(step, ws[1..], one.value);
      var i :| 0 <= i < |ws[1..]| && ShapeError(ws[1..][i], WorkspacesData(step, ws[1..], one.value).error);
      assert ws[1..][i] == ws[i + 1];
    } else {
      assert ShapeError(ws[0], WorkspacesData(step, ws, g).error);
    }
  }

  /** `auto_fetch_org_data` raises only when fetching the workspace listing
      fails or a workspace is not a dict with a usable id. */
  lemma AutoFetchRaises(b: Backend, orgId: string, fuel: nat)
    requires AutoFetch(b, orgId, fuel).Raised?
    ensures var listing := GetWorkspaces(b.server(HttpGet(WorkspacesUrl(b.baseUrl, orgId), AuthHeaders(b.token))));
            listing.Err? ||
            exists i :: 0 <= i < |Iter(listing.value).value| &&
              ShapeError(Iter(listing.value).value[i], AutoFetch(b, orgId, fuel).error)
  {
    var listing := GetWorkspaces(b.server(HttpGet(WorkspacesUrl(b.baseUrl, orgId), AuthHeaders(b.token))));
    if listing.Ok? {
      forall g', w ensures Step(b, orgId, fuel)(g', w).Raised? ==> ShapeError(w, Step(b, orgId, fuel)(g', w).error) {
        StepRaisesOnlyOnShape(b, orgId, fuel, g', w);
      }
      WorkspacesDataRaises(Step(b, orgId, fuel), Iter(listing.value).value, Gathered(map[], map[]));
    }
  }

  /** The connections the loop records for a workspace id: the fetched list,
      or an empty list when fetching it failed. */
  function ConnectionsRecorded(b: Backend, orgId: string, id: Json): seq<Json>
  {
    var conns := ConnectionsOf(ConnectionsReply(b, orgId, id));
    if conns.Ok? then conns.value else []
  }

  /** How one finished pass records a workspace: it was a dict with a
      usable id, and that id now holds `recorded` of it. */
  predicate RecordsUnder(recorded: Json -> seq<Json>, g: Gathered, w: Json, o: Outcome<Gathered>)
  {
    o.Done? ==> w.Object? && Hashable(WorkspaceId(w.fields)) &&
                o.value.connections == g.connections[WorkspaceId(w.fields) := recorded(WorkspaceId(w.fields))]
  }

  /** One finished pass against the backend records the workspace's
      connections under its id. */
  lemma StepRecords(b: Backend, orgId: string, fuel: nat, g: Gathered, w: Json)
    ensures RecordsUnder((id: Json) => ConnectionsRecorded(b, orgId, id), g, w, Step(b, orgId, fuel)(g, w))
  {
  }

  /** When the loop finishes, every workspace was a dict with a usable id,
      and its id holds what was recorded for it; ids of no workspace keep
      what they held. */
  lemma {:induction false} WorkspacesDataRecorded(step: (Gathered, Json) -> Outcome<Gathered>,
                                                  recorded: Json -> seq<Json>, ws: seq<Json>, g: Gathered)
    requires forall g', w :: RecordsUnder(recorded, g', w, step(g', w))
    requires WorkspacesData(step, ws, g).Done?
    ensures forall i :: 0 <= i < |ws| ==> ws[i].Object? && Hashable(WorkspaceId(ws[i].fields))
    ensures forall i :: 0 <= i < |ws| ==>
              WorkspaceId(ws[i].fields) in WorkspacesData(step, ws, g).value.connections &&
              WorkspacesData(step, ws, g).value.connections[WorkspaceId(ws[i].fields)] ==
                recorded(WorkspaceId(ws[i].fields))
    ensures forall k :: k in g.connections && (forall i :: 0 <= i < |ws| ==> WorkspaceId(ws[i].fields) != k) ==>
              k in WorkspacesData(step, ws, g).value.connections &&
              WorkspacesData(step, ws, g).value.connections[k] == g.connections[k]
    decreases |ws|
  {
    if ws != [] {
      var one := step(g, ws[0]);
      assert RecordsUnder(recorded, g, ws[0], one);
      var rest := ws[1..];
      var id0 := WorkspaceId(ws[0].fields);
      WorkspacesDataRecorded(step, recorded, rest, one.value);
      var r := WorkspacesData(step, rest, one.value).value;
      forall i | 0 <= i < |ws|
        ensures ws[i].Object? && Hashable(WorkspaceId(ws[i].fields))
        ensures WorkspaceId(ws[i].fields) in r.connections &&
                r.connections[WorkspaceId(ws[i].fields)] == recorded(WorkspaceId(ws[i].fields))
      {
        if i > 0 {
          assert ws[i] == rest[i - 1];
        }
      }
      forall k | k in g.connections && (forall i :: 0 <= i < |ws| ==> WorkspaceId(ws[i].fields) != k)
        ensures k in r.connections && r.connections[k] == g.connections[k]
      {
        assert id0 != k;
        forall i | 0 <= i < |rest| ensures WorkspaceId(rest[i].fields) != k {
          assert rest[i] == ws[i + 1];
        }
      }
    }
  }

  /** A finished `auto_fetch_org_data` holds, under each workspace's id, its
      connections, or an empty list when fetching them failed. */
  lemma AutoFetchRecordsConnections(b: Backend, orgId: string, fuel: nat)
    requires AutoFetch(b, orgId, fuel).Done?
    ensures var data := AutoFetch(b, orgId, fuel).value;
            var ws := Iter(data.workspaces).value;
            forall i :: 0 <= i < |ws| ==>
              ws[i].Object? && WorkspaceId(ws[i].fields) in data.connections &&
              data.connections[WorkspaceId(ws[i].fields)] == ConnectionsRecorded(b, orgId, WorkspaceId(ws[i].fields))
  {
    var listing := GetWorkspaces(b.server(HttpGet(WorkspacesUrl(b.baseUrl, orgId), AuthHeaders(b.token))));
    var recorded := (id: Json) => ConnectionsRecorded(b, orgId, id);
    forall g', w ensures RecordsUnder(recorded, g', w, Step(b, orgId, fuel)(g', w)) {
      StepRecords(b, orgId, fuel, g', w);
    }
    WorkspacesDataRecorded(Step(b, orgId, fuel), recorded, Iter(listing.value).value, Gathered(map[], map[]));
  }

  // ---------------------------------------------------------------------------
  // The flat list

  /** `phone_number.copy()` with the four context fields set. A dict keeps
      every other field; a list has `copy` but refuses string indices
      (TypeError); any other value has no `copy` (AttributeError). */
  function Enrich(pn: Json, workspaceId: Json, workspaceName: Json, connectionId: Json,
                  connectionName: Json): Result<Json, Exc>
  {
    match pn
    case Object(fs) =>
      Ok(Object(Put(Put(Put(Put(fs, "workspace_id", workspaceId), "workspace_name", workspaceName),
                            "connection_id", connectionId), "connection_name", connectionName)))
    case List(_) => Err(TypeError)
    case _ => Err(AttributeError)
  }

  const ContextKeys: seq<string> := ["workspace_id", "workspace_name", "connection_id", "connection_name"]

  /** An enriched record holds the four context values and every other field
      of the original record unchanged. */
  lemma EnrichFields(pn: Json, workspaceId: Json, workspaceName: Json, connectionId: Json, connectionName: Json)
    ensures Enrich(pn, workspaceId, workspaceName, connectionId, connectionName).Ok? <==> pn.Object?
    ensures pn.Object? ==>
              var e := Enrich(pn, workspaceId, workspaceName, connectionId, connectionName).value.fields;
              Lookup(e, "workspace_id") == Some(workspaceId) &&
              Lookup(e, "workspace_name") == Some(workspaceName) &&
              Lookup(e, "connection_id") == Some(connectionId) &&
              Lookup(e, "connection_name") == Some(connectionName) &&
              forall k :: k !in ContextKeys ==> Lookup(e, k) == Lookup(pn.fields, k)
  {
    if pn.Object? {
      var e := Put(Put(Put(Put(pn.fields, "workspace_id", workspaceId), "workspace_name", workspaceName),
                       "connection_id", connectionId), "connection_name", connectionName);
      assert Enrich(pn, workspaceId, workspaceName, connectionId, connectionName) == Ok(Object(e));
      PutFour(pn.fields, "workspace_id", workspaceId, "workspace_name", workspaceName,
              "connection_id", connectionId, "connection_name", connectionName);
      forall k | k !in ContextKeys ensures Lookup(e, k) == Lookup(pn.fields, k) {
        assert k != ContextKeys[0] && k != ContextKeys[1] && k != ContextKeys[2] && k != ContextKeys[3];
      }
    }
  }

  /** `phone_number.copy()` with the context of one connection set. */
  function Enricher(workspaceId: Json, workspaceName: Json, connectionId: Json, connectionName: Json)
    : Json -> Result<Json, Exc>
  {
    (pn: Json) => Enrich(pn, workspaceId, workspaceName, connectionId, connectionName)
  }

  /** The innermost loop: `f` of each record, appended to `acc`. */
  function EnrichAll(f: Json -> Result<Json, Exc>, pns: seq<Json>, acc: seq<Json>): Result<seq<Json>, Exc>
    decreases |pns|
  {
    if pns == [] then Ok(acc)
    else match f(pns[0])
      case Err(e) => Err(e)
      case Ok(one) => EnrichAll(f, pns[1..], acc + [one])
  }

  /** Exactly one copy per record, in order, after `acc`; it fails exactly
      when some record fails. */
  lemma {:induction false} EnrichAllOneEach(f: Json -> Result<Json, Exc>, pns: seq<Json>, acc: seq<Json>)
    ensures EnrichAll(f, pns, acc).Ok? <==> forall i :: 0 <= i < |pns| ==> f(pns[i]).Ok?
    ensures EnrichAll(f, pns, acc).Ok? ==>
              |EnrichAll(f, pns, acc).value| == |acc| + |pns| &&
              EnrichAll(f, pns, acc).value[..|acc|] == acc &&
              forall i :: 0 <= i < |pns| ==> f(pns[i]) == Ok(EnrichAll(f, pns, acc).value[|acc| + i])
    decreases |pns|
  {
    if pns != [] {
      var one := f(pns[0]);
      var rest := pns[1..];
      if one.Ok? {
        EnrichAllOneEach(f, rest, acc + [one.value]);
        forall i | 0 <= i < |rest| ensures rest[i] == pns[i + 1] { }
        if EnrichAll(f, pns, acc).Ok? {
          var r := EnrichAll(f, pns, acc).value;
          assert r[..|acc| + 1] == acc + [one.value];
          assert r[..|acc|] == r[..|acc| + 1][..|acc|];
          assert r[|acc|] == r[..|acc| + 1][|acc|];
        }
      }
    }
  }

  /** `data["phone_numbers"].get(connection_id, [])`. */
  function NumbersUnder(phones: map<string, seq<Json>>, connectionId: Json): Result<seq<Json>, Exc>
  {
    if connectionId.Str? && connectionId.s in phones then Ok(phones[connectionId.s])
    else if Hashable(connectionId) then Ok([])
    else Err(TypeError)
  }

  /** The middle loop over the connections of one workspace. */
  function ConnectionRecords(phones: map<string, seq<Json>>, conns: seq<Json>, workspaceId: Json,
                             workspaceName: Json, acc: seq<Json>): Result<seq<Json>, Exc>
    decreases |conns|
  {
    if conns == [] then Ok(acc)
    else if !conns[0].Object? then Err(AttributeError)
    else
      var id := Get(conns[0].fields, "id", Null);
      var name := Get(conns[0].fields, "name", id);
      match NumbersUnder(phones, id)
      case Err(e) => Err(e)
      case Ok(pns) =>
        match EnrichAll(Enricher(workspaceId, workspaceName, id, name), pns, acc)
        case Err(e) => Err(e)
        case Ok(acc') => ConnectionRecords(phones, conns[1..], workspaceId, workspaceName, acc')
  }

  /** `data["connections"].get(workspace_id, [])`. */
  function ConnectionsUnder(connections: map<Json, seq<Json>>, workspaceId: Json): Result<seq<Json>, Exc>
  {
    if !Hashable(workspaceId) then Err(TypeError)
    else if workspaceId in connections then Ok(connections[workspaceId])
    else Ok([])
  }

  /** The outer loop over the workspaces. */
  function WorkspaceRecords(data: OrgData, ws: seq<Json>, acc: seq<Json>): Result<seq<Json>, Exc>
    decreases |ws|
  {
    if ws == [] then Ok(acc)
    else if !ws[0].Object? then Err(AttributeError)
    else
      var id := WorkspaceId(ws[0].fields);
      var name := Get(ws[0].fields, "name", id);
      match ConnectionsUnder(data.connections, id)
      case Err(e) => Err(e)
      case Ok(conns) =>
        match ConnectionRecords(data.phoneNumbers, conns, id, name, acc)
        case Err(e) => Err(e)
        case Ok(acc') => WorkspaceRecords(data, ws[1..], acc')
  }

  /** The flat list of `get_all_phone_numbers_flat` over fetched data. */
  function Flat(data: OrgData): Result<seq<Json>, Exc>
  {
    match Iter(data.workspaces)
    case None => Err(TypeError)
    case Some(ws) => WorkspaceRecords(data, ws, [])
  }

  /** The workspaces are taken in order: the records of `a + b` are those of
      `a` followed by those of `b`. */
  lemma {:induction false} WorkspaceRecordsConcat(data: OrgData, a: seq<Json>, b: seq<Json>, acc: seq<Json>)
    ensures WorkspaceRecords(data, a + b, acc) ==
              match WorkspaceRecords(data, a, acc)
              case Ok(m) => WorkspaceRecords(data, b, m)
              case Err(e) => Err(e)
    decreases |a|
  {
    if a == [] {
      assert a + b == b;
    } else {
      assert (a + b)[0] == a[0];
      assert (a + b)[1..] == a[1..] + b;
      if a[0].Object? {
        var id := WorkspaceId(a[0].fields);
        var name := Get(a[0].fields, "name", id);
        var conns := ConnectionsUnder(data.connections, id);
        if conns.Ok? {
          var step := ConnectionRecords(data.phoneNumbers, conns.value, id, name, acc);
          if step.Ok? {
            WorkspaceRecordsConcat(data, a[1..], b, step.value);
          }
        }
      }
    }
  }

  /** The records gathered so far are never reordered or dropped. */
  lemma {:induction false} ConnectionRecordsExtend(phones: map<string, seq<Json>>, conns: seq<Json>,
                                                   workspaceId: Json, workspaceName: Json, acc: seq<Json>)
    requires ConnectionRecords(phones, conns, workspaceId, workspaceName, acc).Ok?
    ensures |acc| <= |ConnectionRecords(phones, conns, workspaceId, workspaceName, acc).value|
    ensures ConnectionRecords(phones, conns, workspaceId, workspaceName, acc).value[..|acc|] == acc
    decreases |conns|
  {
    if conns != [] {
      var id := Get(conns[0].fields, "id", Null);
      var name := Get(conns[0].fields, "name", id);
      var pns := NumbersUnder(phones, id).value;
      var f := Enricher(workspaceId, workspaceName, id, name);
      EnrichAllOneEach(f, pns, acc);
      var acc' := EnrichAll(f, pns, acc).value;
      ConnectionRecordsExtend(phones, conns[1..], workspaceId, workspaceName, acc');
      var r := ConnectionRecords(phones, conns[1..], workspaceId, workspaceName, acc').value;
      assert r[..|acc'|][..|acc|] == r[..|acc|];
    }
  }

  /** `for phone_number in phone_numbers`. */
  method EnrichNumbers(pns: seq<Json>, workspaceId: Json, workspaceName: Json, connectionId: Json,
                       connectionName: Json, acc: seq<Json>) returns (r: Result<seq<Json>, Exc>)
    ensures r == EnrichAll(Enricher(workspaceId, workspaceName, connectionId, connectionName), pns, acc)
  {
    ghost var f := Enricher(workspaceId, workspaceName, connectionId, connectionName);
    var all := acc;
    for i := 0 to |pns|
      invariant EnrichAll(f, pns, acc) == EnrichAll(f, pns[i..], all)
    {
      assert pns[i..][1..] == pns[i + 1..];
      var enriched := Enrich(pns[i], workspaceId, workspaceName, connectionId, connectionName);
      if enriched.Err? {
        return Err(enriched.error);
      }
      all := all + [enriched.value];
    }
    return Ok(all);
  }

  /** `for connection in connections`. */
  method FlattenConnections(phones: map<string, seq<Json>>, conns: seq<Json>, workspaceId: Json,
                            workspaceName: Json, acc: seq<Json>) returns (r: Result<seq<Json>, Exc>)
    ensures r == ConnectionRecords(phones, conns, workspaceId, workspaceName, acc)
  {
    var all := acc;
    for i := 0 to |conns|
      invariant ConnectionRecords(phones, conns, workspaceId, workspaceName, acc) ==
                ConnectionRecords(phones, conns[i..], workspaceId, workspaceName, all)
    {
      assert conns[i..][1..] == conns[i + 1..];
      var conn := conns[i];
      if !conn.Object? {
        return Err(AttributeError);
      }
      var id := Get(conn.fields, "id", Null);
      var name := Get(conn.fields, "name", id);
      var pns := NumbersUnder(phones, id);
      if pns.Err? {
        return Err(pns.error);
      }
      var enriched := EnrichNumbers(pns.value, workspaceId, workspaceName, id, name, all);
      if enriched.Err? {
        return Err(enriched.error);
      }
      all := enriched.value;
    }
    return Ok(all);
  }

  /** `for workspace in data["workspaces"]`. */
  method FlattenWorkspaces(data: OrgData) returns (r: Result<seq<Json>, Exc>)
    ensures r == Flat(data)
  {
    var listing := Iter(data.workspaces);
    if listing.None? {
      return Err(TypeError);
    }
    var ws := listing.value;
    var all := [];
    for i := 0 to |ws|
      invariant WorkspaceRecords(data, ws, []) == WorkspaceRecords(data, ws[i..], all)
    {
      assert ws[i..][1..] == ws[i + 1..];
      var w := ws[i];
      if !w.Object? {
        return Err(AttributeError);
      }
      var id := WorkspaceId(w.fields);
      var name := Get(w.fields, "name", id);
      var conns := ConnectionsUnder(data.connections, id);
      if conns.Err? {
        return Err(conns.error);
      }
      var records := FlattenConnections(data.phoneNumbers, conns.value, id, name, all);
      if records.Err? {
        return Err(records.error);
      }
      all := records.value;
    }
    return Ok(all);
  }

  /** `get_all_phone_numbers_flat(org_id, env)` once logged in. */
  function AllPhoneNumbersFlat(b: Backend, orgId: string, fuel: nat): Outcome<seq<Json>>
  {
    match AutoFetch(b, orgId, fuel)
    case Done(data) =>
      (match Flat(data)
       case Ok(records) => Done(records)
       case Err(e) => Raised(e))
    case Raised(e) => Raised(e)
    case OutOfFuel => OutOfFuel
  }

  method GetAllPhoneNumbersFlat(b: Backend, orgId: string, fuel: nat) returns (r: Outcome<seq<Json>>)
    ensures r == AllPhoneNumbersFlat(b, orgId, fuel)
  {
    var data := AutoFetchOrgData(b, orgId, fuel);
    if !data.Done? {
      return if data.Raised? then Raised(data.error) else OutOfFuel;
    }
    var records := FlattenWorkspaces(data.value);
    return if records.Ok? then Done(records.value) else Raised(records.error);
  }
}
