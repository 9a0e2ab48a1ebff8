// The two ends of one URL shape: `build_api_url` in multi_org_config.py writes
// the phone-numbers URL of a connection, and the crawler in api_client.py,
// on a 404 from that URL, cuts it apart again to reach the connection's
// endpoints. The cut recovers exactly the pieces the builder put in, as long
// as the ids are single path segments.

module UrlRoundTrip {

  import opened Wrappers
  import opened PyText
  import ApiClient
  import OrgFetch

  /** The part of the URL before the org id. */
  function OrgsPath(baseUrl: string): string
  {
    baseUrl + "/api/app-authoring/orgs/"
  }

  /** The workspace path the builder writes before the provider marker. */
  function WorkspacePath(baseUrl: string, orgId: string, workspaceId: string): string
  {
    OrgsPath(baseUrl) + orgId + "/workspaces/" + workspaceId
  }

  // ---------------------------------------------------------------------------
  // Splitting, in general

  /** A match that no earlier one precedes is the one `find` reports. */
  lemma FirstAt(s: string, sub: string, i: nat)
    requires OccursAt(s, sub, i)
    requires forall j :: 0 <= j < i ==> !OccursAt(s, sub, j)
    ensures IndexOf(s, sub) == Some(i)
  {
  }

  /** A mismatching character rules out a match. */
  lemma Mismatch(s: string, sub: string, j: nat, k: nat)
    requires k < |sub| && j + k < |s| && s[j + k] != sub[k]
    ensures !OccursAt(s, sub, j)
  {
    assert j + |sub| <= |s| ==> s[j..j + |sub|][k] == s[j + k];
  }

  /** No occurrence of `sep` in `x + sep + c` starts inside `x` and runs
      into the `sep` placed after it. */
  predicate NoSeparatorAcross(x: string, sep: string, c: string)
  {
    forall j: nat :: |x| - |sep| < j < |x| ==> !OccursAt(x + sep + c, sep, j)
  }

  /** The last piece of `split(sep)` is what follows the final separator,
      provided no separator overlaps that one from the left and none follows
      it. */
  lemma {:induction false} LastPiece(x: string, sep: string, c: string)
    requires |sep| > 0
    requires !Contains(c, sep)
    requires NoSeparatorAcross(x, sep, c)
    ensures Last(Split(x + sep + c, sep)) == c
    decreases |x|
  {
    var i := FirstSplit(x, sep, c);
    if i == |x| {
      DropThrough(x, sep, c);
      SplitWhole(c, sep);
    } else {
      var k := i + |sep|;
      DropInside(x, sep, c, k);
      NoLateOccurrence(x, sep, c, k);
      LastPiece(x[k..], sep, c);
    }
  }

  /** A text without the separator splits into itself. */
  lemma SplitWhole(c: string, sep: string)
    requires |sep| > 0 && !Contains(c, sep)
    ensures Split(c, sep) == [c]
  {
  }

  /** Where the first separator of `x + sep + c` lies, and that the last
      piece of the split is the last piece of what follows it. */
  lemma FirstSplit(x: string, sep: string, c: string) returns (i: nat)
    requires |sep| > 0
    requires NoSeparatorAcross(x, sep, c)
    ensures i == |x| || i + |sep| <= |x|
    ensures i + |sep| <= |x + sep + c|
    ensures Last(Split(x + sep + c, sep)) == Last(Split((x + sep + c)[i + |sep|..], sep))
  {
    i := FirstSeparator(x, sep, c);
    SplitLast(x + sep + c, sep, i);
  }

  lemma DropThrough<T>(x: seq<T>, sep: seq<T>, c: seq<T>)
    ensures (x + sep + c)[|x| + |sep|..] == c
  {
  }

  lemma DropInside<T>(x: seq<T>, sep: seq<T>, c: seq<T>, k: nat)
    requires k <= |x|
    ensures (x + sep + c)[k..] == x[k..] + sep + c
  {
  }

  /** The first separator in `x + sep + c` is either the one after `x` or
      lies wholly inside `x`. */
  lemma FirstSeparator(x: string, sep: string, c: string) returns (i: nat)
    requires |sep| > 0
    requires NoSeparatorAcross(x, sep, c)
    ensures IndexOf(x + sep + c, sep) == Some(i)
    ensures i == |x| || i + |sep| <= |x|
  {
    var s := x + sep + c;
    assert s[|x|..|x| + |sep|] == sep;
    assert OccursAt(s, sep, |x|);
    i := IndexOf(s, sep).value;
  }

  /** The last piece of a split is the last piece of what follows the first
      separator. */
  lemma SplitLast(s: string, sep: string, i: nat)
    requires |sep| > 0 && IndexOf(s, sep) == Some(i)
    ensures i + |sep| <= |s|
    ensures Last(Split(s, sep)) == Last(Split(s[i + |sep|..], sep))
  {
    SplitUnfold(s, sep, i);
    LastCons(s[..i], Split(s[i + |sep|..], sep));
  }

  lemma SplitUnfold(s: string, sep: string, i: nat)
    requires |sep| > 0 && IndexOf(s, sep) == Some(i)
    ensures i + |sep| <= |s|
    ensures Split(s, sep) == [s[..i]] + Split(s[i + |sep|..], sep)
  {
  }

  lemma LastCons<T>(a: T, r: seq<T>)
    requires |r| > 0
    ensures Last([a] + r) == Last(r)
  {
  }

  /** Cutting a prefix off `x` keeps the separator out of the positions just
      before the one that follows `x`. */
  lemma NoLateOccurrence(x: string, sep: string, c: string, k: nat)
    requires k <= |x|
    requires NoSeparatorAcross(x, sep, c)
    ensures NoSeparatorAcross(x[k..], sep, c)
  {
    var t := x[k..] + sep + c;
    assert x[..k] + t == x + sep + c;
    forall j: nat | |x[k..]| - |sep| < j < |x[k..]|
      ensures !OccursAt(t, sep, j)
    {
      OccursShift(x[..k], t, sep, j);
    }
  }

  // ---------------------------------------------------------------------------
  // The phone-numbers URL

  /** A path segment `/g/` starts no provider marker, unless `g` is
      "channels" and the text after it goes on "v2v/providers/". */
  lemma SegmentStart(t: string, g: string, r: string)
    requires t == "/" + g + "/" + r && '/' !in g
    requires g != "channels" || !StartsWith(r, "v2v/providers/")
    ensures !OccursAt(t, ApiClient.ProviderMarker, 0)
  {
    SlashSegment(t, g, r, "channels", "v2v/providers/");
    MarkerParts();
  }

  lemma MarkerParts()
    ensures ApiClient.ProviderMarker == "/" + "channels" + "/" + "v2v/providers/"
  {
  }

  /** `/g/r` starts with `/a/b` only when `g` is `a` and `r` starts with `b`,
      for `g` and `a` free of slashes. */
  lemma SlashSegment(t: string, g: string, r: string, a: string, b: string)
    requires t == "/" + g + "/" + r && '/' !in g && '/' !in a
    requires g != a || !StartsWith(r, b)
    ensures !OccursAt(t, "/" + a + "/" + b, 0)
  {
    var m := "/" + a + "/" + b;
    if |g| < |a| {
      assert t[1 + |g|] == '/' && m[1 + |g|] == a[|g|];
      Mismatch(t, m, 0, 1 + |g|);
    } else if |a| < |g| {
      assert m[1 + |a|] == '/' && t[1 + |a|] == g[|a|];
      Mismatch(t, m, 0, 1 + |a|);
    } else if g != a {
      var k :| 0 <= k < |g| && g[k] != a[k];
      assert t[1 + k] == g[k] && m[1 + k] == a[k];
      Mismatch(t, m, 0, 1 + k);
    } else if |b| <= |r| {
      var k :| 0 <= k < |b| && r[k] != b[k];
      assert t[2 + |g| + k] == r[k] && m[2 + |g| + k] == b[k];
      Mismatch(t, m, 0, 2 + |g| + k);
    }
  }

  /** Nor does the segment or any position inside it, wherever it sits. */
  lemma SegmentRegion(s: string, at: nat, g: string, r: string)
    requires at <= |s| && s[at..] == "/" + g + "/" + r && '/' !in g
    requires g != "channels" || !StartsWith(r, "v2v/providers/")
    ensures forall j: nat :: at <= j <= at + |g| ==> !OccursAt(s, ApiClient.ProviderMarker, j)
  {
    var pm := ApiClient.ProviderMarker;
    SegmentStart(s[at..], g, r);
    OccursShift(s[..at], s[at..], pm, 0);
    assert s[..at] + s[at..] == s;
    forall j: nat | at < j <= at + |g|
      ensures !OccursAt(s, pm, j)
    {
      assert s[j] == s[at..][j - at] == g[j - at - 1];
      Mismatch(s, pm, j, 0);
    }
  }

  /** No provider marker starts among the first `n` positions of `s`. */
  predicate Clear(s: string, n: nat)
  {
    forall j: nat :: j < n ==> !OccursAt(s, ApiClient.ProviderMarker, j)
  }

  /** Putting a segment `/g` in front of a path that starts with "/" and
      holds no provider marker among its first `n` positions keeps it so. */
  lemma SegmentStep(g: string, tail: string, n: nat)
    requires '/' !in g && |tail| > 0 && tail[0] == '/'
    requires g != "channels" || !StartsWith(tail[1..], "v2v/providers/")
    requires Clear(tail, n)
    ensures Clear("/" + g + tail, 1 + |g| + n)
  {
    var s := "/" + g + tail;
    assert s[0..] == "/" + g + "/" + tail[1..];
    SegmentRegion(s, 0, g, tail[1..]);
    forall j: nat | 1 + |g| <= j < 1 + |g| + n
      ensures !OccursAt(s, ApiClient.ProviderMarker, j)
    {
      OccursShift("/" + g, tail, ApiClient.ProviderMarker, j - 1 - |g|);
    }
  }

  /** What the builder writes after the base URL, segment by segment. */
  function PathAfterBase(orgId: string, workspaceId: string, rest: string): string
  {
    "/api" + ("/app-authoring" + ("/orgs" + ("/" + orgId + ("/workspaces" +
    ("/" + workspaceId + (ApiClient.ProviderMarker + rest))))))
  }

  /** No provider marker starts inside the path the builder writes between
      the base URL and the marker, when the ids are single segments. */
  lemma PathNoMarker(orgId: string, workspaceId: string, rest: string)
    requires '/' !in orgId && '/' !in workspaceId
    ensures Clear(PathAfterBase(orgId, workspaceId, rest), 36 + |orgId| + |workspaceId|)
  {
    var t5 := ApiClient.ProviderMarker + rest;
    var t4 := "/" + workspaceId + t5;
    assert t5[1] == 'c';
    SegmentStep(workspaceId, t5, 0);
    var t3 := "/workspaces" + t4;
    assert "/" + "workspaces" == "/workspaces";
    SegmentStep("workspaces", t4, 1 + |workspaceId|);
    var t2 := "/" + orgId + t3;
    assert t3[1] == 'w';
    SegmentStep(orgId, t3, 12 + |workspaceId|);
    var t1 := "/orgs" + t2;
    assert "/" + "orgs" == "/orgs";
    SegmentStep("orgs", t2, 13 + |orgId| + |workspaceId|);
    var t0 := "/app-authoring" + t1;
    assert "/" + "app-authoring" == "/app-authoring";
    SegmentStep("app-authoring", t1, 18 + |orgId| + |workspaceId|);
    SegmentStep("api", t0, 32 + |orgId| + |workspaceId|);
    assert "/" + "api" == "/api";
  }

  /** Matches in `a + t` at or after `|a|` are the matches in `t`. */
  lemma OccursShift(a: string, t: string, sub: string, j: nat)
    ensures OccursAt(a + t, sub, |a| + j) <==> OccursAt(t, sub, j)
  {
    if j + |sub| <= |t| {
      assert (a + t)[|a| + j..|a| + j + |sub|] == t[j..j + |sub|];
    }
  }

  /** The provider marker first occurs where the builder puts it, right
      after the workspace path. */
  lemma ProviderMarkerFirst(baseUrl: string, orgId: string, workspaceId: string, rest: string)
    requires '/' !in orgId && '/' !in workspaceId
    requires !Contains(OrgsPath(baseUrl), ApiClient.ProviderMarker)
    ensures IndexOf(baseUrl + PathAfterBase(orgId, workspaceId, rest), ApiClient.ProviderMarker) ==
            Some(|baseUrl| + 36 + |orgId| + |workspaceId|)
  {
    PathPieces(orgId, workspaceId, rest);
    PathNoMarker(orgId, workspaceId, rest);
    MarkerFirstAfter(baseUrl, PathAfterBase(orgId, workspaceId, rest), 36 + |orgId| + |workspaceId|);
  }

  /** After a base URL whose org path holds no provider marker, a path that
      starts with the org path and first holds the marker at `n` puts the
      first marker of the whole URL at `|baseUrl| + n`. */
  lemma MarkerFirstAfter(baseUrl: string, t: string, n: nat)
    requires |t| >= 24 && t[..24] == "/api/app-authoring/orgs/"
    requires !Contains(OrgsPath(baseUrl), ApiClient.ProviderMarker)
    requires Clear(t, n) && OccursAt(t, ApiClient.ProviderMarker, n)
    ensures IndexOf(baseUrl + t, ApiClient.ProviderMarker) == Some(|baseUrl| + n)
  {
    BaseClear(baseUrl, t);
    ClearAppend(baseUrl, t, n);
    OccursShift(baseUrl, t, ApiClient.ProviderMarker, n);
    FirstAt(baseUrl + t, ApiClient.ProviderMarker, |baseUrl| + n);
  }

  /** The path after the base URL starts with the org path and holds the
      provider marker right after the workspace id. */
  lemma PathPieces(orgId: string, workspaceId: string, rest: string)
    ensures var t := PathAfterBase(orgId, workspaceId, rest);
            var n := 36 + |orgId| + |workspaceId|;
            |t| >= n + 24 && t[..24] == "/api/app-authoring/orgs/" &&
            OccursAt(t, ApiClient.ProviderMarker, n)
  {
    var t := PathAfterBase(orgId, workspaceId, rest);
    var n := 36 + |orgId| + |workspaceId|;
    PathAfterBaseHead(orgId, workspaceId, rest);
    Pieces("/api/app-authoring/orgs/", orgId, "/workspaces/", workspaceId, ApiClient.ProviderMarker, rest);
  }

  /** Where the first and the fifth of six pieces sit in `x + (o + y + w + m + r)`. */
  lemma Pieces<T>(x: seq<T>, o: seq<T>, y: seq<T>, w: seq<T>, m: seq<T>, r: seq<T>)
    ensures var t := x + (o + y + w + m + r);
            var n := |x| + |o| + |y| + |w|;
            |t| == n + |m| + |r| && t[..|x|] == x && t[n..n + |m|] == m
  {
    var t := x + (o + y + w + m + r);
    var n := |x| + |o| + |y| + |w|;
    assert t == (x + o + y + w) + m + r;
  }

  /** A prefix of `a + t` reaching into `t`. */
  lemma PrefixAppend<T>(a: seq<T>, t: seq<T>, k: nat)
    requires k <= |t|
    ensures (a + t)[..|a| + k] == a + t[..k]
  {
  }

  /** No provider marker starts inside the base URL when the org path after
      it holds none. */
  lemma BaseClear(baseUrl: string, t: string)
    requires |t| >= 24 && t[..24] == "/api/app-authoring/orgs/"
    requires !Contains(OrgsPath(baseUrl), ApiClient.ProviderMarker)
    ensures Clear(baseUrl + t, |baseUrl|)
  {
    var pm := ApiClient.ProviderMarker;
    var u := baseUrl + t;
    var head := OrgsPath(baseUrl);
    PrefixAppend(baseUrl, t, 24);
    forall j: nat | j < |baseUrl|
      ensures !OccursAt(u, pm, j)
    {
      SliceOfPrefix(u, head, j, |pm|);
      NotContained(head, pm, j);
    }
  }

  /** A slice inside a prefix of `u` is the same slice of the prefix. */
  lemma SliceOfPrefix<T>(u: seq<T>, h: seq<T>, j: nat, n: nat)
    requires |h| <= |u| && u[..|h|] == h && j + n <= |h|
    ensures u[j..j + n] == h[j..j + n]
  {
    assert forall i :: j <= i < j + n ==> u[i] == u[..|h|][i];
  }

  /** A text that does not contain `sub` has no match of it anywhere. */
  lemma NotContained(s: string, sub: string, j: nat)
    requires !Contains(s, sub)
    ensures !OccursAt(s, sub, j)
  {
    if OccursAt(s, sub, j) {
      ContainsAt(s, sub, j);
    }
  }

  /** A text clear of markers before `|a|` whose tail after `a` is clear for
      `n` more positions is clear for `|a| + n`. */
  lemma ClearAppend(a: string, t: string, n: nat)
    requires Clear(a + t, |a|) && Clear(t, n)
    ensures Clear(a + t, |a| + n)
  {
    forall j: nat | |a| <= j < |a| + n
      ensures !OccursAt(a + t, ApiClient.ProviderMarker, j)
    {
      OccursShift(a, t, ApiClient.ProviderMarker, j - |a|);
    }
  }

  /** Nothing after the connection id reads as a connections marker. */
  lemma NoMarkerAfter(connectionId: string)
    requires '/' !in connectionId
    ensures !Contains(connectionId + "/phone-numbers", ApiClient.ConnectionsMarker)
  {
    var c := connectionId + "/phone-numbers";
    var cm := ApiClient.ConnectionsMarker;
    forall j | 0 <= j
      ensures !OccursAt(c, cm, j)
    {
      if j + |cm| <= |c| {
        if c[j] != '/' {
          Mismatch(c, cm, j, 0);
        } else {
          assert j == |connectionId|;
          Mismatch(c, cm, j, 1);
        }
      }
    }
  }

  /** No connections marker overlaps, from the left, the one the builder
      puts before the connection id. */
  lemma NoMarkerOverlap(prefix: string, provider: string, rest: string)
    requires provider != [] && '/' !in provider && provider != "connections"
    ensures var x := prefix + ApiClient.ProviderMarker + provider;
            forall j :: |x| - |ApiClient.ConnectionsMarker| < j < |x| ==>
              !OccursAt(x + ApiClient.ConnectionsMarker + rest, ApiClient.ConnectionsMarker, j)
  {
    var cm := ApiClient.ConnectionsMarker;
    var m := |prefix + ApiClient.ProviderMarker + provider|;
    var p := |provider|;
    forall j | m - |cm| < j < m
      ensures !OccursAt(prefix + ApiClient.ProviderMarker + provider + cm + rest, cm, j)
    {
      if j >= m - p {
        OverlapInProvider(prefix, provider, rest, j);
      } else if j == m - p - 1 {
        OverlapAtSlash(prefix, provider, rest);
      } else {
        OverlapInMarker(prefix, provider, rest, j);
      }
    }
  }

  /** No connections marker starts inside the provider. */
  lemma OverlapInProvider(prefix: string, provider: string, rest: string, j: nat)
    requires '/' !in provider
    requires |prefix| + 24 <= j < |prefix| + 24 + |provider|
    ensures !OccursAt(prefix + ApiClient.ProviderMarker + provider + ApiClient.ConnectionsMarker + rest,
                      ApiClient.ConnectionsMarker, j)
  {
    var u := prefix + ApiClient.ProviderMarker + provider + ApiClient.ConnectionsMarker + rest;
    assert u[j] == provider[j - |prefix| - 24];
    Mismatch(u, ApiClient.ConnectionsMarker, j, 0);
  }

  /** Nor at the slash that ends the provider marker, unless the provider is
      "connections". */
  lemma OverlapAtSlash(prefix: string, provider: string, rest: string)
    requires provider != [] && '/' !in provider && provider != "connections"
    ensures !OccursAt(prefix + ApiClient.ProviderMarker + provider + ApiClient.ConnectionsMarker + rest,
                      ApiClient.ConnectionsMarker, |prefix| + 23)
  {
    var cm := ApiClient.ConnectionsMarker;
    var u := prefix + ApiClient.ProviderMarker + provider + cm + rest;
    var j := |prefix| + 23;
    var p := |provider|;
    assert u[j + 1 + p] == '/';
    if p < 11 {
      Mismatch(u, cm, j, 1 + p);
    } else if p > 11 {
      assert u[j + 12] == provider[11];
      Mismatch(u, cm, j, 12);
    } else {
      var k :| 0 <= k < 11 && provider[k] != "connections"[k];
      assert u[j + 1 + k] == provider[k];
      Mismatch(u, cm, j, 1 + k);
    }
  }

  /** Nor inside the provider marker, whose last eleven characters before its
      closing slash are "v2v/provide" and the like. */
  lemma OverlapInMarker(prefix: string, provider: string, rest: string, j: nat)
    requires |prefix| + 11 < j < |prefix| + 23
    ensures !OccursAt(prefix + ApiClient.ProviderMarker + provider + ApiClient.ConnectionsMarker + rest,
                      ApiClient.ConnectionsMarker, j)
  {
    var pm := ApiClient.ProviderMarker;
    var cm := ApiClient.ConnectionsMarker;
    var u := prefix + pm + provider + cm + rest;
    assert u[j] == pm[j - |prefix|];
    if u[j] == '/' {
      assert j == |prefix| + 13;
      assert u[j + 1] == pm[14];
      Mismatch(u, cm, j, 1);
    } else {
      Mismatch(u, cm, j, 0);
    }
  }

  lemma OrgsLiteral()
    ensures "/api" + "/app-authoring" + "/orgs" + "/" == "/api/app-authoring/orgs/"
  {
  }

  lemma WorkspacesLiteral()
    ensures "/workspaces" + "/" == "/workspaces/"
  {
  }

  /** What the builder writes after the base URL starts with the path to
      the org id. */
  lemma PathAfterBaseHead(orgId: string, workspaceId: string, rest: string)
    ensures PathAfterBase(orgId, workspaceId, rest) ==
            "/api/app-authoring/orgs/" + (orgId + "/workspaces/" + workspaceId + ApiClient.ProviderMarker + rest)
  {
    OrgsLiteral();
    WorkspacesLiteral();
  }

  /** The builder's URL, segment by segment. */
  lemma UrlSegments(baseUrl: string, orgId: string, workspaceId: string, provider: string, connectionId: string)
    ensures OrgFetch.PhoneNumbersUrl(baseUrl, orgId, workspaceId, provider, connectionId) ==
            baseUrl + PathAfterBase(orgId, workspaceId, provider + ApiClient.ConnectionsMarker + connectionId + "/phone-numbers")
  {
    var rest := provider + ApiClient.ConnectionsMarker + connectionId + "/phone-numbers";
    PathAfterBaseHead(orgId, workspaceId, rest);
    Regroup(baseUrl, "/api/app-authoring/orgs/", orgId, "/workspaces/", workspaceId, ApiClient.ProviderMarker,
            provider, ApiClient.ConnectionsMarker, connectionId, "/phone-numbers");
  }

  /** The ten pieces of the URL, grouped as the builder writes them and as
      the path after the base URL nests them. */
  lemma Regroup<T>(a: seq<T>, b: seq<T>, c: seq<T>, d: seq<T>, e: seq<T>, f: seq<T>, g: seq<T>,
                   h: seq<T>, i: seq<T>, j: seq<T>)
    ensures a + b + c + d + e + f + g + h + i + j == a + (b + (c + d + e + f + (g + h + i + j)))
  {
  }

  /** The builder's URL, cut at its two markers. */
  lemma UrlMarkers(baseUrl: string, orgId: string, workspaceId: string, provider: string, connectionId: string)
    ensures OrgFetch.PhoneNumbersUrl(baseUrl, orgId, workspaceId, provider, connectionId) ==
            WorkspacePath(baseUrl, orgId, workspaceId) + ApiClient.ProviderMarker + provider +
            ApiClient.ConnectionsMarker + (connectionId + "/phone-numbers")
    ensures |WorkspacePath(baseUrl, orgId, workspaceId)| == |baseUrl| + 36 + |orgId| + |workspaceId|
  {
  }

  /** The text before the provider marker is the workspace path. */
  lemma BeforeProviders(baseUrl: string, orgId: string, workspaceId: string, provider: string, connectionId: string)
    requires '/' !in orgId && '/' !in workspaceId
    requires !Contains(OrgsPath(baseUrl), ApiClient.ProviderMarker)
    ensures Split(OrgFetch.PhoneNumbersUrl(baseUrl, orgId, workspaceId, provider, connectionId), ApiClient.ProviderMarker)[0] ==
            WorkspacePath(baseUrl, orgId, workspaceId)
    ensures Contains(OrgFetch.PhoneNumbersUrl(baseUrl, orgId, workspaceId, provider, connectionId), ApiClient.ProviderMarker)
  {
    var u := OrgFetch.PhoneNumbersUrl(baseUrl, orgId, workspaceId, provider, connectionId);
    var w := WorkspacePath(baseUrl, orgId, workspaceId);
    UrlSegments(baseUrl, orgId, workspaceId, provider, connectionId);
    UrlMarkers(baseUrl, orgId, workspaceId, provider, connectionId);
    ProviderMarkerFirst(baseUrl, orgId, workspaceId, provider + ApiClient.ConnectionsMarker + connectionId + "/phone-numbers");
    SplitHead(u, ApiClient.ProviderMarker);
    assert u[..|w|] == w;
  }

  /** The text after the last connections marker is the connection id and
      the resource name. */
  lemma AfterConnections(baseUrl: string, orgId: string, workspaceId: string, provider: string, connectionId: string)
    requires '/' !in provider && '/' !in connectionId && provider != [] && provider != "connections"
    ensures Contains(OrgFetch.PhoneNumbersUrl(baseUrl, orgId, workspaceId, provider, connectionId), ApiClient.ConnectionsMarker)
    ensures Last(Split(OrgFetch.PhoneNumbersUrl(baseUrl, orgId, workspaceId, provider, connectionId),
                       ApiClient.ConnectionsMarker)) == connectionId + "/phone-numbers"
  {
    var cm := ApiClient.ConnectionsMarker;
    var w := WorkspacePath(baseUrl, orgId, workspaceId);
    var x := w + ApiClient.ProviderMarker + provider;
    var c := connectionId + "/phone-numbers";
    var u := OrgFetch.PhoneNumbersUrl(baseUrl, orgId, workspaceId, provider, connectionId);
    UrlMarkers(baseUrl, orgId, workspaceId, provider, connectionId);
    assert u == x + cm + c;
    assert u[|x|..|x| + |cm|] == cm;
    ContainsAt(u, cm, |x|);
    NoMarkerAfter(connectionId);
    NoMarkerOverlap(w, provider, c);
    LastPiece(x, cm, c);
  }

  /** The first "/"-separated piece of `id + "/phone-numbers"` is `id`. */
  lemma ConnectionPiece(connectionId: string)
    requires '/' !in connectionId
    ensures Split(connectionId + "/phone-numbers", "/")[0] == connectionId
  {
    var c := connectionId + "/phone-numbers";
    assert c[|connectionId|..|connectionId| + 1] == "/";
    forall j: nat | j < |connectionId| ensures !OccursAt(c, "/", j) {
      assert c[j] == connectionId[j];
      Mismatch(c, "/", j, 0);
    }
    FirstAt(c, "/", |connectionId|);
    SplitHead(c, "/");
    assert c[..|connectionId|] == connectionId;
  }

  /** The crawler's 404 rewrite inverts the builder: from the phone-numbers
      URL `build_api_url` writes, it recovers the connection's endpoints URL
      under the same org and workspace, whatever the provider. */
  lemma FallbackInvertsBuild(baseUrl: string, orgId: string, workspaceId: string, provider: string,
                             connectionId: string)
    requires '/' !in orgId && '/' !in workspaceId && '/' !in provider && '/' !in connectionId
    requires provider != [] && provider != "connections" && connectionId != []
    requires !Contains(OrgsPath(baseUrl), ApiClient.ProviderMarker)
    ensures ApiClient.FallbackUrl(OrgFetch.PhoneNumbersUrl(baseUrl, orgId, workspaceId, provider, connectionId)) ==
            Some(baseUrl + "/api/app-authoring/orgs/" + orgId + "/workspaces/" + workspaceId + "/connections/" +
                 connectionId + "/endpoints")
  {
    BeforeProviders(baseUrl, orgId, workspaceId, provider, connectionId);
    AfterConnections(baseUrl, orgId, workspaceId, provider, connectionId);
    ConnectionPiece(connectionId);
  }
}
