# Phone-number manager: a verified model of its data layer

This project models the core of a Streamlit dashboard that manages the phone
numbers and endpoints of a voice platform's organisations. The model covers
the layer between the backend's REST replies and the dashboard's clean
collections. That layer:

- crawls the free phone numbers of a connection page by page. On a 404 it
  falls back to the connection's endpoints resource;
- posts new endpoints;
- fetches an organisation's workspaces, connections and phone numbers, and
  flattens them into enriched records;
- resolves organisations by name, lists their providers and builds the
  phone-number URL of a connection, with memo caches kept in the Streamlit
  session;
- normalises, validates and looks up phone numbers;
- reads dotted-key secrets and derives the configured URLs and headers.

The backend is a function from requests to replies (`Http`). Every loop over
it is deterministic. The loops the source runs until the backend says stop
(`while True` paging) take a `fuel` bound. JSON values are a datatype
(`PyValue.Json`). Dicts are field lists in insertion order, as Python keeps
them. Python's truthiness, `len()`, iteration, `str()`, `dict.get`, `x or y`,
`str.strip`, `str.split`, `str.find`, `lower` and `sorted` are modelled in
`PyValue` and `PyText`.

Modules, one per file:

| module | models |
|---|---|
| `Wrappers` | `Option`, `Result` |
| `PyText` | the `str` methods the code calls, and `sorted` on strings |
| `PyValue` | decoded JSON values, exceptions and Python's value semantics |
| `Http` | requests, replies and `raise_for_status()` |
| `Config` | `streamlit_app/utils/config.py` |
| `Helpers` | `streamlit_app/utils/helpers.py` |
| `ApiClient` | `streamlit_app/utils/api_client.py` |
| `OrgFetch` | `utils.py` |
| `MultiOrg` | `streamlit_app/utils/multi_org_config.py`, with the session as the class `MultiOrg.Session` |
| `UrlRoundTrip` | the round trip between the URL `build_api_url` writes and the crawler's 404 rewrite |

Each loop of the source is a `method`. Its `ensures` ties the result to a
recursive specification function, and lemmas state the source's promises
about that function. The session state (`st.session_state`) is a `map`
field of `MultiOrg.Session`. Its methods update that field, and each
method's new state and result equal those of a pure memo function, about
which the lemmas are stated.

## Model

| member | source | states |
|---|---|---|
| PyText.Strip | streamlit_app/utils/helpers.py:23 | `s.strip()` is no longer than `s` and holds only characters of `s` |
| PyText.StripSlice | streamlit_app/utils/helpers.py:23 | the stripped text is `s[lo..hi]`, everything cut off at either end is whitespace, and the result neither starts nor ends with whitespace |
| PyText.StripEnds | streamlit_app/utils/config.py:44 | a stripped string neither starts nor ends with whitespace |
| PyText.StripIdempotent | streamlit_app/utils/multi_org_config.py:78 | stripping twice is stripping once |
| PyText.StripNoSpace | streamlit_app/utils/helpers.py:23 | a string without whitespace is its own strip |
| PyText.LStrip | streamlit_app/utils/helpers.py:23 | the leading whitespace, and only it, is dropped |
| PyText.RStrip | streamlit_app/utils/helpers.py:23 | the trailing whitespace, and only it, is dropped |
| PyText.TrailingCut | streamlit_app/utils/helpers.py:23 | what `rstrip` cuts off a suffix is whitespace in the whole text |
| PyText.Lower | streamlit_app/utils/multi_org_config.py:198 | `lower()` keeps the length and lower-cases character by character |
| PyText.IndexFrom | streamlit_app/utils/api_client.py:79 | the search reports the first occurrence at or after the start, and `None` only when there is none |
| PyText.Remove | streamlit_app/utils/helpers.py:23 | `replace(c, "")` leaves no `c`, never grows the text and adds no character |
| PyText.Split | streamlit_app/utils/api_client.py:82 | `split` always yields at least one piece |
| PyText.SplitHead | streamlit_app/utils/api_client.py:84-86 | `split(sep)[0]` is the text before the first `sep`, or the whole text when there is none |
| PyText.Insert | streamlit_app/utils/multi_org_config.py:181 | inserting into a sorted list keeps it sorted and adds exactly the one element |
| PyText.Sort | streamlit_app/utils/multi_org_config.py:181 | `sorted` yields a sorted permutation of its input |
| PyText.SortedPermutationUnique | streamlit_app/utils/multi_org_config.py:181 | any two sorted permutations of the same list are equal, so `Sort` is the only possible answer |
| PyValue.Len | streamlit_app/utils/api_client.py:116 | `len()` is defined exactly where iteration is, counts the items iterated, and is non-zero exactly for truthy values |
| PyValue.Lookup | streamlit_app/utils/api_client.py:110-112 | `d.get(k)` finds a value exactly when some field has the key, and the value found is that field's |
| PyValue.Put | streamlit_app/utils/multi_org_config.py:78 | `d[k] = v` makes `k` hold `v`, leaves every other key as it was, and grows the dict only for a new key |
| PyValue.PutSame | streamlit_app/utils/multi_org_config.py:78 | assigning a key the value it already holds leaves the dict unchanged |
| PyValue.PutFour | utils.py:451-455 | four assignments to distinct keys set each key and leave every other key unchanged |
| PyValue.FirstTruthy | streamlit_app/utils/api_client.py:190-196 | `a.get(k1) or ... or a.get(kn)` is truthy exactly when one of the fields is; it is then one of them, and otherwise the last one |
| PyValue.FirstTruthyHead | streamlit_app/utils/api_client.py:190-196 | `or` stops at the first truthy field |
| PyValue.NatText | streamlit_app/utils/api_client.py:61 | the decimal text of a natural number is non-empty and all digits |
| PyValue.Repr | streamlit_app/utils/api_client.py:206 | `repr` is non-empty and has no whitespace at either end |
| PyValue.PyStr | streamlit_app/utils/api_client.py:198 | `str()` of a string is the string itself; for any other value it is non-empty with no whitespace at either end |
| PyValue.StrippedStrNonEmpty | streamlit_app/utils/multi_org_config.py:74 | `str(v).strip()` of a value that is not a string is non-blank, so only strings can be blank ids |
| Http.HttpErrorText | streamlit_app/utils/api_client.py:285 | an HTTPError's text starts with its status |
| Config.Walk | streamlit_app/utils/config.py:33-41 | walking no keys gives the root; a value found through one or more keys is never `None` |
| Config.WalkConcat | streamlit_app/utils/config.py:35-41 | walking `a + b` is walking `a`, then `b` from where `a` ended |
| Config.WalkNest | streamlit_app/utils/config.py:33-41 | every non-null value is reached through the keys it is nested under |
| Config.Unquote | streamlit_app/utils/config.py:46-49 | a text with the same quote at both ends loses exactly those two characters; a lone quote becomes ""; any other text is kept |
| Config.UnquoteQuote | streamlit_app/utils/config.py:46-49 | quoting with `'` or `"` and unquoting gives the text back |
| Config.SecretValue | streamlit_app/utils/config.py:17-54 | the loop returns what `SecretSpec` says: the default without Streamlit or unreadable secrets, else the rendered value found by the walk |
| Config.SecretFound | streamlit_app/utils/config.py:33-50 | a value nested under its dotted key is found; a string comes back stripped and unquoted, anything else as `str()` |
| Config.SecretDefault | streamlit_app/utils/config.py:27-28 | without Streamlit, or when reading the secrets raises, the default is returned |
| Config.SecretMissing | streamlit_app/utils/config.py:36-41 | a missing or null segment, or a non-map on the way, yields the default |
| Config.PhoneNumbersUrl | streamlit_app/utils/config.py:72-75 | the URL starts with the base URL, contains "/phone-numbers" and ends with the free-numbers query |
| Config.EndpointsUrl | streamlit_app/utils/config.py:77-80 | the URL is the base URL followed by "/endpoints" |
| Config.BearerHeaders | streamlit_app/utils/config.py:94-100 | exactly three headers: the bearer token, and JSON for Accept and Content-Type |
| Config.GetHeaders | streamlit_app/utils/config.py:94-100 | the configured token's bearer header among three |
| Helpers.Normalize | streamlit_app/utils/helpers.py:13-23 | the normal form has no space and no dash, is no longer than the input and adds no character |
| Helpers.UnseparatedConcat | streamlit_app/utils/helpers.py:23 | deleting spaces and dashes works piece by piece |
| Helpers.RemoveBothSubsequence | streamlit_app/utils/helpers.py:23 | deleting the spaces and then the dashes keeps the rest in order |
| Helpers.NormalizeDeletesOnly | streamlit_app/utils/helpers.py:23 | normalising only deletes: the output is a subsequence of the input, made of a middle slice without spaces and dashes, with only whitespace cut around it |
| Helpers.NormalizeNoSpace | streamlit_app/utils/helpers.py:23 | with no whitespace but spaces, the normal form has no whitespace |
| Helpers.NormalizeIdempotent | streamlit_app/utils/helpers.py:23 | with no whitespace but spaces, normalising twice is normalising once |
| Helpers.NormalizeSpacesOnly | streamlit_app/utils/helpers.py:23 | with no whitespace but spaces, normalising is deleting every space and dash |
| Helpers.NormalizeIgnoresSeparator | streamlit_app/utils/helpers.py:23 | inserting a space or dash anywhere does not change the normal form |
| Helpers.DigitRun | streamlit_app/utils/helpers.py:38 | the run of ASCII digits measured from a position is maximal |
| Helpers.PatternExact | streamlit_app/utils/helpers.py:38-39 | with `$` at the true end, the pattern accepts exactly "+" and 10 to 15 ASCII digits |
| Helpers.PatternNewline | streamlit_app/utils/helpers.py:38-39 | Python's `$` also accepts such a text followed by one final newline |
| Helpers.Validate | streamlit_app/utils/helpers.py:26-39 | true exactly when the normal form is "+" and 10 to 15 digits; such a normal form has 11 to 16 characters and starts with "+" |
| Helpers.ValidateAsWritten | streamlit_app/utils/helpers.py:37-39 | the check as written also accepts a valid normal form followed by a final newline |
| Helpers.NormalizeNewlineDash | streamlit_app/utils/helpers.py:23 | a number followed by "\n-" normalises to the number followed by "\n" |
| Helpers.NewlineDashAccepted | streamlit_app/utils/helpers.py:23-39 | every valid number followed by "\n-" is accepted as written and rejected by the intended check |
| Helpers.NewlineAccepted | streamlit_app/utils/helpers.py:37-39 | the input "+1234567890\n-" is accepted as written and rejected by the intended check |
| Helpers.ValidateIgnoresSeparator | streamlit_app/utils/helpers.py:23-39 | with no whitespace but spaces, inserting a space or dash does not change the verdict |
| Helpers.IsNumberAvailable | streamlit_app/utils/helpers.py:99-125 | without refresh and without a set the answer is false; with a set it is membership of the raw or normal form; with refresh it is membership in the given crawl outcome, and a crawl without result gives none |
| Helpers.CheckNumberAvailable | streamlit_app/utils/helpers.py:112-125 | with refresh the numbers are those of `fetch_all_available_numbers()` with its defaults (configured URL and token, pages of 100), and the answer is membership of the raw or normal form in that crawl's result |
| Helpers.ListedIsAvailable | streamlit_app/utils/helpers.py:121-125 | a number listed raw or normalised is available |
| Helpers.AvailabilityByNormalForm | streamlit_app/utils/helpers.py:121-125 | against a set of normal forms, two inputs with the same normal form get the same answer |
| ApiClient.PageUrl | streamlit_app/utils/api_client.py:33-44 | the page URL is `api_url` when it contains "/phone-numbers", else `api_url + "/phone-numbers"`, else the configured base plus "/phone-numbers"; it always contains "/phone-numbers" |
| ApiClient.PageUrlIdempotent | streamlit_app/utils/api_client.py:35-41 | resolving a resolved page URL changes nothing |
| ApiClient.PageRequestUrl | streamlit_app/utils/api_client.py:58-62 | the request URL extends the page URL with "&" exactly when it holds "?", else with "?" |
| ApiClient.PageQuery | streamlit_app/utils/api_client.py:61 | the query after the separator holds no "?" |
| ApiClient.NoQuestionMarkInNumber | streamlit_app/utils/api_client.py:61 | a printed offset or limit holds no "?" |
| ApiClient.QueryAddsNoMark | streamlit_app/utils/api_client.py:61 | appending the query adds no "?" |
| ApiClient.SeparatorMarks | streamlit_app/utils/api_client.py:58 | the separator adds a "?" only to a URL that had none |
| ApiClient.PageRequestUrlQuery | streamlit_app/utils/api_client.py:58-62 | a page URL without "?" gets exactly one; one with "?" gets no more |
| ApiClient.FallbackUrl | streamlit_app/utils/api_client.py:79-96 | a rewrite exists exactly when the URL holds both markers and a non-empty connection segment; it is the text before the first provider marker, "/connections/", that segment and "/endpoints" |
| ApiClient.ConnectionSegmentShape | streamlit_app/utils/api_client.py:89-92 | the connection segment starts the text after the last "/connections/" and holds no "/" |
| ApiClient.EndpointsRequestUrl | streamlit_app/utils/api_client.py:100 | the endpoints page request is the endpoints URL followed by `?show_free_endpoints=false&offset=` |
| ApiClient.PrimaryPage | streamlit_app/utils/api_client.py:163-183 | a list is the page, and says more follow exactly when it has `limit` items; a scalar is an empty last page; a dict's records are those of the first truthy value among "items", "data" and "results", none when all are falsy; a dict's `has_more` wins when present, else more follow exactly when `len(items)` is `limit`; only TypeError is raised |
| ApiClient.DataOnlyEndsPaging | streamlit_app/utils/api_client.py:166-175 | a dict without "items" and "has_more" never asks for another page, whatever "data" or "results" hold |
| ApiClient.EndpointPage | streamlit_app/utils/api_client.py:109-123 | a list and a scalar are read as on the primary path; a dict's records are its "items" whenever that key is present, even when falsy, else its "data", else none ("results" is never read); `has_more` wins when present, else more follow exactly when the records fill the page; only TypeError is raised |
| ApiClient.WellShapedPagesRead | streamlit_app/utils/api_client.py:109-123 | bodies of the documented shapes are read without raising, on both paths |
| ApiClient.PrimaryNumber | streamlit_app/utils/api_client.py:186-207 | a string item gives itself; an item that is neither a string nor a dict gives its `str()` |
| ApiClient.DictItemGives | streamlit_app/utils/api_client.py:188-199 | a dict item gives a number exactly when one of its number fields is truthy |
| ApiClient.DictItemNumber | streamlit_app/utils/api_client.py:190-198 | a dict item gives `str()` of its first truthy field among phone_number, number, phone, endpoint, id |
| ApiClient.EndpointNumber | streamlit_app/utils/api_client.py:127-142 | the endpoints loop reads dicts and strings as the phone-number loop does and skips any other item |
| ApiClient.GivesSnoc | streamlit_app/utils/api_client.py:187 | a list gives a number when its front or its last item does |
| ApiClient.CollectMembership | streamlit_app/utils/api_client.py:186-207 | a number is gathered from a page exactly when some item gives it |
| ApiClient.EndpointNumbersWithin | streamlit_app/utils/api_client.py:127-142 | the endpoints loop never gathers a number the phone-number loop would not |
| ApiClient.AddNumbers | streamlit_app/utils/api_client.py:186-207 | the `for` loop adds exactly the numbers of the page's items to the set |
| ApiClient.NewCrawler | streamlit_app/utils/api_client.py:31-50 | the crawler pages a URL containing "/phone-numbers", with the given token or else the configured one |
| ApiClient.FallbackFetch | streamlit_app/utils/api_client.py:71-159 | the fallback never raises; it yields an endpoints page only when a rewrite exists |
| ApiClient.FetchAt | streamlit_app/utils/api_client.py:64-183 | the only exception a round raises is TypeError, from reading a page of the wrong shape |
| ApiClient.ContinuesOnlyAfterFullPage | streamlit_app/utils/api_client.py:145-154 | the crawl goes on exactly after a non-empty page of at least `limit` items that says `has_more`, and an endpoints page must be exactly `limit` long |
| ApiClient.FetchPage | streamlit_app/utils/api_client.py:58-183 | one round of the loop obtains what `FetchAt` specifies |
| ApiClient.CrawlLoop | streamlit_app/utils/api_client.py:52-218 | the `while True` loop returns what `CrawlFrom` specifies from offset 0 with nothing gathered |
| ApiClient.FetchAllAvailableNumbers | streamlit_app/utils/api_client.py:14-218 | the crawl of a crawler returns what `CrawlFrom` specifies over its rounds |
| ApiClient.CrawlLast | streamlit_app/utils/api_client.py:145-159 | a round that does not go on ends the crawl: stopped, raised, or with its page's numbers added |
| ApiClient.CrawlNext | streamlit_app/utils/api_client.py:150-151 | a round that goes on adds its numbers and continues at `offset + limit` |
| ApiClient.OffsetsStep | streamlit_app/utils/api_client.py:53 | the i-th request goes out at `offset + i * limit` |
| ApiClient.OffsetsAdvanceAfterFullPages | streamlit_app/utils/api_client.py:209-213 | every requested page but the last was full and said `has_more` |
| ApiClient.AllGoOnCons | streamlit_app/utils/api_client.py:209-213 | a run of offsets all go on when its first does and the rest do |
| ApiClient.OffsetsMatchOutcome | streamlit_app/utils/api_client.py:56 | the crawl runs out of fuel exactly when every one of its `fuel` rounds asked for another page |
| ApiClient.CrawlRaisesOnlyTypeError | streamlit_app/utils/api_client.py:215-218 | when rounds raise only TypeError, so does the crawl; request errors never escape |
| ApiClient.RoundsRaiseOnlyTypeError | streamlit_app/utils/api_client.py:161-183 | a crawler's rounds raise nothing but TypeError |
| ApiClient.CrawlKeepsGathered | streamlit_app/utils/api_client.py:52 | numbers gathered stay gathered: the result contains the starting set |
| ApiClient.CrawlGathersOnlyServed | streamlit_app/utils/api_client.py:138-206 | every number in the result was there at the start or came from an item of a page read at one of the requested offsets |
| ApiClient.CrawlReadsOnlyOffsets | streamlit_app/utils/api_client.py:64-66 | the crawl depends on the backend only through the rounds at the offsets it requests |
| ApiClient.CrawlFuelMonotone | streamlit_app/utils/api_client.py:56 | more fuel does not change an answer already reached |
| ApiClient.EndpointList | streamlit_app/utils/api_client.py:247-251 | a lone string becomes a one-element list; anything else is posted as given |
| ApiClient.EndpointRequest | streamlit_app/utils/api_client.py:253-262 | a POST to ".../endpoints" with payload `{"endpoints": list}`; the given base URL and a lone bearer header when both base URL and token are non-empty, else the configured URL and headers |
| ApiClient.CreateEndpoint | streamlit_app/utils/api_client.py:225-298 | success exactly on a non-error decodable reply, and it returns that reply's decoded body; every failure is a request error or a ValueError |
| ApiClient.CreateEndpointHttpError | streamlit_app/utils/api_client.py:284-294 | an error status becomes a ValueError whose message starts with the HTTPError text, and so with the status |
| ApiClient.CreateSingleEndpoint | streamlit_app/utils/api_client.py:301-321 | posting one number is posting the one-element list |
| ApiClient.StrList | streamlit_app/utils/api_client.py:324-344 | the posted list holds the numbers in order, duplicates kept |
| ApiClient.CreateBulkEndpoints | streamlit_app/utils/api_client.py:324-344 | any list is posted unchanged through `create_endpoint`; a one-element bulk post is the single post |
| ApiClient.BulkPayload | streamlit_app/utils/api_client.py:248-262 | the bulk payload's "endpoints" list holds every number, in order, duplicates kept |
| OrgFetch.AuthHeaders | utils.py:105 | the bearer header of the token |
| OrgFetch.PageRequestUrl | utils.py:261-267 | the request URL carries the free-numbers flag after the full URL, joined with "?" since the full URL holds no query |
| OrgFetch.Decoded | utils.py:108-110 | an error status raises HTTPError with that status, a transport failure a request error; otherwise the decoded body |
| OrgFetch.GetWorkspaces | utils.py:88-128 | errors of the request are raised unchanged; the result is iterable; a body of another shape raises only TypeError (from `len()`) |
| OrgFetch.ListingShapes | utils.py:112-125 | the items of a dict with "items", `[body]` for a non-empty dict without, `[]` for an empty one, a list itself, `[]` for anything else |
| OrgFetch.NamedFields | utils.py:192-196 | the copy holds the id, the old name when truthy and the id otherwise, and every other field unchanged |
| OrgFetch.NormalizedIsConnection | utils.py:176-199 | every kept entry is a dict with a stripped non-blank string id; a string `s` becomes `{"id": s, "name": s}` unstripped |
| OrgFetch.NormalizeFixed | utils.py:184-197 | a dict with a stripped non-blank id and a truthy name is kept as it is |
| OrgFetch.DictIdOfId | utils.py:186-191 | a dict with a stripped non-blank string id is kept under that id |
| OrgFetch.NamedFixed | utils.py:193-196 | renaming a dict that already holds the id and a truthy name changes nothing |
| OrgFetch.NamedSettled | utils.py:193-196 | a renamed copy has a stripped non-blank id and a truthy name |
| OrgFetch.RenormalizeDict | utils.py:184-197 | keeping a kept dict again changes nothing |
| OrgFetch.ConnectionsKept | utils.py:174-201 | keeping never grows the list and keeps only connections |
| OrgFetch.ConnectionsConcat | utils.py:176 | keeping works entry by entry, in order |
| OrgFetch.KeepConnections | utils.py:174-201 | the loop keeps what `Connections` specifies |
| OrgFetch.ConnectionsOf | utils.py:131-211 | request errors are re-raised unchanged; other failures are TypeError |
| OrgFetch.GetConnectionsFromWorkspace | utils.py:131-211 | the function returns what `ConnectionsOf` specifies |
| OrgFetch.ConnectionsAreConnections | utils.py:174-206 | every connection returned is a dict with a stripped non-blank string id |
| OrgFetch.PhonePage | utils.py:271-287 | a dict's `has_more` wins when present; a dict without "items" is the last page; only TypeError is raised |
| OrgFetch.CollectLast | utils.py:289-301 | a page that ends the loop is appended, or its error raised |
| OrgFetch.CollectResumesNext | utils.py:293-303 | the loop invariant survives a page that goes on |
| OrgFetch.CollectLoop | utils.py:256-303 | the `while True` loop returns what `Collect` specifies |
| OrgFetch.GetPhoneNumbers | utils.py:214-314 | `get_phone_numbers` returns what `Collect` specifies over the backend's pages |
| OrgFetch.AtShift | utils.py:303 | the k-th page after `offset + limit` is the (k+1)-th after `offset` |
| OrgFetch.ReadsFullPages | utils.py:289-303 | every page read but the last was non-empty, full and said `has_more`; a loop that stopped early stopped on a page that did not |
| OrgFetch.CollectConcatenates | utils.py:256-303 | the result is the concatenation of the pages read, in offset order, duplicates kept |
| OrgFetch.CollectRaises | utils.py:310-314 | a loop that raises re-raises the error of the last page it read |
| OrgFetch.SingleRecordEndsPaging | utils.py:278-281 | a non-empty dict without "items" is one record and ends the loop |
| OrgFetch.Ids | utils.py:369 | the ids of kept connections, in order |
| OrgFetch.FetchConnectionsNumbers | utils.py:366-393 | the connection loop records what `ConnectionsNumbers` specifies |
| OrgFetch.AutoFetchOrgData | utils.py:317-417 | `auto_fetch_org_data` returns what `AutoFetch` specifies |
| OrgFetch.ConnectionsNumbersRecorded | utils.py:384-393 | each connection id gets its numbers, or `[]` when fetching them raised; other keys are kept |
| OrgFetch.ConnectionsNumbersNeverRaise | utils.py:389-393 | the connection loop never raises |
| OrgFetch.StepRaisesOnlyOnShape | utils.py:352-399 | a pass raises only AttributeError on a workspace that is not a dict, or TypeError on an id that cannot be a key |
| OrgFetch.WorkspacesDataRaises | utils.py:352-399 | the workspace loop raises only what a pass raised on one of the workspaces |
| OrgFetch.AutoFetchRaises | utils.py:346-399 | `auto_fetch_org_data` raises only when listing the workspaces fails or a listed workspace has a bad shape |
| OrgFetch.StepRecords | utils.py:359-399 | one finished pass records the workspace's connections under its id, or `[]` when fetching them failed |
| OrgFetch.WorkspacesDataRecorded | utils.py:352-399 | a finished loop saw only dict workspaces and recorded each one's connections under its id; other keys are kept |
| OrgFetch.AutoFetchRecordsConnections | utils.py:401-407 | the result holds, under each workspace's id, its fetched connections or `[]` |
| OrgFetch.EnrichFields | utils.py:451-455 | a copy exists exactly for a dict; it holds the four context values and every other field unchanged |
| OrgFetch.EnrichAllOneEach | utils.py:449-456 | one copy per record, in order, after what was there; it fails exactly when a copy fails |
| OrgFetch.WorkspaceRecordsConcat | utils.py:439 | workspaces are flattened in order |
| OrgFetch.ConnectionRecordsExtend | utils.py:444-456 | records already flattened are never reordered or dropped |
| OrgFetch.EnrichNumbers | utils.py:449-456 | the innermost loop returns what `EnrichAll` specifies |
| OrgFetch.FlattenConnections | utils.py:444-456 | the middle loop returns what `ConnectionRecords` specifies |
| OrgFetch.FlattenWorkspaces | utils.py:438-456 | the outer loop returns what `Flat` specifies |
| OrgFetch.GetAllPhoneNumbersFlat | utils.py:420-461 | `get_all_phone_numbers_flat` flattens what `auto_fetch_org_data` returned |
| MultiOrg.WithProviderFields | streamlit_app/utils/multi_org_config.py:82-86 | "channel_provider" is kept when present, else set to provider-or-"exotel"; no other field changes |
| MultiOrg.SettleIdName | streamlit_app/utils/multi_org_config.py:77-80 | the copy holds the stripped id, and the old name when truthy, else the id |
| MultiOrg.SettleOthers | streamlit_app/utils/multi_org_config.py:77-86 | the copy keeps or fills "channel_provider" and keeps every other field |
| MultiOrg.NormalizeDictFixed | streamlit_app/utils/multi_org_config.py:65-87 | a dict with a stripped non-blank id, a truthy name and a channel provider is kept as it is |
| MultiOrg.SettleFixed | streamlit_app/utils/multi_org_config.py:65-87 | a settled copy is kept as it is |
| MultiOrg.NormalizedIsConnection | streamlit_app/utils/multi_org_config.py:57-92 | every kept entry is a dict with a stripped non-blank string id |
| MultiOrg.RenormalizeDict | streamlit_app/utils/multi_org_config.py:65-87 | normalising a dict-derived entry again changes nothing |
| MultiOrg.NormalizeAllKept | streamlit_app/utils/multi_org_config.py:57-92 | normalising never grows the list and keeps only connections |
| MultiOrg.NormalizeAllConcat | streamlit_app/utils/multi_org_config.py:58 | normalising works entry by entry, in order |
| MultiOrg.NormalizeAllIdempotent | streamlit_app/utils/multi_org_config.py:144-151 | a list without bare strings is settled by one normalisation |
| MultiOrg.NormalizeConnections | streamlit_app/utils/multi_org_config.py:45-92 | the loop returns what `NormalizeAll` specifies |
| MultiOrg.OrgName | streamlit_app/utils/multi_org_config.py:169-180 | reading an org's name succeeds exactly on a dict, and a name read is non-empty |
| MultiOrg.OrgList | streamlit_app/utils/multi_org_config.py:156-184 | the list is sorted and a permutation of the names collected; it is empty when fetching or reading the orgs raised |
| MultiOrg.NamesConcat | streamlit_app/utils/multi_org_config.py:169 | names are collected org by org, in order |
| MultiOrg.NamesBounds | streamlit_app/utils/multi_org_config.py:169-180 | with a reader that fails exactly on non-dicts and gives non-empty names, collecting succeeds exactly on all-dict lists, with at most one non-empty name per org |
| MultiOrg.OrgNamesBounds | streamlit_app/utils/multi_org_config.py:169-180 | `get_org_list` reads at most one non-empty name per org, and fails exactly when an org is not a dict |
| MultiOrg.CollectOrgNames | streamlit_app/utils/multi_org_config.py:168-180 | the loop returns what `Names` specifies |
| MultiOrg.DotPrefixFirst | streamlit_app/utils/multi_org_config.py:315-318 | a prefix exists exactly for a dotted text, and is the text before its first ".", holding no "." |
| MultiOrg.OrgVerdictPrefersOrgId | streamlit_app/utils/multi_org_config.py:218-262 | an org that does not match is passed over; a match resolves to its truthy org_id, else its truthy orgId, in original case |
| MultiOrg.OrgVerdictOwnId | streamlit_app/utils/multi_org_config.py:213-262 | looking an org up by its own string org_id finds it |
| MultiOrg.ScanOrgsFirst | streamlit_app/utils/multi_org_config.py:204-311 | the scan stops at the first org that decides |
| MultiOrg.ScanOrgsFallback | streamlit_app/utils/multi_org_config.py:313-322 | when no org decides, a dotted query resolves to the text before its first "." and any other to None |
| MultiOrg.ScanOrgsRaises | streamlit_app/utils/multi_org_config.py:204-206 | the scan raises only AttributeError, on an org that is not a dict |
| MultiOrg.KeyKinds | streamlit_app/utils/multi_org_config.py:26-104 | the three kinds of cache key never collide |
| MultiOrg.ValidUpdate | streamlit_app/utils/multi_org_config.py:28 | storing what a getter stores keeps the session valid |
| MultiOrg.Find | streamlit_app/utils/multi_org_config.py:379 | a value found is stored under its key |
| MultiOrg.Assign | streamlit_app/utils/multi_org_config.py:124 | `d[k] = v` makes `k` hold `v` and keeps every other key; no other pair appears |
| MultiOrg.Renormalized | streamlit_app/utils/multi_org_config.py:148-151 | rewriting the cached lists keeps the number of entries |
| MultiOrg.RenormalizedSettled | streamlit_app/utils/multi_org_config.py:144-151 | rewriting a settled cache changes nothing |
| MultiOrg.GatherSettled | streamlit_app/utils/multi_org_config.py:111-138 | every list the workspace loop stores is settled |
| MultiOrg.GatherKeys | streamlit_app/utils/multi_org_config.py:111-138 | the loop stores entries under exactly the truthy ids of the dict workspaces; it raises only TypeError, for an id that cannot be a key |
| MultiOrg.FindPresent | streamlit_app/utils/multi_org_config.py:379 | a stored key is found |
| MultiOrg.ConnectionsFetchNoStrings | streamlit_app/utils/multi_org_config.py:120-122 | every list `get_connections_from_workspace` returns is free of bare strings |
| MultiOrg.TokenMemo | streamlit_app/utils/multi_org_config.py:21-29 | only the token key may change; a token returned is cached; a cached token leaves the session as it was |
| MultiOrg.OrgsMemo | streamlit_app/utils/multi_org_config.py:32-42 | only the token and listing keys may change; a listing returned is cached; a cached listing leaves the session as it was |
| MultiOrg.GatherAll | streamlit_app/utils/multi_org_config.py:107-138 | the gathered connection lists are settled |
| MultiOrg.FullMemo | streamlit_app/utils/multi_org_config.py:95-153 | only the token and this org's key may change, and data returned is cached |
| MultiOrg.TokenMemoAgain | streamlit_app/utils/multi_org_config.py:27 | once the token is cached, asking again neither logs in nor changes the session |
| MultiOrg.OrgsMemoAgain | streamlit_app/utils/multi_org_config.py:39 | once the listing is cached, asking again neither fetches nor changes the session |
| MultiOrg.FullMemoCached | streamlit_app/utils/multi_org_config.py:144-153 | the cached path returns the cache and leaves the session unchanged |
| MultiOrg.FullMemoAgain | streamlit_app/utils/multi_org_config.py:105 | once an org's data is cached, asking again neither fetches nor changes the session |
| MultiOrg.RowOfShape | streamlit_app/utils/multi_org_config.py:385-418 | an entry has a non-blank connection id, a non-empty provider and a name starting with "{workspace_name} - " |
| MultiOrg.RowOfConnection | streamlit_app/utils/multi_org_config.py:393-418 | a normalised connection is never skipped; its entry carries its id and channel_provider or provider or "exotel" |
| MultiOrg.ConnectionRowsAllKept | streamlit_app/utils/multi_org_config.py:385-418 | when every connection yields an entry, the entries are those, in order |
| MultiOrg.ConnectionRowsOfNormalized | streamlit_app/utils/multi_org_config.py:385-418 | a normalised list yields one entry per connection, in order, with its id |
| MultiOrg.WorkspaceRowsSplit | streamlit_app/utils/multi_org_config.py:369-382 | entries come in workspace order, and entries gathered are kept |
| MultiOrg.ScanConnectionsFirst | streamlit_app/utils/multi_org_config.py:460-484 | the search stops at the first connection with the id, taking its provider when it is a dict |
| MultiOrg.ScanConnectionsHolds | streamlit_app/utils/multi_org_config.py:460-484 | a match is reported exactly when some connection has the id |
| MultiOrg.ScanWorkspacesFirst | streamlit_app/utils/multi_org_config.py:459-486 | the search settles on the first workspace with a truthy id holding the connection |
| MultiOrg.UrlOf | streamlit_app/utils/multi_org_config.py:498-518 | the URL is non-empty exactly when the workspace id, the connection id and the base URL are there, and is then the phone-numbers URL of those pieces |
| MultiOrg.ResolveFinds | streamlit_app/utils/multi_org_config.py:451-489 | a connection found resolves to its workspace and provider |
| MultiOrg.ScanWorkspacesMissing | streamlit_app/utils/multi_org_config.py:459-486 | a connection held by no workspace leaves the workspace id unset |
| MultiOrg.OrgIdMemo | streamlit_app/utils/multi_org_config.py:187-322 | the lookup changes the session only through `_get_orgs_data`; on a cached listing it is the scan of that listing |
| MultiOrg.OrgListMemo | streamlit_app/utils/multi_org_config.py:156-184 | `get_org_list` never raises and returns a sorted list; on a cached listing it changes nothing |
| MultiOrg.ProvidersMemo | streamlit_app/utils/multi_org_config.py:325-424 | only the org lookup raises; an org not found gives []; keys other than the token, the listing and the org data are untouched |
| MultiOrg.ApiUrlMemo | streamlit_app/utils/multi_org_config.py:427-518 | only the org lookup raises; a non-empty URL needs the connection id and the base URL and is the phone-numbers URL of the org found; a given workspace id fetches no org data |
| MultiOrg.ApiUrlBuilt | streamlit_app/utils/multi_org_config.py:446-515 | with the org found, the URL is `UrlOf` the workspace id given, or else of the workspace and provider `Resolve` settles on from the org's data (the caller's when fetching failed); with `UrlOf`'s if-and-only-if this is the phone-numbers URL exactly when a workspace id, the connection id and the base URL are present |
| MultiOrg.ApiUrlOfHeldConnection | streamlit_app/utils/multi_org_config.py:451-515 | with the org found and no workspace id given, a connection held by a workspace of the org gets the URL under the first such workspace, with that connection's provider |
| MultiOrg.ClearedState | streamlit_app/utils/multi_org_config.py:572-587 | the session keeps exactly the keys not cleared, with their values |
| MultiOrg.ClearedOwn | streamlit_app/utils/multi_org_config.py:572-583 | the token, the listing and the org data of the environment are cleared |
| MultiOrg.ClearedKeepsOthers | streamlit_app/utils/multi_org_config.py:572-575 | the token and listing of every other environment are kept |
| MultiOrg.ClearedSuffix | streamlit_app/utils/multi_org_config.py:578-583 | org data cached for an environment whose name ends in "_" + env is cleared too |
| MultiOrg.ClearedValid | streamlit_app/utils/multi_org_config.py:585-587 | clearing keeps the session valid, and clearing twice is clearing once |
| MultiOrg.ClearedRefetches | streamlit_app/utils/multi_org_config.py:572-587 | after clearing, the token, listing and org data of the environment are absent, so the getters fetch again |
| MultiOrg.FindOrgId | streamlit_app/utils/multi_org_config.py:204-318 | the scan loop returns what `ScanOrgs` specifies |
| MultiOrg.GatherConnections | streamlit_app/utils/multi_org_config.py:110-138 | the workspace loop returns what `Gather` specifies |
| MultiOrg.RenormalizeCache | streamlit_app/utils/multi_org_config.py:146-151 | the cached-path loop returns what `Renormalized` specifies |
| MultiOrg.CollectRows | streamlit_app/utils/multi_org_config.py:385-418 | the connection loop returns what `ConnectionRows` specifies |
| MultiOrg.ListProviders | streamlit_app/utils/multi_org_config.py:368-420 | the workspace loop returns what `WorkspaceRows` specifies |
| MultiOrg.SearchConnections | streamlit_app/utils/multi_org_config.py:460-484 | the inner search loop returns what `ScanConnections` specifies |
| MultiOrg.SearchWorkspaces | streamlit_app/utils/multi_org_config.py:458-489 | the outer search loop returns what `ScanWorkspaces` specifies |
| MultiOrg.Session.constructor | streamlit_app/utils/multi_org_config.py:26-27 | a fresh session is empty and valid |
| MultiOrg.Session.AdminToken | streamlit_app/utils/multi_org_config.py:21-29 | the result and the new session are those of `TokenMemo`, and the session stays valid |
| MultiOrg.Session.OrgsData | streamlit_app/utils/multi_org_config.py:32-42 | the result and the new session are those of `OrgsMemo` |
| MultiOrg.Session.OrgFullData | streamlit_app/utils/multi_org_config.py:95-153 | the result and the new session are those of `FullMemo` |
| MultiOrg.Session.FetchFullData | streamlit_app/utils/multi_org_config.py:105-143 | the uncached path gives the result and session of `FullMemo` |
| MultiOrg.Session.GetOrgList | streamlit_app/utils/multi_org_config.py:156-184 | the result and the new session are those of `OrgListMemo` |
| MultiOrg.Session.GetOrgIdByName | streamlit_app/utils/multi_org_config.py:187-322 | the result and the new session are those of `OrgIdMemo` |
| MultiOrg.Session.GetProvidersForOrg | streamlit_app/utils/multi_org_config.py:325-424 | the result and the new session are those of `ProvidersMemo` |
| MultiOrg.Session.BuildApiUrl | streamlit_app/utils/multi_org_config.py:427-518 | the result and the new session are those of `ApiUrlMemo` |
| MultiOrg.Session.ClearCache | streamlit_app/utils/multi_org_config.py:567-587 | the new session is `ClearedState` of the old one |
| UrlRoundTrip.UrlSegments | streamlit_app/utils/multi_org_config.py:510-514 | the URL is the base URL followed by the path pieces, in the order the builder writes them |
| UrlRoundTrip.UrlMarkers | streamlit_app/utils/multi_org_config.py:510-514 | the URL is the workspace path, the provider marker, the provider, the connections marker, and the connection id with "/phone-numbers" |
| UrlRoundTrip.ProviderMarkerFirst | streamlit_app/utils/multi_org_config.py:510-512 | the provider marker first occurs right after the workspace path |
| UrlRoundTrip.NoMarkerAfter | streamlit_app/utils/multi_org_config.py:513 | nothing after a slash-free connection id reads as a connections marker |
| UrlRoundTrip.BeforeProviders | streamlit_app/utils/api_client.py:79-86 | the text before the provider marker is the workspace path |
| UrlRoundTrip.AfterConnections | streamlit_app/utils/api_client.py:89-92 | the text after the last connections marker is the connection id and "/phone-numbers" |
| UrlRoundTrip.ConnectionPiece | streamlit_app/utils/api_client.py:90-92 | the first "/" piece of the id and "/phone-numbers" is the id |
| UrlRoundTrip.FallbackInvertsBuild | streamlit_app/utils/api_client.py:71-159 | from the URL `build_api_url` writes (multi_org_config.py:510-514), the 404 rewrite recovers the endpoints URL of the same org, workspace and connection, whatever the provider |

## Left out

- HTTP: `requests.get`/`post`, timeouts and JSON decoding are the `Http` reply model. `login`, `get_orgs` and `get_base_url` (utils.py:17-85) are injected services (`MultiOrg.Services`, `OrgFetch.Backend`).
- Streamlit UI, pages, components, logging, `print`, `st.error`/`st.warning`/`st.info`: they are observable side effects only.
- auth.py (a login form over a foreign hash), `save_to_csv`, `load_from_csv` and `format_timestamp` (file I/O and clock formatting), the analytics and metrics tallies (display only), and the `__init__.py` re-exports.
- The scripts' "already exist" branch catches HTTPError, but `create_endpoint` raises ValueError (`ApiClient.CreateEndpoint`), so that branch never runs; the scripts themselves are thin command-line wrappers.
- The admin-org warning in `get_providers_for_org` (multi_org_config.py:345-356) only shows a warning.
- `get_token_for_org` and `get_org_info`: the first is `_get_admin_token` (`MultiOrg.Session.AdminToken`); the second only merges dicts for display.
- In `auto_fetch_org_data`, the string and other-type connection branches (utils.py:371-378) are unreachable: `get_connections_from_workspace` returns dicts only (`OrgFetch.ConnectionsAreConnections`).
- Dict keys: Python treats `1`, `1.0` and `True` as the same key; the model keeps them apart. Floats are not modelled.
- `org_id is None` in `auto_fetch_org_data` (reading `st.secrets`) is not modelled; the org id is a parameter.
- `_get_secret_value` runs over a plain nested map. The concrete Streamlit `Secrets` type is not modelled, and reading it raising is the `None` input.
- `is_number_available` only reads its set: the set is a value, so nothing can modify it.
- ApiClient.FetchAllAvailableNumbers: bounded by `fuel` rounds, because the source loops for as long as the backend serves full pages; `OutOfFuel` marks a crawl that would go on. `limit > 0` is required, as the source's offset arithmetic assumes.
- ApiClient.CrawlLoop: bounded by `fuel` rounds, as above.
- OrgFetch.GetPhoneNumbers: bounded by `fuel` requests, as above; `limit > 0` is required.
- OrgFetch.AutoFetchOrgData: each phone-number loop is bounded by `fuel`.
- Helpers.Validate: `\d` is ASCII digits only; Python's `\d` also matches other Unicode decimal digits.
- PyText.Lower: ASCII letters only; Python's `lower()` also folds other scripts.
- PyValue.Repr: strings are shown in single quotes without Python's escaping.
- MultiOrg.ApiUrlMemo: when no workspace holds the connection, the URL uses the first workspace of the listing; `MultiOrg.ApiUrlBuilt` gives that choice as `Resolve`, and `MultiOrg.ScanWorkspacesMissing` states only that the search itself leaves the workspace unset.
- OrgFetch.PageRequestUrl: joins the parameters with "?", which assumes the configured base URL holds no query of its own.
- MultiOrg.ProvidersMemo: for a found org it returns `ProvidersOf` of the fetched data; the properties of that list are the lemmas about `ConnectionRows` and `WorkspaceRows`.
- UrlRoundTrip.FallbackInvertsBuild: holds for slash-free, non-empty ids, a provider other than "connections", and a base URL whose org path holds no provider marker; outside those the rewrite can cut at the wrong place.
- A 2xx reply whose body is not JSON is modelled as a request error, raised again by `create_endpoint` (streamlit_app/utils/api_client.py:295-298) and ending the crawl quietly (streamlit_app/utils/api_client.py:215-218). This holds where `response.json()` raises `requests.JSONDecodeError`, which is a `RequestException` from requests 2.27 on.
- ApiClient.CreateEndpoint: does not model `verbose=True`, whose progress message `', '.join(phone_list)` (streamlit_app/utils/api_client.py:264-265) raises TypeError for a list holding a non-string; with the default `verbose=False` the model is exact.
- Where the written description of the system and the code disagree, the model follows the code:
  - other HTTP error statuses end the crawl quietly rather than raising;
  - the endpoints fallback merges into the same set and can continue paging;
  - a dict item without a number field is skipped rather than added as `str(item)`;
  - `create_endpoint` raises ValueError, never a dedicated conflict error.

## Findings

| source | as written | input that shows it | evidently intended | confidence | as-written member | corrected member |
|---|---|---|---|---|---|---|
| streamlit_app/utils/helpers.py:37-39 | `re.match(r"^\+\d{10,15}$", normalized)`: Python's `$` also matches before a final newline, and `strip()` keeps a newline that is followed by a dash | `"+1234567890\n-"` normalises to `"+1234567890\n"` and is accepted | accept only "+" and 10 to 15 digits (`re.fullmatch`, or `\Z`) | not executed | Helpers.ValidateAsWritten, Helpers.NewlineAccepted | Helpers.Validate |
