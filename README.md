# nxgo client core in Dafny

A model of the core of `nxgo`, a Go client for the JSON management API of a
Nexus switch, and proofs about it. The model covers:

- how the client reads the API's response envelope `{"imdata": [...]}`;
- how `New` validates its options against the environment;
- how requests are addressed to the configured hosts, with failover from
  one host to the next for logins;
- how the session token and refresh timeout are taken from aaaLogin and
  aaaRefresh replies;
- how the APIC-cookie is kept;
- how interface trunk bodies, VLAN bodies and read/delete paths are built
  from the path and body templates.

Modules, one per source file, plus two support modules:

- `Errors`: Option, Result, the Go `error` outcome, and the error values.
- `Strings`: the parts of Go's `strings`, `strconv` and `fmt` that the
  client uses.
- `Templates`: the constants of `nx/constrest.go` and the login body. Each
  template is proved equal to `fmt.Sprintf` of its text.
- `Json`: `nx/json.go`.
- `Session`: `nx/nx.go`, with `class Client`.
- `Interface`: `nx/interface.go`.
- `Vlan`: `nx/vlan.go`.

The network is a parameter of type `Request -> Response`. It maps the
request sent (verb, URL, body) either to no response at all, or to the
response's cookies and the result of reading its body. `json.Unmarshal` is
represented by the `Reply` datatype: the raw text, plus the decoded value
or nothing.

Go's map iteration order is unspecified. `Login` and `Refresh` range over
the members of the reply's first item, so which of `error` and `aaaLogin`
is met first is a parameter, `errorFirst`.

## Model

| member | source | states |
|---|---|---|
| Strings.Split | nx/interface.go:15 | `strings.Split` with a one-character separator: at least one piece, no piece contains the separator, the pieces joined by the separator give back the input, one more piece than separators |
| Strings.SplitJoin | nx/interface.go:15-17 | Split undoes Join for any non-empty list of separator-free pieces |
| Strings.TrimSpace | nx/nx.go:68 | the trimmed name is empty exactly when every character is Unicode white space, and otherwise neither starts nor ends with white space |
| Strings.TrimSpaceIsInfix | nx/nx.go:68 | the trimmed name is a slice of the input with only white space cut off at its two ends |
| Strings.Join | nx/interface.go:56 | `strings.Join`: the result starts with the first part. Split gives the parts back only for a one-character separator (Strings.SplitJoin); the `", "` join of the native and trunk settings is pinned literally by Interface.VlanConfig's ensures |
| Strings.Atoi | nx/nx.go:263 | a parsed value lies in the 64-bit range and comes from text starting with a digit or a sign |
| Strings.AtoiAccepts | nx/nx.go:263 | an optional `+` or `-` followed by one or more decimal digits parses to the signed value of the digits when it fits in 64 bits, and is refused otherwise |
| Strings.AtoiRefuses | nx/nx.go:263-264 | the empty text, a bare sign, and text with a non-digit after the optional sign are refused |
| Strings.AtoiAcceptsExamples | nx/nx.go:263 | `"+120"` and `"0120"` both parse to 120 |
| Strings.AtoiRefusesExamples | nx/nx.go:263-264 | `"12a"` and `"-"` are refused |
| Strings.AtoiItoa | nx/nx.go:264-268 | every 64-bit integer written in decimal is read back as itself |
| Strings.SprintfNoVerb | nx/nx.go:125 | `fmt.Sprintf` of a format without verbs and with no arguments is the format itself (with arguments Go appends `%!(EXTRA ...)`, see Strings.Sprintf under Left out) |
| Strings.SprintfTemplate | nx/nx.go:125 | `fmt.Sprintf` of a template whose only verbs are `%s` puts the arguments between the literal pieces |
| Templates.InterfaceAllUri | nx/constrest.go:13 | the path is `Sprintf` of the InterfaceAll template with the class key |
| Templates.InterfaceEnetUri | nx/constrest.go:16 | the path is `Sprintf` of the ethernet path template with the id |
| Templates.InterfacePcUri | nx/constrest.go:17 | the path is `Sprintf` of the port-channel path template with the id |
| Templates.VlanUri | nx/constrest.go:56 | the path is `Sprintf` of the VLAN path template with the id |
| Templates.IfEntityBody | nx/constrest.go:35 | the interface child is `Sprintf` of the IfEntity template with tag, prefix, id, mode and VLAN fields |
| Templates.NativeVlanField | nx/constrest.go:40 | the field is `Sprintf` of the nativeVlan template |
| Templates.TrunkVlansField | nx/constrest.go:42 | the field is `Sprintf` of the trunkVlans template |
| Templates.VlanEntityBody | nx/constrest.go:60 | the bridge-domain child is `Sprintf` of the vlanEntity template with the VLAN id and the segment |
| Templates.VxlanSegmentField | nx/constrest.go:61 | the segment attribute is `Sprintf` of the vxlanSegment template |
| Templates.AaaUserBody | nx/nx.go:124-126 | the credentials body is `Sprintf` of the aaaUser template with user and password |
| Json.MapGet | nx/json.go:8-18 | succeeds exactly on an object holding the member and returns its value; otherwise "not a map" or "member not found" |
| Json.SliceGet | nx/json.go:20-29 | succeeds exactly on an array with the index in [0, len) and returns that element; otherwise "not a slice" or "out of bounds" |
| Json.MapSimple | nx/json.go:31-34 | the member when MapGet succeeds, null otherwise |
| Json.MapString | nx/json.go:36-43 | the member when it is a string in an object, "" in every other case; never fails |
| Json.ParseJSONError | nx/json.go:44-78 | fails on a body that is not JSON, a missing `imdata` or one that is not an array. Succeeds on an empty array. Otherwise fails exactly when item 0 has an `error` member, and then the failure is the remote error with that member's `attributes.code` and `attributes.text`, each read as a string or "" on its own |
| Json.RemoteErrorRoundTrip | nx/json.go:73-77 | an error item's code and text come back verbatim, whatever follows the item |
| Json.MissingAttributesDefault | nx/json.go:73-77 | when code and text are both missing or non-string, both are reported as "" |
| Json.EachAttributeDefaults | nx/json.go:73-77 | code and text default on their own: a code without a text is reported with an empty text, and a text without a code with an empty code |
| Json.OnlyFirstItemMatters | nx/json.go:66-71 | items after the first never change the outcome |
| Json.NoErrorMemberIsSuccess | nx/json.go:66-71 | a first item that is not an object, or has no `error` member, is success |
| Session.BlankIsTrimmedEmpty | nx/nx.go:68 | a host is blank exactly when TrimSpace leaves nothing of it |
| Session.FirstWhere | nx/nx.go:67-72 | the index found is the first element satisfying the test; none is found exactly when no element does |
| Session.Configure | nx/nx.go:57-93 | on success there is at least one host and user and password are non-empty. Caller hosts are kept unchecked. Environment hosts are split on commas and none is blank. User and password fall back to the environment. MissingHosts, BlankHost, MissingUser and MissingPass each occur in exactly their cases. BlankHost names the first blank entry of the split list |
| Session.IsBlankHost | nx/nx.go:68 | the TrimSpace test is true exactly for a blank host |
| Session.FindBlank | nx/nx.go:67-72 | the loop over the split hosts finds the first blank one |
| Session.New | nx/nx.go:57-100 | fails exactly when Configure does, with its error; otherwise the new client holds Configure's options, is valid, and has cursor 0, no token, a zero timeout and no jar |
| Session.MakeURL | nx/nx.go:320-322 | the URL is the protocol, `://`, the host and the path; with protocol `https` it satisfies `isURL` and the host and path follow the scheme |
| Session.IsURL | nx/nx.go:460-462 | `strings.HasPrefix(url, "https://")`: the URL is at least as long as the scheme and begins with it |
| Session.GetURL | nx/nx.go:310-322 | the URL always satisfies `isURL`, and after `https://` it is the current host followed by the path |
| Session.LearnedJar | nx/nx.go:373-392 | a jar that exists keeps existing and loses no entry |
| Session.LearnedJarKeepsFirstApic | nx/nx.go:373-392 | the jar is unchanged without an APIC-cookie. Otherwise the jar exists and holds the value of the first APIC-cookie. No other cookie is added or changed |
| Session.ExchangeOutcome | nx/nx.go:394-499 | a `post`, `get` or `delete` on the host at the cursor fails only with a transport error or, past the last host, with CursorOutOfRange, and exactly then with the latter; on a host it succeeds exactly when the network answers the request for that host's URL with a body that was read, and returns that body; no answer fails with the network's reason, and an unreadable body with the read failure's reason |
| Session.ExchangeJar | nx/nx.go:394-499 | past the last host, or when the network gives no answer, the jar is unchanged; on an answer the jar is the old jar after learning the answer's cookies (Session.LearnedJar), and a jar that exists keeps every entry |
| Session.ExhaustedCursorSendsNothing | nx/nx.go:310-312 | with the cursor past the last host no request is sent and the jar is unchanged |
| Session.CallOutcome | nx/vlan.go:23-29 | a transport error is returned unchanged; otherwise the outcome is exactly ParseJSONError of the reply |
| Session.FirstSuccess | nx/nx.go:332-345 | the host chosen is at or after the cursor, its POST succeeded, and every host between the cursor and it failed |
| Session.ScanOutcome | nx/nx.go:325-348 | the scan succeeds exactly when some host from the cursor on answers; otherwise it reports "no more hosts" |
| Session.ScanSkipsFailedHosts | nx/nx.go:332-345 | after failed hosts, the first answering host is chosen and its reply returned |
| Session.ScanExhaustsHosts | nx/nx.go:332-347 | when every host fails, the cursor ends at len(Hosts) and the last host's error is reported |
| Session.ExhaustedScanIsFinal | nx/nx.go:332-347 | the cursor is never reset: a later scan sends nothing, fails with no last error and leaves the jar alone |
| Session.RangeDispatch | nx/nx.go:185-201 | the range over the members in a given order: "could not find aaaLogin" exactly when neither `error` nor `aaaLogin` is visited; otherwise the first of them visited decides, `error` giving its code and text and `aaaLogin` its token and timeout |
| Session.Dispatch | nx/nx.go:185-203 | the reply grants a session exactly when `aaaLogin` is present and no `error` is met first. A grant carries aaaLogin's token and timeout. An `error` yields its code and text. Neither key yields "could not find aaaLogin" |
| Session.RangeDispatchIsDispatch | nx/nx.go:185-203 | the range over the members, in any order, gives one of the two outcomes of Dispatch. When the item does not hold both keys the order does not matter |
| Session.BothKeysEitherOutcome | nx/nx.go:185-201 | with both keys present, each order gives a different outcome |
| Session.AuthReply | nx/nx.go:164-183 | non-JSON, a missing `imdata`, an empty or non-array `imdata`, and a first item that is not an object are each refused. Otherwise the first item is dispatched on |
| Session.EmptyImdataDenied | nx/nx.go:175-178 | an empty `imdata` is a login error, though ParseJSONError counts it a success |
| Session.Authenticate | nx/nx.go:159-162 | a transport error is returned as the login error; otherwise the reply is checked |
| Session.TimeoutFrom | nx/nx.go:263-268 | the stored timeout is a 64-bit value: the parsed value whenever the text parses, and 60 whenever it does not |
| Session.TimeoutFromDecimal | nx/nx.go:264-269 | a timeout written in decimal is stored as that number of seconds |
| Session.TimeoutDefaultsTo60 | nx/nx.go:264-268 | an empty or non-numeric timeout is stored as 60 seconds |
| Session.RefreshUrlAsWrittenIsDoubled | nx/nx.go:212-214 | the URL Refresh requests as written is the scheme, the host, and then the whole intended refresh URL again, so it never equals the intended URL |
| Session.RefreshUrl | nx/nx.go:210-214 | the intended refresh URL is `https://`, the current host and the aaaRefresh path |
| Session.Client.constructor | nx/nx.go:93 | the client starts with the given options, cursor 0, no token, no timeout and no jar |
| Session.Client.RefreshTimeout | nx/nx.go:276-278 | returns the timeout stored by the last login or refresh |
| Session.Client.LearnCookies | nx/nx.go:373-392 | the loop leaves the jar as LearnedJar of the response's cookies |
| Session.Client.Exchange | nx/nx.go:394-499 | `post`/`get`/`delete` on the current host: returns the read body or the transport error. A cursor past the end is an error. The jar learns the response's cookies |
| Session.Client.PostScan | nx/nx.go:325-348 | an api that is already a URL is refused with cursor and jar untouched. Otherwise the cursor ends on FirstSuccess, the result is ScanOutcome, and the jar has learnt from every host tried. The client stays valid |
| Session.Client.StoreToken | nx/nx.go:261-272 | the token is stored verbatim and the timeout is the parsed seconds, or 60 |
| Session.Client.Login | nx/nx.go:151-204 | scans the hosts with the credentials body. A grant stores token and timeout and succeeds. Any error, transport or reply, is returned with token and timeout unchanged |
| Session.Client.Refresh | nx/nx.go:208-259 | GETs the corrected URL, aaaRefresh on the current host (Session.RefreshUrl), not the doubled URL the code builds (see Findings). Grant and error are handled as in Login. The cursor does not move |
| Session.Client.Conclude | nx/nx.go:185-203 | stores what is granted, or returns the error leaving the session as it was |
| Session.Client.Logout | nx/nx.go:129-148 | POSTs the credentials to aaaLogout on the current host; only the jar can change |
| Interface.SplitInterfaceName | nx/interface.go:11-34 | succeeds exactly when the name has at most one colon. No colon gives (name, ""). One colon gives type + ":" + id == name. Neither part holds a colon |
| Interface.SplitInterfaceNameRoundTrip | nx/interface.go:15-32 | a colon-free type and id joined by a colon, or a type alone, split back into that type and id |
| Interface.VlanConfig | nx/interface.go:44-57 | "None" allows nothing and makes the native VLAN 1. Without a native VLAN the fields are exactly the trunkVlans field. With one, they are the nativeVlan field, ", ", then the trunkVlans field |
| Interface.InterfaceClass | nx/interface.go:59-72 | ethernet and enet map to (l1PhysIf, eth); port-channel and po map to (pcAggrIf, po); any other type is an error |
| Interface.FormatTrunkBody | nx/interface.go:38-77 | fails exactly on an unknown type. Otherwise the body is TopBegin + IfEntity(tag, prefix, id, "trunk", VLAN fields) + TopEnd |
| Interface.TrunkRequest | nx/interface.go:84-92 | a bad name is reported before the type is looked at; otherwise the body is FormatTrunkBody of the split name |
| Interface.BadNameBeforeBadType | nx/interface.go:84-92 | a name with two colons is a bad value whatever its type |
| Interface.AddTrunkVlan | nx/interface.go:80-103 | a split or format error is returned with no request sent. Otherwise the body is POSTed to the configuration root and the result is CallOutcome of the reply |
| Interface.InterfaceQuery | nx/interface.go:109-133 | only ethernet and port-channel are accepted, with keys l1PhysIf and pcAggrIf. An empty id selects InterfaceAll with the key; otherwise the per-type path with the id |
| Interface.ShortTypesNotQueried | nx/interface.go:114-128 | enet and po are accepted in a trunk body but refused for reading |
| Interface.GetInterface | nx/interface.go:105-141 | a query error is returned with no request sent. Otherwise the chosen path is fetched, and the reply is returned with the class key |
| Vlan.SegmentField | nx/vlan.go:12-16 | no VNI gives no segment; a VNI gives `, "accEncap": "vxlan-<vni>"` |
| Vlan.VlanBody | nx/vlan.go:18-20 | the body is TopBegin + vlanEntity(id, segment) + TopEnd |
| Vlan.VlanBodySegment | nx/vlan.go:12-20 | the VLAN id follows `fabEncap": "vlan-`, and the segment sits right after `adminSt` |
| Vlan.VlanBodyWithoutSegment | nx/vlan.go:12-20 | without a VNI the body has nothing between `adminSt` and the closing braces |
| Vlan.VlanQuery | nx/vlan.go:36-47 | an empty id reads AllVlanURI, any other the VLAN's path; records are under l2BD |
| Vlan.DeleteVlanUri | nx/vlan.go:54 | delete always uses the VLAN path with the id |
| Vlan.EmptyIdDeleteIsNotAll | nx/vlan.go:54 | for an empty id, delete addresses `bd-[vlan-]`, not every bridge domain |
| Vlan.AddVlan | nx/vlan.go:8-30 | POSTs VlanBody to the configuration root; the result is CallOutcome of the reply |
| Vlan.GetVlan | nx/vlan.go:33-49 | GETs VlanQuery's path; returns the reply with key l2BD, or the transport error |
| Vlan.DeleteVlan | nx/vlan.go:51-62 | DELETEs the VLAN path; the result is CallOutcome of the reply |

## Left out

- HTTP, TLS and the dialer (`newHTTPClient`, `tlsConfig`, `cli.Post`/`Get`/`Do`, `ioutil.ReadAll`, `http.NewRequest`) are foreign I/O. The network is a function parameter instead.
- The jar does not scope cookies by URL, and cookies do not expire. It is a map from cookie name to value.
- `debugf`, `logf`, `showCookies` and the `Debug` option only produce log output. `Debug` is kept as an option but does nothing.
- `getFuncName` prints the caller's name to standard output with `fmt.Println` on every request, whatever `Debug` says. Output is not modelled.
- The websocket field and `getURLws` are unused.
- `json.Unmarshal` itself is not modelled. A reply is its raw text plus the decoded value, or nothing when the text is not JSON.
- `jsonImdataAttributes` is not part of this model. GetInterface and GetVlan return the reply together with the class key its records would be extracted under.
- Session.Client.PostScan: it sends the same body to every host tried. The Go code reuses one `io.Reader`, which the first attempt may partly or fully consume.
- Session.Client.StoreToken: it keeps the timeout as whole seconds. Go stores `time.Duration(timeout) * time.Second`, a 64-bit nanosecond count that wraps above about 9.2e9 seconds.
- Three checks in the Go code can never fail, and the model leaves them out:
  - `post`, `get` and `delete` check that the result of `getURL` is a URL, but it always is (Session.GetURL);
  - `New` checks for an empty `strings.Split` result, but Split never returns one (Strings.Split);
  - `cookiejar.New(nil)` never fails.
- Session.Client.Exchange: Go's `http.Client`, once its `Jar` is set by `learnCookies`, stores every cookie of every response in the jar and attaches the jar's cookies to every request. The model's jar only ever gains the APIC-cookie, and a `Request` carries no cookies, so no modelled response depends on the jar. Every jar clause built on Session.ExchangeJar (PostScan, Login, Refresh, Logout, and the Interface and Vlan methods) has this limit.
- Strings: Go strings are byte sequences; the model's `string` holds Unicode scalar values, so invalid UTF-8 and byte-level slicing are not modelled.
- Session.Client.Refresh: it models the corrected URL, aaaRefresh on the current host, not the doubled URL the code as written requests (see Findings, and Session.RefreshUrlAsWrittenIsDoubled for the as-written URL).
- Session.ExchangeOutcome: Go panics with an index out of range when `getURL` runs with the cursor past the last host. The model returns a `CursorOutOfRange` error instead.
- Strings.Sprintf: only the `%s` verb is modelled. Arguments beyond the verbs are ignored; Go would append `%!(EXTRA ...)`.
- Error values keep the data they carry, such as a code, text, body or name, but not the wording of Go's messages.
- The `samples/` programs handle the command line and printing, and are not modelled.

## Findings

| source | as written | input that shows it | evidently intended | confidence | as-written member | corrected member |
|---|---|---|---|---|---|---|
| nx/nx.go:212-214 | `Refresh` builds `url := c.getURL(api)` and calls `c.get(url)`; `get` applies `getURL` again | hosts ["h1"], cursor 0: the GET goes to `https://h1https://h1/api/aaaRefresh.json` | GET `https://h1/api/aaaRefresh.json`, as `c.get(api)` would | high (not executed) | Session.RefreshUrlAsWrittenIsDoubled | Session.RefreshUrl |

Session.Client.Refresh sends its GET to Session.RefreshUrl: `Exchange(Get, RefreshApi, ...)` resolves the path against the current host once.
