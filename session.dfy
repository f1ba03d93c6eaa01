/**
 A client session with a Nexus switch (nx/nx.go): validating the options
 given to `New`, building request URLs, the transport calls `post`, `get`
 and `delete` with their cookie learning, the host failover of `postScan`,
 and the aaaLogin / aaaRefresh exchanges that store the session token and
 its refresh timeout.

 The network is a parameter: a function from the request sent (verb, URL,
 body) to what came back. It is either no response at all (connection, TLS
 or protocol failure) or the response's cookies and the outcome of reading
 its body.
 */
module Session {

  import opened Errors
  import opened Strings
  import opened Json
  import opened Templates

  const LoginApi: string := "/api/aaaLogin.json"
  const RefreshApi: string := "/api/aaaRefresh.json"
  const LogoutApi: string := "/api/aaaLogout.json"

  /** What `isURL` looks for, and what `getURL` always puts in front. */
  const HttpsScheme: string := "https://"

  /** The only cookie the client keeps. */
  const ApicCookie: string := "APIC-cookie"

  /** The refresh timeout used when the switch reports one that does not parse. */
  const DefaultRefreshSecs: int := 60

  // ---------------------------------------------------------------------------
  // Options and their validation (New)
  // ---------------------------------------------------------------------------

  datatype ClientOptions = ClientOptions(hosts: seq<string>, user: string, pass: string, debug: bool)

  /** The process environment as `New` reads it: NEXUS_HOSTS, NEXUS_USER and
      NEXUS_PASS through `os.Getenv` ("" when unset), and whether NEXUS_DEBUG
      is set at all. */
  datatype Environment = Environment(hosts: string, user: string, pass: string, debugSet: bool)

  /** A host name made of white space only. */
  predicate Blank(h: string)
  {
    forall k :: 0 <= k < |h| ==> IsSpace(h[k])
  }

  /** Blank names are exactly those `strings.TrimSpace` reduces to nothing. */
  lemma BlankIsTrimmedEmpty(h: string)
    ensures Blank(h) <==> TrimSpace(h) == ""
  {
  }

  /** The index of the first element of `s` satisfying `p`. */
  function FirstWhere<T>(s: seq<T>, p: T -> bool): (r: Option<nat>)
    ensures r.Some? ==> r.value < |s| && p(s[r.value]) && forall j :: 0 <= j < r.value ==> !p(s[j])
    ensures r.None? <==> forall j :: 0 <= j < |s| ==> !p(s[j])
    decreases |s|
  {
    if |s| == 0 then None
    else if p(s[0]) then Some(0)
    else
      match FirstWhere(s[1..], p)
      case None => None
      case Some(k) => Some(k + 1)
  }

  /** The index of the first blank host. */
  function FirstBlank(hosts: seq<string>): (r: Option<nat>)
  {
    FirstWhere(hosts, Blank)
  }

  /** The options `New` settles on, or why it refuses. Hosts come from the
      caller or, failing that, from NEXUS_HOSTS split on commas, where no
      entry may be blank; the caller's own list is taken as given. User and
      password fall back to the environment and must end up non-empty. */
  function Configure(o: ClientOptions, env: Environment): (r: Result<ClientOptions>)
    ensures r.Ok? ==> |r.value.hosts| >= 1 && r.value.user != "" && r.value.pass != ""
    ensures r.Ok? && |o.hosts| >= 1 ==> r.value.hosts == o.hosts
    ensures r.Ok? && |o.hosts| == 0 ==>
              r.value.hosts == Split(env.hosts, ',')
              && forall j :: 0 <= j < |r.value.hosts| ==> !Blank(r.value.hosts[j])
    ensures r.Ok? ==> r.value.user == (if o.user != "" then o.user else env.user)
                      && r.value.pass == (if o.pass != "" then o.pass else env.pass)
                      && r.value.debug == (o.debug || env.debugSet)
    ensures |o.hosts| == 0 && env.hosts == "" ==> r == Err(MissingHosts)
    ensures (|o.hosts| == 0 && env.hosts != "" &&
             exists j :: 0 <= j < |Split(env.hosts, ',')| && Blank(Split(env.hosts, ',')[j]))
            ==> r.Err? && r.error.BlankHost?
    ensures r.Err? && r.error.BlankHost? ==>
              |o.hosts| == 0 && Blank(r.error.host) && r.error.host in Split(env.hosts, ',')
    ensures r.Err? && r.error.BlankHost? ==>
              FirstBlank(Split(env.hosts, ',')).Some?
              && r.error.host == Split(env.hosts, ',')[FirstBlank(Split(env.hosts, ',')).value]
    ensures |o.hosts| >= 1 && (o.user != "" || env.user != "") && (o.pass != "" || env.pass != "") ==> r.Ok?
    ensures r.Err? ==> r.error in {MissingHosts, MissingUser, MissingPass} || r.error.BlankHost?
    ensures r == Err(MissingUser) <==>
              (|o.hosts| >= 1 || (env.hosts != "" && FirstBlank(Split(env.hosts, ',')).None?))
              && o.user == "" && env.user == ""
    ensures r == Err(MissingPass) <==>
              (|o.hosts| >= 1 || (env.hosts != "" && FirstBlank(Split(env.hosts, ',')).None?))
              && (o.user != "" || env.user != "") && o.pass == "" && env.pass == ""
  {
    if |o.hosts| == 0 && env.hosts == "" then Err(MissingHosts)
    else if |o.hosts| == 0 && FirstBlank(Split(env.hosts, ',')).Some? then
      Err(BlankHost(Split(env.hosts, ',')[FirstBlank(Split(env.hosts, ',')).value]))
    else
      var hosts := if |o.hosts| >= 1 then o.hosts else Split(env.hosts, ',');
      var user := if o.user != "" then o.user else env.user;
      var pass := if o.pass != "" then o.pass else env.pass;
      if user == "" then Err(MissingUser)
      else if pass == "" then Err(MissingPass)
      else Ok(ClientOptions(hosts, user, pass, o.debug || env.debugSet))
  }

  // ---------------------------------------------------------------------------
  // URLs (getURL, makeURL, isURL)
  // ---------------------------------------------------------------------------

  function MakeURL(proto: string, host: string, path: string): (url: string)
    ensures |url| == |proto| + 3 + |host| + |path|
    ensures proto == "https" ==> IsURL(url) && url[|HttpsScheme|..] == host + path
  {
    assert proto == "https" ==> proto + "://" == HttpsScheme;
    proto + "://" + host + path
  }

  predicate IsURL(url: string): (b: bool)
    ensures b <==> |url| >= |HttpsScheme| && url[..|HttpsScheme|] == HttpsScheme
  {
    HttpsScheme <= url
  }

  /** `getURL` with the cursor at `cursor`: the HTTPS URL of `api` on that host. */
  function GetURL(hosts: seq<string>, cursor: nat, api: string): (url: string)
    requires cursor < |hosts|
    ensures IsURL(url)
    ensures url[|HttpsScheme|..] == hosts[cursor] + api
  {
    MakeURL("https", hosts[cursor], api)
  }

  // ---------------------------------------------------------------------------
  // The network and cookies
  // ---------------------------------------------------------------------------

  datatype Verb = Get | Post | Delete

  datatype Request = Request(verb: Verb, url: string, payload: string)

  datatype Cookie = Cookie(name: string, value: string)

  datatype ReadResult = Read(reply: Reply) | ReadFailed(reason: string)

  datatype Response =
    | NoResponse(reason: string)
    | Response(cookies: seq<Cookie>, read: ReadResult)

  /** What the network answers to each request. */
  type Network = Request -> Response

  /** The client's cookie jar: absent until the first APIC-cookie arrives. */
  type Jar = Option<map<string, string>>

  /** The jar after `learnCookies` has seen `cookies`: only the first
      APIC-cookie is kept, the jar being created for it if needed; every
      other cookie already in the jar stays as it was. */
  function LearnedJar(jar: Jar, cookies: seq<Cookie>): (r: Jar)
    ensures jar.Some? ==> r.Some? && jar.value.Keys <= r.value.Keys
    decreases |cookies|
  {
    if |cookies| == 0 then jar
    else if cookies[0].name == ApicCookie then
      var cookiesSoFar := if jar.Some? then jar.value else map[];
      Some(cookiesSoFar[ApicCookie := cookies[0].value])
    else LearnedJar(jar, cookies[1..])
  }

  /** Without an APIC-cookie the jar is unchanged; otherwise the jar exists
      and holds the first APIC-cookie's value, and no other entry is added
      or changed. */
  lemma {:induction false} LearnedJarKeepsFirstApic(jar: Jar, cookies: seq<Cookie>)
    ensures (forall j :: 0 <= j < |cookies| ==> cookies[j].name != ApicCookie) ==> LearnedJar(jar, cookies) == jar
    ensures forall i :: 0 <= i < |cookies| && cookies[i].name == ApicCookie
                        && (forall j :: 0 <= j < i ==> cookies[j].name != ApicCookie)
                        ==> var r := LearnedJar(jar, cookies);
                            r.Some? && ApicCookie in r.value && r.value[ApicCookie] == cookies[i].value
    ensures var r := LearnedJar(jar, cookies);
            r.Some? ==> forall k :: k in r.value && k != ApicCookie ==> jar.Some? && k in jar.value && r.value[k] == jar.value[k]
    decreases |cookies|
  {
    if |cookies| > 0 && cookies[0].name != ApicCookie {
      LearnedJarKeepsFirstApic(jar, cookies[1..]);
      forall i | 0 < i < |cookies| && cookies[i].name == ApicCookie
                 && (forall j :: 0 <= j < i ==> cookies[j].name != ApicCookie)
        ensures cookies[1..][i - 1] == cookies[i]
      {
      }
    }
  }

  /** The result of one `post`, `get` or `delete` of `api` on the host at
      `cursor`; a cursor past the last host is Go's index-out-of-range
      panic in `getURL`. */
  function ExchangeOutcome(hosts: seq<string>, cursor: nat, verb: Verb, api: string, payload: string, net: Network): (r: Result<Reply>)
    ensures r.Err? ==> r.error.CursorOutOfRange? || r.error.Transport?
    ensures (r.Err? && r.error.CursorOutOfRange?) <==> cursor >= |hosts|
    ensures r.Ok? ==> cursor < |hosts|
                      && net(Request(verb, GetURL(hosts, cursor, api), payload)).Response?
                      && net(Request(verb, GetURL(hosts, cursor, api), payload)).read == Read(r.value)
    ensures cursor < |hosts| ==>
              var resp := net(Request(verb, GetURL(hosts, cursor, api), payload));
              (r.Ok? <==> resp.Response? && resp.read.Read?)
              && (resp.NoResponse? ==> r == Err(Transport(resp.reason)))
              && (resp.Response? && resp.read.ReadFailed? ==> r == Err(Transport(resp.read.reason)))
  {
    if cursor >= |hosts| then Err(CursorOutOfRange(cursor))
    else
      match net(Request(verb, GetURL(hosts, cursor, api), payload))
      case NoResponse(reason) => Err(Transport(reason))
      case Response(_, ReadFailed(reason)) => Err(Transport(reason))
      case Response(_, Read(reply)) => Ok(reply)
  }

  /** The jar after that same call. */
  function ExchangeJar(jar: Jar, hosts: seq<string>, cursor: nat, verb: Verb, api: string, payload: string, net: Network): (r: Jar)
    ensures cursor >= |hosts| ==> r == jar
    ensures jar.Some? ==> r.Some? && jar.value.Keys <= r.value.Keys
    ensures cursor < |hosts| ==>
              var resp := net(Request(verb, GetURL(hosts, cursor, api), payload));
              (resp.NoResponse? ==> r == jar)
              && (resp.Response? ==> r == LearnedJar(jar, resp.cookies))
  {
    if cursor >= |hosts| then jar
    else
      match net(Request(verb, GetURL(hosts, cursor, api), payload))
      case NoResponse(_) => jar
      case Response(cookies, _) => LearnedJar(jar, cookies)
  }

  /** A failed exchange changes nothing but the jar, and a cursor past the
      end never reaches the network. */
  lemma ExhaustedCursorSendsNothing(hosts: seq<string>, verb: Verb, api: string, payload: string, net: Network, jar: Jar)
    ensures ExchangeOutcome(hosts, |hosts|, verb, api, payload, net) == Err(CursorOutOfRange(|hosts|))
    ensures ExchangeJar(jar, hosts, |hosts|, verb, api, payload, net) == jar
  {
  }

  /** What a create, update or delete call reports: the transport error, or
      what `parseJSONError` makes of the reply. */
  function CallOutcome(sent: Result<Reply>): (r: Outcome)
    ensures sent.Err? ==> r == Fail(sent.error)
    ensures sent.Ok? ==> r == ParseJSONError(sent.value)
  {
    match sent
    case Err(e) => Fail(e)
    case Ok(reply) => ParseJSONError(reply)
  }

  /** Where a read goes, and the class key its records are listed under. */
  datatype Query = Query(uri: string, classKey: string)

  /** The reply to a read, with the class key its records are listed under;
      extracting the records is not part of this model. */
  datatype Listing = Listing(reply: Reply, classKey: string)

  // ---------------------------------------------------------------------------
  // Host failover (postScan)
  // ---------------------------------------------------------------------------

  /** The first host at or after `from` whose POST of `api` succeeds, or
      `|hosts|` when none does. */
  function FirstSuccess(hosts: seq<string>, from: nat, api: string, payload: string, net: Network): (k: nat)
    requires from <= |hosts|
    ensures from <= k <= |hosts|
    ensures k < |hosts| ==> ExchangeOutcome(hosts, k, Post, api, payload, net).Ok?
    ensures forall j :: from <= j < k ==> ExchangeOutcome(hosts, j, Post, api, payload, net).Err?
    decreases |hosts| - from
  {
    if from == |hosts| then from
    else if ExchangeOutcome(hosts, from, Post, api, payload, net).Ok? then from
    else FirstSuccess(hosts, from + 1, api, payload, net)
  }

  /** The jar after POSTing to the hosts `from` to `upto - 1` in turn. */
  function ScanJar(jar: Jar, hosts: seq<string>, from: nat, upto: nat, api: string, payload: string, net: Network): Jar
    requires from <= upto
    decreases upto
  {
    if upto == from then jar
    else ExchangeJar(ScanJar(jar, hosts, from, upto - 1, api, payload, net), hosts, upto - 1, Post, api, payload, net)
  }

  /** The jar after a whole scan from `from`, up to and including the host
      that answered. */
  function PostScanJar(jar: Jar, hosts: seq<string>, from: nat, api: string, payload: string, net: Network): Jar
    requires from <= |hosts|
  {
    var k := FirstSuccess(hosts, from, api, payload, net);
    ScanJar(jar, hosts, from, if k < |hosts| then k + 1 else k, api, payload, net)
  }

  /** One more host tried: the jar of that exchange applied to the jar so far. */
  lemma ScanJarStep(jar: Jar, hosts: seq<string>, from: nat, upto: nat, api: string, payload: string, net: Network)
    requires from <= upto
    ensures ScanJar(jar, hosts, from, upto + 1, api, payload, net)
         == ExchangeJar(ScanJar(jar, hosts, from, upto, api, payload, net), hosts, upto, Post, api, payload, net)
  {
  }

  /** What a scan from `from` returns: the reply of the first host that
      answers, or "no more hosts" with the last host's error (none when
      there was no host left to try). */
  function ScanOutcome(hosts: seq<string>, from: nat, api: string, payload: string, net: Network): (r: Result<Reply>)
    requires from <= |hosts|
    ensures r.Ok? <==> exists k :: from <= k < |hosts| && ExchangeOutcome(hosts, k, Post, api, payload, net).Ok?
    ensures r.Err? ==> r.error.NoMoreHosts?
  {
    var k := FirstSuccess(hosts, from, api, payload, net);
    if k < |hosts| then ExchangeOutcome(hosts, k, Post, api, payload, net)
    else if from < |hosts| then Err(NoMoreHosts(Some(ExchangeOutcome(hosts, |hosts| - 1, Post, api, payload, net).error)))
    else Err(NoMoreHosts(None))
  }

  /** Failed hosts are skipped, and the first host that answers is the one
      that is used, whatever the hosts after it would do. */
  lemma {:induction false} ScanSkipsFailedHosts(hosts: seq<string>, from: nat, k: nat, api: string, payload: string, net: Network)
    requires from <= k < |hosts|
    requires forall j :: from <= j < k ==> ExchangeOutcome(hosts, j, Post, api, payload, net).Err?
    requires ExchangeOutcome(hosts, k, Post, api, payload, net).Ok?
    ensures FirstSuccess(hosts, from, api, payload, net) == k
    ensures ScanOutcome(hosts, from, api, payload, net) == ExchangeOutcome(hosts, k, Post, api, payload, net)
    decreases k - from
  {
    if from < k {
      ScanSkipsFailedHosts(hosts, from + 1, k, api, payload, net);
    }
  }

  /** When every host from the cursor on fails, the scan ends past the last
      host and reports the last host's error. */
  lemma {:induction false} ScanExhaustsHosts(hosts: seq<string>, from: nat, api: string, payload: string, net: Network)
    requires from < |hosts|
    requires forall j :: from <= j < |hosts| ==> ExchangeOutcome(hosts, j, Post, api, payload, net).Err?
    ensures FirstSuccess(hosts, from, api, payload, net) == |hosts|
    ensures ScanOutcome(hosts, from, api, payload, net)
         == Err(NoMoreHosts(Some(ExchangeOutcome(hosts, |hosts| - 1, Post, api, payload, net).error)))
    decreases |hosts| - from
  {
    if from + 1 < |hosts| {
      ScanExhaustsHosts(hosts, from + 1, api, payload, net);
    }
  }

  /** The cursor is never reset: once it is past the last host, every later
      scan sends nothing and fails with no last error. */
  lemma ExhaustedScanIsFinal(jar: Jar, hosts: seq<string>, api: string, payload: string, net: Network)
    ensures FirstSuccess(hosts, |hosts|, api, payload, net) == |hosts|
    ensures ScanOutcome(hosts, |hosts|, api, payload, net) == Err(NoMoreHosts(None))
    ensures PostScanJar(jar, hosts, |hosts|, api, payload, net) == jar
  {
  }

  // ---------------------------------------------------------------------------
  // The aaaLogin / aaaRefresh reply
  // ---------------------------------------------------------------------------

  /** What the reply grants: the session token and the refresh timeout text,
      or the error to return. */
  datatype Grant = Denied(error: Error) | Granted(token: string, refreshTimeout: string)

  function ErrorGrant(op: AuthOp, v: Json): Grant
  {
    Denied(AuthRemote(op, Attribute(v, "code"), Attribute(v, "text")))
  }

  function LoginGrant(v: Json): Grant
  {
    Granted(Attribute(v, "token"), Attribute(v, "refreshTimeoutSeconds"))
  }

  /** The two members the login switch reacts to. */
  predicate AuthKey(k: string)
  {
    k == "error" || k == "aaaLogin"
  }

  /** The `for k, v := range mm` switch, visiting the members in `order`:
      the first `error` or `aaaLogin` member met decides, other members are
      passed over. */
  function RangeDispatch(op: AuthOp, mm: map<string, Json>, order: seq<string>, raw: string): (g: Grant)
    requires forall i :: 0 <= i < |order| ==> order[i] in mm
    ensures g == Denied(AuthNoLogin(op, raw)) <==> forall i :: 0 <= i < |order| ==> !AuthKey(order[i])
    ensures forall i :: 0 <= i < |order| && AuthKey(order[i]) && (forall j :: 0 <= j < i ==> !AuthKey(order[j]))
                        ==> g == (if order[i] == "error" then ErrorGrant(op, mm["error"]) else LoginGrant(mm["aaaLogin"]))
    decreases |order|
  {
    if |order| == 0 then Denied(AuthNoLogin(op, raw))
    else if order[0] == "error" then ErrorGrant(op, mm["error"])
    else if order[0] == "aaaLogin" then LoginGrant(mm["aaaLogin"])
    else
      assert forall i :: 1 <= i < |order| ==> order[1..][i - 1] == order[i];
      RangeDispatch(op, mm, order[1..], raw)
  }

  /** The same switch with Go's unspecified map order made a parameter:
      `errorFirst` says whether `error` is met before `aaaLogin` when the
      first item has both. */
  function Dispatch(op: AuthOp, mm: map<string, Json>, errorFirst: bool, raw: string): (g: Grant)
    ensures g.Granted? <==> "aaaLogin" in mm && !("error" in mm && errorFirst)
    ensures g.Granted? ==> g == LoginGrant(mm["aaaLogin"])
    ensures g.Denied? && "error" in mm ==> g == ErrorGrant(op, mm["error"])
    ensures "error" !in mm && "aaaLogin" !in mm ==> g == Denied(AuthNoLogin(op, raw))
  {
    if "error" in mm && (errorFirst || "aaaLogin" !in mm) then ErrorGrant(op, mm["error"])
    else if "aaaLogin" in mm then LoginGrant(mm["aaaLogin"])
    else Denied(AuthNoLogin(op, raw))
  }

  /** Whatever order the range visits the members in, the outcome is one of
      the two `Dispatch` gives, and when the item does not hold both keys it
      does not depend on the order at all. */
  lemma {:induction false} RangeDispatchIsDispatch(op: AuthOp, mm: map<string, Json>, order: seq<string>, raw: string)
    requires forall i :: 0 <= i < |order| ==> order[i] in mm
    requires "error" in mm ==> "error" in order
    requires "aaaLogin" in mm ==> "aaaLogin" in order
    ensures RangeDispatch(op, mm, order, raw) == Dispatch(op, mm, true, raw)
         || RangeDispatch(op, mm, order, raw) == Dispatch(op, mm, false, raw)
    ensures !("error" in mm && "aaaLogin" in mm) ==>
              RangeDispatch(op, mm, order, raw) == Dispatch(op, mm, true, raw) == Dispatch(op, mm, false, raw)
    decreases |order|
  {
    if |order| > 0 && order[0] != "error" && order[0] != "aaaLogin" {
      assert forall i :: 1 <= i < |order| ==> order[1..][i - 1] == order[i];
      RangeDispatchIsDispatch(op, mm, order[1..], raw);
    }
  }

  /** With both keys present each outcome happens for some map order. */
  lemma BothKeysEitherOutcome(op: AuthOp, mm: map<string, Json>, raw: string)
    requires "error" in mm && "aaaLogin" in mm
    ensures RangeDispatch(op, mm, ["error", "aaaLogin"], raw) == ErrorGrant(op, mm["error"])
    ensures RangeDispatch(op, mm, ["aaaLogin", "error"], raw) == LoginGrant(mm["aaaLogin"])
  {
  }

  /** The members of the first item of the reply's `imdata` array, when the
      reply has that shape. */
  function FirstMembers(v: Json): Option<map<string, Json>>
  {
    if v.JObject? && "imdata" in v.members && v.members["imdata"].JArray?
       && |v.members["imdata"].items| > 0 && v.members["imdata"].items[0].JObject?
    then Some(v.members["imdata"].items[0].members)
    else None
  }

  /** The checks `Login` and `Refresh` make on the reply before storing
      anything: the reply must be JSON whose `imdata` is an array with an
      object first, and that object is dispatched on. */
  function AuthReply(op: AuthOp, reply: Reply, errorFirst: bool): (g: Grant)
    ensures reply.decoded.None? ==> g == Denied(Unmarshal(reply.raw))
    ensures reply.decoded.Some? && FirstMembers(reply.decoded.value).None? ==>
              g.Denied? && (g.error.AuthImdataMissing? || g.error.AuthImdataFirst? || g.error.AuthFirstNotMap?)
              && g.error.op == op && g.error.body == reply.raw
    ensures reply.decoded.Some? && FirstMembers(reply.decoded.value).Some? ==>
              g == Dispatch(op, FirstMembers(reply.decoded.value).value, errorFirst, reply.raw)
  {
    match reply.decoded
    case None => Denied(Unmarshal(reply.raw))
    case Some(v) =>
      match MapGet(v, "imdata")
      case Err(_) => Denied(AuthImdataMissing(op, reply.raw))
      case Ok(imdata) =>
        match SliceGet(imdata, 0)
        case Err(_) => Denied(AuthImdataFirst(op, reply.raw))
        case Ok(first) =>
          if !first.JObject? then Denied(AuthFirstNotMap(op, reply.raw))
          else Dispatch(op, first.members, errorFirst, reply.raw)
  }

  /** Unlike a configuration reply, an empty `imdata` is an error here. */
  lemma EmptyImdataDenied(op: AuthOp, raw: string, errorFirst: bool)
    ensures AuthReply(op, Reply(raw, Some(Envelope([]))), errorFirst) == Denied(AuthImdataFirst(op, raw))
    ensures ParseJSONError(Reply(raw, Some(Envelope([])))) == Pass
  {
  }

  /** The grant of a whole exchange, a transport error included. */
  function Authenticate(op: AuthOp, sent: Result<Reply>, errorFirst: bool): (g: Grant)
    ensures sent.Err? ==> g == Denied(sent.error)
    ensures sent.Ok? ==> g == AuthReply(op, sent.value, errorFirst)
  {
    match sent
    case Err(e) => Denied(e)
    case Ok(reply) => AuthReply(op, reply, errorFirst)
  }

  /** The refresh timeout in seconds that `refresh` stores for the text the
      switch sent: its value as a decimal int, or 60 when it does not parse. */
  function TimeoutFrom(s: string): (secs: int)
    ensures MinInt64 <= secs <= MaxInt64
    ensures Atoi(s).Some? ==> secs == Atoi(s).value
    ensures Atoi(s).None? ==> secs == DefaultRefreshSecs
  {
    match Atoi(s)
    case Some(n) => n
    case None => DefaultRefreshSecs
  }

  /** A timeout the switch writes as a decimal number is stored as that number. */
  lemma TimeoutFromDecimal(n: int)
    requires MinInt64 <= n <= MaxInt64
    ensures TimeoutFrom(Itoa(n)) == n
  {
    AtoiItoa(n);
  }

  /** A missing or non-numeric timeout is stored as 60 seconds. */
  lemma TimeoutDefaultsTo60(s: string)
    requires s == "" || !(IsDigit(s[0]) || s[0] == '-' || s[0] == '+')
    ensures TimeoutFrom(s) == 60
  {
  }

  /** The session after a login or refresh: a grant stores the token and
      the timeout and the call succeeds; a denial is returned and leaves
      both as they were. */
  predicate SessionAfter(g: Grant, r: Outcome, token0: string, secs0: int, token1: string, secs1: int)
  {
    match g
    case Denied(e) => r == Fail(e) && token1 == token0 && secs1 == secs0
    case Granted(token, timeout) => r == Pass && token1 == token && secs1 == TimeoutFrom(timeout)
  }

  // ---------------------------------------------------------------------------
  // The URL Refresh requests
  // ---------------------------------------------------------------------------

  /** The URL `Refresh` sends its GET to as written: it builds the URL with
      `getURL` and hands it to `get`, which applies `getURL` once more. */
  function RefreshUrlAsWritten(hosts: seq<string>, cursor: nat): string
    requires cursor < |hosts|
  {
    GetURL(hosts, cursor, GetURL(hosts, cursor, RefreshApi))
  }

  /** The URL `Refresh` evidently means: aaaRefresh on the current host. */
  function RefreshUrl(hosts: seq<string>, cursor: nat): (url: string)
    requires cursor < |hosts|
    ensures IsURL(url) && url[|HttpsScheme|..] == hosts[cursor] + RefreshApi
    ensures url == HttpsScheme + hosts[cursor] + RefreshApi
  {
    var url := GetURL(hosts, cursor, RefreshApi);
    assert url == url[..|HttpsScheme|] + url[|HttpsScheme|..];
    url
  }

  /** The URL as written puts a second copy of the host and scheme where
      the path should start, so it never addresses aaaRefresh on the
      current host. */
  lemma RefreshUrlAsWrittenIsDoubled(hosts: seq<string>, cursor: nat)
    requires cursor < |hosts|
    ensures RefreshUrlAsWritten(hosts, cursor)[|HttpsScheme|..] == hosts[cursor] + RefreshUrl(hosts, cursor)
    ensures RefreshUrlAsWritten(hosts, cursor) != RefreshUrl(hosts, cursor)
  {
    var url := RefreshUrlAsWritten(hosts, cursor);
    assert |url| == |HttpsScheme| + |hosts[cursor]| + |RefreshUrl(hosts, cursor)|;
  }

  // ---------------------------------------------------------------------------
  // The client
  // ---------------------------------------------------------------------------

  class Client {
    var opt: ClientOptions
    /** The host cursor: the index of the host in use. */
    var host: nat
    var loginToken: string
    var refreshTimeoutSecs: int
    var jar: Jar

    /** Hosts, user and password as `New` leaves them; the cursor moves up
        through the hosts and may end one past the last. */
    ghost predicate Valid()
      reads this
    {
      |opt.hosts| >= 1 && host <= |opt.hosts| && opt.user != "" && opt.pass != ""
    }

    constructor (o: ClientOptions)
      ensures opt == o && host == 0 && loginToken == "" && refreshTimeoutSecs == 0 && jar == None
    {
      opt := o;
      host := 0;
      loginToken := "";
      refreshTimeoutSecs := 0;
      jar := None;
    }

    /** `RefreshTimeout`: the timeout of the last login or refresh. */
    function RefreshTimeout(): (secs: int)
      reads this
      ensures secs == refreshTimeoutSecs
    {
      refreshTimeoutSecs
    }

    /** `learnCookies`: keep the first APIC-cookie of the response. */
    method LearnCookies(cookies: seq<Cookie>)
      modifies this`jar
      ensures jar == LearnedJar(old(jar), cookies)
    {
      var i := 0;
      while i < |cookies|
        invariant 0 <= i <= |cookies|
        invariant LearnedJar(old(jar), cookies[i..]) == LearnedJar(old(jar), cookies)
        invariant jar == old(jar)
      {
        if cookies[i].name == ApicCookie {
          if jar.None? {
            jar := Some(map[]);
          }
          jar := Some(jar.value[ApicCookie := cookies[i].value]);
          return;
        }
        assert cookies[i..][1..] == cookies[i + 1..];
        i := i + 1;
      }
    }

    /** `post`, `get` or `delete` of `api` on the current host. */
    method Exchange(verb: Verb, api: string, payload: string, net: Network) returns (r: Result<Reply>)
      modifies this`jar
      ensures r == ExchangeOutcome(opt.hosts, host, verb, api, payload, net)
      ensures jar == ExchangeJar(old(jar), opt.hosts, host, verb, api, payload, net)
    {
      if host >= |opt.hosts| {
        return Err(CursorOutOfRange(host));
      }
      var url := GetURL(opt.hosts, host, api);
      var resp := net(Request(verb, url, payload));
      match resp
      case NoResponse(reason) =>
        r := Err(Transport(reason));
      case Response(cookies, read) =>
        LearnCookies(cookies);
        match read
        case ReadFailed(reason) =>
          r := Err(Transport(reason));
        case Read(reply) =>
          r := Ok(reply);
    }

    /** `postScan`: POST `api` to the hosts from the cursor on until one
        answers, leaving the cursor on that host. */
    method PostScan(api: string, payload: string, net: Network) returns (r: Result<Reply>)
      requires Valid()
      modifies this`host, this`jar
      ensures Valid()
      ensures IsURL(api) ==> r == Err(BadApi(api)) && host == old(host) && jar == old(jar)
      ensures !IsURL(api) ==>
                host == FirstSuccess(opt.hosts, old(host), api, payload, net)
                && r == ScanOutcome(opt.hosts, old(host), api, payload, net)
                && jar == PostScanJar(old(jar), opt.hosts, old(host), api, payload, net)
    {
      if IsURL(api) {
        return Err(BadApi(api));
      }
      ghost var hosts, from, jar0 := opt.hosts, host, jar;
      var last: Option<Error> := None;
      while host < |opt.hosts|
        invariant opt.hosts == hosts && from <= host <= |hosts|
        invariant forall j :: from <= j < host ==> ExchangeOutcome(hosts, j, Post, api, payload, net).Err?
        invariant jar == ScanJar(jar0, hosts, from, host, api, payload, net)
        invariant last == if host == from then None
                          else Some(ExchangeOutcome(hosts, host - 1, Post, api, payload, net).error)
        decreases |hosts| - host
      {
        ScanJarStep(jar0, hosts, from, host, api, payload, net);
        var sent := Exchange(Post, api, payload, net);
        if sent.Ok? {
          ScanSkipsFailedHosts(hosts, from, host, api, payload, net);
          return sent;
        }
        last := Some(sent.error);
        host := host + 1;
      }
      if from < |hosts| {
        ScanExhaustsHosts(hosts, from, api, payload, net);
      } else {
        ExhaustedScanIsFinal(jar0, hosts, api, payload, net);
      }
      return Err(NoMoreHosts(last));
    }

    /** `refresh`: store the token verbatim and the timeout in seconds. */
    method StoreToken(token: string, refreshTimeout: string)
      modifies this`loginToken, this`refreshTimeoutSecs
      ensures loginToken == token && refreshTimeoutSecs == TimeoutFrom(refreshTimeout)
    {
      loginToken := token;
      var timeout := Atoi(refreshTimeout);
      if timeout.None? {
        refreshTimeoutSecs := DefaultRefreshSecs;
      } else {
        refreshTimeoutSecs := timeout.value;
      }
    }

    /** `Login`: POST the credentials to aaaLogin, host by host, and store
        the session the first answering host grants. */
    method Login(net: Network, errorFirst: bool) returns (r: Outcome)
      requires Valid()
      modifies this`host, this`jar, this`loginToken, this`refreshTimeoutSecs
      ensures Valid()
      ensures host == FirstSuccess(opt.hosts, old(host), LoginApi, AaaUserBody(opt.user, opt.pass), net)
      ensures jar == PostScanJar(old(jar), opt.hosts, old(host), LoginApi, AaaUserBody(opt.user, opt.pass), net)
      ensures SessionAfter(Authenticate(LoginOp, ScanOutcome(opt.hosts, old(host), LoginApi, AaaUserBody(opt.user, opt.pass), net), errorFirst),
                           r, old(loginToken), old(refreshTimeoutSecs), loginToken, refreshTimeoutSecs)
    {
      assert !IsURL(LoginApi) by {
        assert LoginApi[0] != HttpsScheme[0];
      }
      var sent := PostScan(LoginApi, AaaUserBody(opt.user, opt.pass), net);
      r := Conclude(LoginOp, sent, errorFirst);
    }

    /** `Refresh`: GET aaaRefresh on the current host and store the session
        it grants. The request goes to `RefreshUrl`. */
    method Refresh(net: Network, errorFirst: bool) returns (r: Outcome)
      requires Valid()
      modifies this`jar, this`loginToken, this`refreshTimeoutSecs
      ensures Valid()
      ensures jar == ExchangeJar(old(jar), opt.hosts, host, Get, RefreshApi, "", net)
      ensures SessionAfter(Authenticate(RefreshOp, ExchangeOutcome(opt.hosts, host, Get, RefreshApi, "", net), errorFirst),
                           r, old(loginToken), old(refreshTimeoutSecs), loginToken, refreshTimeoutSecs)
    {
      var sent := Exchange(Get, RefreshApi, "", net);
      r := Conclude(RefreshOp, sent, errorFirst);
    }

    /** The common end of `Login` and `Refresh`: store what is granted. */
    method Conclude(op: AuthOp, sent: Result<Reply>, errorFirst: bool) returns (r: Outcome)
      modifies this`loginToken, this`refreshTimeoutSecs
      ensures SessionAfter(Authenticate(op, sent, errorFirst), r, old(loginToken), old(refreshTimeoutSecs), loginToken, refreshTimeoutSecs)
    {
      match Authenticate(op, sent, errorFirst)
      case Denied(e) =>
        r := Fail(e);
      case Granted(token, timeout) =>
        StoreToken(token, timeout);
        r := Pass;
    }

    /** `Logout`: POST the credentials to aaaLogout on the current host; any
        failure is only logged. */
    method Logout(net: Network)
      modifies this`jar
      ensures jar == ExchangeJar(old(jar), opt.hosts, host, Post, LogoutApi, AaaUserBody(opt.user, opt.pass), net)
    {
      var ignored := Exchange(Post, LogoutApi, AaaUserBody(opt.user, opt.pass), net);
    }
  }

  /** The test `New` applies to each host taken from the environment:
      `strings.TrimSpace(h) == ""`. */
  method IsBlankHost(h: string) returns (b: bool)
    ensures b <==> Blank(h)
  {
    BlankIsTrimmedEmpty(h);
    b := TrimSpace(h) == "";
  }

  /** The scan of `New` for a blank host name, first to last. */
  method FindBlank(hosts: seq<string>) returns (r: Option<nat>)
    ensures r == FirstBlank(hosts)
  {
    for i := 0 to |hosts|
      invariant forall j :: 0 <= j < i ==> !Blank(hosts[j])
    {
      var blank := IsBlankHost(hosts[i]);
      if blank {
        return Some(i);
      }
    }
    return None;
  }

  /** `New`: validate the options against the environment and build a
      client with its cursor on the first host and no session yet. */
  method New(o: ClientOptions, env: Environment) returns (r: Result<Client>)
    ensures r.Err? <==> Configure(o, env).Err?
    ensures r.Err? ==> r.error == Configure(o, env).error
    ensures r.Ok? ==> fresh(r.value) && r.value.Valid() && r.value.opt == Configure(o, env).value
                      && r.value.host == 0 && r.value.loginToken == "" && r.value.refreshTimeoutSecs == 0
                      && r.value.jar == None
  {
    var hosts := o.hosts;
    if |hosts| < 1 {
      if env.hosts == "" {
        return Err(MissingHosts);
      }
      hosts := Split(env.hosts, ',');
      var blank := FindBlank(hosts);
      if blank.Some? {
        return Err(BlankHost(hosts[blank.value]));
      }
    }
    var user := o.user;
    if user == "" {
      user := env.user;
      if user == "" {
        return Err(MissingUser);
      }
    }
    var pass := o.pass;
    if pass == "" {
      pass := env.pass;
      if pass == "" {
        return Err(MissingPass);
      }
    }
    var debug := o.debug;
    if !debug {
      debug := env.debugSet;
    }
    assert Configure(o, env) == Ok(ClientOptions(hosts, user, pass, debug));
    var c := new Client(ClientOptions(hosts, user, pass, debug));
    return Ok(c);
  }
}
