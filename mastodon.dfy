/** The Mastodon fetch core: the CORS-proxy fallback, the account lookup
    through a public resolver with its identity check, and the `max_id`
    pagination with the date filter and its early stop. */
module MastodonService {
  import opened Wrappers
  import opened Strings
  import opened Shuffle
  import opened DateWindow
  import opened Http
  import opened Types

  /** The network and the library calls the service relies on. */
  datatype Env = Env(
    fetch: Fetch,
    /** `encodeURIComponent` */
    encodeComponent: string -> string,
    /** the form encoding `URLSearchParams.toString()` applies to a name or value */
    encodeForm: string -> string,
    /** `response.json()` read as an account */
    decodeAccount: string -> Result<Account>,
    /** `response.json()` read as a list of statuses */
    decodeStatuses: string -> Result<seq<Status>>,
    /** `errorBody.error || JSON.stringify(errorBody)`, if the body parses */
    errorDetails: string -> Option<string>)

  // ---------------------------------------------------------------------
  // Proxies and the fallback loop
  // ---------------------------------------------------------------------

  /** A CORS proxy: the target URL is appended to `prefix`, percent-encoded
      or as it is. */
  datatype Proxy = Proxy(prefix: string, encodesTarget: bool)

  /** The three proxies, each prefix written as `https://<host>/<path>`. */
  const Proxies: seq<Proxy> := [
    Proxy(HttpsScheme + "corsproxy.io" + "/" + "?", true),
    Proxy(HttpsScheme + "api.allorigins.win" + "/" + "raw?url=", true),
    Proxy(HttpsScheme + "thingproxy.freeboard.io" + "/" + "fetch/", false)
  ]

  function ProxiedUrl(env: Env, p: Proxy, url: string): string {
    p.prefix + (if p.encodesTarget then env.encodeComponent(url) else url)
  }

  lemma CorsProxyHost(tail: string)
    ensures Hostname(Proxies[0].prefix + tail) == Some("corsproxy.io")
  {
    assert PlainHost("corsproxy.io");
    PrefixKeepsHost("corsproxy.io", "?", tail);
  }

  lemma AllOriginsHost(tail: string)
    ensures Hostname(Proxies[1].prefix + tail) == Some("api.allorigins.win")
  {
    assert PlainHost("api.allorigins.win");
    PrefixKeepsHost("api.allorigins.win", "raw?url=", tail);
  }

  lemma ThingProxyHost(tail: string)
    ensures Hostname(Proxies[2].prefix + tail) == Some("thingproxy.freeboard.io")
  {
    assert PlainHost("thingproxy.freeboard.io");
    PrefixKeepsHost("thingproxy.freeboard.io", "fetch/", tail);
  }

  /** The host each proxy sends the request to, whatever the target. */
  lemma ProxyHosts(env: Env, url: string)
    ensures Hostname(ProxiedUrl(env, Proxies[0], url)) == Some("corsproxy.io")
    ensures Hostname(ProxiedUrl(env, Proxies[1], url)) == Some("api.allorigins.win")
    ensures Hostname(ProxiedUrl(env, Proxies[2], url)) == Some("thingproxy.freeboard.io")
  {
    CorsProxyHost(env.encodeComponent(url));
    AllOriginsHost(env.encodeComponent(url));
    ThingProxyHost(url);
  }

  /** Whatever is appended to its prefix, the proxy's URL has a host. */
  ghost predicate HasHost(p: Proxy) {
    forall tail :: Hostname(p.prefix + tail).Some?
  }

  /** Every configured proxy yields a URL with a host, so the `Invalid URL`
      branch of the fallback never fires for them. */
  lemma ProxiesHaveHosts()
    ensures forall p :: p in Proxies ==> HasHost(p)
  {
    forall tail: string
      ensures Hostname(Proxies[0].prefix + tail).Some?
      ensures Hostname(Proxies[1].prefix + tail).Some?
      ensures Hostname(Proxies[2].prefix + tail).Some?
    {
      CorsProxyHost(tail);
      AllOriginsHost(tail);
      ThingProxyHost(tail);
    }
  }

  /** The host named in a proxy's diagnostic. */
  function ProxyHost(env: Env, p: Proxy, url: string): string {
    match Hostname(ProxiedUrl(env, p, url))
    case Some(h) => h
    case None => ""
  }

  const ProxyStatusMessage: string := "La requête via le proxy a échoué avec le statut : "

  /** The response counts as a success: it arrived, with an `ok` status. */
  predicate Succeeds(r: Result<Response>) { r.Ok? && IsOk(r.value) }

  /** The message recorded for a failed attempt: the network error's, or the
      one thrown for a non-`ok` status. */
  function AttemptError(r: Result<Response>): string {
    match r
    case Err(e) => e
    case Ok(response) => ProxyStatusMessage + NatToString(response.status)
  }

  /** The `host: message` entry recorded for a failed attempt. */
  function Diagnostic(env: Env, p: Proxy, url: string): string {
    ProxyHost(env, p, url) + ": " + AttemptError(env.fetch(ProxiedUrl(env, p, url)))
  }

  function Diagnostics(env: Env, order: seq<Proxy>, url: string): (d: seq<string>)
    ensures |d| == |order|
    ensures forall j :: 0 <= j < |order| ==> d[j] == Diagnostic(env, order[j], url)
  {
    seq(|order|, j requires 0 <= j < |order| => Diagnostic(env, order[j], url))
  }

  const AllProxiesFailedMarker: string := "Tous les proxies CORS ont échoué"

  const AllProxiesFailedDetails: string := ". Impossible de récupérer les données. Erreurs : "

  function AllProxiesFailed(errors: seq<string>): string {
    AllProxiesFailedMarker + (AllProxiesFailedDetails + Join(errors, "; "))
  }

  /** What `new URL` throws for a string that is not a URL. */
  const InvalidUrlMessage: string := "Invalid URL"

  /** The outcome of the fallback loop, with the proxied URLs requested, in
      order. */
  datatype Fallback = Fallback(result: Result<Response>, tried: seq<string>)

  /** The fallback loop from the `k`-th proxy on. */
  function FallbackFrom(env: Env, url: string, order: seq<Proxy>, k: nat, errors: seq<string>, tried: seq<string>): Fallback
    requires k <= |order|
    decreases |order| - k
  {
    if k == |order| then Fallback(Err(AllProxiesFailed(errors)), tried)
    else
      var proxied := ProxiedUrl(env, order[k], url);
      match Hostname(proxied)
      case None => Fallback(Err(InvalidUrlMessage), tried)
      case Some(host) =>
        var response := env.fetch(proxied);
        if Succeeds(response) then Fallback(Ok(response.value), tried + [proxied])
        else FallbackFrom(env, url, order, k + 1, errors + [host + ": " + AttemptError(response)], tried + [proxied])
  }

  /** `fetchWithProxyFallbacks(url)` where the proxies were shuffled with
      `picks`. */
  function FallbackOf(env: Env, url: string, picks: seq<nat>): Fallback
    requires |picks| == |Proxies| && ValidPicks(picks)
  {
    FallbackFrom(env, url, Shuffled(Proxies, picks), 0, [], [])
  }

  /** `fetchWithProxyFallbacks`: shuffle a copy of the proxies, try each in
      turn, return the first `ok` response. */
  method FetchWithProxyFallbacks(env: Env, url: string, picks: seq<nat>) returns (r: Result<Response>, tried: seq<string>)
    requires |picks| == |Proxies| && ValidPicks(picks)
    ensures Fallback(r, tried) == FallbackOf(env, url, picks)
  {
    var order := ShuffledCopy(Proxies, picks);
    var errors: seq<string> := [];
    tried := [];
    var k := 0;
    while k < |order|
      invariant 0 <= k <= |order|
      invariant FallbackFrom(env, url, order, k, errors, tried) == FallbackOf(env, url, picks)
    {
      var proxied := ProxiedUrl(env, order[k], url);
      var host := Hostname(proxied);
      if host.None? {
        r := Err(InvalidUrlMessage);
        return;
      }
      var response := env.fetch(proxied);
      tried := tried + [proxied];
      if Succeeds(response) {
        r := Ok(response.value);
        return;
      }
      errors := errors + [host.value + ": " + AttemptError(response)];
      k := k + 1;
    }
    r := Err(AllProxiesFailed(errors));
  }

  /** The fallback loop's invariant: the proxies before `k` were each tried
      once, in order, each failed, and each left its diagnostic. */
  ghost predicate TriedAndFailed(env: Env, url: string, order: seq<Proxy>, k: nat, errors: seq<string>, tried: seq<string>)
  {
    && k <= |order| && |errors| == k && |tried| == k
    && (forall j :: 0 <= j < k ==> tried[j] == ProxiedUrl(env, order[j], url))
    && (forall j :: 0 <= j < k ==> !Succeeds(env.fetch(tried[j])))
    && (forall j :: 0 <= j < k ==> errors[j] == Diagnostic(env, order[j], url))
  }

  /** A failed attempt extends the invariant by one proxy. */
  lemma TriedAndFailedSnoc(env: Env, url: string, order: seq<Proxy>, k: nat, errors: seq<string>, tried: seq<string>)
    requires TriedAndFailed(env, url, order, k, errors, tried) && k < |order|
    requires !Succeeds(env.fetch(ProxiedUrl(env, order[k], url)))
    ensures TriedAndFailed(env, url, order, k + 1, errors + [Diagnostic(env, order[k], url)],
                           tried + [ProxiedUrl(env, order[k], url)])
  {
    var errors', tried' := errors + [Diagnostic(env, order[k], url)], tried + [ProxiedUrl(env, order[k], url)];
    forall j | 0 <= j < k + 1
      ensures tried'[j] == ProxiedUrl(env, order[j], url) && errors'[j] == Diagnostic(env, order[j], url)
    {
      if j < k { assert tried'[j] == tried[j] && errors'[j] == errors[j]; }
    }
  }

  lemma {:induction false} FallbackFromOutcome(env: Env, url: string, order: seq<Proxy>, k: nat, errors: seq<string>, tried: seq<string>)
    requires forall p :: p in order ==> HasHost(p)
    requires TriedAndFailed(env, url, order, k, errors, tried)
    ensures var f := FallbackFrom(env, url, order, k, errors, tried);
      && k <= |f.tried| <= |order|
      && (forall j :: 0 <= j < |f.tried| ==> f.tried[j] == ProxiedUrl(env, order[j], url))
      && (forall j :: 0 <= j < |f.tried| - 1 ==> !Succeeds(env.fetch(f.tried[j])))
      && (f.result.Ok? ==> |f.tried| > 0 && env.fetch(f.tried[|f.tried| - 1]) == Ok(f.result.value) && IsOk(f.result.value))
      && (f.result.Err? ==> |f.tried| == |order| && (forall j :: 0 <= j < |order| ==> !Succeeds(env.fetch(f.tried[j])))
                            && f.result.error == AllProxiesFailed(Diagnostics(env, order, url)))
    decreases |order| - k
  {
    if k == |order| {
      assert errors == Diagnostics(env, order, url);
    } else {
      var proxied := ProxiedUrl(env, order[k], url);
      assert HasHost(order[k]);
      var host := Hostname(proxied).value;
      var response := env.fetch(proxied);
      if !Succeeds(response) {
        assert host + ": " + AttemptError(response) == Diagnostic(env, order[k], url);
        TriedAndFailedSnoc(env, url, order, k, errors, tried);
        FallbackFromOutcome(env, url, order, k + 1, errors + [host + ": " + AttemptError(response)], tried + [proxied]);
      }
    }
  }

  lemma ShuffledProxiesAreProxies(picks: seq<nat>)
    requires |picks| == |Proxies| && ValidPicks(picks)
    ensures |Shuffled(Proxies, picks)| == |Proxies|
    ensures forall p :: p in Shuffled(Proxies, picks) ==> p in Proxies && HasHost(p)
  {
    ShuffledIsPermutation(Proxies, picks);
    ProxiesHaveHosts();
    forall p | p in Shuffled(Proxies, picks) ensures p in Proxies {
      ShuffledSameElements(Proxies, picks, p);
    }
  }

  /** First success wins: the fallback returns the response of the first
      proxy, in shuffled order, whose response is `ok`, and no proxy after
      it is tried. So a returned response is always `ok`. */
  lemma FallbackFirstSuccess(env: Env, url: string, picks: seq<nat>)
    requires |picks| == |Proxies| && ValidPicks(picks)
    ensures var f := FallbackOf(env, url, picks);
      var order := Shuffled(Proxies, picks);
      f.result.Ok? ==>
        && IsOk(f.result.value)
        && 0 < |f.tried| <= |order|
        && (forall j :: 0 <= j < |f.tried| ==> f.tried[j] == ProxiedUrl(env, order[j], url))
        && (forall j :: 0 <= j < |f.tried| - 1 ==> !Succeeds(env.fetch(f.tried[j])))
        && env.fetch(f.tried[|f.tried| - 1]) == Ok(f.result.value)
  {
    ShuffledProxiesAreProxies(picks);
    FallbackFromOutcome(env, url, Shuffled(Proxies, picks), 0, [], []);
  }

  /** When every proxy fails, each was tried exactly once, in shuffled
      order, and the error lists one `host: message` diagnostic per proxy in
      that order, joined by `'; '`. */
  lemma FallbackAllFailed(env: Env, url: string, picks: seq<nat>)
    requires |picks| == |Proxies| && ValidPicks(picks)
    ensures var f := FallbackOf(env, url, picks);
      var order := Shuffled(Proxies, picks);
      f.result.Err? ==>
        && |f.tried| == |order| == |Proxies|
        && (forall j :: 0 <= j < |f.tried| ==> f.tried[j] == ProxiedUrl(env, order[j], url))
        && (forall j :: 0 <= j < |f.tried| ==> !Succeeds(env.fetch(f.tried[j])))
        && f.result.error == AllProxiesFailed(Diagnostics(env, order, url))
  {
    ShuffledProxiesAreProxies(picks);
    FallbackFromOutcome(env, url, Shuffled(Proxies, picks), 0, [], []);
  }

  // ---------------------------------------------------------------------
  // The top-level error rewrite
  // ---------------------------------------------------------------------

  const ConnectionFailedMessage: string :=
    "La connexion au service Mastodon a échoué. Tous les services proxy utilisés sont probablement hors ligne ou inaccessibles. Veuillez réessayer plus tard."

  /** The `catch` of `fetchAccountAndStatuses`: a message mentioning the
      all-proxies failure is replaced by a fixed one; any other message is
      kept. */
  function RewriteError(message: string): string {
    if Contains(message, AllProxiesFailedMarker) then ConnectionFailedMessage else message
  }

  /** An exhausted proxy list always surfaces as the fixed connection-failure
      message, whatever the diagnostics were. */
  lemma AllProxiesFailureRewritten(errors: seq<string>)
    ensures RewriteError(AllProxiesFailed(errors)) == ConnectionFailedMessage
  {
    ContainsPrefix(AllProxiesFailedMarker, AllProxiesFailedDetails + Join(errors, "; "));
  }

  // ---------------------------------------------------------------------
  // Account lookup and the identity check
  // ---------------------------------------------------------------------

  const ResolverInstance: string := "mastodon.social"

  function FullHandle(username: string, instance: string): string {
    username + "@" + instance
  }

  function LookupUrl(fullHandle: string): string {
    "https://" + ResolverInstance + "/api/v1/accounts/lookup?acct=" + fullHandle
  }

  /** The resolver's account is the one asked for: its `acct` equals, ignoring
      case, either the full handle or the bare user name. */
  predicate IdentityMatches(acct: string, username: string, instance: string) {
    Lower(acct) == Lower(FullHandle(username, instance)) || Lower(acct) == Lower(username)
  }

  function MismatchMessage(expected: string, received: string): string {
    "Un compte a été trouvé, mais une vérification de sécurité a échoué. Attendu: " + expected + ", Reçu: " + received + "."
  }

  /** The security check after the lookup: the account is accepted if and only
      if it matches; a mismatch is reported naming both the expected and the
      received handle. */
  function CheckIdentity(account: Account, username: string, instance: string): (r: Result<Account>)
    ensures r.Ok? <==> IdentityMatches(account.acct, username, instance)
    ensures r.Ok? ==> r.value == account
    ensures r.Err? ==> Contains(r.error, FullHandle(username, instance)) && Contains(r.error, account.acct)
  {
    if !IdentityMatches(account.acct, username, instance) then
      var expected := FullHandle(username, instance);
      var m := MismatchMessage(expected, account.acct);
      var lead := "Un compte a été trouvé, mais une vérification de sécurité a échoué. Attendu: ";
      assert m == lead + expected + (", Reçu: " + account.acct + ".");
      ContainsMiddle(lead, expected, ", Reçu: " + account.acct + ".");
      assert m == (lead + expected + ", Reçu: ") + account.acct + ".";
      ContainsMiddle(lead + expected + ", Reçu: ", account.acct, ".");
      Err(m)
    else
      Ok(account)
  }

  /** The check ignores the case of the received handle. */
  lemma {:induction false} IdentityIgnoresCase(acct: string, username: string, instance: string)
    ensures IdentityMatches(acct, username, instance) <==> IdentityMatches(Lower(acct), username, instance)
  {
    LowerIdempotent(acct);
  }

  lemma LowerIdempotent(s: string)
    ensures Lower(Lower(s)) == Lower(s)
  {
    assert forall i :: 0 <= i < |s| ==> Lower(Lower(s))[i] == Lower(s)[i];
  }

  /** A resolver answering with another account on the same instance is
      rejected. */
  /** A lookup that answers with another user's account, local or at any
      instance, is rejected, whatever the case of either handle. */
  lemma OtherAccountRejected(account: Account, username: string, instance: string, other: string, otherInstance: string)
    requires '@' !in username && '@' !in other && Lower(other) != Lower(username)
    requires account.acct == other || account.acct == FullHandle(other, otherInstance)
    ensures CheckIdentity(account, username, instance).Err?
  {
    var acct, expected := Lower(account.acct), Lower(FullHandle(username, instance));
    var n, m := |other|, |username|;
    assert expected[m] == '@';
    if account.acct == other {
      if |acct| == |expected| {
        assert acct[m] != expected[m];
      }
    } else {
      assert acct[n] == '@';
      if |acct| == |username| {
        assert acct[n] != Lower(username)[n];
      }
      if |acct| == |expected| {
        if n < m {
          assert acct[n] != expected[n];
        } else if m < n {
          assert acct[m] != expected[m];
        } else {
          var k :| 0 <= k < n && Lower(other)[k] != Lower(username)[k];
          assert acct[k] != expected[k];
        }
      }
    }
  }

  // ---------------------------------------------------------------------
  // Query parameters (`URLSearchParams`)
  // ---------------------------------------------------------------------

  /** The name–value pairs of a query string, in order. */
  type Params = seq<(string, string)>

  const BaseParams: Params := [("limit", "40"), ("exclude_replies", "true"), ("exclude_reblogs", "true")]

  const MaxIdKey: string := "max_id"

  /** `params.get(key)`: the value of the first pair with that name. */
  function GetParam(ps: Params, key: string): Option<string> {
    if ps == [] then None else if ps[0].0 == key then Some(ps[0].1) else GetParam(ps[1..], key)
  }

  function RemoveParam(ps: Params, key: string): (r: Params)
    ensures GetParam(r, key).None?
    ensures forall k :: k != key ==> GetParam(r, k) == GetParam(ps, k)
  {
    if ps == [] then []
    else if ps[0].0 == key then RemoveParam(ps[1..], key)
    else [ps[0]] + RemoveParam(ps[1..], key)
  }

  /** `params.set(key, value)`: the first pair with that name gets the value
      and the other pairs with that name are removed; without such a pair,
      the pair is appended. */
  function SetParam(ps: Params, key: string, value: string): Params {
    if ps == [] then [(key, value)]
    else if ps[0].0 == key then [(key, value)] + RemoveParam(ps[1..], key)
    else [ps[0]] + SetParam(ps[1..], key, value)
  }

  /** After `set`, `get` returns the new value for that name and the old
      value for every other name. */
  lemma {:induction false} SetParamGet(ps: Params, key: string, value: string, k: string)
    ensures GetParam(SetParam(ps, key, value), k) == if k == key then Some(value) else GetParam(ps, k)
  {
    if ps != [] && ps[0].0 != key {
      SetParamGet(ps[1..], key, value, k);
    }
  }

  lemma {:induction false} RemoveParamTwice(ps: Params, key: string)
    ensures RemoveParam(RemoveParam(ps, key), key) == RemoveParam(ps, key)
  {
    if ps != [] {
      RemoveParamTwice(ps[1..], key);
    }
  }

  /** Setting a name twice is the same as setting it once to the second
      value: the query string does not grow from page to page. */
  lemma {:induction false} SetParamTwice(ps: Params, key: string, a: string, b: string)
    ensures SetParam(SetParam(ps, key, a), key, b) == SetParam(ps, key, b)
  {
    if ps == [] {
    } else if ps[0].0 == key {
      RemoveParamTwice(ps[1..], key);
    } else {
      SetParamTwice(ps[1..], key, a, b);
    }
  }

  /** Setting `max_id` on the base parameters appends it and leaves `limit`,
      `exclude_replies` and `exclude_reblogs` as they were. */
  lemma SetMaxIdOnBase(id: string)
    ensures SetParam(BaseParams, MaxIdKey, id) == BaseParams + [(MaxIdKey, id)]
  {
    var b := BaseParams;
    assert b[0].0 != MaxIdKey && b[1].0 != MaxIdKey && b[2].0 != MaxIdKey;
    assert b[2..][1..] == [];
    assert SetParam(b[2..], MaxIdKey, id) == [b[2], (MaxIdKey, id)];
    assert b[1..][1..] == b[2..];
    assert SetParam(b[1..], MaxIdKey, id) == [b[1], b[2], (MaxIdKey, id)];
  }

  /** `params.toString()`. */
  function SerializeParams(env: Env, ps: Params): string {
    Join(seq(|ps|, i requires 0 <= i < |ps| => env.encodeForm(ps[i].0) + "=" + env.encodeForm(ps[i].1)), "&")
  }

  // ---------------------------------------------------------------------
  // Pagination
  // ---------------------------------------------------------------------

  const MaxPagesToFetch: nat := 50

  function StatusesUrl(env: Env, accountId: string, ps: Params): string {
    "https://" + ResolverInstance + "/api/v1/accounts/" + accountId + "/statuses" + "?" + SerializeParams(env, ps)
  }

  const PageStatusMessage: string := "Erreur lors de la récupération des posts depuis " + ResolverInstance + ". statut: "

  function LastId(page: seq<Status>): string
    requires page != []
  {
    page[|page| - 1].id
  }

  /** The outcome of the pagination loop, with the page URLs requested and
      the pages received, in order. */
  datatype Paging = Paging(result: Result<seq<Status>>, requests: seq<string>, pages: seq<seq<Status>>)

  /** One page of statuses: the request through the proxies, the status
      check and the decoding of the body. */
  function PageOf(env: Env, url: string, picks: seq<nat>): Result<seq<Status>>
    requires ValidPicks(picks) && |picks| == |Proxies|
  {
    match FallbackOf(env, url, picks).result
    case Err(e) => Err(e)
    case Ok(response) =>
      if !IsOk(response) then Err(PageStatusMessage + NatToString(response.status))
      else env.decodeStatuses(response.body)
  }

  /** The request of one page of statuses, as a function of its URL and of
      the number of the fallback call that makes it (the lookup is call 0,
      the `n`-th page request call `n`). */
  type Pager = (string, nat) -> Result<seq<Status>>

  /** The pages the proxies deliver: the `c`-th call shuffles the proxies
      with `rng`'s `c`-th draws. */
  function PagerOf(env: Env, rng: Rng): Pager
    requires ValidRng(rng)
  {
    (url: string, c: nat) => PageOf(env, url, Picks(rng, c, |Proxies|))
  }

  /** The pagination loop from the state it is in at the top of an
      iteration: the current query, the count of pages done, the statuses kept
      so far, and the logs. The `c`-th call of the fallback (the lookup is
      call 0) shuffles with `rng`'s `c`-th draws. */
  function PagesFrom(env: Env, pager: Pager, accountId: string, w: Window, params: Params, fetched: nat,
                     acc: seq<Status>, requests: seq<string>, pages: seq<seq<Status>>): Paging
    decreases MaxPagesToFetch - fetched
  {
    if fetched >= MaxPagesToFetch then Paging(Ok(acc), requests, pages)
    else
      var url := StatusesUrl(env, accountId, params);
      var requests' := requests + [url];
      match pager(url, fetched + 1)
      case Err(e) => Paging(Err(e), requests', pages)
      case Ok(page) =>
        var pages' := pages + [page];
        if |page| == 0 then Paging(Ok(acc), requests', pages')
        else
          var scan := Scan(page, StatusTime, w);
          if scan.1 then Paging(Ok(acc + scan.0), requests', pages')
          else PagesFrom(env, pager, accountId, w, SetParam(params, MaxIdKey, LastId(page)), fetched + 1,
                         acc + scan.0, requests', pages')
  }

  /** The pagination went on past this page: it was not empty and held no
      status older than the start. */
  predicate Continues(page: seq<Status>, w: Window) {
    page != [] && !Scan(page, StatusTime, w).1
  }

  /** The query of the `j`-th page request: the base parameters, with `max_id`
      set to the id of the last status of the page before, if any. */
  function ParamsFor(pages: seq<seq<Status>>, j: nat): Params
    requires j <= |pages|
    requires j > 0 ==> pages[j - 1] != []
  {
    if j == 0 then BaseParams else SetParam(BaseParams, MaxIdKey, LastId(pages[j - 1]))
  }

  /** What the request and page logs of the loop look like: at most one page
      per request, one request more only when the last one failed; every page
      but the last let the loop go on; each request's query follows from the
      page before it. */
  ghost predicate WellFormedTrace(env: Env, accountId: string, w: Window, requests: seq<string>, pages: seq<seq<Status>>) {
    && |pages| <= |requests| <= |pages| + 1
    && (forall j :: 0 <= j < |pages| - 1 ==> Continues(pages[j], w))
    && (|requests| == |pages| + 1 && |pages| > 0 ==> Continues(pages[|pages| - 1], w))
    && (forall j :: 0 <= j < |requests| ==> requests[j] == StatusesUrl(env, accountId, ParamsFor(pages, j)))
  }

  /** One more request, for the query that follows from the pages so far,
      keeps the logs well formed. */
  lemma TraceAddRequest(env: Env, accountId: string, w: Window, requests: seq<string>, pages: seq<seq<Status>>)
    requires |requests| == |pages|
    requires forall j :: 0 <= j < |pages| ==> Continues(pages[j], w)
    requires |pages| > 0 ==> pages[|pages| - 1] != []
    requires WellFormedTrace(env, accountId, w, requests, pages)
    ensures WellFormedTrace(env, accountId, w, requests + [StatusesUrl(env, accountId, ParamsFor(pages, |pages|))], pages)
  {
  }

  /** The page answering the last request keeps the logs well formed. */
  lemma TraceAddPage(env: Env, accountId: string, w: Window, requests: seq<string>, pages: seq<seq<Status>>, page: seq<Status>)
    requires |requests| == |pages| + 1
    requires forall j :: 0 <= j < |pages| ==> Continues(pages[j], w)
    requires WellFormedTrace(env, accountId, w, requests, pages)
    ensures WellFormedTrace(env, accountId, w, requests, pages + [page])
  {
    var pages' := pages + [page];
    forall j | 0 <= j < |requests|
      ensures ParamsFor(pages', j) == ParamsFor(pages, j)
    {
      if j > 0 { assert pages'[j - 1] == pages[j - 1]; }
    }
  }

  // One step of the pagination, in each of its three outcomes, and its end.

  lemma PagesFromDone(env: Env, pager: Pager, accountId: string, w: Window, params: Params, fetched: nat,
                      acc: seq<Status>, requests: seq<string>, pages: seq<seq<Status>>)
    requires fetched >= MaxPagesToFetch
    ensures PagesFrom(env, pager, accountId, w, params, fetched, acc, requests, pages) == Paging(Ok(acc), requests, pages)
  {
  }

  lemma PagesFromFailed(env: Env, pager: Pager, accountId: string, w: Window, params: Params, fetched: nat,
                     acc: seq<Status>, requests: seq<string>, pages: seq<seq<Status>>)
    requires fetched < MaxPagesToFetch
    requires pager(StatusesUrl(env, accountId, params), fetched + 1).Err?
    ensures PagesFrom(env, pager, accountId, w, params, fetched, acc, requests, pages)
         == Paging(Err(pager(StatusesUrl(env, accountId, params), fetched + 1).error), requests + [StatusesUrl(env, accountId, params)], pages)
  {
  }

  lemma PagesFromLast(env: Env, pager: Pager, accountId: string, w: Window, params: Params, fetched: nat,
                     acc: seq<Status>, requests: seq<string>, pages: seq<seq<Status>>, page: seq<Status>)
    requires fetched < MaxPagesToFetch
    requires pager(StatusesUrl(env, accountId, params), fetched + 1) == Ok(page)
    requires !Continues(page, w)
    ensures PagesFrom(env, pager, accountId, w, params, fetched, acc, requests, pages)
         == Paging(Ok(acc + Scan(page, StatusTime, w).0), requests + [StatusesUrl(env, accountId, params)], pages + [page])
  {
    if page == [] {
      assert Scan(page, StatusTime, w).0 == [];
      assert acc + [] == acc;
    }
  }

  lemma PagesFromNext(env: Env, pager: Pager, accountId: string, w: Window, params: Params, fetched: nat,
                     acc: seq<Status>, requests: seq<string>, pages: seq<seq<Status>>, page: seq<Status>)
    requires fetched < MaxPagesToFetch
    requires pager(StatusesUrl(env, accountId, params), fetched + 1) == Ok(page)
    requires Continues(page, w)
    ensures PagesFrom(env, pager, accountId, w, params, fetched, acc, requests, pages)
         == PagesFrom(env, pager, accountId, w, SetParam(params, MaxIdKey, LastId(page)), fetched + 1,
                      acc + Scan(page, StatusTime, w).0, requests + [StatusesUrl(env, accountId, params)], pages + [page])
  {
  }

  /** The logs of the pagination: at most 50 requests, each for the query
      that follows from the page before it, and every page but the last one
      let the loop go on. */
  lemma {:induction false} PagesFromTrace(env: Env, pager: Pager, accountId: string, w: Window, params: Params, fetched: nat,
                     acc: seq<Status>, requests: seq<string>, pages: seq<seq<Status>>)
    requires fetched == |pages| == |requests| <= MaxPagesToFetch
    requires forall j :: 0 <= j < |pages| ==> Continues(pages[j], w)
    requires |pages| > 0 ==> pages[|pages| - 1] != []
    requires params == ParamsFor(pages, |pages|)
    requires WellFormedTrace(env, accountId, w, requests, pages)
    ensures var p := PagesFrom(env, pager, accountId, w, params, fetched, acc, requests, pages);
      && |p.requests| <= MaxPagesToFetch
      && WellFormedTrace(env, accountId, w, p.requests, p.pages)
    decreases MaxPagesToFetch - fetched
  {
    if fetched < MaxPagesToFetch {
      var requests' := requests + [StatusesUrl(env, accountId, params)];
      var f := pager(StatusesUrl(env, accountId, params), fetched + 1);
      TraceAddRequest(env, accountId, w, requests, pages);
      if f.Err? {
        PagesFromFailed(env, pager, accountId, w, params, fetched, acc, requests, pages);
      } else {
        var page := f.value;
        var pages' := pages + [page];
        TraceAddPage(env, accountId, w, requests', pages, page);
        if !Continues(page, w) {
          PagesFromLast(env, pager, accountId, w, params, fetched, acc, requests, pages, page);
        } else {
          var params' := SetParam(params, MaxIdKey, LastId(page));
          assert params' == ParamsFor(pages', |pages'|) by {
            if |pages| > 0 { SetParamTwice(BaseParams, MaxIdKey, LastId(pages[|pages| - 1]), LastId(page)); }
          }
          PagesFromNext(env, pager, accountId, w, params, fetched, acc, requests, pages, page);
          PagesFromTrace(env, pager, accountId, w, params', fetched + 1, acc + Scan(page, StatusTime, w).0, requests', pages');
        }
      }
    }
  }

  /** The result of the pagination: the statuses kept from the pages, page by
      page. */
  lemma {:induction false} PagesFromResult(env: Env, pager: Pager, accountId: string, w: Window, params: Params, fetched: nat,
                     acc: seq<Status>, requests: seq<string>, pages: seq<seq<Status>>)
    requires fetched == |pages| == |requests| <= MaxPagesToFetch
    requires forall j :: 0 <= j < |pages| ==> Continues(pages[j], w)
    requires acc == KeptAll(pages, StatusTime, w)
    ensures var p := PagesFrom(env, pager, accountId, w, params, fetched, acc, requests, pages);
      p.result.Ok? ==> p.result.value == KeptAll(p.pages, StatusTime, w)
    decreases MaxPagesToFetch - fetched
  {
    if fetched < MaxPagesToFetch {
      var f := pager(StatusesUrl(env, accountId, params), fetched + 1);
      if f.Err? {
        PagesFromFailed(env, pager, accountId, w, params, fetched, acc, requests, pages);
      } else {
        var page := f.value;
        KeptAllSnoc(pages, page, StatusTime, w);
        if !Continues(page, w) {
          PagesFromLast(env, pager, accountId, w, params, fetched, acc, requests, pages, page);
        } else {
          PagesFromNext(env, pager, accountId, w, params, fetched, acc, requests, pages, page);
          PagesFromResult(env, pager, accountId, w, SetParam(params, MaxIdKey, LastId(page)), fetched + 1,
                          acc + Scan(page, StatusTime, w).0, requests + [StatusesUrl(env, accountId, params)], pages + [page]);
        }
      }
    }
  }

  /** A failed pagination requested one page more than it received; a
      successful one received a page for every request. */
  lemma {:induction false} PagesFromCounts(env: Env, pager: Pager, accountId: string, w: Window, params: Params, fetched: nat,
                     acc: seq<Status>, requests: seq<string>, pages: seq<seq<Status>>)
    requires fetched == |pages| == |requests| <= MaxPagesToFetch
    requires forall j :: 0 <= j < |pages| ==> Continues(pages[j], w)
    ensures var p := PagesFrom(env, pager, accountId, w, params, fetched, acc, requests, pages);
      && (p.result.Err? ==> |p.requests| == |p.pages| + 1)
      && (p.result.Ok? ==> |p.requests| == |p.pages|)
    decreases MaxPagesToFetch - fetched
  {
    if fetched < MaxPagesToFetch {
      var f := pager(StatusesUrl(env, accountId, params), fetched + 1);
      if f.Err? {
        PagesFromFailed(env, pager, accountId, w, params, fetched, acc, requests, pages);
      } else {
        var page := f.value;
        if !Continues(page, w) {
          PagesFromLast(env, pager, accountId, w, params, fetched, acc, requests, pages, page);
        } else {
          PagesFromNext(env, pager, accountId, w, params, fetched, acc, requests, pages, page);
          PagesFromCounts(env, pager, accountId, w, SetParam(params, MaxIdKey, LastId(page)), fetched + 1,
                          acc + Scan(page, StatusTime, w).0, requests + [StatusesUrl(env, accountId, params)], pages + [page]);
        }
      }
    }
  }

  /** Unless the budget of 50 requests ran out, a successful pagination ended
      on an empty page or on a page holding a status older than the start. */
  lemma {:induction false} PagesFromEnd(env: Env, pager: Pager, accountId: string, w: Window, params: Params, fetched: nat,
                     acc: seq<Status>, requests: seq<string>, pages: seq<seq<Status>>)
    requires fetched == |pages| == |requests| <= MaxPagesToFetch
    requires forall j :: 0 <= j < |pages| ==> Continues(pages[j], w)
    ensures var p := PagesFrom(env, pager, accountId, w, params, fetched, acc, requests, pages);
      p.result.Ok? && |p.requests| < MaxPagesToFetch ==> |p.pages| > 0 && !Continues(p.pages[|p.pages| - 1], w)
    decreases MaxPagesToFetch - fetched
  {
    if fetched < MaxPagesToFetch {
      var f := pager(StatusesUrl(env, accountId, params), fetched + 1);
      if f.Err? {
        PagesFromFailed(env, pager, accountId, w, params, fetched, acc, requests, pages);
      } else {
        var page := f.value;
        if !Continues(page, w) {
          PagesFromLast(env, pager, accountId, w, params, fetched, acc, requests, pages, page);
        } else {
          PagesFromNext(env, pager, accountId, w, params, fetched, acc, requests, pages, page);
          PagesFromEnd(env, pager, accountId, w, SetParam(params, MaxIdKey, LastId(page)), fetched + 1,
                          acc + Scan(page, StatusTime, w).0, requests + [StatusesUrl(env, accountId, params)], pages + [page]);
        }
      }
    }
  }

  // ---------------------------------------------------------------------
  // The whole search
  // ---------------------------------------------------------------------

  datatype FetchResult = FetchResult(account: Account, statuses: seq<Status>)

  /** The outcome of `fetchAccountAndStatuses`, with the page URLs requested
      and the pages received. */
  datatype Search = Search(result: Result<FetchResult>, requests: seq<string>, pages: seq<seq<Status>>)

  function LookupFailedMessage(fullHandle: string, details: string): string {
    "Le compte " + fullHandle + " n'a pas pu être trouvé via le résolveur public (" + ResolverInstance
      + "). L'API a retourné une erreur. " + details
  }

  function LookupErrorDetails(env: Env, response: Response): string {
    match env.errorDetails(response.body)
    case Some(d) => d
    case None => "statut: " + NatToString(response.status)
  }

  /** The first half of `fetchAccountAndStatuses`: resolve the handle through
      the proxies and check the account found; the message of a failure is
      the one thrown, before the rewrite. */
  function LookupOf(env: Env, rng: Rng, username: string, instance: string): Result<Account>
    requires ValidRng(rng)
  {
    var fullHandle := FullHandle(username, instance);
    match FallbackOf(env, LookupUrl(fullHandle), Picks(rng, 0, |Proxies|)).result
    case Err(e) => Err(e)
    case Ok(response) =>
      if !IsOk(response) then Err(LookupFailedMessage(fullHandle, LookupErrorDetails(env, response)))
      else
        match env.decodeAccount(response.body)
        case Err(e) => Err(e)
        case Ok(account) => CheckIdentity(account, username, instance)
  }

  /** `fetchAccountAndStatuses(username, instance, startDate, endDate)`, the
      window standing for the two dates; every error goes through the rewrite
      of its `catch`. */
  function SearchOf(env: Env, rng: Rng, username: string, instance: string, w: Window): Search
    requires ValidRng(rng)
  {
    match LookupOf(env, rng, username, instance)
    case Err(e) => Search(Err(RewriteError(e)), [], [])
    case Ok(account) =>
      var p := PagesFrom(env, PagerOf(env, rng), account.id, w, BaseParams, 0, [], [], []);
      match p.result
      case Err(e) => Search(Err(RewriteError(e)), p.requests, p.pages)
      case Ok(statuses) => Search(Ok(FetchResult(account, statuses)), p.requests, p.pages)
  }

  /** The lookup of `fetchAccountAndStatuses`, up to and including the
      security check. */
  method LookupAccount(env: Env, rng: Rng, username: string, instance: string) returns (r: Result<Account>)
    requires ValidRng(rng)
    ensures r == LookupOf(env, rng, username, instance)
  {
    var fullHandle := FullHandle(username, instance);
    var lookup, _ := FetchWithProxyFallbacks(env, LookupUrl(fullHandle), Picks(rng, 0, |Proxies|));
    if lookup.Err? {
      return Err(lookup.error);
    }
    var lookupResponse := lookup.value;
    if !IsOk(lookupResponse) {
      return Err(LookupFailedMessage(fullHandle, LookupErrorDetails(env, lookupResponse)));
    }
    var decoded := env.decodeAccount(lookupResponse.body);
    if decoded.Err? {
      return Err(decoded.error);
    }
    var account := decoded.value;
    if !IdentityMatches(account.acct, username, instance) {
      return Err(MismatchMessage(fullHandle, account.acct));
    }
    r := Ok(account);
  }

  /** `fetchAccountAndStatuses`: look the account up, check it, then page
      through its statuses with `max_id` until a page is empty, a status older
      than the start is met, or 50 pages were fetched. */
  method FetchAccountAndStatuses(env: Env, rng: Rng, username: string, instance: string, w: Window)
    returns (r: Result<FetchResult>, requests: seq<string>, pages: seq<seq<Status>>)
    requires ValidRng(rng)
    ensures Search(r, requests, pages) == SearchOf(env, rng, username, instance, w)
  {
    requests, pages := [], [];
    var account := LookupAccount(env, rng, username, instance);
    if account.Err? {
      r := Err(RewriteError(account.error));
      return;
    }
    var statuses;
    statuses, requests, pages := PaginateStatuses(env, rng, account.value.id, w);
    if statuses.Err? {
      r := Err(RewriteError(statuses.error));
      return;
    }
    r := Ok(FetchResult(account.value, statuses.value));
  }

  /** The status check after a page request never fires: a response the
      proxies hand back is in the 200-299 range, so a page is the decoding
      of that response, or the proxies' error. */
  lemma PageStatusCheckRedundant(env: Env, url: string, picks: seq<nat>)
    requires ValidPicks(picks) && |picks| == |Proxies|
    ensures var f := FallbackOf(env, url, picks).result;
      && (f.Ok? ==> PageOf(env, url, picks) == env.decodeStatuses(f.value.body))
      && (f.Err? ==> PageOf(env, url, picks) == Err(f.error))
  {
    FallbackFirstSuccess(env, url, picks);
  }

  /** The same for the lookup: its status check never fires, so a lookup
      fails only with the proxies' error, a decoding error or the security
      check's message. */
  lemma LookupStatusCheckRedundant(env: Env, rng: Rng, username: string, instance: string)
    requires ValidRng(rng)
    ensures var f := FallbackOf(env, LookupUrl(FullHandle(username, instance)), Picks(rng, 0, |Proxies|)).result;
      && (f.Err? ==> LookupOf(env, rng, username, instance) == Err(f.error))
      && (f.Ok? && env.decodeAccount(f.value.body).Err? ==>
            LookupOf(env, rng, username, instance) == Err(env.decodeAccount(f.value.body).error))
      && (f.Ok? && env.decodeAccount(f.value.body).Ok? ==>
            LookupOf(env, rng, username, instance) == CheckIdentity(env.decodeAccount(f.value.body).value, username, instance))
  {
    FallbackFirstSuccess(env, LookupUrl(FullHandle(username, instance)), Picks(rng, 0, |Proxies|));
  }

  /** What a successful lookup delivers: an account decoded from a response
      of the resolver in the 200-299 range that passed the security check. */
  lemma LookupSucceeded(env: Env, rng: Rng, username: string, instance: string)
    requires ValidRng(rng)
    ensures var l := LookupOf(env, rng, username, instance);
      var lookup := FallbackOf(env, LookupUrl(FullHandle(username, instance)), Picks(rng, 0, |Proxies|)).result;
      l.Ok? ==>
        && lookup.Ok? && IsOk(lookup.value)
        && env.decodeAccount(lookup.value.body) == Ok(l.value)
        && IdentityMatches(l.value.acct, username, instance)
  {
    FallbackFirstSuccess(env, LookupUrl(FullHandle(username, instance)), Picks(rng, 0, |Proxies|));
  }

  /** What a successful pagination from the first page delivers: the statuses
      kept page by page, all inside the window, in order and without
      duplication. (Its logs are described by `PagesFromTrace` and
      `PagesFromEnd`.) */
  lemma PaginationInWindow(env: Env, pager: Pager, accountId: string, w: Window)
    ensures var p := PagesFrom(env, pager, accountId, w, BaseParams, 0, [], [], []);
      p.result.Ok? ==>
        && p.result.value == KeptAll(p.pages, StatusTime, w)
        && (forall st :: st in p.result.value ==> InWindow(w, st.createdAt))
        && IsSubsequence(p.result.value, Flatten(p.pages))
  {
    var p := PagesFrom(env, pager, accountId, w, BaseParams, 0, [], [], []);
    PagesFromResult(env, pager, accountId, w, BaseParams, 0, [], [], []);
    KeptAllInWindow(p.pages, StatusTime, w);
  }

  /** What a successful search delivers: the account of a successful lookup
      and the statuses of a successful pagination for that account. */
  lemma SearchSucceeded(env: Env, rng: Rng, username: string, instance: string, w: Window)
    requires ValidRng(rng)
    ensures var s := SearchOf(env, rng, username, instance, w);
      s.result.Ok? ==>
        && LookupOf(env, rng, username, instance) == Ok(s.result.value.account)
        && IdentityMatches(s.result.value.account.acct, username, instance)
        && var p := PagesFrom(env, PagerOf(env, rng), s.result.value.account.id, w, BaseParams, 0, [], [], []);
           p == Paging(Ok(s.result.value.statuses), s.requests, s.pages)
  {
    LookupSucceeded(env, rng, username, instance);
  }

  /** A lookup for which every proxy failed ends the search with the fixed
      connection-failure message, before any page is requested. */
  lemma SearchLookupExhausted(env: Env, rng: Rng, username: string, instance: string, w: Window)
    requires ValidRng(rng)
    requires FallbackOf(env, LookupUrl(FullHandle(username, instance)), Picks(rng, 0, |Proxies|)).result.Err?
    ensures SearchOf(env, rng, username, instance, w) == Search(Err(ConnectionFailedMessage), [], [])
  {
    var picks := Picks(rng, 0, |Proxies|);
    var url := LookupUrl(FullHandle(username, instance));
    FallbackAllFailed(env, url, picks);
    AllProxiesFailureRewritten(Diagnostics(env, Shuffled(Proxies, picks), url));
  }

  /** An account that does not match the handle searched for is never
      returned: the search fails, before any page is requested, with the
      mismatch message naming both handles (unless a handle itself carries the
      proxy-exhaustion marker, in which case the rewrite replaces it). */
  lemma SearchRejectsOtherAccount(env: Env, rng: Rng, username: string, instance: string, w: Window)
    requires ValidRng(rng)
    requires var lookup := FallbackOf(env, LookupUrl(FullHandle(username, instance)), Picks(rng, 0, |Proxies|)).result;
      && lookup.Ok?
      && env.decodeAccount(lookup.value.body).Ok?
      && !IdentityMatches(env.decodeAccount(lookup.value.body).value.acct, username, instance)
    ensures var s := SearchOf(env, rng, username, instance, w);
      var account := env.decodeAccount(FallbackOf(env, LookupUrl(FullHandle(username, instance)), Picks(rng, 0, |Proxies|)).result.value.body).value;
      && s.result.Err? && s.requests == [] && s.pages == []
      && (s.result.error == ConnectionFailedMessage
          || (Contains(s.result.error, FullHandle(username, instance)) && Contains(s.result.error, account.acct)))
  {
    FallbackFirstSuccess(env, LookupUrl(FullHandle(username, instance)), Picks(rng, 0, |Proxies|));
  }

  /** One iteration's request of the pagination loop: fetch through the
      proxies, reject a status outside 200-299, decode the page. */
  method FetchPage(env: Env, url: string, picks: seq<nat>) returns (r: Result<seq<Status>>)
    requires ValidPicks(picks) && |picks| == |Proxies|
    ensures r == PageOf(env, url, picks)
  {
    var fetched, _ := FetchWithProxyFallbacks(env, url, picks);
    if fetched.Err? {
      return Err(fetched.error);
    }
    var statusesResponse := fetched.value;
    if !IsOk(statusesResponse) {
      return Err(PageStatusMessage + NatToString(statusesResponse.status));
    }
    r := env.decodeStatuses(statusesResponse.body);
  }

  /** One iteration of the pagination loop: request the page for `params`,
      and either finish (`done`, with the outcome of the whole loop) or hand
      the next query and the statuses kept so far to the next iteration. */
  method NextPage(env: Env, rng: Rng, accountId: string, w: Window, params: Params, fetched: nat,
                  acc: seq<Status>, requests: seq<string>, pages: seq<seq<Status>>)
    returns (done: bool, r: Result<seq<Status>>, params': Params, acc': seq<Status>,
             requests': seq<string>, pages': seq<seq<Status>>)
    requires ValidRng(rng) && fetched < MaxPagesToFetch
    ensures done ==> Paging(r, requests', pages') == PagesFrom(env, PagerOf(env, rng), accountId, w, params, fetched, acc, requests, pages)
    ensures !done ==>
      PagesFrom(env, PagerOf(env, rng), accountId, w, params', fetched + 1, acc', requests', pages')
      == PagesFrom(env, PagerOf(env, rng), accountId, w, params, fetched, acc, requests, pages)
  {
    var url := StatusesUrl(env, accountId, params);
    requests' := requests + [url];
    params', acc', pages' := params, acc, pages;
    var page := FetchPage(env, url, Picks(rng, fetched + 1, |Proxies|));
    if page.Err? {
      PagesFromFailed(env, PagerOf(env, rng), accountId, w, params, fetched, acc, requests, pages);
      return true, Err(page.error), params', acc', requests', pages';
    }
    var pageStatuses := page.value;
    pages' := pages + [pageStatuses];
    if |pageStatuses| == 0 {
      PagesFromLast(env, PagerOf(env, rng), accountId, w, params, fetched, acc, requests, pages, pageStatuses);
      assert acc + Scan(pageStatuses, StatusTime, w).0 == acc;
      return true, Ok(acc), params', acc', requests', pages';
    }
    var kept, shouldStopFetching := ScanPage(pageStatuses, StatusTime, w);
    acc' := acc + kept;
    if shouldStopFetching {
      PagesFromLast(env, PagerOf(env, rng), accountId, w, params, fetched, acc, requests, pages, pageStatuses);
      return true, Ok(acc'), params', acc', requests', pages';
    }
    PagesFromNext(env, PagerOf(env, rng), accountId, w, params, fetched, acc, requests, pages, pageStatuses);
    params' := SetParam(params, MaxIdKey, LastId(pageStatuses));
    done, r := false, Ok(acc');
  }

  /** The pagination loop of `fetchAccountAndStatuses`; an error it meets is
      returned, for the caller's `catch` to rewrite. */
  method PaginateStatuses(env: Env, rng: Rng, accountId: string, w: Window)
    returns (r: Result<seq<Status>>, requests: seq<string>, pages: seq<seq<Status>>)
    requires ValidRng(rng)
    ensures Paging(r, requests, pages) == PagesFrom(env, PagerOf(env, rng), accountId, w, BaseParams, 0, [], [], [])
  {
    requests, pages := [], [];
    var allStatuses: seq<Status> := [];
    var pagesFetched: nat := 0;
    var currentParams := BaseParams;
    ghost var goal := PagesFrom(env, PagerOf(env, rng), accountId, w, BaseParams, 0, [], [], []);
    while pagesFetched < MaxPagesToFetch
      invariant pagesFetched <= MaxPagesToFetch
      invariant PagesFrom(env, PagerOf(env, rng), accountId, w, currentParams, pagesFetched, allStatuses, requests, pages) == goal
      decreases MaxPagesToFetch - pagesFetched
    {
      var done;
      done, r, currentParams, allStatuses, requests, pages :=
        NextPage(env, rng, accountId, w, currentParams, pagesFetched, allStatuses, requests, pages);
      if done {
        return;
      }
      pagesFetched := pagesFetched + 1;
    }
    PagesFromDone(env, PagerOf(env, rng), accountId, w, currentParams, pagesFetched, allStatuses, requests, pages);
    r := Ok(allStatuses);
  }
}