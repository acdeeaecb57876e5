/** The X side of the dashboard (`services/xService.ts`): the account and
    tweets of one fixed user, read through Nitter-style mirrors behind a CORS
    proxy. The mirrors are tried in a shuffled order; each is paged through
    with its `min_position` cursor, under the same date window as the Mastodon
    side; the first mirror that ends with an account known returns. */
module XService {
  import opened Wrappers
  import opened Strings
  import opened Shuffle
  import opened DateWindow
  import opened Http
  import opened Types

  // ---------------------------------------------------------------------
  // Configuration
  // ---------------------------------------------------------------------

  /** The Nitter and LibreTwitter mirrors, in the order of the source. */
  const AllInstances: seq<string> := [
    "nitter.net", "nitter.it", "nitter.d420.de", "nitter.rawbit.ch",
    "nitter.poast.org", "nitter.projectgold.xyz", "nitter.moomoo.me",
    "nitter.privacy.com.de", "nitter.mint.lgbt", "nitter.kylrth.com",
    "nitter.ch", "nitter.x86-64-unknown-linux-gnu.zip", "nitter.unixfox.eu",
    "nitter.freedit.eu", "nitter.no-logs.com", "nitter.tux.pizza",
    "nitter.one", "nitter.inpt.fr", "nitter.drivet.xyz", "nitter.cz",
    "nitter.namazso.eu", "nitter.lunar.icu", "nitter.soopy.moe",
    "nitter.qwik.space", "nitter.fediflix.org", "nitter.nohost.network",
    "nitter.esmailelbob.xyz", "nitter.services.woodland.cafe", "nitter.actionsack.com",
    "nitter.koyu.space", "nitter.nicfab.eu", "nitter.foss.wtf", "nitter.private.coffee",
    "nitter.sethforprivacy.com", "nitter.dafriser.be", "nitter.perennialte.ch",
    "lt.vern.cc", "libretwitter.freedit.eu", "twitter.dr460nf1r3.org",
    "twitter.projectsegfau.lt", "twitter.pomf.se", "twitter.moe.ngo"
  ]

  const ProxyHost: string := "corsproxy.io"
  /** `PROXY_URL`. */
  const ProxyUrl: string := HttpsScheme + ProxyHost + "/" + "?"
  const XUsername: string := "PogScience"
  /** `API_PATH`. */
  const ApiPath: string := XUsername + "/json"
  const MaxPagesToFetch: nat := 50
  const CursorQuery: string := "?cursor="

  /** The message thrown once every mirror has failed. */
  const FailureMessage: string :=
    "Échec de la récupération des données de X. En raison de changements récents apportés par X/Twitter, "
    + "les services alternatifs comme Nitter sont devenus extrêmement instables et ne fonctionnent plus "
    + "de manière fiable. Cette fonctionnalité est susceptible de ne pas aboutir."

  /** The `TypeError` raised by `profile.avatar.replace` on a profile
      without an avatar. */
  const MissingAvatarMessage: string := "Cannot read properties of undefined (reading 'replace')"

  // ---------------------------------------------------------------------
  // What a mirror answers
  // ---------------------------------------------------------------------

  datatype Author = Author(id: string, username: string)
  datatype TweetStats = TweetStats(replies: nat, retweets: nat, likes: nat)
  /** A tweet as a mirror sends it; `date` is already the instant, in
      milliseconds since the epoch. */
  datatype ApiTweet = ApiTweet(id: string, date: int, text: string, author: Author, stats: TweetStats)

  datatype ProfileStats = ProfileStats(followers: nat, following: nat, tweets: nat)
  datatype Profile = Profile(id: string, name: string, username: string, avatar: Option<string>, stats: ProfileStats)

  /** The parsed body of a mirror's answer: the fields the loop reads. */
  datatype Page = Page(profile: Option<Profile>, timeline: Option<seq<ApiTweet>>, minPosition: Option<string>)

  /** The world the service runs in: the network, `encodeURIComponent`, and
      `JSON.parse` (`None` for a body that is not JSON). */
  datatype Env = Env(fetch: Fetch, encodeComponent: string -> string, parseJson: string -> Option<Page>)

  // ---------------------------------------------------------------------
  // One request to a mirror
  // ---------------------------------------------------------------------

  /** `proxify`. */
  function Proxify(env: Env, url: string): string {
    ProxyUrl + env.encodeComponent(url)
  }

  /** A proxied URL is a request to the proxy, carrying the encoded target. */
  lemma ProxifyShape(env: Env, url: string)
    ensures Hostname(Proxify(env, url)) == Some(ProxyHost)
    ensures Proxify(env, url) == ProxyUrl + env.encodeComponent(url)
  {
    assert PlainHost(ProxyHost);
    PrefixKeepsHost(ProxyHost, "?", env.encodeComponent(url));
  }

  predicate NonEmpty(cursor: Option<string>) {
    cursor.Some? && cursor.value != ""
  }

  /** The base of every URL of a mirror: `https://<host>/<path>`. */
  function InstanceBase(host: string, path: string): string {
    HttpsScheme + host + "/" + path
  }

  /** The URL `fetchFromInstance` requests, before the proxy. */
  function InstanceUrl(env: Env, host: string, path: string, cursor: Option<string>): string {
    if NonEmpty(cursor) then InstanceBase(host, path) + CursorQuery + env.encodeComponent(cursor.value)
    else InstanceBase(host, path)
  }

  /** The request URL is the mirror's base URL, and it carries the encoded
      cursor if and only if the cursor is non-empty; either way it is a URL of
      that mirror. */
  lemma InstanceUrlShape(env: Env, host: string, path: string, cursor: Option<string>)
    ensures var url := InstanceUrl(env, host, path, cursor);
      && |InstanceBase(host, path)| <= |url|
      && url[..|InstanceBase(host, path)|] == InstanceBase(host, path)
      && (NonEmpty(cursor) <==> |url| > |InstanceBase(host, path)|)
      && (NonEmpty(cursor) ==> url[|InstanceBase(host, path)|..] == CursorQuery + env.encodeComponent(cursor.value))
    ensures PlainHost(host) ==> Hostname(InstanceUrl(env, host, path, cursor)) == Some(host)
  {
    var base := InstanceBase(host, path);
    if NonEmpty(cursor) {
      var tail := CursorQuery + env.encodeComponent(cursor.value);
      assert (base + tail)[..|base|] == base;
      assert (base + tail)[|base|..] == tail;
      if PlainHost(host) {
        assert base + CursorQuery + env.encodeComponent(cursor.value) == HttpsScheme + host + "/" + path + tail;
        PrefixKeepsHost(host, path, tail);
      }
    } else {
      if PlainHost(host) {
        PrefixKeepsHost(host, path, "");
        assert base + "" == base;
      }
    }
  }

  function InstanceStatusMessage(host: string, status: nat): string {
    "Instance " + host + " a échoué avec le statut : " + NatToString(status)
  }

  function NonJsonMessage(host: string): string {
    "Réponse non-JSON reçue de l'instance " + host + "."
  }

  /** A non-empty avatar path made absolute on the mirror's host. */
  function AbsoluteAvatar(host: string, data: Page): Page {
    if data.profile.Some? && NonEmpty(data.profile.value.avatar)
    then data.(profile := Some(data.profile.value.(avatar := Some(HttpsScheme + host + data.profile.value.avatar.value))))
    else data
  }

  /** The avatar rewrite touches the avatar only, only when it is non-empty,
      and a rooted path then becomes a URL on the mirror's host. */
  lemma AvatarAbsolutised(host: string, data: Page)
    ensures var r := AbsoluteAvatar(host, data);
      && r.timeline == data.timeline && r.minPosition == data.minPosition
      && r.profile.Some? == data.profile.Some?
      && (data.profile.Some? ==> r.profile.value == data.profile.value.(avatar := r.profile.value.avatar))
      && (data.profile.Some? && NonEmpty(data.profile.value.avatar) ==>
            r.profile.value.avatar == Some(HttpsScheme + host + data.profile.value.avatar.value))
      && (data.profile.Some? && !NonEmpty(data.profile.value.avatar) ==> r == data)
    ensures var r := AbsoluteAvatar(host, data);
      PlainHost(host) && data.profile.Some? && NonEmpty(data.profile.value.avatar) && data.profile.value.avatar.value[0] == '/' ==>
        Hostname(r.profile.value.avatar.value) == Some(host)
  {
    if PlainHost(host) && data.profile.Some? && NonEmpty(data.profile.value.avatar) && data.profile.value.avatar.value[0] == '/' {
      var a := data.profile.value.avatar.value;
      assert HttpsScheme + host + a == HttpsScheme + host + "/" + "" + a[1..];
      PrefixKeepsHost(host, "", a[1..]);
    }
  }

  /** `fetchFromInstance(host, path, cursor)`: the proxied request, the
      status check, the JSON parse and the avatar rewrite; an error is the
      message thrown. */
  function FetchFromInstance(env: Env, host: string, path: string, cursor: Option<string>): Result<Page> {
    match env.fetch(Proxify(env, InstanceUrl(env, host, path, cursor)))
    case Err(e) => Err(e)
    case Ok(response) =>
      if !IsOk(response) then Err(InstanceStatusMessage(host, response.status))
      else
        match env.parseJson(response.body)
        case None => Err(NonJsonMessage(host))
        case Some(data) => Ok(AbsoluteAvatar(host, data))
  }

  /** A mirror's answer is a page exactly when the response was in the
      200-299 range and its body was JSON. Its errors are the network's, or
      name the mirror (and the status, when that was the cause). */
  lemma FetchFromInstanceOutcome(env: Env, host: string, path: string, cursor: Option<string>)
    ensures var f := env.fetch(Proxify(env, InstanceUrl(env, host, path, cursor)));
      var r := FetchFromInstance(env, host, path, cursor);
      && (r.Ok? <==> f.Ok? && IsOk(f.value) && env.parseJson(f.value.body).Some?)
      && (r.Ok? ==> r.value == AbsoluteAvatar(host, env.parseJson(f.value.body).value))
      && (f.Err? ==> r == Err(f.error))
    ensures var f := env.fetch(Proxify(env, InstanceUrl(env, host, path, cursor)));
      var r := FetchFromInstance(env, host, path, cursor);
      f.Ok? && !IsOk(f.value) ==>
        r.Err? && Contains(r.error, host) && Contains(r.error, NatToString(f.value.status))
    ensures var f := env.fetch(Proxify(env, InstanceUrl(env, host, path, cursor)));
      var r := FetchFromInstance(env, host, path, cursor);
      f.Ok? && IsOk(f.value) && env.parseJson(f.value.body).None? ==>
        r.Err? && Contains(r.error, host)
  {
    var f := env.fetch(Proxify(env, InstanceUrl(env, host, path, cursor)));
    if f.Ok? && !IsOk(f.value) {
      var digits := NatToString(f.value.status);
      ContainsMiddle("Instance ", host, " a échoué avec le statut : " + digits);
      assert InstanceStatusMessage(host, f.value.status)
          == "Instance " + host + (" a échoué avec le statut : " + digits);
      ContainsMiddle("Instance " + host + " a échoué avec le statut : ", digits, "");
      assert InstanceStatusMessage(host, f.value.status)
          == "Instance " + host + " a échoué avec le statut : " + digits + "";
    }
    if f.Ok? && IsOk(f.value) && env.parseJson(f.value.body).None? {
      ContainsMiddle("Réponse non-JSON reçue de l'instance ", host, ".");
    }
  }

  // ---------------------------------------------------------------------
  // Tweets and the account
  // ---------------------------------------------------------------------

  function TweetUrl(username: string, id: string): string {
    HttpsScheme + "x.com" + "/" + username + "/status/" + id
  }

  /** `mapApiTweetToTweet`. */
  function MapApiTweetToTweet(t: ApiTweet): Tweet {
    Tweet(t.id, t.date, t.text, TweetUrl(t.author.username, t.id),
          t.stats.replies, t.stats.retweets, t.stats.likes, 0, XUser(t.author.id, t.author.username))
  }

  /** The mapping keeps the id, the instant, the text and the three counters,
      sets no view count, takes the user from the author, and links to the
      tweet on x.com: the link's host is x.com and it ends with the tweet's id
      after the author's name. */
  lemma MappedTweet(t: ApiTweet)
    ensures var r := MapApiTweetToTweet(t);
      && r.id == t.id && r.text == t.text && TweetTime(r) == t.date
      && r.replyCount == t.stats.replies && r.retweetCount == t.stats.retweets && r.likeCount == t.stats.likes
      && r.viewCount == 0
      && r.user == XUser(t.author.id, t.author.username)
    ensures var url := MapApiTweetToTweet(t).url;
      var suffix := "/status/" + t.id;
      && Hostname(url) == Some("x.com")
      && |suffix| <= |url| && url[|url| - |suffix|..] == suffix
      && url[..|url| - |suffix|] == HttpsScheme + "x.com" + "/" + t.author.username
  {
    var suffix := "/status/" + t.id;
    var url := TweetUrl(t.author.username, t.id);
    assert PlainHost("x.com");
    PrefixKeepsHost("x.com", t.author.username, suffix);
    var front := HttpsScheme + "x.com" + "/" + t.author.username;
    assert url == front + suffix;
    assert (front + suffix)[..|front|] == front;
    assert (front + suffix)[|front|..] == suffix;
  }

  /** One page of tweets, mapped. */
  function TweetsOf(timeline: seq<ApiTweet>): (r: seq<Tweet>)
    ensures |r| == |timeline|
    ensures forall i :: 0 <= i < |r| ==> r[i] == MapApiTweetToTweet(timeline[i])
  {
    seq(|timeline|, i requires 0 <= i < |timeline| => MapApiTweetToTweet(timeline[i]))
  }

  /** The account built from a mirror's profile; a missing avatar makes
      `replace` throw. */
  function MakeAccount(p: Profile): Result<XAccount> {
    match p.avatar
    case None => Err(MissingAvatarMessage)
    case Some(a) =>
      Ok(XAccount(p.id, p.name, p.username, ReplaceFirst(a, "_normal", "_400x400"),
                  p.stats.followers, p.stats.following, p.stats.tweets))
  }

  /** The account copies the profile, and its picture is the avatar with its
      first `_normal` turned into `_400x400`; an avatar without `_normal` is
      kept as it is. */
  lemma AccountOfProfile(p: Profile, a: string, b: string)
    requires p.avatar.Some?
    ensures var r := MakeAccount(p);
      && r.Ok?
      && r.value.idStr == p.id && r.value.name == p.name && r.value.screenName == p.username
      && r.value.followersCount == p.stats.followers && r.value.friendsCount == p.stats.following
      && r.value.statusesCount == p.stats.tweets
    ensures p.avatar == Some(a + "_normal" + b) && !Contains(a, "_normal") ==>
      MakeAccount(p).value.profileImageUrlHttps == a + "_400x400" + b
    ensures !Contains(p.avatar.value, "_normal") ==> MakeAccount(p).value.profileImageUrlHttps == p.avatar.value
  {
    if p.avatar == Some(a + "_normal" + b) && !Contains(a, "_normal") {
      ReplaceFirstAfter(a, "_normal", b, "_400x400");
    }
    if !Contains(p.avatar.value, "_normal") {
      forall k: nat ensures !OccursAt(p.avatar.value, "_normal", k) {
        if OccursAt(p.avatar.value, "_normal", k) { ContainsOccurrence(p.avatar.value, "_normal", k); }
      }
      ReplaceFirstAbsent(p.avatar.value, "_normal", "_400x400");
    }
  }

  /** The assignment guarded by `!account && rawData.profile`. */
  function AdoptProfile(account: Option<XAccount>, data: Page): Result<Option<XAccount>> {
    if account.Some? || data.profile.None? then Ok(account)
    else
      match MakeAccount(data.profile.value)
      case Err(e) => Err(e)
      case Ok(a) => Ok(Some(a))
  }

  /** The account after the assignment, whether it threw or not. */
  function AdoptedAccount(account: Option<XAccount>, data: Page): Option<XAccount> {
    match AdoptProfile(account, data)
    case Ok(a) => a
    case Err(_) => account
  }

  /** The account is set only while it is unset: a known account is kept,
      an unset one is built from the page's profile, if any. */
  lemma AdoptOnce(account: Option<XAccount>, data: Page)
    ensures account.Some? ==> AdoptProfile(account, data) == Ok(account)
    ensures account.None? && data.profile.None? ==> AdoptProfile(account, data) == Ok(None)
    ensures account.None? && data.profile.Some? ==>
      AdoptProfile(account, data) == match MakeAccount(data.profile.value)
        case Err(e) => Err(e)
        case Ok(a) => Ok(Some(a))
  {
  }

  /** Once the assignment has run on a page, running it again on a page with
      the same profile changes nothing. */
  lemma AdoptSettled(account: Option<XAccount>, account': Option<XAccount>, data: Page, data': Page)
    requires AdoptProfile(account, data) == Ok(account')
    requires data'.profile == data.profile
    ensures AdoptProfile(account', data') == Ok(account')
  {
  }

  // ---------------------------------------------------------------------
  // One mirror: the pagination loop
  // ---------------------------------------------------------------------

  /** The pages one mirror delivers: its answer for a cursor. */
  type Loader = Option<string> -> Result<Page>

  function LoaderOf(env: Env, host: string): Loader {
    (cursor: Option<string>) => FetchFromInstance(env, host, ApiPath, cursor)
  }

  /** What one mirror gave: the tweets kept or the error thrown, the account
      as it stands afterwards, the URLs requested (before the proxy), the
      pages of tweets processed and the `min_position` each of them came
      with. */
  datatype InstanceRun = InstanceRun(result: Result<seq<Tweet>>, account: Option<XAccount>,
                                     requests: seq<string>, pages: seq<seq<Tweet>>,
                                     cursors: seq<Option<string>>)

  predicate HasTimeline(raw: Page) {
    raw.timeline.Some? && raw.timeline.value != []
  }

  /** `Object.assign(rawData, { timeline, min_position })`: the next page
      replaces the timeline and the cursor and keeps everything else. */
  function Follow(raw: Page, next: Page): (r: Page)
    ensures r.profile == raw.profile && r.timeline == next.timeline && r.minPosition == next.minPosition
  {
    raw.(timeline := next.timeline, minPosition := next.minPosition)
  }

  /** The pagination loop from the top of an iteration: `raw` is `rawData`,
      `fetched` is `pagesFetched`, `local` the tweets kept so far. */
  function PaginateFrom(env: Env, load: Loader, host: string, w: Window, raw: Page, account: Option<XAccount>,
                        local: seq<Tweet>, fetched: nat, requests: seq<string>, pages: seq<seq<Tweet>>,
                        cursors: seq<Option<string>>): InstanceRun
    decreases MaxPagesToFetch - fetched
  {
    if fetched >= MaxPagesToFetch then InstanceRun(Ok(local), account, requests, pages, cursors)
    else
      match AdoptProfile(account, raw)
      case Err(e) => InstanceRun(Err(e), account, requests, pages, cursors)
      case Ok(account') =>
        if !HasTimeline(raw) then InstanceRun(Ok(local), account', requests, pages, cursors)
        else
          var page := TweetsOf(raw.timeline.value);
          var scan := Scan(page, TweetTime, w);
          if scan.1 || !NonEmpty(raw.minPosition) then
            InstanceRun(Ok(local + scan.0), account', requests, pages + [page], cursors + [raw.minPosition])
          else
            var url := InstanceUrl(env, host, ApiPath, raw.minPosition);
            match load(raw.minPosition)
            case Err(e) => InstanceRun(Err(e), account', requests + [url], pages + [page], cursors + [raw.minPosition])
            case Ok(next) =>
              PaginateFrom(env, load, host, w, Follow(raw, next), account', local + scan.0, fetched + 1,
                           requests + [url], pages + [page], cursors + [raw.minPosition])
  }

  /** The loop asks for another page: the timeline was not empty, held no
      tweet older than the start, and came with a cursor. */
  predicate Continues(raw: Page, w: Window) {
    HasTimeline(raw) && !Scan(TweetsOf(raw.timeline.value), TweetTime, w).1 && NonEmpty(raw.minPosition)
  }

  // One step of the loop, in each of its outcomes.

  lemma PaginateDone(env: Env, load: Loader, host: string, w: Window, raw: Page, account: Option<XAccount>,
                     local: seq<Tweet>, fetched: nat, requests: seq<string>, pages: seq<seq<Tweet>>,
                     cursors: seq<Option<string>>)
    requires fetched >= MaxPagesToFetch
    ensures PaginateFrom(env, load, host, w, raw, account, local, fetched, requests, pages, cursors)
         == InstanceRun(Ok(local), account, requests, pages, cursors)
  {
  }

  lemma PaginateAdoptFailed(env: Env, load: Loader, host: string, w: Window, raw: Page, account: Option<XAccount>,
                            local: seq<Tweet>, fetched: nat, requests: seq<string>, pages: seq<seq<Tweet>>,
                            cursors: seq<Option<string>>)
    requires fetched < MaxPagesToFetch
    requires AdoptProfile(account, raw).Err?
    ensures PaginateFrom(env, load, host, w, raw, account, local, fetched, requests, pages, cursors)
         == InstanceRun(Err(AdoptProfile(account, raw).error), account, requests, pages, cursors)
  {
  }

  lemma PaginateEmpty(env: Env, load: Loader, host: string, w: Window, raw: Page, account: Option<XAccount>,
                      local: seq<Tweet>, fetched: nat, requests: seq<string>, pages: seq<seq<Tweet>>,
                      cursors: seq<Option<string>>)
    requires fetched < MaxPagesToFetch
    requires AdoptProfile(account, raw).Ok? && !HasTimeline(raw)
    ensures PaginateFrom(env, load, host, w, raw, account, local, fetched, requests, pages, cursors)
         == InstanceRun(Ok(local), AdoptProfile(account, raw).value, requests, pages, cursors)
  {
  }

  lemma PaginateLast(env: Env, load: Loader, host: string, w: Window, raw: Page, account: Option<XAccount>,
                     local: seq<Tweet>, fetched: nat, requests: seq<string>, pages: seq<seq<Tweet>>,
                     cursors: seq<Option<string>>)
    requires fetched < MaxPagesToFetch
    requires AdoptProfile(account, raw).Ok? && HasTimeline(raw) && !Continues(raw, w)
    ensures var page := TweetsOf(raw.timeline.value);
      PaginateFrom(env, load, host, w, raw, account, local, fetched, requests, pages, cursors)
      == InstanceRun(Ok(local + Scan(page, TweetTime, w).0), AdoptProfile(account, raw).value, requests, pages + [page], cursors + [raw.minPosition])
  {
  }

  lemma PaginateFailed(env: Env, load: Loader, host: string, w: Window, raw: Page, account: Option<XAccount>,
                       local: seq<Tweet>, fetched: nat, requests: seq<string>, pages: seq<seq<Tweet>>,
                       cursors: seq<Option<string>>)
    requires fetched < MaxPagesToFetch
    requires AdoptProfile(account, raw).Ok? && Continues(raw, w) && load(raw.minPosition).Err?
    ensures PaginateFrom(env, load, host, w, raw, account, local, fetched, requests, pages, cursors)
         == InstanceRun(Err(load(raw.minPosition).error), AdoptProfile(account, raw).value,
                        requests + [InstanceUrl(env, host, ApiPath, raw.minPosition)],
                        pages + [TweetsOf(raw.timeline.value)], cursors + [raw.minPosition])
  {
  }

  lemma PaginateNext(env: Env, load: Loader, host: string, w: Window, raw: Page, account: Option<XAccount>,
                     local: seq<Tweet>, fetched: nat, requests: seq<string>, pages: seq<seq<Tweet>>,
                     cursors: seq<Option<string>>)
    requires fetched < MaxPagesToFetch
    requires AdoptProfile(account, raw).Ok? && Continues(raw, w) && load(raw.minPosition).Ok?
    ensures var page := TweetsOf(raw.timeline.value);
      PaginateFrom(env, load, host, w, raw, account, local, fetched, requests, pages, cursors)
      == PaginateFrom(env, load, host, w, Follow(raw, load(raw.minPosition).value), AdoptProfile(account, raw).value,
                      local + Scan(page, TweetTime, w).0, fetched + 1,
                      requests + [InstanceUrl(env, host, ApiPath, raw.minPosition)], pages + [page],
                      cursors + [raw.minPosition])
  {
  }

  /** The counts of one mirror's loop: at most 50 pages processed and at
      most one request more than pages; a page holding a tweet older than the
      start is the last one processed, and no request follows it. */
  ghost predicate RunCounts(w: Window, requests: seq<string>, pages: seq<seq<Tweet>>) {
    && |pages| <= MaxPagesToFetch
    && |pages| <= |requests| <= |pages| + 1
    && (forall j :: 0 <= j < |pages| && Scan(pages[j], TweetTime, w).1 ==>
          j == |pages| - 1 && |requests| == |pages|)
  }

  /** The cursor page `j` of a mirror was asked for: none for the first
      page, and for every later one the cursor the page before it carried. */
  function Asked(cursors: seq<Option<string>>, j: nat): Option<string>
    requires j <= |cursors|
  {
    if j == 0 then None else cursors[j - 1]
  }

  /** The requests of one mirror follow the cursors of its pages: request
      `j` is the base URL with the cursor of page `j - 1` (the first with
      none), every request after the first has a non-empty cursor, and a page
      that came without a cursor is the last one, with no request after it. */
  ghost predicate CursorChain(env: Env, host: string, requests: seq<string>, cursors: seq<Option<string>>) {
    && |requests| <= |cursors| + 1
    && (forall j :: 0 <= j < |requests| ==> requests[j] == InstanceUrl(env, host, ApiPath, Asked(cursors, j)))
    && (forall j :: 0 < j < |requests| ==> NonEmpty(Asked(cursors, j)))
    && (forall j :: 0 <= j < |cursors| && !NonEmpty(cursors[j]) ==> j == |cursors| - 1 && |requests| == |cursors|)
  }

  /** Page `j` is the timeline the mirror answered for the cursor it was
      asked with, and its cursor is the `min_position` of that answer. */
  ghost predicate Answered(load: Loader, asked: Option<string>, page: seq<Tweet>, cursor: Option<string>) {
    && load(asked).Ok? && HasTimeline(load(asked).value)
    && page == TweetsOf(load(asked).value.timeline.value)
    && cursor == load(asked).value.minPosition
  }

  ghost predicate LoadedChain(load: Loader, pages: seq<seq<Tweet>>, cursors: seq<Option<string>>) {
    && |pages| == |cursors|
    && forall j {:trigger pages[j]} :: 0 <= j < |pages| ==> Answered(load, Asked(cursors, j), pages[j], cursors[j])
  }

  /** The page the loop is about to process carries the timeline and the
      cursor of the answer for `asked` (the rest is the first page's). */
  ghost predicate Pending(load: Loader, raw: Page, asked: Option<string>) {
    load(asked).Ok? && raw.timeline == load(asked).value.timeline && raw.minPosition == load(asked).value.minPosition
  }

  lemma AskedSnoc(cursors: seq<Option<string>>, c: Option<string>, j: nat)
    requires j <= |cursors|
    ensures Asked(cursors + [c], j) == Asked(cursors, j)
  {
  }

  /** Processing one more page: its cursor joins the log, and when it is
      non-empty the request of the next page joins the requests. */
  lemma ChainSnoc(env: Env, host: string, requests: seq<string>, cursors: seq<Option<string>>, c: Option<string>)
    requires CursorChain(env, host, requests, cursors) && |requests| == |cursors| + 1
    ensures CursorChain(env, host, requests, cursors + [c])
    ensures NonEmpty(c) ==> CursorChain(env, host, requests + [InstanceUrl(env, host, ApiPath, c)], cursors + [c])
  {
    var cursors' := cursors + [c];
    forall j | 0 <= j < |requests|
      ensures Asked(cursors', j) == Asked(cursors, j)
    {
      AskedSnoc(cursors, c, j);
    }
    forall j | 0 <= j < |cursors|
      ensures NonEmpty(cursors'[j])
    {
      assert Asked(cursors, j + 1) == cursors[j];
    }
    if NonEmpty(c) {
      var requests' := requests + [InstanceUrl(env, host, ApiPath, c)];
      forall j | 0 <= j < |requests'|
        ensures requests'[j] == InstanceUrl(env, host, ApiPath, Asked(cursors', j))
      {
        if j < |requests| {
          assert requests'[j] == requests[j];
        }
      }
    }
  }

  lemma LoadedSnoc(load: Loader, raw: Page, pages: seq<seq<Tweet>>, cursors: seq<Option<string>>)
    requires LoadedChain(load, pages, cursors) && Pending(load, raw, Asked(cursors, |cursors|)) && HasTimeline(raw)
    ensures LoadedChain(load, pages + [TweetsOf(raw.timeline.value)], cursors + [raw.minPosition])
  {
    var pages', cursors' := pages + [TweetsOf(raw.timeline.value)], cursors + [raw.minPosition];
    forall j | 0 <= j < |pages'|
      ensures Answered(load, Asked(cursors', j), pages'[j], cursors'[j])
    {
      AskedSnoc(cursors, raw.minPosition, j);
      if j < |pages| {
        assert pages'[j] == pages[j] && cursors'[j] == cursors[j];
      }
    }
  }

  lemma {:induction false} PaginateCounts(env: Env, load: Loader, host: string, w: Window, raw: Page, account: Option<XAccount>,
                                          local: seq<Tweet>, fetched: nat, requests: seq<string>, pages: seq<seq<Tweet>>,
                                          cursors: seq<Option<string>>)
    requires fetched == |pages| <= MaxPagesToFetch && |requests| == fetched + 1
    requires forall j :: 0 <= j < |pages| ==> !Scan(pages[j], TweetTime, w).1
    ensures var run := PaginateFrom(env, load, host, w, raw, account, local, fetched, requests, pages, cursors);
      RunCounts(w, run.requests, run.pages)
    decreases MaxPagesToFetch - fetched
  {
    if fetched < MaxPagesToFetch {
      var adopt := AdoptProfile(account, raw);
      if adopt.Err? {
        PaginateAdoptFailed(env, load, host, w, raw, account, local, fetched, requests, pages, cursors);
      } else if !HasTimeline(raw) {
        PaginateEmpty(env, load, host, w, raw, account, local, fetched, requests, pages, cursors);
      } else {
        var page := TweetsOf(raw.timeline.value);
        var pages' := pages + [page];
        if !Continues(raw, w) {
          PaginateLast(env, load, host, w, raw, account, local, fetched, requests, pages, cursors);
          assert pages'[|pages|] == page;
        } else {
          assert forall j :: 0 <= j < |pages'| ==> !Scan(pages'[j], TweetTime, w).1 by {
            forall j | 0 <= j < |pages'| ensures !Scan(pages'[j], TweetTime, w).1 {
              if j < |pages| { assert pages'[j] == pages[j]; }
            }
          }
          if load(raw.minPosition).Err? {
            PaginateFailed(env, load, host, w, raw, account, local, fetched, requests, pages, cursors);
          } else {
            PaginateNext(env, load, host, w, raw, account, local, fetched, requests, pages, cursors);
            PaginateCounts(env, load, host, w, Follow(raw, load(raw.minPosition).value), adopt.value,
                           local + Scan(page, TweetTime, w).0, fetched + 1,
                           requests + [InstanceUrl(env, host, ApiPath, raw.minPosition)], pages',
                           cursors + [raw.minPosition]);
          }
        }
      }
    }
  }

  /** The requests of a run follow the cursors of its pages (stated as
      `CursorChain` on the whole run), and the requests and cursors made
      before the current iteration are kept as they are. */
  lemma {:induction false} PaginateRequests(env: Env, load: Loader, host: string, w: Window, raw: Page, account: Option<XAccount>,
                                            local: seq<Tweet>, fetched: nat, requests: seq<string>, pages: seq<seq<Tweet>>,
                                            cursors: seq<Option<string>>)
    requires CursorChain(env, host, requests, cursors) && |requests| == |cursors| + 1
    ensures var run := PaginateFrom(env, load, host, w, raw, account, local, fetched, requests, pages, cursors);
      && CursorChain(env, host, run.requests, run.cursors)
      && |run.requests| >= |requests| && run.requests[..|requests|] == requests
      && |run.cursors| >= |cursors| && run.cursors[..|cursors|] == cursors
    decreases MaxPagesToFetch - fetched
  {
    if fetched < MaxPagesToFetch {
      var adopt := AdoptProfile(account, raw);
      if adopt.Err? {
        PaginateAdoptFailed(env, load, host, w, raw, account, local, fetched, requests, pages, cursors);
      } else if !HasTimeline(raw) {
        PaginateEmpty(env, load, host, w, raw, account, local, fetched, requests, pages, cursors);
      } else {
        var cursors' := cursors + [raw.minPosition];
        ChainSnoc(env, host, requests, cursors, raw.minPosition);
        assert cursors'[..|cursors|] == cursors;
        if !Continues(raw, w) {
          PaginateLast(env, load, host, w, raw, account, local, fetched, requests, pages, cursors);
        } else {
          var page := TweetsOf(raw.timeline.value);
          var requests' := requests + [InstanceUrl(env, host, ApiPath, raw.minPosition)];
          assert requests'[..|requests|] == requests;
          if load(raw.minPosition).Err? {
            PaginateFailed(env, load, host, w, raw, account, local, fetched, requests, pages, cursors);
          } else {
            PaginateNext(env, load, host, w, raw, account, local, fetched, requests, pages, cursors);
            PaginateRequests(env, load, host, w, Follow(raw, load(raw.minPosition).value), adopt.value,
                             local + Scan(page, TweetTime, w).0, fetched + 1, requests', pages + [page], cursors');
            var run := PaginateFrom(env, load, host, w, Follow(raw, load(raw.minPosition).value), adopt.value,
                                    local + Scan(page, TweetTime, w).0, fetched + 1, requests', pages + [page], cursors');
            assert run.requests[..|requests|] == run.requests[..|requests'|][..|requests|];
            assert run.cursors[..|cursors|] == run.cursors[..|cursors'|][..|cursors|];
          }
        }
      }
    }
  }

  /** Every page a run processed is the timeline the mirror answered for the
      cursor it was asked with, and its logged cursor is that answer's
      `min_position`: the loop carries `min_position` from one page to the
      request of the next. */
  lemma {:induction false} PaginatePages(env: Env, load: Loader, host: string, w: Window, raw: Page, account: Option<XAccount>,
                                         local: seq<Tweet>, fetched: nat, requests: seq<string>, pages: seq<seq<Tweet>>,
                                         cursors: seq<Option<string>>)
    requires LoadedChain(load, pages, cursors) && Pending(load, raw, Asked(cursors, |cursors|))
    ensures var run := PaginateFrom(env, load, host, w, raw, account, local, fetched, requests, pages, cursors);
      LoadedChain(load, run.pages, run.cursors)
    decreases MaxPagesToFetch - fetched
  {
    if fetched < MaxPagesToFetch {
      var adopt := AdoptProfile(account, raw);
      if adopt.Err? {
        PaginateAdoptFailed(env, load, host, w, raw, account, local, fetched, requests, pages, cursors);
      } else if !HasTimeline(raw) {
        PaginateEmpty(env, load, host, w, raw, account, local, fetched, requests, pages, cursors);
      } else {
        LoadedSnoc(load, raw, pages, cursors);
        if !Continues(raw, w) {
          PaginateLast(env, load, host, w, raw, account, local, fetched, requests, pages, cursors);
        } else if load(raw.minPosition).Err? {
          PaginateFailed(env, load, host, w, raw, account, local, fetched, requests, pages, cursors);
        } else {
          var page := TweetsOf(raw.timeline.value);
          var cursors' := cursors + [raw.minPosition];
          assert Asked(cursors', |cursors'|) == raw.minPosition;
          PaginateNext(env, load, host, w, raw, account, local, fetched, requests, pages, cursors);
          PaginatePages(env, load, host, w, Follow(raw, load(raw.minPosition).value), adopt.value,
                        local + Scan(page, TweetTime, w).0, fetched + 1,
                        requests + [InstanceUrl(env, host, ApiPath, raw.minPosition)], pages + [page], cursors');
        }
      }
    }
  }

  /** The tweets of a successful run are those kept from its pages, page by
      page. */
  lemma {:induction false} PaginateResult(env: Env, load: Loader, host: string, w: Window, raw: Page, account: Option<XAccount>,
                                          local: seq<Tweet>, fetched: nat, requests: seq<string>, pages: seq<seq<Tweet>>,
                                          cursors: seq<Option<string>>)
    requires local == KeptAll(pages, TweetTime, w)
    ensures var run := PaginateFrom(env, load, host, w, raw, account, local, fetched, requests, pages, cursors);
      run.result.Ok? ==> run.result.value == KeptAll(run.pages, TweetTime, w)
    decreases MaxPagesToFetch - fetched
  {
    if fetched < MaxPagesToFetch {
      var adopt := AdoptProfile(account, raw);
      if adopt.Err? {
        PaginateAdoptFailed(env, load, host, w, raw, account, local, fetched, requests, pages, cursors);
      } else if !HasTimeline(raw) {
        PaginateEmpty(env, load, host, w, raw, account, local, fetched, requests, pages, cursors);
      } else {
        var page := TweetsOf(raw.timeline.value);
        KeptAllSnoc(pages, page, TweetTime, w);
        if !Continues(raw, w) {
          PaginateLast(env, load, host, w, raw, account, local, fetched, requests, pages, cursors);
        } else if load(raw.minPosition).Err? {
          PaginateFailed(env, load, host, w, raw, account, local, fetched, requests, pages, cursors);
        } else {
          PaginateNext(env, load, host, w, raw, account, local, fetched, requests, pages, cursors);
          PaginateResult(env, load, host, w, Follow(raw, load(raw.minPosition).value), adopt.value,
                         local + Scan(page, TweetTime, w).0, fetched + 1,
                         requests + [InstanceUrl(env, host, ApiPath, raw.minPosition)], pages + [page],
                         cursors + [raw.minPosition]);
        }
      }
    }
  }

  /** The account after the loop is the one the first iteration left: every
      later page carries the first page's profile, so the assignment never
      changes it again. */
  lemma {:induction false} PaginateKeepsAccount(env: Env, load: Loader, host: string, w: Window, raw: Page, account: Option<XAccount>,
                                                local: seq<Tweet>, fetched: nat, requests: seq<string>, pages: seq<seq<Tweet>>,
                                                cursors: seq<Option<string>>)
    requires fetched < MaxPagesToFetch
    ensures PaginateFrom(env, load, host, w, raw, account, local, fetched, requests, pages, cursors).account == AdoptedAccount(account, raw)
    decreases MaxPagesToFetch - fetched
  {
    var adopt := AdoptProfile(account, raw);
    if adopt.Err? {
      PaginateAdoptFailed(env, load, host, w, raw, account, local, fetched, requests, pages, cursors);
    } else if !HasTimeline(raw) {
      PaginateEmpty(env, load, host, w, raw, account, local, fetched, requests, pages, cursors);
    } else if !Continues(raw, w) {
      PaginateLast(env, load, host, w, raw, account, local, fetched, requests, pages, cursors);
    } else if load(raw.minPosition).Err? {
      PaginateFailed(env, load, host, w, raw, account, local, fetched, requests, pages, cursors);
    } else {
      var page := TweetsOf(raw.timeline.value);
      var raw' := Follow(raw, load(raw.minPosition).value);
      PaginateNext(env, load, host, w, raw, account, local, fetched, requests, pages, cursors);
      AdoptSettled(account, adopt.value, raw, raw');
      if fetched + 1 < MaxPagesToFetch {
        PaginateKeepsAccount(env, load, host, w, raw', adopt.value, local + Scan(page, TweetTime, w).0, fetched + 1,
                             requests + [InstanceUrl(env, host, ApiPath, raw.minPosition)], pages + [page],
                             cursors + [raw.minPosition]);
      }
    }
  }

  /** One mirror (the body of the `try`): the first request, then the
      pagination loop. */
  function RunInstance(env: Env, load: Loader, host: string, w: Window, account: Option<XAccount>): InstanceRun {
    var url := InstanceUrl(env, host, ApiPath, None);
    match load(None)
    case Err(e) => InstanceRun(Err(e), account, [url], [], [])
    case Ok(raw) => PaginateFrom(env, load, host, w, raw, account, [], 0, [url], [], [])
  }

  /** What one mirror's run looks like: the first request is for the base
      URL without a cursor; every later request carries the non-empty
      `min_position` of the page before it; each page processed is the
      timeline the mirror answered for its request; and the loop stops at the
      page without a cursor, at the page holding a tweet older than the
      start, or after 50 pages. */
  lemma RunInstanceTrace(env: Env, load: Loader, host: string, w: Window, account: Option<XAccount>)
    ensures var run := RunInstance(env, load, host, w, account);
      && |run.requests| > 0 && run.requests[0] == InstanceUrl(env, host, ApiPath, None)
      && CursorChain(env, host, run.requests, run.cursors)
      && LoadedChain(load, run.pages, run.cursors)
      && RunCounts(w, run.requests, run.pages)
  {
    var url := InstanceUrl(env, host, ApiPath, None);
    assert Asked([], 0) == None;
    if load(None).Ok? {
      PaginateCounts(env, load, host, w, load(None).value, account, [], 0, [url], [], []);
      PaginateRequests(env, load, host, w, load(None).value, account, [], 0, [url], [], []);
      PaginatePages(env, load, host, w, load(None).value, account, [], 0, [url], [], []);
      var run := PaginateFrom(env, load, host, w, load(None).value, account, [], 0, [url], [], []);
      assert run.requests[0] == run.requests[..1][0];
    }
  }

  lemma RunInstanceTweets(env: Env, load: Loader, host: string, w: Window, account: Option<XAccount>)
    ensures var run := RunInstance(env, load, host, w, account);
      run.result.Ok? ==>
        && run.result.value == KeptAll(run.pages, TweetTime, w)
        && (forall t :: t in run.result.value ==> InWindow(w, t.createdAt))
        && IsSubsequence(run.result.value, Flatten(run.pages))
  {
    var run := RunInstance(env, load, host, w, account);
    if load(None).Ok? {
      PaginateResult(env, load, host, w, load(None).value, account,
                     [], 0, [InstanceUrl(env, host, ApiPath, None)], [], []);
    }
    KeptAllInWindow(run.pages, TweetTime, w);
  }

  /** The account after one mirror: the one before, set from the first page's
      profile if it was unset; a known account stays as it is. */
  lemma RunInstanceAccount(env: Env, load: Loader, host: string, w: Window, account: Option<XAccount>)
    ensures var first := load(None);
      RunInstance(env, load, host, w, account).account == if first.Ok? then AdoptedAccount(account, first.value) else account
    ensures account.Some? ==> RunInstance(env, load, host, w, account).account == account
  {
    var first := load(None);
    if first.Ok? {
      PaginateKeepsAccount(env, load, host, w, first.value, account, [], 0,
                           [InstanceUrl(env, host, ApiPath, None)], [], []);
    }
  }

  // ---------------------------------------------------------------------
  // All mirrors: the instance loop
  // ---------------------------------------------------------------------

  datatype FetchResult = FetchResult(account: XAccount, tweets: seq<Tweet>)

  /** The outcome of `fetchXAccountAndTweets`, with the `errors` array and
      the run of every mirror tried, in order. */
  datatype XSearch = XSearch(result: Result<FetchResult>, errors: seq<string>, runs: seq<InstanceRun>)

  /** A run that makes the search return: it ended without error, with an
      account known. */
  predicate Finished(run: InstanceRun) {
    run.result.Ok? && run.account.Some?
  }

  /** The run of a mirror, as a function of its host and of the account
      known when it starts. */
  type Runner = (string, Option<XAccount>) -> InstanceRun

  function RunnerOf(env: Env, w: Window): Runner {
    (host: string, account: Option<XAccount>) => RunInstance(env, LoaderOf(env, host), host, w, account)
  }

  /** A runner never replaces a known account. */
  ghost predicate KeepsAccounts(runner: Runner) {
    forall host, a :: runner(host, Some(a)).account == Some(a)
  }

  lemma RunnerKeepsAccounts(env: Env, w: Window)
    ensures KeepsAccounts(RunnerOf(env, w))
  {
    forall host, a ensures RunnerOf(env, w)(host, Some(a)).account == Some(a) {
      RunInstanceAccount(env, LoaderOf(env, host), host, w, Some(a));
    }
  }

  /** The instance loop from its `k`-th mirror on. */
  function TryInstances(runner: Runner, order: seq<string>, k: nat, account: Option<XAccount>,
                        errors: seq<string>, runs: seq<InstanceRun>): XSearch
    requires k <= |order|
    decreases |order| - k
  {
    if k == |order| then XSearch(Err(FailureMessage), errors, runs)
    else
      var run := runner(order[k], account);
      match run.result
      case Err(e) => TryInstances(runner, order, k + 1, run.account, errors + [e], runs + [run])
      case Ok(tweets) =>
        if run.account.Some? then XSearch(Ok(FetchResult(run.account.value, tweets)), errors, runs + [run])
        else TryInstances(runner, order, k + 1, run.account, errors, runs + [run])
  }

  /** `fetchXAccountAndTweets(startDate, endDate)`, the window standing for
      the two dates and `picks` for the draws of the shuffle. */
  function SearchXOf(env: Env, w: Window, picks: seq<nat>): XSearch
    requires |picks| == |AllInstances| && ValidPicks(picks)
  {
    TryInstances(RunnerOf(env, w), Shuffled(AllInstances, picks), 0, None, [], [])
  }

  /** The account a run starts from: unset for the first mirror, the one the
      run before left otherwise. */
  function AccountBefore(runs: seq<InstanceRun>, j: nat): Option<XAccount>
    requires j <= |runs|
  {
    if j == 0 then None else runs[j - 1].account
  }

  /** The messages of the failed runs, in order. */
  function ErrorsOf(runs: seq<InstanceRun>): seq<string> {
    if runs == [] then []
    else
      var last := runs[|runs| - 1];
      ErrorsOf(runs[..|runs| - 1]) + (if last.result.Err? then [last.result.error] else [])
  }

  /** One iteration of the instance loop: a finished run returns, any other
      goes on to the next mirror, its error recorded if it failed. */
  lemma TryInstancesStep(runner: Runner, order: seq<string>, k: nat, account: Option<XAccount>,
                         errors: seq<string>, runs: seq<InstanceRun>)
    requires k < |order|
    ensures var run := runner(order[k], account);
      Finished(run) ==>
        TryInstances(runner, order, k, account, errors, runs)
        == XSearch(Ok(FetchResult(run.account.value, run.result.value)), errors, runs + [run])
    ensures var run := runner(order[k], account);
      !Finished(run) ==>
        TryInstances(runner, order, k, account, errors, runs)
        == TryInstances(runner, order, k + 1, run.account,
                        if run.result.Err? then errors + [run.result.error] else errors, runs + [run])
  {
  }

  /** The `j`-th run is the `j`-th mirror of the order, started from the
      account its predecessor left. */
  ghost predicate Chained(runner: Runner, order: seq<string>, runs: seq<InstanceRun>) {
    && |runs| <= |order|
    && forall j :: 0 <= j < |runs| ==> runs[j] == runner(order[j], AccountBefore(runs, j))
  }

  lemma ChainedSnoc(runner: Runner, order: seq<string>, runs: seq<InstanceRun>)
    requires Chained(runner, order, runs) && |runs| < |order|
    ensures Chained(runner, order, runs + [runner(order[|runs|], AccountBefore(runs, |runs|))])
  {
    var runs' := runs + [runner(order[|runs|], AccountBefore(runs, |runs|))];
    forall j | 0 <= j < |runs'| ensures runs'[j] == runner(order[j], AccountBefore(runs', j)) {
      if j < |runs| {
        assert runs'[j] == runs[j];
        if j > 0 { assert runs'[j - 1] == runs[j - 1]; }
      }
    }
  }

  lemma ErrorsSnoc(runs: seq<InstanceRun>, run: InstanceRun)
    ensures ErrorsOf(runs + [run]) == ErrorsOf(runs) + (if run.result.Err? then [run.result.error] else [])
  {
    assert (runs + [run])[..|runs|] == runs;
  }

  /** The runs of the search: one per mirror tried, in the shuffled order,
      each started from the account the one before left. */
  lemma {:induction false} TryInstancesChained(runner: Runner, order: seq<string>, k: nat, account: Option<XAccount>,
                                               errors: seq<string>, runs: seq<InstanceRun>)
    requires k == |runs| <= |order|
    requires Chained(runner, order, runs) && account == AccountBefore(runs, k)
    ensures var s := TryInstances(runner, order, k, account, errors, runs);
      && Chained(runner, order, s.runs)
      && |s.runs| >= k && s.runs[..k] == runs
    decreases |order| - k
  {
    if k < |order| {
      var run := runner(order[k], account);
      var runs' := runs + [run];
      TryInstancesStep(runner, order, k, account, errors, runs);
      ChainedSnoc(runner, order, runs);
      assert runs'[..k] == runs;
      if !Finished(run) {
        var errors' := if run.result.Err? then errors + [run.result.error] else errors;
        TryInstancesChained(runner, order, k + 1, run.account, errors', runs');
        var s := TryInstances(runner, order, k + 1, run.account, errors', runs');
        assert s.runs[..k] == s.runs[..k + 1][..k];
      }
    }
  }

  /** Every message recorded is that of a failed run, in order. */
  lemma {:induction false} TryInstancesErrors(runner: Runner, order: seq<string>, k: nat, account: Option<XAccount>,
                                              errors: seq<string>, runs: seq<InstanceRun>)
    requires k <= |order| && errors == ErrorsOf(runs)
    ensures var s := TryInstances(runner, order, k, account, errors, runs);
      s.errors == ErrorsOf(s.runs)
    decreases |order| - k
  {
    if k < |order| {
      var run := runner(order[k], account);
      TryInstancesStep(runner, order, k, account, errors, runs);
      ErrorsSnoc(runs, run);
      if !Finished(run) {
        var errors' := if run.result.Err? then errors + [run.result.error] else errors;
        TryInstancesErrors(runner, order, k + 1, run.account, errors', runs + [run]);
      }
    }
  }

  /** How the search ends: it returns exactly when a mirror finished with an
      account known, at once, with that account and that mirror's tweets,
      no earlier mirror having finished so; otherwise every mirror was tried
      and the fixed message is thrown. */
  lemma {:induction false} TryInstancesOutcome(runner: Runner, order: seq<string>, k: nat, account: Option<XAccount>,
                                               errors: seq<string>, runs: seq<InstanceRun>)
    requires k == |runs| <= |order|
    requires forall j :: 0 <= j < k ==> !Finished(runs[j])
    ensures var s := TryInstances(runner, order, k, account, errors, runs);
      && (forall j :: 0 <= j < |s.runs| - 1 ==> !Finished(s.runs[j]))
      && (s.result.Ok? ==>
            && |s.runs| > 0 && Finished(s.runs[|s.runs| - 1])
            && s.result.value == FetchResult(s.runs[|s.runs| - 1].account.value, s.runs[|s.runs| - 1].result.value))
      && (s.result.Err? ==>
            && s.result.error == FailureMessage && |s.runs| == |order|
            && forall j :: 0 <= j < |s.runs| ==> !Finished(s.runs[j]))
    decreases |order| - k
  {
    if k < |order| {
      var run := runner(order[k], account);
      var runs' := runs + [run];
      TryInstancesStep(runner, order, k, account, errors, runs);
      assert forall j :: 0 <= j < k ==> runs'[j] == runs[j];
      if !Finished(run) {
        var errors' := if run.result.Err? then errors + [run.result.error] else errors;
        TryInstancesOutcome(runner, order, k + 1, run.account, errors', runs');
      }
    }
  }

  /** A known account is never replaced: every run after one that left an
      account keeps it, so the account returned is the first one set. */
  lemma ChainedKeepsAccount(runner: Runner, order: seq<string>, runs: seq<InstanceRun>, i: nat, j: nat)
    requires KeepsAccounts(runner) && Chained(runner, order, runs)
    requires i <= j < |runs| && runs[i].account.Some?
    ensures runs[j].account == runs[i].account
    decreases j - i
  {
    if i < j {
      ChainedKeepsAccount(runner, order, runs, i, j - 1);
    }
  }

  /** The whole instance loop, for any behaviour of the mirrors: the runs
      are those of the first mirrors of the order, each started from the
      account the one before left, every error recorded in order; the loop
      returns at the first mirror that finished with an account known, with
      that account and that mirror's tweets; when no mirror did, all were
      tried and the fixed message is thrown. */
  lemma InstanceLoopOutcome(runner: Runner, order: seq<string>)
    ensures var s := TryInstances(runner, order, 0, None, [], []);
      && Chained(runner, order, s.runs)
      && s.errors == ErrorsOf(s.runs)
      && (forall j :: 0 <= j < |s.runs| - 1 ==> !Finished(s.runs[j]))
      && (s.result.Ok? ==>
            && |s.runs| > 0 && Finished(s.runs[|s.runs| - 1])
            && s.result.value == FetchResult(s.runs[|s.runs| - 1].account.value, s.runs[|s.runs| - 1].result.value))
      && (s.result.Err? ==>
            && s.result.error == FailureMessage && |s.runs| == |order|
            && forall j :: 0 <= j < |s.runs| ==> !Finished(s.runs[j]))
  {
    TryInstancesChained(runner, order, 0, None, [], []);
    TryInstancesErrors(runner, order, 0, None, [], []);
    TryInstancesOutcome(runner, order, 0, None, [], []);
  }

  /** The search tries the mirrors in the shuffled order: what
      `InstanceLoopOutcome` states, for the runs of the actual mirrors; in
      particular a failed search tried all 42 of them. */
  lemma SearchXOutcome(env: Env, w: Window, picks: seq<nat>)
    requires |picks| == |AllInstances| && ValidPicks(picks)
    ensures var s := SearchXOf(env, w, picks);
      && Chained(RunnerOf(env, w), Shuffled(AllInstances, picks), s.runs)
      && s.errors == ErrorsOf(s.runs)
      && (forall j :: 0 <= j < |s.runs| - 1 ==> !Finished(s.runs[j]))
      && (s.result.Ok? ==>
            && |s.runs| > 0 && Finished(s.runs[|s.runs| - 1])
            && s.result.value == FetchResult(s.runs[|s.runs| - 1].account.value, s.runs[|s.runs| - 1].result.value))
      && (s.result.Err? ==>
            && s.result.error == FailureMessage && |s.runs| == |AllInstances|
            && forall j :: 0 <= j < |s.runs| ==> !Finished(s.runs[j]))
  {
    var order := Shuffled(AllInstances, picks);
    ShuffledLength(AllInstances, picks);
    assert SearchXOf(env, w, picks) == TryInstances(RunnerOf(env, w), order, 0, None, [], []);
    InstanceLoopOutcome(RunnerOf(env, w), order);
  }

  /** The tweets returned by a successful search lie in the window, in the
      order of its last mirror's pages, without duplication. */
  lemma SearchXTweetsInWindow(env: Env, w: Window, picks: seq<nat>)
    requires |picks| == |AllInstances| && ValidPicks(picks)
    ensures var s := SearchXOf(env, w, picks);
      s.result.Ok? ==>
        && |s.runs| > 0
        && s.result.value.tweets == KeptAll(s.runs[|s.runs| - 1].pages, TweetTime, w)
        && (forall t :: t in s.result.value.tweets ==> InWindow(w, t.createdAt))
        && IsSubsequence(s.result.value.tweets, Flatten(s.runs[|s.runs| - 1].pages))
  {
    var s := SearchXOf(env, w, picks);
    var order := Shuffled(AllInstances, picks);
    SearchXOutcome(env, w, picks);
    if s.result.Ok? {
      var j := |s.runs| - 1;
      RunInstanceTweets(env, LoaderOf(env, order[j]), order[j], w, AccountBefore(s.runs, j));
    }
  }

  /** The account returned is the one the first run that set it left, even
      when that run's mirror failed later on. */
  lemma SearchXAccountIsFirstSet(env: Env, w: Window, picks: seq<nat>, i: nat)
    requires |picks| == |AllInstances| && ValidPicks(picks)
    ensures var s := SearchXOf(env, w, picks);
      s.result.Ok? && i < |s.runs| && s.runs[i].account.Some? ==> s.result.value.account == s.runs[i].account.value
  {
    var s := SearchXOf(env, w, picks);
    SearchXOutcome(env, w, picks);
    if s.result.Ok? && i < |s.runs| && s.runs[i].account.Some? {
      RunnerKeepsAccounts(env, w);
      ChainedKeepsAccount(RunnerOf(env, w), Shuffled(AllInstances, picks), s.runs, i, |s.runs| - 1);
    }
  }

  // ---------------------------------------------------------------------
  // The imperative code
  // ---------------------------------------------------------------------

  /** One iteration of the pagination loop: the account assignment, the
      scan of the page, and the request of the next one; either the loop is
      `done` (with the outcome of the whole run) or the next iteration starts
      from the new state. */
  method NextInstancePage(env: Env, load: Loader, host: string, w: Window, raw: Page, account: Option<XAccount>,
                          local: seq<Tweet>, fetched: nat, requests: seq<string>, pages: seq<seq<Tweet>>,
                          cursors: seq<Option<string>>)
    returns (done: bool, r: Result<seq<Tweet>>, raw': Page, account': Option<XAccount>, local': seq<Tweet>,
             requests': seq<string>, pages': seq<seq<Tweet>>, cursors': seq<Option<string>>)
    requires fetched < MaxPagesToFetch
    ensures done ==> InstanceRun(r, account', requests', pages', cursors')
                     == PaginateFrom(env, load, host, w, raw, account, local, fetched, requests, pages, cursors)
    ensures !done ==>
      PaginateFrom(env, load, host, w, raw', account', local', fetched + 1, requests', pages', cursors')
      == PaginateFrom(env, load, host, w, raw, account, local, fetched, requests, pages, cursors)
  {
    done, r, raw', account', local', requests', pages', cursors' :=
      true, Ok(local), raw, account, local, requests, pages, cursors;
    var adopt := AdoptProfile(account, raw);
    if adopt.Err? {
      PaginateAdoptFailed(env, load, host, w, raw, account, local, fetched, requests, pages, cursors);
      r := Err(adopt.error);
      return;
    }
    account' := adopt.value;
    if !HasTimeline(raw) {
      PaginateEmpty(env, load, host, w, raw, account, local, fetched, requests, pages, cursors);
      return;
    }
    var page := TweetsOf(raw.timeline.value);
    var kept, stop := ScanPage(page, TweetTime, w);
    local' := local + kept;
    pages', cursors' := pages + [page], cursors + [raw.minPosition];
    if stop || !NonEmpty(raw.minPosition) {
      PaginateLast(env, load, host, w, raw, account, local, fetched, requests, pages, cursors);
      r := Ok(local');
      return;
    }
    var url := InstanceUrl(env, host, ApiPath, raw.minPosition);
    requests' := requests + [url];
    var next := load(raw.minPosition);
    if next.Err? {
      PaginateFailed(env, load, host, w, raw, account, local, fetched, requests, pages, cursors);
      r := Err(next.error);
      return;
    }
    PaginateNext(env, load, host, w, raw, account, local, fetched, requests, pages, cursors);
    raw' := Follow(raw, next.value);
    done := false;
  }

  /** The pagination loop of one mirror, from any iteration on (the body of
      the `try` starts it at the first page); `load` is `fetchFromInstance`
      on that mirror, for a cursor. */
  method PaginateInstance(env: Env, load: Loader, host: string, w: Window, first: Page, account: Option<XAccount>,
                          local: seq<Tweet>, fetched: nat, requests0: seq<string>, pages0: seq<seq<Tweet>>,
                          cursors0: seq<Option<string>>)
    returns (r: Result<seq<Tweet>>, account': Option<XAccount>, requests: seq<string>, pages: seq<seq<Tweet>>,
             cursors: seq<Option<string>>)
    requires fetched <= MaxPagesToFetch
    ensures InstanceRun(r, account', requests, pages, cursors)
            == PaginateFrom(env, load, host, w, first, account, local, fetched, requests0, pages0, cursors0)
  {
    ghost var goal := PaginateFrom(env, load, host, w, first, account, local, fetched, requests0, pages0, cursors0);
    var rawData, localTweets, pagesFetched := first, local, fetched;
    account', requests, pages, cursors := account, requests0, pages0, cursors0;
    while pagesFetched < MaxPagesToFetch
      invariant pagesFetched <= MaxPagesToFetch
      invariant PaginateFrom(env, load, host, w, rawData, account', localTweets, pagesFetched, requests, pages, cursors) == goal
      decreases MaxPagesToFetch - pagesFetched
    {
      var done;
      done, r, rawData, account', localTweets, requests, pages, cursors :=
        NextInstancePage(env, load, host, w, rawData, account', localTweets, pagesFetched, requests, pages, cursors);
      if done {
        return;
      }
      pagesFetched := pagesFetched + 1;
    }
    PaginateDone(env, load, host, w, rawData, account', localTweets, pagesFetched, requests, pages, cursors);
    r := Ok(localTweets);
  }

  /** The body of the `try` for one mirror. */
  method TryInstance(env: Env, host: string, w: Window, account: Option<XAccount>)
    returns (r: Result<seq<Tweet>>, account': Option<XAccount>, requests: seq<string>, pages: seq<seq<Tweet>>,
             cursors: seq<Option<string>>)
    ensures InstanceRun(r, account', requests, pages, cursors) == RunnerOf(env, w)(host, account)
  {
    var load := LoaderOf(env, host);
    var url := InstanceUrl(env, host, ApiPath, None);
    var rawData := load(None);
    if rawData.Err? {
      return Err(rawData.error), account, [url], [], [];
    }
    r, account', requests, pages, cursors := PaginateInstance(env, load, host, w, rawData.value, account, [], 0, [url], [], []);
  }

  /** The loop over the mirrors of `fetchXAccountAndTweets`, in the given
      order: try them in turn, recording each error, until one finishes with
      an account known. */
  method TryAllInstances(env: Env, w: Window, order: seq<string>)
    returns (r: Result<FetchResult>, errors: seq<string>, runs: seq<InstanceRun>)
    ensures XSearch(r, errors, runs) == TryInstances(RunnerOf(env, w), order, 0, None, [], [])
  {
    ghost var goal := TryInstances(RunnerOf(env, w), order, 0, None, [], []);
    var account: Option<XAccount> := None;
    errors, runs := [], [];
    var k := 0;
    while k < |order|
      invariant k <= |order|
      invariant TryInstances(RunnerOf(env, w), order, k, account, errors, runs) == goal
    {
      var result, account', requests, pages, cursors := TryInstance(env, order[k], w, account);
      var run := InstanceRun(result, account', requests, pages, cursors);
      TryInstancesStep(RunnerOf(env, w), order, k, account, errors, runs);
      account := account';
      runs := runs + [run];
      if result.Err? {
        errors := errors + [result.error];
      } else if account.Some? {
        return Ok(FetchResult(account.value, result.value)), errors, runs;
      }
      k := k + 1;
    }
    r := Err(FailureMessage);
  }

  /** `fetchXAccountAndTweets`: shuffle a copy of the mirrors, then try them
      in turn. */
  method FetchXAccountAndTweets(env: Env, w: Window, picks: seq<nat>)
    returns (r: Result<FetchResult>, errors: seq<string>, runs: seq<InstanceRun>)
    requires |picks| == |AllInstances| && ValidPicks(picks)
    ensures XSearch(r, errors, runs) == SearchXOf(env, w, picks)
  {
    var shuffledInstances := ShuffledCopy(AllInstances, picks);
    r, errors, runs := TryAllInstances(env, w, shuffledInstances);
  }
}
