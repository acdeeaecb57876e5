/** The arithmetic of the dashboard (`App.tsx`): the split of the configured
    Mastodon handle, the summary cards, the two disabled flags, and the rows
    and file name of the spreadsheet export. Rendering, React state and the
    spreadsheet library are not modelled; what the page needs from the
    browser (HTML stripping, link and hashtag counts, date formatting) is a
    parameter. */
module Dashboard {
  import opened Wrappers
  import opened Strings
  import opened Types
  import opened DateWindow

  // ---------------------------------------------------------------------
  // The configured handle
  // ---------------------------------------------------------------------

  predicate Letter(c: char) { 'a' <= c <= 'z' || 'A' <= c <= 'Z' }
  predicate Digit(c: char) { '0' <= c <= '9' }
  /** `[a-zA-Z0-9_.]`. */
  predicate UserChar(c: char) { Letter(c) || Digit(c) || c == '_' || c == '.' }
  /** `[a-zA-Z0-9.-]`. */
  predicate InstanceChar(c: char) { Letter(c) || Digit(c) || c == '.' || c == '-' }

  predicate AllChars(s: string, p: char -> bool) {
    forall j :: 0 <= j < |s| ==> p(s[j])
  }

  /** The first position of `c` in `s`, if any. */
  function FirstIndexOf(s: string, c: char): (r: Option<nat>)
    ensures r.Some? ==> r.value < |s| && s[r.value] == c && forall j :: 0 <= j < r.value ==> s[j] != c
    ensures r.None? ==> forall j :: 0 <= j < |s| ==> s[j] != c
  {
    if s == [] then None
    else if s[0] == c then Some(0)
    else match FirstIndexOf(s[1..], c)
      case None => None
      case Some(k) => Some(k + 1)
  }

  /** The last position of `c` in `s`, if any. */
  function LastIndexOf(s: string, c: char): (r: Option<nat>)
    ensures r.Some? ==> r.value < |s| && s[r.value] == c && forall j :: r.value < j < |s| ==> s[j] != c
    ensures r.None? ==> forall j :: 0 <= j < |s| ==> s[j] != c
  {
    if s == [] then None
    else if s[|s| - 1] == c then Some(|s| - 1)
    else LastIndexOf(s[..|s| - 1], c)
  }

  /** The instance part `[a-zA-Z0-9.-]+\.[a-zA-Z]{2,}`, split at the dot
      at position `k`. */
  predicate InstanceSplit(inst: string, k: nat) {
    && 0 < k < |inst| && inst[k] == '.'
    && AllChars(inst[..k], InstanceChar)
    && |inst| - k - 1 >= 2 && AllChars(inst[k + 1..], Letter)
  }

  /** What `/^([a-zA-Z0-9_.]+)@([a-zA-Z0-9.-]+\.[a-zA-Z]{2,})$/` accepts,
      with its two groups. */
  ghost predicate HandleShape(handle: string, user: string, inst: string) {
    && handle == user + "@" + inst
    && |user| > 0 && AllChars(user, UserChar)
    && exists k: nat :: InstanceSplit(inst, k)
  }

  /** `handle.match(handleRegex)`: the user is what stands before the `@`
      (no `@` fits either group, so there is one at most), and the instance
      must end with a dot and two or more letters. */
  function MatchHandle(handle: string): Option<(string, string)> {
    match FirstIndexOf(handle, '@')
    case None => None
    case Some(a) =>
      var user, inst := handle[..a], handle[a + 1..];
      match LastIndexOf(inst, '.')
      case None => None
      case Some(k) =>
        if |user| > 0 && AllChars(user, UserChar) && InstanceSplit(inst, k) then Some((user, inst)) else None
  }

  /** A split found is the regex's: the handle is the user, `@` and the
      instance, each group of the right characters. */
  lemma MatchHandleSound(handle: string)
    ensures MatchHandle(handle).Some? ==> HandleShape(handle, MatchHandle(handle).value.0, MatchHandle(handle).value.1)
  {
    var a := FirstIndexOf(handle, '@');
    if MatchHandle(handle).Some? {
      var user, inst := handle[..a.value], handle[a.value + 1..];
      assert handle == user + "@" + inst;
      assert InstanceSplit(inst, LastIndexOf(inst, '.').value);
    }
  }

  /** Every handle of the regex's shape is split into its two groups. */
  lemma MatchHandleComplete(handle: string, user: string, inst: string, k: nat)
    requires handle == user + "@" + inst && |user| > 0 && AllChars(user, UserChar) && InstanceSplit(inst, k)
    ensures MatchHandle(handle) == Some((user, inst))
  {
    assert handle[|user|] == '@';
    assert forall j :: 0 <= j < |user| ==> handle[j] == user[j] && UserChar(user[j]);
    assert FirstIndexOf(handle, '@') == Some(|user|);
    assert handle[..|user|] == user;
    assert handle[|user| + 1..] == inst;
    assert forall j :: k < j < |inst| ==> inst[j] == inst[k + 1..][j - k - 1] && Letter(inst[j]);
    assert LastIndexOf(inst, '.') == Some(k);
  }

  /** The match succeeds exactly on handles of the regex's shape, and then
      gives back their two groups. */
  lemma MatchHandleIff(handle: string, user: string, inst: string)
    ensures MatchHandle(handle) == Some((user, inst)) <==> HandleShape(handle, user, inst)
  {
    MatchHandleSound(handle);
    if HandleShape(handle, user, inst) {
      var k: nat :| InstanceSplit(inst, k);
      MatchHandleComplete(handle, user, inst, k);
    }
  }

  const ConfiguredUser: string := "pogscience.bsky.social"
  const ConfiguredInstance: string := "bsky.brid.gy"
  /** `mastodonHandle`, the one account the page looks up. */
  const ConfiguredHandle: string := ConfiguredUser + "@" + ConfiguredInstance

  const InvalidHandleMessage: string := "L'identifiant du compte Mastodon pré-configuré est invalide."

  /** The start of `handleSearch` on the Mastodon tab: the handle split into
      the user and the instance passed to the service. */
  function MastodonTarget(handle: string): Result<(string, string)> {
    match MatchHandle(handle)
    case None => Err(InvalidHandleMessage)
    case Some(groups) => Ok(groups)
  }

  /** The configured handle is valid: the search always goes on with the
      bridged Bluesky account on its bridge instance. */
  lemma ConfiguredHandleSplits()
    ensures MastodonTarget(ConfiguredHandle) == Ok((ConfiguredUser, ConfiguredInstance))
  {
    assert AllChars(ConfiguredUser, UserChar);
    assert InstanceSplit(ConfiguredInstance, 9);
    MatchHandleComplete(ConfiguredHandle, ConfiguredUser, ConfiguredInstance, 9);
  }

  // ---------------------------------------------------------------------
  // Sums and counts
  // ---------------------------------------------------------------------

  /** `xs.reduce((sum, x) => sum + f(x), acc)`, left to right. */
  function Reduce<T>(xs: seq<T>, f: T -> nat, acc: nat): nat
    decreases |xs|
  {
    if xs == [] then acc else Reduce(xs[1..], f, acc + f(xs[0]))
  }

  /** The sum of `f` over `xs`. */
  function SumOf<T>(xs: seq<T>, f: T -> nat): nat
    decreases |xs|
  {
    if xs == [] then 0 else f(xs[0]) + SumOf(xs[1..], f)
  }

  /** The fold from an accumulator is that accumulator plus the sum. */
  lemma {:induction false} ReduceIsSum<T>(xs: seq<T>, f: T -> nat, acc: nat)
    ensures Reduce(xs, f, acc) == acc + SumOf(xs, f)
    decreases |xs|
  {
    if xs != [] {
      ReduceIsSum(xs[1..], f, acc + f(xs[0]));
    }
  }

  /** `xs.filter(p)`. */
  function Filter<T>(xs: seq<T>, p: T -> bool): seq<T>
    decreases |xs|
  {
    if xs == [] then [] else (if p(xs[0]) then [xs[0]] else []) + Filter(xs[1..], p)
  }

  /** The filter keeps exactly the elements that pass the test, and never
      more of them than the list holds. */
  lemma {:induction false} FilterBounded<T>(xs: seq<T>, p: T -> bool)
    ensures |Filter(xs, p)| <= |xs|
    ensures forall x :: x in Filter(xs, p) <==> x in xs && p(x)
    decreases |xs|
  {
    if xs != [] {
      FilterBounded(xs[1..], p);
    }
  }

  // ---------------------------------------------------------------------
  // The summary cards
  // ---------------------------------------------------------------------

  datatype Tab = MastodonTab | XTab

  function StatusReplies(s: Status): nat { s.repliesCount }
  function StatusReblogs(s: Status): nat { s.reblogsCount }
  function StatusFavourites(s: Status): nat { s.favouritesCount }
  function TweetReplies(t: Tweet): nat { t.replyCount }
  function TweetRetweets(t: Tweet): nat { t.retweetCount }
  function TweetLikes(t: Tweet): nat { t.likeCount }

  /** `hasMedia`. */
  predicate HasMedia(s: Status) { |s.mediaAttachments| > 0 }

  datatype Summary =
    | MastodonSummary(totalPosts: nat, totalReplies: nat, totalReposts: nat, totalFavourites: nat,
                      postsWithMedia: nat, postsWithLinks: nat)
    | XSummary(totalPosts: nat, totalReplies: nat, totalRetweets: nat, totalLikes: nat)

  /** `summaryStats`; `countLinks` stands for the link count of a status's
      text. */
  function SummaryStats(tab: Tab, statuses: seq<Status>, tweets: seq<Tweet>, countLinks: string -> nat): Option<Summary> {
    match tab
    case MastodonTab =>
      if |statuses| == 0 then None
      else Some(MastodonSummary(
        |statuses|,
        Reduce(statuses, StatusReplies, 0),
        Reduce(statuses, StatusReblogs, 0),
        Reduce(statuses, StatusFavourites, 0),
        |Filter(statuses, HasMedia)|,
        |Filter(statuses, (s: Status) => countLinks(s.content) > 0)|))
    case XTab =>
      if |tweets| == 0 then None
      else Some(XSummary(
        |tweets|,
        Reduce(tweets, TweetReplies, 0),
        Reduce(tweets, TweetRetweets, 0),
        Reduce(tweets, TweetLikes, 0)))
  }

  /** The list the active tab shows. */
  function ActiveCount(tab: Tab, statuses: seq<Status>, tweets: seq<Tweet>): nat {
    if tab == MastodonTab then |statuses| else |tweets|
  }

  /** No summary is shown exactly when the active tab's list is empty, and a
      summary shown is of the active tab's kind. */
  lemma SummaryNullIffEmpty(tab: Tab, statuses: seq<Status>, tweets: seq<Tweet>, countLinks: string -> nat)
    ensures var s := SummaryStats(tab, statuses, tweets, countLinks);
      && (s.None? <==> ActiveCount(tab, statuses, tweets) == 0)
      && (s.Some? ==> (s.value.MastodonSummary? <==> tab == MastodonTab))
  {
  }

  /** The Mastodon cards: the number of statuses, the sums of their three
      counters, and the statuses with media or links, which are never more
      than the statuses. */
  lemma MastodonSummaryTotals(statuses: seq<Status>, tweets: seq<Tweet>, countLinks: string -> nat)
    requires |statuses| > 0
    ensures var s := SummaryStats(MastodonTab, statuses, tweets, countLinks).value;
      && s.totalPosts == |statuses|
      && s.totalReplies == SumOf(statuses, StatusReplies)
      && s.totalReposts == SumOf(statuses, StatusReblogs)
      && s.totalFavourites == SumOf(statuses, StatusFavourites)
      && s.postsWithMedia <= s.totalPosts && s.postsWithLinks <= s.totalPosts
  {
    ReduceIsSum(statuses, StatusReplies, 0);
    ReduceIsSum(statuses, StatusReblogs, 0);
    ReduceIsSum(statuses, StatusFavourites, 0);
    FilterBounded(statuses, HasMedia);
    FilterBounded(statuses, (s: Status) => countLinks(s.content) > 0);
  }

  /** The X cards: the number of tweets and the sums of their three
      counters. */
  lemma XSummaryTotals(statuses: seq<Status>, tweets: seq<Tweet>, countLinks: string -> nat)
    requires |tweets| > 0
    ensures var s := SummaryStats(XTab, statuses, tweets, countLinks).value;
      && s.totalPosts == |tweets|
      && s.totalReplies == SumOf(tweets, TweetReplies)
      && s.totalRetweets == SumOf(tweets, TweetRetweets)
      && s.totalLikes == SumOf(tweets, TweetLikes)
  {
    ReduceIsSum(tweets, TweetReplies, 0);
    ReduceIsSum(tweets, TweetRetweets, 0);
    ReduceIsSum(tweets, TweetLikes, 0);
  }

  // ---------------------------------------------------------------------
  // The two buttons
  // ---------------------------------------------------------------------

  /** `isSearchDisabled`. */
  predicate IsSearchDisabled(isLoading: bool, startDate: string, endDate: string) {
    isLoading || startDate == "" || endDate == ""
  }

  /** `isExportDisabled`. */
  predicate IsExportDisabled(isLoading: bool, tab: Tab, statuses: seq<Status>, tweets: seq<Tweet>) {
    isLoading || (tab == MastodonTab && |statuses| == 0) || (tab == XTab && |tweets| == 0)
  }

  /** A search can be started exactly when nothing is loading and both
      dates are filled in, that is when the window the services build is
      bounded on both sides. */
  lemma SearchEnabledIffBounded(isLoading: bool, startDate: string, endDate: string, dayStart: string -> int)
    ensures !IsSearchDisabled(isLoading, startDate, endDate) <==>
      !isLoading && WindowOf(startDate, endDate, dayStart).start.Some? && WindowOf(startDate, endDate, dayStart).end.Some?
  {
  }

  /** An export can be started exactly when nothing is loading and the
      summary cards are shown. */
  lemma ExportEnabledIffSummary(isLoading: bool, tab: Tab, statuses: seq<Status>, tweets: seq<Tweet>, countLinks: string -> nat)
    ensures !IsExportDisabled(isLoading, tab, statuses, tweets) <==>
      !isLoading && SummaryStats(tab, statuses, tweets, countLinks).Some?
  {
  }

  // ---------------------------------------------------------------------
  // The export
  // ---------------------------------------------------------------------

  /** What the export needs from the browser: `toLocaleString('fr-FR')` of
      an instant, `stripHtml`, and the link and hashtag counts. */
  datatype Browser = Browser(formatDate: int -> string, stripHtml: string -> string,
                             countLinks: string -> nat, countHashtags: string -> nat)

  datatype MastodonRow = MastodonRow(date: string, content: string, replies: nat, reposts: nat, favourites: nat,
                                     media: string, links: nat, hashtags: nat, link: string)

  datatype XRow = XRow(date: string, content: string, replies: nat, retweets: nat, likes: nat, link: string)

  datatype Sheet = MastodonSheet(mastodonRows: seq<MastodonRow>) | XSheet(xRows: seq<XRow>) | EmptySheet

  datatype Export = Export(sheet: Sheet, filename: string, sheetName: string)

  const ExportUnavailableMessage: string :=
    "Impossible d'exporter les données. La bibliothèque d'exportation n'a pas pu être chargée."

  function MastodonRowOf(b: Browser, s: Status): MastodonRow {
    MastodonRow(b.formatDate(s.createdAt), b.stripHtml(s.content), s.repliesCount, s.reblogsCount, s.favouritesCount,
                if HasMedia(s) then "Oui" else "Non", b.countLinks(s.content), b.countHashtags(s.content), s.url)
  }

  function XRowOf(b: Browser, t: Tweet): XRow {
    XRow(b.formatDate(t.createdAt), t.text, t.replyCount, t.retweetCount, t.likeCount, t.url)
  }

  /** `statuses.map(...)`. */
  function MastodonRows(b: Browser, statuses: seq<Status>): seq<MastodonRow>
    decreases |statuses|
  {
    if statuses == [] then [] else [MastodonRowOf(b, statuses[0])] + MastodonRows(b, statuses[1..])
  }

  /** `tweets.map(...)`. */
  function XRows(b: Browser, tweets: seq<Tweet>): seq<XRow>
    decreases |tweets|
  {
    if tweets == [] then [] else [XRowOf(b, tweets[0])] + XRows(b, tweets[1..])
  }

  /** The Mastodon sheet has one row per status, in list order: the date
      formatted, the content stripped of its markup, its links and hashtags
      counted, and the counters and the link copied unchanged. */
  lemma {:induction false} MastodonRowsFaithful(b: Browser, statuses: seq<Status>)
    ensures var rows := MastodonRows(b, statuses);
      && |rows| == |statuses|
      && forall i :: 0 <= i < |rows| ==>
           && rows[i] == MastodonRowOf(b, statuses[i])
           && rows[i].date == b.formatDate(statuses[i].createdAt)
           && rows[i].content == b.stripHtml(statuses[i].content)
           && rows[i].links == b.countLinks(statuses[i].content)
           && rows[i].hashtags == b.countHashtags(statuses[i].content)
           && rows[i].replies == statuses[i].repliesCount
           && rows[i].reposts == statuses[i].reblogsCount
           && rows[i].favourites == statuses[i].favouritesCount
           && (rows[i].media == "Oui" <==> HasMedia(statuses[i]))
           && rows[i].link == statuses[i].url
    decreases |statuses|
  {
    if statuses != [] {
      MastodonRowsFaithful(b, statuses[1..]);
      var rows := MastodonRows(b, statuses);
      forall i | 0 < i < |rows| ensures rows[i] == MastodonRows(b, statuses[1..])[i - 1] && statuses[i] == statuses[1..][i - 1] {
      }
    }
  }

  /** The X sheet has one row per tweet, in list order: the date formatted,
      and the text, the counters and the link copied unchanged. */
  lemma {:induction false} XRowsFaithful(b: Browser, tweets: seq<Tweet>)
    ensures var rows := XRows(b, tweets);
      && |rows| == |tweets|
      && forall i :: 0 <= i < |rows| ==>
           && rows[i] == XRowOf(b, tweets[i])
           && rows[i].date == b.formatDate(tweets[i].createdAt)
           && rows[i].content == tweets[i].text
           && rows[i].replies == tweets[i].replyCount
           && rows[i].retweets == tweets[i].retweetCount
           && rows[i].likes == tweets[i].likeCount
           && rows[i].link == tweets[i].url
    decreases |tweets|
  {
    if tweets != [] {
      XRowsFaithful(b, tweets[1..]);
      var rows := XRows(b, tweets);
      forall i | 0 < i < |rows| ensures rows[i] == XRows(b, tweets[1..])[i - 1] && tweets[i] == tweets[1..][i - 1] {
      }
    }
  }

  function RowReplies(r: MastodonRow): nat { r.replies }
  function RowReposts(r: MastodonRow): nat { r.reposts }
  function RowFavourites(r: MastodonRow): nat { r.favourites }

  /** The columns of the Mastodon sheet add up to the totals of the cards. */
  lemma {:induction false} MastodonRowsTotals(b: Browser, statuses: seq<Status>)
    ensures SumOf(MastodonRows(b, statuses), RowReplies) == SumOf(statuses, StatusReplies)
    ensures SumOf(MastodonRows(b, statuses), RowReposts) == SumOf(statuses, StatusReblogs)
    ensures SumOf(MastodonRows(b, statuses), RowFavourites) == SumOf(statuses, StatusFavourites)
    decreases |statuses|
  {
    if statuses != [] {
      MastodonRowsTotals(b, statuses[1..]);
      var rows := MastodonRows(b, statuses);
      assert rows[1..] == MastodonRows(b, statuses[1..]);
    }
  }

  function XRowReplies(r: XRow): nat { r.replies }
  function XRowRetweets(r: XRow): nat { r.retweets }
  function XRowLikes(r: XRow): nat { r.likes }

  /** The columns of the X sheet add up to the totals of the cards. */
  lemma {:induction false} XRowsTotals(b: Browser, tweets: seq<Tweet>)
    ensures SumOf(XRows(b, tweets), XRowReplies) == SumOf(tweets, TweetReplies)
    ensures SumOf(XRows(b, tweets), XRowRetweets) == SumOf(tweets, TweetRetweets)
    ensures SumOf(XRows(b, tweets), XRowLikes) == SumOf(tweets, TweetLikes)
    decreases |tweets|
  {
    if tweets != [] {
      XRowsTotals(b, tweets[1..]);
      var rows := XRows(b, tweets);
      assert rows[1..] == XRows(b, tweets[1..]);
    }
  }

  const MastodonSuffix: string := "_mastodon_stats.xlsx"
  const XSuffix: string := "_x_stats.xlsx"
  const DefaultFilename: string := "stats.xlsx"

  function MastodonFilename(acct: string): string {
    ReplaceFirst(acct, "@", "_") + MastodonSuffix
  }

  function XFilename(screenName: string): string {
    screenName + XSuffix
  }

  /** `handleExport`: the sheet, file name and sheet name for the active tab
      and its account, or the error shown when the library is missing. */
  function HandleExport(b: Browser, xlsxLoaded: bool, tab: Tab, mastodonAccount: Option<Account>, statuses: seq<Status>,
                        xAccount: Option<XAccount>, tweets: seq<Tweet>): Result<Export> {
    if !xlsxLoaded then Err(ExportUnavailableMessage)
    else if tab == MastodonTab && mastodonAccount.Some? then
      Ok(Export(MastodonSheet(MastodonRows(b, statuses)), MastodonFilename(mastodonAccount.value.acct), "Stats Mastodon"))
    else if tab == XTab && xAccount.Some? then
      Ok(Export(XSheet(XRows(b, tweets)), XFilename(xAccount.value.screenName), "Stats X"))
    else Ok(Export(EmptySheet, DefaultFilename, "Statistiques"))
  }

  /** The Mastodon file is named after the account's handle, its first `@`
      turned into `_`; a handle without `@` is kept whole. */
  lemma MastodonFilenameOf(user: string, rest: string)
    requires '@' !in user
    ensures MastodonFilename(user + "@" + rest) == user + "_" + rest + MastodonSuffix
    ensures MastodonFilename(user) == user + MastodonSuffix
  {
    ReplaceFirstChar(user, '@', rest, "_");
    forall k: nat ensures !OccursAt(user, "@", k) {
      if k + 1 <= |user| { assert user[k..k + 1][0] == user[k]; }
    }
    ReplaceFirstAbsent(user, "@", "_");
  }

  /** What the export produces: nothing without the library; for the active
      tab with an account, that tab's rows (one per item, in list order) and
      its file name; otherwise an empty sheet named `stats.xlsx`. */
  lemma ExportOutcome(b: Browser, xlsxLoaded: bool, tab: Tab, mastodonAccount: Option<Account>, statuses: seq<Status>,
                      xAccount: Option<XAccount>, tweets: seq<Tweet>)
    ensures var e := HandleExport(b, xlsxLoaded, tab, mastodonAccount, statuses, xAccount, tweets);
      && (e.Err? <==> !xlsxLoaded)
      && (e.Ok? && tab == MastodonTab && mastodonAccount.Some? ==>
            e.value.sheet.MastodonSheet? && e.value.sheet.mastodonRows == MastodonRows(b, statuses)
            && |e.value.sheet.mastodonRows| == |statuses|
            && (forall k :: 0 <= k < |statuses| ==> e.value.sheet.mastodonRows[k] == MastodonRowOf(b, statuses[k]))
            && e.value.filename == MastodonFilename(mastodonAccount.value.acct))
      && (e.Ok? && tab == XTab && xAccount.Some? ==>
            e.value.sheet.XSheet? && e.value.sheet.xRows == XRows(b, tweets)
            && |e.value.sheet.xRows| == |tweets|
            && (forall k :: 0 <= k < |tweets| ==> e.value.sheet.xRows[k] == XRowOf(b, tweets[k]))
            && e.value.filename == XFilename(xAccount.value.screenName))
      && (e.Ok? && !(tab == MastodonTab && mastodonAccount.Some?) && !(tab == XTab && xAccount.Some?) ==>
            e.value.sheet == EmptySheet && e.value.filename == DefaultFilename)
  {
    MastodonRowsFaithful(b, statuses);
    XRowsFaithful(b, tweets);
  }

}
