/** The records the services exchange with the dashboard: a Mastodon account
    and its statuses, and the account and tweets built from a Nitter-style
    mirror. Timestamps (`created_at`) are milliseconds since the epoch. */
module Types {
  import opened Wrappers

  datatype Account = Account(
    id: string,
    username: string,
    acct: string,
    displayName: string,
    url: string,
    avatar: string,
    header: string,
    followersCount: nat,
    followingCount: nat,
    statusesCount: nat)

  datatype MediaKind = Image | Video | Gifv | Audio

  datatype MediaAttachment = MediaAttachment(
    id: string,
    kind: MediaKind,
    url: string,
    previewUrl: string,
    description: Option<string>)

  datatype Status = Status(
    id: string,
    createdAt: int,
    content: string,
    url: string,
    repliesCount: nat,
    reblogsCount: nat,
    favouritesCount: nat,
    mediaAttachments: seq<MediaAttachment>)

  function StatusTime(s: Status): int { s.createdAt }

  datatype XAccount = XAccount(
    idStr: string,
    name: string,
    screenName: string,
    profileImageUrlHttps: string,
    followersCount: nat,
    friendsCount: nat,
    statusesCount: nat)

  datatype XUser = XUser(idStr: string, screenName: string)

  datatype Tweet = Tweet(
    id: string,
    createdAt: int,
    text: string,
    url: string,
    replyCount: nat,
    retweetCount: nat,
    likeCount: nat,
    viewCount: nat,
    user: XUser)

  function TweetTime(t: Tweet): int { t.createdAt }
}
