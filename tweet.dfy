/** The per-card extraction policy of `Tweet` (src/tweet.py).

    The browser is not modelled: a card is the record of what each lookup on
    it found. The class `Tweet` updates its fields step by step as the source
    does; the pure functions `BasicInfo`, `PosterDetails` and `Extract` say
    what the fields are afterwards, and the lemmas at the end state the
    extraction policy in terms of those functions. */
module Tweets {
  import opened Common

  /** An element looked up on the card and one attribute read from it: the
      element is absent, or present with the attribute's value (None when the
      element has no such attribute). */
  datatype Located = Absent | Present(attr: Option<string>)

  /** What the hover card over the author's name holds: the follow/unfollow
      button (its `data-testid`), and the texts of the following and followers
      counters (None when the counter element is missing). */
  datatype HoverCard = HoverCard(followButton: Located, following: Option<string>, followers: Option<string>)

  /** Outcome of one hover attempt: the hover card appeared, did not appear,
      or the element reference went stale. */
  datatype Hover = Shown(hoverCard: HoverCard) | NotShown | Stale

  /** One rendered tweet card, as the outcomes of the extractor's lookups.
      Texts that a lookup finds are strings (a found element always has a
      text); a missing element is None. `hovers` lists the outcomes of
      successive hover attempts; attempts past its end find no hover card. */
  datatype Card = Card(
    userName: Option<string>,
    handle: Option<string>,
    time: Located,
    verifiedIcon: bool,
    textParts: seq<string>,
    hashtags: seq<string>,
    mentions: seq<string>,
    emojiAlts: seq<string>,
    replies: Option<string>,
    retweets: Option<string>,
    likes: Option<string>,
    analytics: Option<string>,
    avatar: Located,
    statusLink: Located,
    hovers: seq<Hover>)

  /** The fields of a `Tweet` object. Python's None is `Option.None`. */
  datatype TweetData = TweetData(
    error: bool,
    isAd: bool,
    user: string,
    handle: string,
    dateTime: Option<string>,
    verified: bool,
    content: string,
    replyCnt: string,
    retweetCnt: string,
    likeCnt: string,
    analyticsCnt: string,
    tags: seq<string>,
    mentions: seq<string>,
    emojis: seq<string>,
    profileImg: Option<string>,
    tweetLink: Option<string>,
    tweetId: string,
    userId: Option<string>,
    followingCnt: string,
    followersCnt: string)

  /** Sentinel for an author, handle or time that was not found. */
  const Skip: string := "skip"
  /** Default of every counter. */
  const Zero: string := "0"
  /** Hover attempts made before poster details are given up. */
  const MaxHoverAttempts: nat := 3

  /** The fields of a Tweet before any lookup. */
  const Initial: TweetData := TweetData(
    false, false, Skip, Skip, Some(Skip), false, "",
    Zero, Zero, Zero, Zero, [], [], [],
    Some(""), Some(""), "", None, Zero, Zero)

  // ---------------------------------------------------------------------
  // Pure pieces of the extractor

  /** `_get_text_or_default`: the element's text, or the default when the
      element is missing or its text is empty. */
  function TextOrDefault(text: Option<string>, default: string): (r: string)
    ensures Truthy(text) ==> r == text.value
    ensures !Truthy(text) ==> r == default
    ensures default != "" ==> r != ""
  {
    match text
    case Some(val) => if val != "" then val else default
    case None => default
  }

  /** The tweet id derived from a status link's href:
      `link.split("/")[-1] if link else ""`. */
  function TweetIdOf(link: Option<string>): (r: string)
    ensures !Truthy(link) ==> r == ""
    ensures Truthy(link) ==> r == LastSegment(link.value, '/')
    ensures Truthy(link) ==> |r| <= |link.value| && r == link.value[|link.value| - |r|..] && '/' !in r
  {
    if Truthy(link) then
      var parts := Split(link.value, '/');
      SplitLast(link.value, '/');
      parts[|parts| - 1]
    else ""
  }

  /** The user id derived from the follow button's `data-testid`:
      `raw.split("-")[0] if raw else None`. */
  function UserIdOf(raw: Option<string>): (r: Option<string>)
    ensures !Truthy(raw) ==> r == None
    ensures Truthy(raw) ==> r == Some(FirstSegment(raw.value, '-'))
    ensures r.Some? ==> r.value == raw.value[..|r.value|] && '-' !in r.value
  {
    if Truthy(raw) then
      SplitFirst(raw.value, '-');
      Some(Split(raw.value, '-')[0])
    else None
  }

  function HexDigit(d: nat): (c: char)
    requires d < 16
    ensures '0' <= c <= '9' || 'a' <= c <= 'f'
  {
    if d < 10 then ('0' as int + d) as char else ('a' as int + d - 10) as char
  }

  /** The last `width` hexadecimal digits of `n`, lower case, zero-padded. */
  function Hex(n: nat, width: nat): (r: string)
    ensures |r| == width
    ensures forall i :: 0 <= i < |r| ==> '0' <= r[i] <= '9' || 'a' <= r[i] <= 'f'
  {
    if width == 0 then [] else Hex(n / 16, width - 1) + [HexDigit(n % 16)]
  }

  predicate Printable(c: char) {
    ' ' <= c <= '~'
  }

  /** Python's `unicode-escape` encoding of one character, read back as ASCII. */
  function EscapeChar(c: char): (r: string)
    ensures 1 <= |r| <= 10
    ensures forall i :: 0 <= i < |r| ==> Printable(r[i])
    ensures Printable(c) && c != '\\' ==> r == [c]
  {
    var n := c as int;
    if n >= 0x10000 then "\\U" + Hex(n, 8)
    else if n >= 0x100 then "\\u" + Hex(n, 4)
    else if 32 <= n < 127 then (if c == '\\' then "\\\\" else [c])
    else if c == '\t' then "\\t"
    else if c == '\n' then "\\n"
    else if c == '\r' then "\\r"
    else "\\x" + Hex(n, 2)
  }

  /** `alt.encode("unicode-escape").decode("ASCII")`: the result is plain
      printable ASCII, and printable ASCII other than a backslash is kept. */
  function UnicodeEscape(s: string): (r: string)
    ensures forall i :: 0 <= i < |r| ==> Printable(r[i])
    ensures |s| <= |r| <= 10 * |s|
  {
    if s == [] then [] else EscapeChar(s[0]) + UnicodeEscape(s[1..])
  }

  /** The emoji list: every alt text escaped, in order. */
  function EscapeAll(alts: seq<string>): (r: seq<string>)
    ensures |r| == |alts|
    ensures forall i :: 0 <= i < |r| ==> r[i] == UnicodeEscape(alts[i])
    ensures forall i, j :: 0 <= i < |r| && 0 <= j < |r[i]| ==> Printable(r[i][j])
    ensures forall i :: 0 <= i < |r| ==> |alts[i]| <= |r[i]| <= 10 * |alts[i]|
  {
    seq(|alts|, i requires 0 <= i < |alts| => UnicodeEscape(alts[i]))
  }

  // ---------------------------------------------------------------------
  // What the extractor computes, as functions of the card

  /** The three mandatory lookups of `_extract_basic_info`: author name,
      handle and `<time>`. */
  function MandatoryLookups(card: Card, t: TweetData): TweetData {
    var t1 := if card.userName.Some? then t.(user := card.userName.value) else t.(error := true);
    var t2 := if card.handle.Some? then t1.(handle := card.handle.value) else t1.(error := true);
    match card.time
    case Absent => t2.(isAd := true, error := true)
    case Present(dt) => if dt.Some? then t2.(dateTime := dt, isAd := false) else t2.(dateTime := dt)
  }

  /** The optional lookups of `_extract_basic_info`, each of which falls back
      to a default instead of failing. */
  function OptionalLookups(card: Card, t: TweetData): TweetData {
    t.(verified := card.verifiedIcon,
       content := Concat(card.textParts),
       replyCnt := TextOrDefault(card.replies, Zero),
       retweetCnt := TextOrDefault(card.retweets, Zero),
       likeCnt := TextOrDefault(card.likes, Zero),
       analyticsCnt := TextOrDefault(card.analytics, Zero),
       tags := card.hashtags,
       mentions := card.mentions,
       emojis := EscapeAll(card.emojiAlts),
       profileImg := if card.avatar.Present? then card.avatar.attr else Some(""),
       tweetLink := if card.statusLink.Present? then card.statusLink.attr else Some(""),
       tweetId := if card.statusLink.Present? then TweetIdOf(card.statusLink.attr) else "")
  }

  /** `_extract_basic_info` applied to the fields `t`: the optional lookups
      run only while no error is flagged. */
  function BasicInfo(card: Card, t: TweetData): TweetData {
    var m := MandatoryLookups(card, t);
    if m.error then m else OptionalLookups(card, m)
  }

  /** The hover outcome of attempt `i` (0-based). */
  function HoverAt(hovers: seq<Hover>, i: nat): Hover {
    if i < |hovers| then hovers[i] else NotShown
  }

  /** What one shown hover card does to the fields: `_extract_user_id` and
      the two counters. */
  function ApplyHover(t: TweetData, hc: HoverCard): TweetData {
    t.(userId := if hc.followButton.Present? then UserIdOf(hc.followButton.attr) else t.userId,
       followingCnt := TextOrDefault(hc.following, Zero),
       followersCnt := TextOrDefault(hc.followers, Zero))
  }

  /** The hover loop from attempt number `attempt` on. */
  function HoverLoop(t: TweetData, hovers: seq<Hover>, attempt: nat): TweetData
    decreases MaxHoverAttempts - attempt
  {
    if attempt >= MaxHoverAttempts then t
    else
      match HoverAt(hovers, attempt)
      case NotShown => HoverLoop(t, hovers, attempt + 1)
      case Stale => t.(error := true)
      case Shown(hc) => ApplyHover(t, hc)
  }

  /** `_extract_poster_details` applied to the fields `t`. */
  function PosterDetails(card: Card, t: TweetData): TweetData {
    if card.userName.None? then t else HoverLoop(t, card.hovers, 0)
  }

  /** The fields of `Tweet(card, ..., scrape_poster_details)` once built. */
  function Extract(card: Card, posterDetails: bool): TweetData {
    var b := BasicInfo(card, Initial);
    if b.error then b
    else if posterDetails then PosterDetails(card, b)
    else b
  }

  // ---------------------------------------------------------------------
  // The object, updated in place

  class Tweet {
    const card: Card
    const scrapePosterDetails: bool

    var error: bool
    var isAd: bool
    var user: string
    var handle: string
    var dateTime: Option<string>
    var verified: bool
    var content: string
    var replyCnt: string
    var retweetCnt: string
    var likeCnt: string
    var analyticsCnt: string
    var tags: seq<string>
    var mentions: seq<string>
    var emojis: seq<string>
    var profileImg: Option<string>
    var tweetLink: Option<string>
    var tweetId: string
    var userId: Option<string>
    var followingCnt: string
    var followersCnt: string

    /** The current values of the fields. */
    function Data(): TweetData
      reads this
    {
      TweetData(error, isAd, user, handle, dateTime, verified, content,
        replyCnt, retweetCnt, likeCnt, analyticsCnt, tags, mentions, emojis,
        profileImg, tweetLink, tweetId, userId, followingCnt, followersCnt)
    }

    /** `Tweet.__init__`: set the defaults, extract the basic information,
        stop if it flagged an error, and otherwise hover for poster details
        when asked to. */
    constructor (card: Card, scrapePosterDetails: bool)
      ensures this.card == card && this.scrapePosterDetails == scrapePosterDetails
      ensures Data() == Extract(card, scrapePosterDetails)
    {
      this.card := card;
      this.scrapePosterDetails := scrapePosterDetails;
      error := false;
      isAd := false;
      user := Skip;
      handle := Skip;
      dateTime := Some(Skip);
      verified := false;
      content := "";
      replyCnt := Zero;
      retweetCnt := Zero;
      likeCnt := Zero;
      analyticsCnt := Zero;
      tags := [];
      mentions := [];
      emojis := [];
      profileImg := Some("");
      tweetLink := Some("");
      tweetId := "";
      userId := None;
      followingCnt := Zero;
      followersCnt := Zero;
      new;
      ExtractBasicInfo();
      if error {
        return;
      }
      if scrapePosterDetails {
        ExtractPosterDetails();
      }
    }

    /** `_extract_basic_info`: the mandatory lookups first, then the
        optional ones, each only while no error is flagged. */
    method ExtractBasicInfo()
      modifies this
      ensures Data() == BasicInfo(card, old(Data()))
    {
      LookupUser();
      LookupHandle();
      LookupTime();
      assert Data() == MandatoryLookups(card, old(Data()));
      // Each optional lookup is guarded by the error flag, which none of
      // them changes, so one guard stands for all of them.
      if !error {
        ExtractOptionalInfo();
      }
    }

    /** The optional lookups of `_extract_basic_info`, in source order. */
    method ExtractOptionalInfo()
      modifies this
      ensures Data() == OptionalLookups(card, old(Data()))
    {
      LookupVerified();
      LookupContent();
      LookupReplyCount();
      LookupRetweetCount();
      LookupLikeCount();
      LookupAnalyticsCount();
      LookupTags();
      LookupMentions();
      LookupEmojis();
      LookupProfileImg();
      LookupTweetLink();
    }

    method LookupUser()
      modifies this
      ensures Data() == if card.userName.Some? then old(Data()).(user := card.userName.value)
                        else old(Data()).(error := true)
    {
      match card.userName {
        case Some(name) => user := name;
        case None => error := true;
      }
    }

    method LookupHandle()
      modifies this
      ensures Data() == if card.handle.Some? then old(Data()).(handle := card.handle.value)
                        else old(Data()).(error := true)
    {
      match card.handle {
        case Some(h) => handle := h;
        case None => error := true;
      }
    }

    /** A missing `<time>` element marks an ad and an error; a present one
        sets date_time to its `datetime` attribute, which may be None. */
    method LookupTime()
      modifies this
      ensures Data() ==
        match card.time
        case Absent => old(Data()).(isAd := true, error := true)
        case Present(dt) => if dt.Some? then old(Data()).(dateTime := dt, isAd := false)
                            else old(Data()).(dateTime := dt)
    {
      match card.time {
        case Present(dt) =>
          dateTime := dt;
          if dt.Some? {
            isAd := false;
          }
        case Absent =>
          isAd := true;
          error := true;
      }
    }

    method LookupVerified()
      modifies this
      ensures Data() == old(Data()).(verified := card.verifiedIcon)
    {
      verified := card.verifiedIcon;
    }

    method LookupContent()
      modifies this
      ensures Data() == old(Data()).(content := Concat(card.textParts))
    {
      content := Concat(card.textParts);
    }

    /** The reply, retweet, like and analytics counters: each the text of
        its element, or "0". */
    method LookupReplyCount()
      modifies this
      ensures Data() == old(Data()).(replyCnt := TextOrDefault(card.replies, Zero))
    {
      replyCnt := TextOrDefault(card.replies, Zero);
    }

    method LookupRetweetCount()
      modifies this
      ensures Data() == old(Data()).(retweetCnt := TextOrDefault(card.retweets, Zero))
    {
      retweetCnt := TextOrDefault(card.retweets, Zero);
    }

    method LookupLikeCount()
      modifies this
      ensures Data() == old(Data()).(likeCnt := TextOrDefault(card.likes, Zero))
    {
      likeCnt := TextOrDefault(card.likes, Zero);
    }

    method LookupAnalyticsCount()
      modifies this
      ensures Data() == old(Data()).(analyticsCnt := TextOrDefault(card.analytics, Zero))
    {
      analyticsCnt := TextOrDefault(card.analytics, Zero);
    }

    method LookupTags()
      modifies this
      ensures Data() == old(Data()).(tags := card.hashtags)
    {
      tags := card.hashtags;
    }

    method LookupMentions()
      modifies this
      ensures Data() == old(Data()).(mentions := card.mentions)
    {
      mentions := card.mentions;
    }

    method LookupEmojis()
      modifies this
      ensures Data() == old(Data()).(emojis := EscapeAll(card.emojiAlts))
    {
      emojis := EscapeAll(card.emojiAlts);
    }

    method LookupProfileImg()
      modifies this
      ensures Data() == old(Data()).(profileImg := if card.avatar.Present? then card.avatar.attr else Some(""))
    {
      match card.avatar {
        case Present(src) => profileImg := src;
        case Absent => profileImg := Some("");
      }
    }

    method LookupTweetLink()
      modifies this
      ensures Data() == old(Data()).(
        tweetLink := if card.statusLink.Present? then card.statusLink.attr else Some(""),
        tweetId := if card.statusLink.Present? then TweetIdOf(card.statusLink.attr) else "")
    {
      match card.statusLink {
        case Present(href) =>
          tweetLink := href;
          tweetId := TweetIdOf(href);
        case Absent =>
          tweetLink := Some("");
          tweetId := "";
      }
    }

    /** `_extract_poster_details`: hover at most three times until the hover
        card shows; a stale reference flags an error and stops. */
    method ExtractPosterDetails()
      modifies this
      ensures Data() == PosterDetails(card, old(Data()))
    {
      if card.userName.None? {
        return;
      }
      var hoverAttempts: nat := 0;
      var detailsExtracted := false;
      while hoverAttempts < MaxHoverAttempts && !detailsExtracted
        invariant hoverAttempts <= MaxHoverAttempts
        invariant detailsExtracted ==> Data() == PosterDetails(card, old(Data()))
        invariant !detailsExtracted ==>
          HoverLoop(Data(), card.hovers, hoverAttempts) == PosterDetails(card, old(Data()))
        decreases MaxHoverAttempts - hoverAttempts, if detailsExtracted then 0 else 1
      {
        match HoverAt(card.hovers, hoverAttempts) {
          case Shown(hc) =>
            ReadHoverCard(hc);
            detailsExtracted := true;
          case NotShown =>
            hoverAttempts := hoverAttempts + 1;
          case Stale =>
            error := true;
            return;
        }
      }
    }

    /** The body of a successful hover: the user id from the follow
        button, then the two counters of the hover card. */
    method ReadHoverCard(hc: HoverCard)
      modifies this
      ensures Data() == ApplyHover(old(Data()), hc)
    {
      ExtractUserId(hc);
      followingCnt := TextOrDefault(hc.following, Zero);
      followersCnt := TextOrDefault(hc.followers, Zero);
    }

    /** `_extract_user_id`: nothing happens when the hover card has no
        follow/unfollow button. */
    method ExtractUserId(hc: HoverCard)
      modifies this
      ensures hc.followButton.Absent? ==> Data() == old(Data())
      ensures hc.followButton.Present? ==>
        Data() == old(Data()).(userId := UserIdOf(hc.followButton.attr))
    {
      match hc.followButton {
        case Present(raw) => userId := UserIdOf(raw);
        case Absent =>
      }
    }
  }

  // ---------------------------------------------------------------------
  // to_dict

  /** A value of the record `to_dict` returns. */
  datatype Value = Str(s: string) | Flag(b: bool) | Strs(items: seq<string>) | Null

  /** The keys of the record, in the order `to_dict` inserts them. */
  datatype Key =
    | UserKey | HandleKey | DateTimeKey | VerifiedKey | ContentKey
    | ReplyCountKey | RetweetCountKey | LikeCountKey | AnalyticsCountKey
    | TagsKey | MentionsKey | EmojisKey | ProfileImgKey | TweetLinkKey
    | TweetIdKey | UserIdKey | FollowingCntKey | FollowersCntKey

  /** The key as the string the record uses. */
  function KeyName(k: Key): string {
    match k
    case UserKey => "user"
    case HandleKey => "handle"
    case DateTimeKey => "date_time"
    case VerifiedKey => "verified"
    case ContentKey => "content"
    case ReplyCountKey => "reply_count"
    case RetweetCountKey => "retweet_count"
    case LikeCountKey => "like_count"
    case AnalyticsCountKey => "analytics_count"
    case TagsKey => "tags"
    case MentionsKey => "mentions"
    case EmojisKey => "emojis"
    case ProfileImgKey => "profile_img"
    case TweetLinkKey => "tweet_link"
    case TweetIdKey => "tweet_id"
    case UserIdKey => "user_id"
    case FollowingCntKey => "following_cnt"
    case FollowersCntKey => "followers_cnt"
  }

  /** A record as `to_dict` builds it, or any other mapping from keys to values. */
  type Dict = map<Key, Value>

  const KeyOrder: seq<Key> := [
    UserKey, HandleKey, DateTimeKey, VerifiedKey, ContentKey,
    ReplyCountKey, RetweetCountKey, LikeCountKey, AnalyticsCountKey,
    TagsKey, MentionsKey, EmojisKey, ProfileImgKey, TweetLinkKey,
    TweetIdKey, UserIdKey, FollowingCntKey, FollowersCntKey]

  const KeySet: set<Key> := {
    UserKey, HandleKey, DateTimeKey, VerifiedKey, ContentKey,
    ReplyCountKey, RetweetCountKey, LikeCountKey, AnalyticsCountKey,
    TagsKey, MentionsKey, EmojisKey, ProfileImgKey, TweetLinkKey,
    TweetIdKey, UserIdKey, FollowingCntKey, FollowersCntKey}

  function OptStr(o: Option<string>): Value {
    if o.Some? then Str(o.value) else Null
  }

  /** Every key is one of the eighteen. */
  lemma AllKeysInSet()
    ensures forall k: Key :: k in KeySet
  {
    forall k: Key
      ensures k in KeySet
    {
      match k {
        case UserKey =>
        case HandleKey =>
        case DateTimeKey =>
        case VerifiedKey =>
        case ContentKey =>
        case ReplyCountKey =>
        case RetweetCountKey =>
        case LikeCountKey =>
        case AnalyticsCountKey =>
        case TagsKey =>
        case MentionsKey =>
        case EmojisKey =>
        case ProfileImgKey =>
        case TweetLinkKey =>
        case TweetIdKey =>
        case UserIdKey =>
        case FollowingCntKey =>
        case FollowersCntKey =>
      }
    }
  }

  /** The value `to_dict` stores under key `k`. */
  function FieldValue(t: TweetData, k: Key): Value {
    match k
    case UserKey => Str(t.user)
    case HandleKey => Str(t.handle)
    case DateTimeKey => OptStr(t.dateTime)
    case VerifiedKey => Flag(t.verified)
    case ContentKey => Str(t.content)
    case ReplyCountKey => Str(t.replyCnt)
    case RetweetCountKey => Str(t.retweetCnt)
    case LikeCountKey => Str(t.likeCnt)
    case AnalyticsCountKey => Str(t.analyticsCnt)
    case TagsKey => Strs(t.tags)
    case MentionsKey => Strs(t.mentions)
    case EmojisKey => Strs(t.emojis)
    case ProfileImgKey => OptStr(t.profileImg)
    case TweetLinkKey => OptStr(t.tweetLink)
    case TweetIdKey => Str(t.tweetId)
    case UserIdKey => OptStr(t.userId)
    case FollowingCntKey => Str(t.followingCnt)
    case FollowersCntKey => Str(t.followersCnt)
  }

  /** `to_dict`: every one of the eighteen keys, each with its field; the
      two flags are not part of the record. */
  function ToDict(t: TweetData): (d: Dict)
    ensures forall k: Key :: k in d
    ensures d[ContentKey] == Str(t.content)
  {
    AllKeysInSet();
    map k | k in KeySet :: FieldValue(t, k)
  }

  predicate IsOptStr(v: Value) {
    v.Str? || v.Null?
  }

  function AsOptStr(v: Value): Option<string> {
    if v.Str? then Some(v.s) else None
  }

  /** Every key is present and holds a value of the kind `to_dict` puts there. */
  predicate WellShaped(d: Dict) {
    && (forall k: Key :: k in d)
    && d[UserKey].Str? && d[HandleKey].Str? && IsOptStr(d[DateTimeKey]) && d[VerifiedKey].Flag?
    && d[ContentKey].Str? && d[ReplyCountKey].Str? && d[RetweetCountKey].Str?
    && d[LikeCountKey].Str? && d[AnalyticsCountKey].Str? && d[TagsKey].Strs?
    && d[MentionsKey].Strs? && d[EmojisKey].Strs? && IsOptStr(d[ProfileImgKey])
    && IsOptStr(d[TweetLinkKey]) && d[TweetIdKey].Str? && IsOptStr(d[UserIdKey])
    && d[FollowingCntKey].Str? && d[FollowersCntKey].Str?
  }

  /** Reads a record back into tweet fields with both flags clear; None when
      a key is missing or holds a value of the wrong kind. */
  function FromDict(d: Dict): Option<TweetData> {
    if !WellShaped(d) then None
    else Some(TweetData(false, false,
      d[UserKey].s, d[HandleKey].s, AsOptStr(d[DateTimeKey]), d[VerifiedKey].b, d[ContentKey].s,
      d[ReplyCountKey].s, d[RetweetCountKey].s, d[LikeCountKey].s, d[AnalyticsCountKey].s,
      d[TagsKey].items, d[MentionsKey].items, d[EmojisKey].items,
      AsOptStr(d[ProfileImgKey]), AsOptStr(d[TweetLinkKey]), d[TweetIdKey].s, AsOptStr(d[UserIdKey]),
      d[FollowingCntKey].s, d[FollowersCntKey].s))
  }

  // ---------------------------------------------------------------------
  // The extraction policy

  /** The record has eighteen keys, each listed once in insertion order. */
  lemma KeyCount(t: TweetData)
    ensures |KeyOrder| == 18
    ensures forall i, j :: 0 <= i < j < |KeyOrder| ==> KeyOrder[i] != KeyOrder[j]
    ensures |ToDict(t)| == 18
  {
    DistinctCard(KeyOrder);
    assert ToDict(t).Keys == set k | k in KeyOrder;
  }

  /** No two keys of the record share a name: the record has eighteen
      distinct string keys, as the dictionary literal of `to_dict` does. */
  lemma KeyNamesDistinct(k1: Key, k2: Key)
    requires k1 != k2
    ensures KeyName(k1) != KeyName(k2)
  {
  }

  /** A sequence without repetitions has as many distinct elements as it is long. */
  lemma {:induction false} DistinctCard<T>(s: seq<T>)
    requires forall i, j :: 0 <= i < j < |s| ==> s[i] != s[j]
    ensures |set x | x in s| == |s|
  {
    if s != [] {
      DistinctCard(s[1..]);
      assert (set x | x in s) == {s[0]} + (set x | x in s[1..]);
      assert s[0] !in (set x | x in s[1..]);
    }
  }

  /** `to_dict` loses nothing but the two flags: reading the record back
      gives the fields of the tweet. */
  lemma ToDictRoundTrip(t: TweetData)
    ensures FromDict(ToDict(t)) == Some(t.(error := false, isAd := false))
  {
    ToDictShape(t);
    RoundTripIdentity(t);
    RoundTripCounters(t);
    RoundTripLists(t);
    RoundTripLinks(t);
  }

  lemma RoundTripIdentity(t: TweetData)
    requires WellShaped(ToDict(t))
    ensures var r := FromDict(ToDict(t)).value;
      r.user == t.user && r.handle == t.handle && r.dateTime == t.dateTime
      && r.verified == t.verified && r.content == t.content
  {
  }

  lemma RoundTripCounters(t: TweetData)
    requires WellShaped(ToDict(t))
    ensures var r := FromDict(ToDict(t)).value;
      r.replyCnt == t.replyCnt && r.retweetCnt == t.retweetCnt
      && r.likeCnt == t.likeCnt && r.analyticsCnt == t.analyticsCnt
      && r.followingCnt == t.followingCnt && r.followersCnt == t.followersCnt
  {
  }

  lemma RoundTripLists(t: TweetData)
    requires WellShaped(ToDict(t))
    ensures var r := FromDict(ToDict(t)).value;
      r.tags == t.tags && r.mentions == t.mentions && r.emojis == t.emojis
  {
  }

  lemma RoundTripLinks(t: TweetData)
    requires WellShaped(ToDict(t))
    ensures var r := FromDict(ToDict(t)).value;
      r.profileImg == t.profileImg && r.tweetLink == t.tweetLink
      && r.tweetId == t.tweetId && r.userId == t.userId
  {
  }

  /** Each key of the record holds its field. */
  lemma ToDictValues(t: TweetData)
    ensures forall k: Key :: ToDict(t)[k] == FieldValue(t, k)
  {
  }

  /** The record `to_dict` builds is well shaped. */
  lemma ToDictShape(t: TweetData)
    ensures WellShaped(ToDict(t))
  {
    IdentityShaped(t);
    CountersShaped(t);
    ListsShaped(t);
    LinksShaped(t);
  }

  lemma IdentityShaped(t: TweetData)
    ensures var d := ToDict(t);
      d[UserKey].Str? && d[HandleKey].Str? && IsOptStr(d[DateTimeKey]) && d[VerifiedKey].Flag?
      && d[ContentKey].Str?
  {
    ToDictValues(t);
  }

  lemma CountersShaped(t: TweetData)
    ensures var d := ToDict(t);
      d[ReplyCountKey].Str? && d[RetweetCountKey].Str? && d[LikeCountKey].Str?
      && d[AnalyticsCountKey].Str? && d[FollowingCntKey].Str? && d[FollowersCntKey].Str?
  {
    ToDictValues(t);
  }

  lemma ListsShaped(t: TweetData)
    ensures var d := ToDict(t);
      d[TagsKey].Strs? && d[MentionsKey].Strs? && d[EmojisKey].Strs?
  {
    ToDictValues(t);
  }

  lemma LinksShaped(t: TweetData)
    ensures var d := ToDict(t);
      IsOptStr(d[ProfileImgKey]) && IsOptStr(d[TweetLinkKey]) && d[TweetIdKey].Str? && IsOptStr(d[UserIdKey])
  {
    ToDictValues(t);
  }

  /** A missing author name or handle flags an error; a missing `<time>`
      element flags the card as an ad and as an error; nothing else does
      before the hover step. */
  lemma BasicFlags(card: Card)
    ensures BasicInfo(card, Initial).isAd <==> card.time.Absent?
    ensures BasicInfo(card, Initial).error <==>
      card.userName.None? || card.handle.None? || card.time.Absent?
  {
  }

  /** A `<time>` element without a `datetime` attribute gives a None
      date_time and is neither an ad nor, on its own, an error. */
  lemma TimeWithoutDatetime(card: Card, posterDetails: bool)
    requires card.time == Present(None)
    requires card.userName.Some? && card.handle.Some?
    ensures Extract(card, posterDetails).dateTime == None
    ensures !Extract(card, posterDetails).isAd
    ensures !BasicInfo(card, Initial).error
  {
    var b := BasicInfo(card, Initial);
    assert b.dateTime == None && !b.isAd && !b.error;
    if posterDetails {
      HoverLoopFrame(b, card.hovers, 0);
    }
  }

  /** Once an error is flagged by the basic lookups, every later field keeps
      its default and the hover outcomes are never looked at. */
  lemma ErrorKeepsDefaults(card: Card, posterDetails: bool, hovers: seq<Hover>)
    requires BasicInfo(card, Initial).error
    ensures var t := Extract(card, posterDetails);
      t.error
      && t == Initial.(user := t.user, handle := t.handle, dateTime := t.dateTime, isAd := t.isAd, error := true)
      && t == Extract(card.(hovers := hovers), false)
  {
  }

  /** A clean card keeps every text it found, the link-derived id, and the
      text parts concatenated in order. */
  lemma CleanCardFields(card: Card, posterDetails: bool)
    requires !BasicInfo(card, Initial).error
    ensures var t := Extract(card, posterDetails);
      && t.user == card.userName.value && t.handle == card.handle.value
      && t.dateTime == card.time.attr && t.verified == card.verifiedIcon
      && t.content == Concat(card.textParts)
      && t.tags == card.hashtags && t.mentions == card.mentions
      && |t.emojis| == |card.emojiAlts|
      && (card.statusLink.Absent? ==> t.tweetLink == Some("") && t.tweetId == "")
      && (card.statusLink.Present? ==> t.tweetId == TweetIdOf(card.statusLink.attr))
  {
    var b := BasicInfo(card, Initial);
    assert Extract(card, false) == b;
    if posterDetails && card.userName.Some? {
      HoverLoopFrame(b, card.hovers, 0);
    }
  }

  /** Counters are never the empty string: each is its text or "0". */
  lemma CountersNeverEmpty(card: Card, posterDetails: bool)
    ensures var t := Extract(card, posterDetails);
      t.replyCnt != "" && t.retweetCnt != "" && t.likeCnt != "" && t.analyticsCnt != ""
      && t.followingCnt != "" && t.followersCnt != ""
  {
    var b := BasicInfo(card, Initial);
    if !b.error && posterDetails && card.userName.Some? {
      HoverLoopFrame(b, card.hovers, 0);
    }
  }

  /** The hover loop changes only the error flag, the user id and the two
      follower counters, and keeps counters non-empty. */
  lemma {:induction false} HoverLoopFrame(t: TweetData, hovers: seq<Hover>, attempt: nat)
    ensures var r := HoverLoop(t, hovers, attempt);
      r == t.(error := r.error, userId := r.userId, followingCnt := r.followingCnt, followersCnt := r.followersCnt)
      && (t.followingCnt != "" ==> r.followingCnt != "")
      && (t.followersCnt != "" ==> r.followersCnt != "")
    decreases MaxHoverAttempts - attempt
  {
    if attempt < MaxHoverAttempts && HoverAt(hovers, attempt).NotShown? {
      HoverLoopFrame(t, hovers, attempt + 1);
    }
  }

  /** The first hover attempt, among the first three, that did not simply
      miss the hover card is stale. */
  ghost predicate StaleBeforeShown(hovers: seq<Hover>) {
    exists k :: StaleAt(hovers, 0, k)
  }

  /** Attempt `k`, counted from attempt `from`, is the first that did not
      simply miss the hover card, and it went stale. */
  ghost predicate StaleAt(hovers: seq<Hover>, from: nat, k: nat) {
    from <= k < MaxHoverAttempts && HoverAt(hovers, k).Stale?
    && forall j :: from <= j < k ==> HoverAt(hovers, j).NotShown?
  }

  /** The hover loop flags an error exactly when a stale reference comes
      before any hover card; when no hover card shows within three
      attempts the fields are left as they were. */
  lemma {:induction false} HoverOutcome(t: TweetData, hovers: seq<Hover>, attempt: nat)
    requires attempt <= MaxHoverAttempts
    ensures HoverLoop(t, hovers, attempt).error <==>
      t.error || (exists k :: StaleAt(hovers, attempt, k))
    ensures (forall j :: attempt <= j < MaxHoverAttempts ==> HoverAt(hovers, j).NotShown?) ==>
      HoverLoop(t, hovers, attempt) == t
    decreases MaxHoverAttempts - attempt
  {
    if attempt < MaxHoverAttempts {
      HoverOutcome(t, hovers, attempt + 1);
      var h := HoverAt(hovers, attempt);
      if h.Stale? {
        assert StaleAt(hovers, attempt, attempt);
      } else if h.Shown? {
        assert HoverLoop(t, hovers, attempt).error == t.error;
        assert forall k: nat :: !StaleAt(hovers, attempt, k);
      } else {
        var next := attempt + 1;
        if exists k :: StaleAt(hovers, next, k) {
          var k :| StaleAt(hovers, next, k);
          assert StaleAt(hovers, attempt, k);
        }
      }
    }
  }

  /** At most three attempts: hover outcomes past the third are never
      consulted. */
  lemma {:induction false} HoverAttemptsBounded(t: TweetData, hovers: seq<Hover>, more: seq<Hover>, attempt: nat)
    requires |hovers| >= MaxHoverAttempts
    ensures HoverLoop(t, hovers + more, attempt) == HoverLoop(t, hovers, attempt)
    decreases MaxHoverAttempts - attempt
  {
    if attempt < MaxHoverAttempts {
      assert HoverAt(hovers + more, attempt) == HoverAt(hovers, attempt);
      HoverAttemptsBounded(t, hovers, more, attempt + 1);
    }
  }

  /** With poster details requested, an error is flagged exactly when a
      mandatory lookup failed or a stale reference came before any hover
      card; the ad flag depends on the `<time>` element alone. */
  lemma ExtractFlags(card: Card, posterDetails: bool)
    ensures Extract(card, posterDetails).isAd <==> card.time.Absent?
    ensures Extract(card, posterDetails).error <==>
      card.userName.None? || card.handle.None? || card.time.Absent?
      || (posterDetails && StaleBeforeShown(card.hovers))
  {
    var b := BasicInfo(card, Initial);
    if !b.error && posterDetails {
      HoverOutcome(b, card.hovers, 0);
      HoverLoopFrame(b, card.hovers, 0);
    }
  }

  /** Escaping leaves printable ASCII without backslashes unchanged. */
  lemma {:induction false} EscapeKeepsPlainText(s: string)
    requires forall i :: 0 <= i < |s| ==> Printable(s[i]) && s[i] != '\\'
    ensures UnicodeEscape(s) == s
  {
    if s != [] {
      EscapeKeepsPlainText(s[1..]);
    }
  }
}
