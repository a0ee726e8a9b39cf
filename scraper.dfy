/** The scraping loop of `TwitterScraper` (src/scraper.py): navigation,
    the deduplicating sweep over rendered cards, and the choice of output
    format.

    The browser is not modelled. What `find_elements` returns on each pass of
    the loop is an input: a feed of passes, each either the cards rendered at
    that moment or one of the two ways the loop is aborted (an interrupt from
    the user, or any other exception). A card is its element id (the
    driver's handle) and either a live card or one whose reference went
    stale. */
module Scraping {
  import opened Common
  import opened Tweets
  import opened Scrolling

  /** A rendered card: live, with its lookup outcomes; detached from the
      page (using it raises a stale-reference exception, which skips the
      card); or faulty (processing it raises any other exception, which
      ends the run). */
  datatype CardBody = Live(card: Card) | Detached | Faulty

  /** A card as `find_elements` returns it: the driver's element id and its body. */
  datatype FeedCard = FeedCard(id: string, body: CardBody)

  /** One pass of the scraping loop: the rendered cards, a user interrupt,
      or any other exception raised while collecting. */
  datatype Pass = Rendered(cards: seq<FeedCard>) | Interrupt | Crash

  /** The keyword arguments of `scrape_tweets`. Optional strings are None
      when not given. */
  datatype ScrapeCall = ScrapeCall(
    maxTweets: int,
    username: Option<string>,
    hashtag: Option<string>,
    query: Option<string>,
    latest: bool,
    top: bool,
    posterDetails: bool,
    noLimit: bool)

  /** `scrape_tweets()` with every argument left at its default. */
  const DefaultCall: ScrapeCall := ScrapeCall(50, None, None, None, true, false, false, false)

  /** What the sweep over cards depends on besides the cards. */
  datatype Config = Config(maxTweets: int, noLimit: bool, posterDetails: bool)

  function ConfigOf(call: ScrapeCall): Config {
    Config(call.maxTweets, call.noLimit, call.posterDetails)
  }

  /** The scraper's state as far as scraping goes: the seen card ids, the
      collected records, the scroller's flag, the interrupted flag, and the
      cards processed so far in this run, in order (a record of the run, not
      a field of the source). */
  datatype Session = Session(
    seen: set<string>,
    data: seq<Dict>,
    scrolling: bool,
    interrupted: bool,
    visited: seq<FeedCard>)

  /** What `scrape_tweets` resets before navigating. */
  function Start(s: Session): Session {
    s.(seen := {}, data := [], visited := [])
  }

  /** The card's record is kept: it is live and its Tweet has neither flag. */
  predicate Clean(fc: FeedCard, posterDetails: bool) {
    fc.body.Live?
    && !Extract(fc.body.card, posterDetails).error
    && !Extract(fc.body.card, posterDetails).isAd
  }

  /** How one card leaves the `for card in tweet_cards` loop: on to the
      next card, break because the limit was reached, or an exception that
      leaves `_collect_tweets` altogether. */
  datatype Step = Next | Full | Raised

  /** One iteration of the `for card in tweet_cards` loop. The id is
      recorded before the card is used. */
  function Visit(s: Session, fc: FeedCard, cfg: Config): (Session, Step) {
    if fc.id in s.seen then (s, Next)
    else
      var s1 := s.(seen := s.seen + {fc.id}, visited := s.visited + [fc]);
      if fc.body.Faulty? then (s1, Raised)
      else Store(s1, fc, cfg)
  }

  /** A card that did not raise: its record is kept when it is clean, and
      reaching the limit stops scrolling. */
  function Store(s: Session, fc: FeedCard, cfg: Config): (Session, Step) {
    if !Clean(fc, cfg.posterDetails) then (s, Next)
    else
      var s1 := s.(data := s.data + [ToDict(Extract(fc.body.card, cfg.posterDetails))]);
      if |s1.data| >= cfg.maxTweets && !cfg.noLimit then (s1.(scrolling := false), Full)
      else (s1, Next)
  }

  /** `_collect_tweets` over the cards of one pass; the flag says it raised. */
  function Sweep(s: Session, cards: seq<FeedCard>, cfg: Config): (Session, bool)
    decreases |cards|
  {
    if cards == [] then (s, false)
    else
      var (s1, step) := Visit(s, cards[0], cfg);
      match step
      case Next => Sweep(s1, cards[1..], cfg)
      case Full => (s1, false)
      case Raised => (s1, true)
  }

  /** The `while self.scroller.scrolling` loop of `scrape_tweets` over the
      passes of `feed`. The loop ends when scrolling is off, when a pass
      leaves the records at the limit, or on an exception (between passes
      or while a card is processed); running out of modelled passes also
      ends it. */
  function Scrape(s: Session, feed: seq<Pass>, cfg: Config): Session
    decreases |feed|
  {
    if !s.scrolling || feed == [] then s
    else
      match feed[0]
      case Interrupt => s.(interrupted := true)
      case Crash => s
      case Rendered(cards) =>
        var (s1, raised) := Sweep(s, cards, cfg);
        if raised || (|s1.data| >= cfg.maxTweets && !cfg.noLimit) then s1
        else Scrape(s1, feed[1..], cfg)
  }

  // ---------------------------------------------------------------------
  // Navigation and output

  const Home: string := "https://twitter.com/home"
  const ProfilePrefix: string := "https://twitter.com/"
  const HashtagPrefix: string := "https://twitter.com/hashtag/"
  const HashtagSuffix: string := "?src=hashtag_click"
  const SearchPrefix: string := "https://twitter.com/search?q="
  const SearchSuffix: string := "&src=typed_query"
  const LiveFilter: string := "&f=live"

  /** `_go_to_profile`: every leading `@` is stripped. */
  function ProfileUrl(username: string): string {
    ProfilePrefix + LStrip(username, '@')
  }

  /** `_go_to_hashtag`: every leading `#` is stripped; `&f=live` only for
      the latest tweets; `scrape_top` is not used. */
  function HashtagUrl(hashtag: string, latest: bool): string {
    HashtagPrefix + LStrip(hashtag, '#') + HashtagSuffix + (if latest then LiveFilter else "")
  }

  /** `_go_to_search`: the query goes in as it is, without encoding. */
  function SearchUrl(query: string, latest: bool): string {
    SearchPrefix + query + SearchSuffix + (if latest then LiveFilter else "")
  }

  /** The page `scrape_tweets` opens: a username first, then a hashtag,
      then a query, otherwise the home timeline. */
  function NavigationUrl(call: ScrapeCall): string {
    if Truthy(call.username) then ProfileUrl(call.username.value)
    else if Truthy(call.hashtag) then HashtagUrl(call.hashtag.value, call.latest)
    else if Truthy(call.query) then SearchUrl(call.query.value, call.latest)
    else Home
  }

  datatype Format = Csv | Json

  /** The writer `save_data` picks, and whether it warned that the
      extension was not recognised. */
  datatype SaveChoice = SaveChoice(format: Format, fellBack: bool)

  /** `save_data`: a `.csv` suffix, in any letter case, selects CSV, a
      `.json` suffix JSON, and anything else falls back to CSV. */
  function SaveFormat(outputFile: string): (c: SaveChoice)
    ensures c.format == Json <==> EndsWith(AsciiLower(outputFile), ".json")
    ensures c.fellBack <==>
      !EndsWith(AsciiLower(outputFile), ".csv") && !EndsWith(AsciiLower(outputFile), ".json")
  {
    var name := AsciiLower(outputFile);
    if EndsWith(name, ".csv") then
      assert name[|name| - 1] == 'v';
      SaveChoice(Csv, false)
    else if EndsWith(name, ".json") then SaveChoice(Json, false)
    else SaveChoice(Csv, true)
  }

  // ---------------------------------------------------------------------
  // The object, updated in place

  class TwitterScraper {
    var maxTweets: int
    var interrupted: bool
    var tweetIds: set<string>
    var data: seq<Dict>
    /** The cards processed in the current run, in order. */
    ghost var visited: seq<FeedCard>
    const scroller: Scroller

    /** `TwitterScraper.__init__`, without the driver and the credentials. */
    constructor (maxTweets: int, pageOffset: int)
      ensures this.maxTweets == maxTweets && !interrupted
      ensures tweetIds == {} && data == [] && visited == []
      ensures fresh(scroller) && scroller.scrolling
      ensures scroller.currentPosition == 0 && scroller.scrollCount == 0
      ensures scroller.lastPosition == pageOffset
    {
      this.maxTweets := maxTweets;
      interrupted := false;
      tweetIds := {};
      data := [];
      visited := [];
      scroller := new Scroller(pageOffset);
    }

    ghost function State(): Session
      reads this, scroller
    {
      Session(tweetIds, data, scroller.scrolling, interrupted, visited)
    }

    /** `_collect_tweets` over the cards rendered in one pass; `raised` says
        it ended by an exception other than a stale reference. */
    method CollectTweets(cards: seq<FeedCard>, posterDetails: bool, noLimit: bool) returns (raised: bool)
      modifies this, scroller`scrolling
      ensures (State(), raised) == Sweep(old(State()), cards, Config(maxTweets, noLimit, posterDetails))
      ensures maxTweets == old(maxTweets)
      ensures unchanged(scroller`currentPosition, scroller`lastPosition, scroller`scrollCount)
    {
      ghost var cfg := Config(maxTweets, noLimit, posterDetails);
      raised := false;
      if cards == [] {
        return;
      }
      var i := 0;
      while i < |cards|
        invariant 0 <= i <= |cards|
        invariant Sweep(old(State()), cards, cfg) == Sweep(State(), cards[i..], cfg)
        invariant maxTweets == old(maxTweets)
      {
        assert cards[i..][0] == cards[i] && cards[i..][1..] == cards[i + 1..];
        var step := VisitCard(cards[i], posterDetails, noLimit);
        if step == Raised {
          raised := true;
          return;
        } else if step == Full {
          break;
        }
        i := i + 1;
      }
      scroller.ScrollToBottom();
    }

    /** One iteration of the `for card in tweet_cards` loop. */
    method VisitCard(card: FeedCard, posterDetails: bool, noLimit: bool) returns (step: Step)
      modifies this, scroller`scrolling
      ensures (State(), step) == Visit(old(State()), card, Config(maxTweets, noLimit, posterDetails))
      ensures maxTweets == old(maxTweets)
      ensures unchanged(scroller`currentPosition, scroller`lastPosition, scroller`scrollCount)
    {
      step := Next;
      if card.id in tweetIds {
        return;
      }
      tweetIds := tweetIds + {card.id};
      visited := visited + [card];
      if card.body.Faulty? {
        step := Raised;
      } else {
        step := StoreCard(card, posterDetails, noLimit);
      }
    }

    /** The body of the card loop for a card that did not raise: build the
        `Tweet` and keep its record when it is clean. */
    method StoreCard(card: FeedCard, posterDetails: bool, noLimit: bool) returns (step: Step)
      requires !card.body.Faulty?
      modifies this, scroller`scrolling
      ensures (State(), step) == Store(old(State()), card, Config(maxTweets, noLimit, posterDetails))
      ensures maxTweets == old(maxTweets)
      ensures unchanged(scroller`currentPosition, scroller`lastPosition, scroller`scrollCount)
    {
      step := Next;
      if card.body.Live? {
        var tweet := new Tweet(card.body.card, posterDetails);
        if !tweet.error && !tweet.isAd {
          data := data + [ToDict(tweet.Data())];
          if |data| >= maxTweets && !noLimit {
            scroller.scrolling := false;
            step := Full;
          }
        }
      }
    }

    /** `scrape_tweets`: reset the records, open the page, and collect pass
        after pass while scrolling is on. Returns the records and the URL it
        opened. */
    method ScrapeTweets(call: ScrapeCall, feed: seq<Pass>) returns (result: seq<Dict>, url: string)
      modifies this, scroller`scrolling
      ensures url == NavigationUrl(call)
      ensures maxTweets == call.maxTweets
      ensures State() == Scrape(Start(old(State())), feed, ConfigOf(call))
      ensures result == data
      ensures !old(scroller.scrolling) ==> result == []
      ensures unchanged(scroller`currentPosition, scroller`lastPosition, scroller`scrollCount)
    {
      maxTweets := call.maxTweets;
      data := [];
      tweetIds := {};
      visited := [];
      url := NavigationUrl(call);
      ghost var cfg := ConfigOf(call);
      ghost var start := State();
      var i := 0;
      while scroller.scrolling && i < |feed|
        invariant 0 <= i <= |feed|
        invariant Scrape(start, feed, cfg) == Scrape(State(), feed[i..], cfg)
        invariant maxTweets == call.maxTweets
        invariant !start.scrolling ==> State() == start
        invariant unchanged(scroller`currentPosition, scroller`lastPosition, scroller`scrollCount)
      {
        assert feed[i..][0] == feed[i] && feed[i..][1..] == feed[i + 1..];
        match feed[i] {
          case Interrupt =>
            interrupted := true;
            break;
          case Crash =>
            break;
          case Rendered(cards) =>
            var raised := CollectTweets(cards, call.posterDetails, call.noLimit);
            if raised || (|data| >= call.maxTweets && !call.noLimit) {
              break;
            }
        }
        i := i + 1;
      }
      result := data;
    }
  }

  // ---------------------------------------------------------------------
  // Properties of the loop

  /** The ids of the processed cards. */
  function IdsOf(cards: seq<FeedCard>): set<string> {
    set fc | fc in cards :: fc.id
  }

  /** No two processed cards share an id. */
  predicate DistinctIds(cards: seq<FeedCard>) {
    forall i, j :: 0 <= i < j < |cards| ==> cards[i].id != cards[j].id
  }

  /** The records of the clean cards among `cards`, in order. */
  function Records(cards: seq<FeedCard>, posterDetails: bool): seq<Dict> {
    if cards == [] then []
    else
      var init := cards[..|cards| - 1];
      var last := cards[|cards| - 1];
      Records(init, posterDetails)
      + (if Clean(last, posterDetails) then [ToDict(Extract(last.body.card, posterDetails))] else [])
  }

  /** The run so far: every card processed once, the seen set is exactly
      their ids, and the records are exactly those of the clean ones. */
  ghost predicate Consistent(s: Session, posterDetails: bool) {
    && DistinctIds(s.visited)
    && s.seen == IdsOf(s.visited)
    && s.data == Records(s.visited, posterDetails)
  }

  lemma RecordsAppend(cards: seq<FeedCard>, fc: FeedCard, posterDetails: bool)
    ensures Records(cards + [fc], posterDetails) ==
      Records(cards, posterDetails)
      + (if Clean(fc, posterDetails) then [ToDict(Extract(fc.body.card, posterDetails))] else [])
  {
    assert (cards + [fc])[..|cards|] == cards;
  }

  /** A card whose id was already seen changes nothing: a card is
      processed at most once per run, and one that went stale is never
      retried. */
  lemma SeenCardSkipped(s: Session, fc: FeedCard, cfg: Config)
    requires fc.id in s.seen
    ensures Visit(s, fc, cfg) == (s, Next)
  {
  }

  /** A card not seen before is marked seen before anything else; a stale
      one adds no record and the sweep goes on; a faulty one adds no record
      and ends the sweep with an exception; a clean one adds its record. */
  lemma NewCardMarkedSeen(s: Session, fc: FeedCard, cfg: Config)
    requires fc.id !in s.seen
    ensures Visit(s, fc, cfg).0.seen == s.seen + {fc.id}
    ensures Visit(s, fc, cfg).0.visited == s.visited + [fc]
    ensures fc.body.Detached? ==> Visit(s, fc, cfg) == (s.(seen := s.seen + {fc.id}, visited := s.visited + [fc]), Next)
    ensures fc.body.Faulty? ==> Visit(s, fc, cfg) == (s.(seen := s.seen + {fc.id}, visited := s.visited + [fc]), Raised)
    ensures Clean(fc, cfg.posterDetails) ==>
      Visit(s, fc, cfg).0.data == s.data + [ToDict(Extract(fc.body.card, cfg.posterDetails))]
    ensures !Clean(fc, cfg.posterDetails) ==> Visit(s, fc, cfg).0.data == s.data
  {
  }

  lemma VisitConsistent(s: Session, fc: FeedCard, cfg: Config)
    requires Consistent(s, cfg.posterDetails)
    ensures Consistent(Visit(s, fc, cfg).0, cfg.posterDetails)
  {
    if fc.id !in s.seen {
      var v := s.visited + [fc];
      NewCardMarkedSeen(s, fc, cfg);
      RecordsAppend(s.visited, fc, cfg.posterDetails);
      assert IdsOf(v) == IdsOf(s.visited) + {fc.id};
      forall i, j | 0 <= i < j < |v|
        ensures v[i].id != v[j].id
      {
        if j == |s.visited| {
          assert s.visited[i] in s.visited;
        }
      }
    }
  }

  /** A sweep keeps the run consistent. */
  lemma {:induction false} SweepConsistent(s: Session, cards: seq<FeedCard>, cfg: Config)
    requires Consistent(s, cfg.posterDetails)
    ensures Consistent(Sweep(s, cards, cfg).0, cfg.posterDetails)
    decreases |cards|
  {
    if cards != [] {
      VisitConsistent(s, cards[0], cfg);
      var (s1, step) := Visit(s, cards[0], cfg);
      if step == Next {
        SweepConsistent(s1, cards[1..], cfg);
      }
    }
  }

  lemma {:induction false} ScrapeConsistent(s: Session, feed: seq<Pass>, cfg: Config)
    requires Consistent(s, cfg.posterDetails)
    ensures Consistent(Scrape(s, feed, cfg), cfg.posterDetails)
    decreases |feed|
  {
    if s.scrolling && feed != [] && feed[0].Rendered? {
      SweepConsistent(s, feed[0].cards, cfg);
      ScrapeConsistent(Sweep(s, feed[0].cards, cfg).0, feed[1..], cfg);
    }
  }

  /** Dedup over a whole run of `scrape_tweets`: no card id is processed
      twice, the seen set is the processed ids, and the result holds the
      records of the clean processed cards and nothing else, in order. */
  lemma RunConsistent(s: Session, feed: seq<Pass>, cfg: Config)
    ensures Consistent(Scrape(Start(s), feed, cfg), cfg.posterDetails)
  {
    assert IdsOf([]) == {};
    ScrapeConsistent(Start(s), feed, cfg);
  }

  /** Within one sweep, the records never pass the limit, and reaching it
      is what turns scrolling off. */
  lemma {:induction false} SweepWithinLimit(s: Session, cards: seq<FeedCard>, cfg: Config)
    requires !cfg.noLimit && 1 <= cfg.maxTweets
    requires s.scrolling && |s.data| < cfg.maxTweets
    ensures var r := Sweep(s, cards, cfg).0;
      |r.data| <= cfg.maxTweets && (r.scrolling <==> |r.data| < cfg.maxTweets)
    decreases |cards|
  {
    if cards != [] {
      var (s1, step) := Visit(s, cards[0], cfg);
      if step == Next {
        SweepWithinLimit(s1, cards[1..], cfg);
      }
    }
  }

  /** With a limit of at least one and `no_tweets_limit` unset, a run never
      collects more than `max_tweets` records, and it turns scrolling off
      exactly when it reaches that many. */
  lemma {:induction false} ScrapeWithinLimit(s: Session, feed: seq<Pass>, cfg: Config)
    requires !cfg.noLimit && 1 <= cfg.maxTweets
    requires s.scrolling && |s.data| < cfg.maxTweets
    ensures var r := Scrape(s, feed, cfg);
      |r.data| <= cfg.maxTweets && (r.scrolling <==> |r.data| < cfg.maxTweets)
    decreases |feed|
  {
    if feed != [] && feed[0].Rendered? {
      SweepWithinLimit(s, feed[0].cards, cfg);
      var (s1, raised) := Sweep(s, feed[0].cards, cfg);
      if !raised && |s1.data| < cfg.maxTweets {
        ScrapeWithinLimit(s1, feed[1..], cfg);
      }
    }
  }

  /** The limit holds for every run that starts with scrolling on. */
  lemma RunWithinLimit(s: Session, feed: seq<Pass>, cfg: Config)
    requires !cfg.noLimit && 1 <= cfg.maxTweets && s.scrolling
    ensures |Scrape(Start(s), feed, cfg).data| <= cfg.maxTweets
  {
    ScrapeWithinLimit(Start(s), feed, cfg);
  }

  /** The limit is tested only after a record is appended: with a limit of
      0 or less, the first clean card of a fresh run is still kept, and the
      run ends with that one record. */
  lemma ZeroLimitKeepsOne(s: Session, fc: FeedCard, rest: seq<FeedCard>, more: seq<Pass>, cfg: Config)
    requires s.scrolling && s.data == [] && fc.id !in s.seen
    requires !cfg.noLimit && cfg.maxTweets <= 0 && Clean(fc, cfg.posterDetails)
    ensures Scrape(s, [Rendered([fc] + rest)] + more, cfg).data == [ToDict(Extract(fc.body.card, cfg.posterDetails))]
    ensures !Scrape(s, [Rendered([fc] + rest)] + more, cfg).scrolling
  {
    var feed := [Rendered([fc] + rest)] + more;
    assert feed[0].cards[0] == fc;
  }

  /** No card of the pass raises anything but a stale reference. */
  predicate NoFault(cards: seq<FeedCard>) {
    forall k :: 0 <= k < |cards| ==> !cards[k].body.Faulty?
  }

  /** With `no_tweets_limit` set a sweep never turns scrolling off, and
      without a faulty card it looks at every card it is given. */
  lemma {:induction false} SweepUnlimited(s: Session, cards: seq<FeedCard>, cfg: Config)
    requires cfg.noLimit
    ensures Sweep(s, cards, cfg).0.scrolling == s.scrolling
    ensures NoFault(cards) ==> !Sweep(s, cards, cfg).1
    ensures NoFault(cards) ==> Sweep(s, cards, cfg).0.seen == s.seen + IdsOf(cards)
    decreases |cards|
  {
    if cards != [] {
      var (s1, step) := Visit(s, cards[0], cfg);
      if step == Next {
        SweepUnlimited(s1, cards[1..], cfg);
      }
      assert IdsOf(cards) == {cards[0].id} + IdsOf(cards[1..]);
    }
  }

  /** The passes hold only rendered cards, none of them faulty. */
  predicate Smooth(feed: seq<Pass>) {
    forall k :: 0 <= k < |feed| ==> feed[k].Rendered? && NoFault(feed[k].cards)
  }

  /** The ids of every card of every pass. */
  function FeedIds(feed: seq<Pass>): set<string> {
    if feed == [] then {}
    else (if feed[0].Rendered? then IdsOf(feed[0].cards) else {}) + FeedIds(feed[1..])
  }

  /** With `no_tweets_limit` set scrolling stays as it was, and unless the
      run is aborted every card of every pass is looked at: only an
      exception (or the end of the modelled passes) ends the loop. */
  lemma {:induction false} ScrapeUnlimited(s: Session, feed: seq<Pass>, cfg: Config)
    requires cfg.noLimit
    ensures Scrape(s, feed, cfg).scrolling == s.scrolling
    ensures s.scrolling && Smooth(feed) ==> Scrape(s, feed, cfg).seen == s.seen + FeedIds(feed)
    decreases |feed|
  {
    if s.scrolling && feed != [] && feed[0].Rendered? {
      SweepUnlimited(s, feed[0].cards, cfg);
      var (s1, raised) := Sweep(s, feed[0].cards, cfg);
      if !raised {
        ScrapeUnlimited(s1, feed[1..], cfg);
        if Smooth(feed) {
          assert Smooth(feed[1..]) by {
            forall k | 0 <= k < |feed[1..]|
              ensures feed[1..][k].Rendered? && NoFault(feed[1..][k].cards)
            {
              assert feed[1..][k] == feed[k + 1];
            }
          }
        }
      }
    }
  }

  /** An exception while an unseen card is processed ends the whole run:
      the card's id is recorded, it adds no record, and no later card or
      pass is looked at. */
  lemma FaultEndsRun(s: Session, fc: FeedCard, rest: seq<FeedCard>, more: seq<Pass>, cfg: Config)
    requires s.scrolling && fc.id !in s.seen && fc.body.Faulty?
    ensures Scrape(s, [Rendered([fc] + rest)] + more, cfg) ==
      s.(seen := s.seen + {fc.id}, visited := s.visited + [fc])
  {
    var feed := [Rendered([fc] + rest)] + more;
    assert feed[0].cards[0] == fc;
  }

  /** The loop is one-shot: once scrolling is off nothing restarts it, so
      a later `scrape_tweets` call on the same scraper returns no records
      whatever the page shows. */
  lemma SecondRunEmpty(s: Session, feed1: seq<Pass>, cfg1: Config, feed2: seq<Pass>, cfg2: Config)
    requires !Scrape(Start(s), feed1, cfg1).scrolling
    ensures Scrape(Start(Scrape(Start(s), feed1, cfg1)), feed2, cfg2).data == []
  {
  }

  /** A pass whose cards were all seen before changes nothing. */
  lemma {:induction false} SeenPassNoProgress(s: Session, cards: seq<FeedCard>, cfg: Config)
    requires forall k :: 0 <= k < |cards| ==> cards[k].id in s.seen
    ensures Sweep(s, cards, cfg) == (s, false)
    decreases |cards|
  {
    if cards != [] {
      SeenPassNoProgress(s, cards[1..], cfg);
    }
  }

  /** The loop has no "no new content" exit: once every rendered card has
      been seen, the same cards rendered again any number of times leave
      the records as they are and scrolling on, so the loop only ends by
      running out of passes. */
  lemma {:induction false} RepeatedPassNeverStops(s: Session, cards: seq<FeedCard>, n: nat, cfg: Config)
    requires s.scrolling
    requires forall k :: 0 <= k < |cards| ==> cards[k].id in s.seen
    requires cfg.noLimit || |s.data| < cfg.maxTweets
    ensures Scrape(s, seq(n, _ => Rendered(cards)), cfg) == s
  {
    var feed := seq(n, _ => Rendered(cards));
    if n > 0 {
      SeenPassNoProgress(s, cards, cfg);
      assert feed[1..] == seq(n - 1, _ => Rendered(cards));
      RepeatedPassNeverStops(s, cards, n - 1, cfg);
    }
  }

  // ---------------------------------------------------------------------
  // Properties of navigation and output

  /** Leading `@` characters, however many, do not change the profile URL,
      and a name without one is used as it is. */
  lemma ProfileUrlStripsAt(username: string)
    ensures ProfileUrl(['@'] + username) == ProfileUrl(username)
    ensures username == [] || username[0] != '@' ==> ProfileUrl(username) == ProfilePrefix + username
  {
    LStripAbsorbs(username, '@');
  }

  /** Leading `#` characters do not change the hashtag URL. */
  lemma HashtagUrlStripsHash(hashtag: string, latest: bool)
    ensures HashtagUrl(['#'] + hashtag, latest) == HashtagUrl(hashtag, latest)
  {
    LStripAbsorbs(hashtag, '#');
  }

  /** `&f=live` ends the hashtag and search URLs exactly when the latest
      tweets are asked for. */
  lemma LiveIffLatest(hashtag: string, query: string, latest: bool)
    ensures EndsWith(HashtagUrl(hashtag, latest), LiveFilter) <==> latest
    ensures EndsWith(SearchUrl(query, latest), LiveFilter) <==> latest
  {
    LiveSuffix(HashtagPrefix + LStrip(hashtag, '#') + HashtagSuffix, HashtagSuffix, latest);
    LiveSuffix(SearchPrefix + query + SearchSuffix, SearchSuffix, latest);
  }

  /** A URL ending in a fixed suffix whose last character is not that of
      `&f=live` ends in `&f=live` exactly when `&f=live` was appended. */
  lemma LiveSuffix(base: string, suffix: string, latest: bool)
    requires EndsWith(base, suffix) && |suffix| > 0 && suffix[|suffix| - 1] != 'e'
    ensures EndsWith(base + (if latest then LiveFilter else ""), LiveFilter) <==> latest
  {
    var url := base + (if latest then LiveFilter else "");
    if latest {
      assert url[|url| - |LiveFilter|..] == LiveFilter;
    } else {
      assert url == base;
      assert base[|base| - 1] == suffix[|suffix| - 1];
    }
  }

  /** The search query stands in the URL character for character. */
  lemma QueryVerbatim(query: string, latest: bool)
    ensures var url := SearchUrl(query, latest);
      url[|SearchPrefix|..|SearchPrefix| + |query|] == query
  {
  }

  /** The page opened follows the priority username, hashtag, query, home,
      and never depends on `scrape_top`. */
  lemma NavigationPriority(call: ScrapeCall, top: bool)
    ensures NavigationUrl(call.(top := top)) == NavigationUrl(call)
    ensures Truthy(call.username) ==>
      NavigationUrl(call) == ProfileUrl(call.username.value)
      && NavigationUrl(call) == NavigationUrl(call.(hashtag := None, query := None))
    ensures !Truthy(call.username) && Truthy(call.hashtag) ==>
      NavigationUrl(call) == HashtagUrl(call.hashtag.value, call.latest)
    ensures !Truthy(call.username) && !Truthy(call.hashtag) && Truthy(call.query) ==>
      NavigationUrl(call) == SearchUrl(call.query.value, call.latest)
    ensures !Truthy(call.username) && !Truthy(call.hashtag) && !Truthy(call.query) ==>
      NavigationUrl(call) == Home
  {
  }
}
