/** `handle_actions` (src/argument_parser.py): which command-line flags
    create the scraper and log in, the fixed order of the actions, and the
    gating of summary, output and quitting.

    Each browser action is an event in the returned trace. Whether the
    browser login goes through (the username and password fields are found
    and filled, and the `auth_token` cookie is set) is the parameter
    `loginSucceeds`; what the page renders during a search is `feed`; the
    scroll offset read when the scraper is built is `pageOffset`. */
module Actions {
  import opened Common
  import opened Tweets
  import opened Scraping
  import opened Search
  import opened Summarizer

  /** The parsed arguments. `--email` and `--password` are required, so
      they are strings (possibly empty); the other string options are None
      when absent. */
  datatype Flags = Flags(
    email: string,
    password: string,
    search: Option<string>,
    like: Option<string>,
    tweet: Option<string>,
    comment: Option<string>,
    retweet: Option<string>,
    quote: Option<string>,
    follow: Option<string>,
    unfollow: Option<string>,
    profile: bool,
    output: Option<string>,
    summarize: bool)

  const CommentText: string := "This is a comment!"
  const QuoteText: string := "My thoughts..."

  /** What `handle_actions` does in the browser, in order. */
  datatype Event =
    | CreateScraper
    | Login
    /** `login` raised ValueError for an empty email or password. */
    | LoginRefused
    /** `login` failed in the browser and called `sys.exit(1)`. */
    | LoginFailed
    | SearchTerm(term: string)
    | Like(tweetId: string)
    | PostTweet(text: string)
    | Comment(tweetId: string, text: string)
    | Retweet(tweetId: string)
    | Quote(tweetId: string, quoteText: string)
    | Follow(username: string)
    | Unfollow(username: string)
    | OpenProfile
    | Summarize(result: SummaryResult)
    | Save(path: string, choice: SaveChoice, records: seq<Dict>)
    | Quit

  /** The position of each kind of event in the fixed order of the source;
      the login outcomes share the positions of the steps they replace. */
  function Rank(e: Event): nat {
    match e
    case CreateScraper => 0
    case Login => 1
    case LoginRefused => 1
    case LoginFailed => 2
    case SearchTerm(_) => 2
    case Like(_) => 3
    case PostTweet(_) => 4
    case Comment(_, _) => 5
    case Retweet(_) => 6
    case Quote(_, _) => 7
    case Follow(_) => 8
    case Unfollow(_) => 9
    case OpenProfile => 10
    case Summarize(_) => 11
    case Save(_, _, _) => 12
    case Quit => 13
  }

  /** Events in strictly increasing rank: the fixed order, each kind at most once. */
  predicate Ordered(trace: seq<Event>) {
    forall i, j :: 0 <= i < j < |trace| ==> Rank(trace[i]) < Rank(trace[j])
  }

  /** At least one flag that needs the browser is set. */
  predicate NeedsScraper(f: Flags) {
    Truthy(f.search) || Truthy(f.like) || Truthy(f.comment) || Truthy(f.retweet)
    || Truthy(f.quote) || Truthy(f.follow) || Truthy(f.unfollow) || f.profile || Truthy(f.tweet)
  }

  /** The scraper exists and is logged in, so the actions run. */
  predicate Ready(f: Flags, loginSucceeds: bool) {
    NeedsScraper(f) && f.email != "" && f.password != "" && loginSucceeds
  }

  /** The scraper's state right after `TwitterScraper(...)`. */
  const FreshSession: Session := Session({}, [], true, false, [])

  /** The scraper's records when the actions after the search run. */
  ghost function Scraped(f: Flags, feed: seq<Pass>): seq<Dict> {
    if Truthy(f.search) then Scrape(Start(FreshSession), feed, ConfigOf(SearchCall(f.search.value))).data
    else []
  }

  /** Why an event may appear: the flag that asks for it, with the
      argument it carries. */
  ghost predicate Justified(f: Flags, loginSucceeds: bool, data: seq<Dict>, e: Event) {
    match e
    case CreateScraper => NeedsScraper(f)
    case Login => f.email != "" && f.password != ""
    case LoginRefused => f.email == "" || f.password == ""
    case LoginFailed => !loginSucceeds
    case SearchTerm(term) => Truthy(f.search) && term == f.search.value
    case Like(id) => Truthy(f.like) && id == f.like.value
    case PostTweet(text) => Truthy(f.tweet) && text == f.tweet.value
    case Comment(id, text) => Truthy(f.comment) && id == f.comment.value && text == CommentText
    case Retweet(id) => Truthy(f.retweet) && id == f.retweet.value
    case Quote(id, text) => Truthy(f.quote) && id == f.quote.value && text == QuoteText
    case Follow(u) => Truthy(f.follow) && u == f.follow.value
    case Unfollow(u) => Truthy(f.unfollow) && u == f.unfollow.value
    case OpenProfile => f.profile
    case Summarize(r) => f.summarize && r == SummarizeScrapedData(data)
    case Save(path, choice, records) =>
      Truthy(f.output) && path == f.output.value && choice == SaveFormat(path)
      && records == data && data != []
    case Quit => Ready(f, loginSucceeds)
  }

  /** The value of a string option that is set; "" otherwise. */
  function Arg(o: Option<string>): string {
    if o.Some? then o.value else ""
  }

  /** The event when its condition holds, nothing otherwise. */
  function When(c: bool, e: Event): seq<Event> {
    if c then [e] else []
  }

  /** One step of `handle_actions`: the event it emits and whether its
      guard holds. */
  datatype Guarded = Guarded(on: bool, event: Event)

  /** The number of steps of a run that logs in. */
  const StepCount: nat := 14

  /** Step `k` of a run that logged in, in source order: creation, login,
      the nine flag actions, the summary (which needs the scraper, here
      present), the output (which needs records) and quitting. */
  function Step(f: Flags, data: seq<Dict>, k: nat): Guarded
    requires k < StepCount
  {
    if k == 0 then Guarded(true, CreateScraper)
    else if k == 1 then Guarded(true, Login)
    else if k == 2 then Guarded(Truthy(f.search), SearchTerm(Arg(f.search)))
    else if k == 3 then Guarded(Truthy(f.like), Like(Arg(f.like)))
    else if k == 4 then Guarded(Truthy(f.tweet), PostTweet(Arg(f.tweet)))
    else if k == 5 then Guarded(Truthy(f.comment), Comment(Arg(f.comment), CommentText))
    else if k == 6 then Guarded(Truthy(f.retweet), Retweet(Arg(f.retweet)))
    else if k == 7 then Guarded(Truthy(f.quote), Quote(Arg(f.quote), QuoteText))
    else if k == 8 then Guarded(Truthy(f.follow), Follow(Arg(f.follow)))
    else if k == 9 then Guarded(Truthy(f.unfollow), Unfollow(Arg(f.unfollow)))
    else if k == 10 then Guarded(f.profile, OpenProfile)
    else if k == 11 then Guarded(f.summarize, Summarize(SummarizeScrapedData(data)))
    else if k == 12 then Guarded(Truthy(f.output) && data != [], Save(Arg(f.output), SaveFormat(Arg(f.output)), data))
    else Guarded(true, Quit)
  }

  /** The events of the first `n` steps whose guard holds, in order. */
  function Run(f: Flags, data: seq<Dict>, n: nat): seq<Event>
    requires n <= StepCount
  {
    if n == 0 then []
    else
      var last := Step(f, data, n - 1);
      Run(f, data, n - 1) + When(last.on, last.event)
  }

  /** What `handle_actions` does, given the login outcome and the records
      the search leaves in the scraper. */
  function Plan(f: Flags, loginSucceeds: bool, data: seq<Dict>): seq<Event> {
    if !NeedsScraper(f) then []
    else if f.email == "" || f.password == "" then [CreateScraper, LoginRefused]
    else if !loginSucceeds then [CreateScraper, Login, LoginFailed]
    else Run(f, data, StepCount)
  }

  /** `handle_actions`. Each `if args.<flag>:` step appends its event when
      the flag is set. */
  method HandleActions(flags: Flags, loginSucceeds: bool, pageOffset: int, feed: seq<Pass>)
    returns (trace: seq<Event>)
    ensures trace == Plan(flags, loginSucceeds, Scraped(flags, feed))
  {
    ghost var data := Scraped(flags, feed);
    trace := [];
    var scraper: TwitterScraper? := null;
    if NeedsScraper(flags) {
      scraper := new TwitterScraper(50, pageOffset);
      trace := trace + [CreateScraper];
      if flags.email == "" || flags.password == "" {
        trace := trace + [LoginRefused];
        return;
      }
      trace := trace + [Login];
      if !loginSucceeds {
        trace := trace + [LoginFailed];
        return;
      }
    }
    if scraper == null {
      // Every remaining step needs either a flag that creates the scraper
      // or the scraper itself, so none of them runs.
      return;
    }
    RunStart(flags, data);
    assert scraper.State() == Start(FreshSession);
    if Truthy(flags.search) {
      SearchForTerm(scraper, flags.search.value, feed);
      trace := trace + [SearchTerm(flags.search.value)];
    }
    assert trace == Run(flags, data, 3);
    assert scraper.data == data;
    trace := trace + When(Truthy(flags.like), Like(Arg(flags.like)));
    trace := trace + When(Truthy(flags.tweet), PostTweet(Arg(flags.tweet)));
    trace := trace + When(Truthy(flags.comment), Comment(Arg(flags.comment), CommentText));
    trace := trace + When(Truthy(flags.retweet), Retweet(Arg(flags.retweet)));
    trace := trace + When(Truthy(flags.quote), Quote(Arg(flags.quote), QuoteText));
    trace := trace + When(Truthy(flags.follow), Follow(Arg(flags.follow)));
    trace := trace + When(Truthy(flags.unfollow), Unfollow(Arg(flags.unfollow)));
    trace := trace + When(flags.profile, OpenProfile);
    trace := trace + When(flags.summarize, Summarize(SummarizeScrapedData(scraper.data)));
    var path := Arg(flags.output);
    trace := trace + When(Truthy(flags.output) && scraper.data != [], Save(path, SaveFormat(path), scraper.data));
    trace := trace + [Quit];
    RunUnrolled(flags, data);
  }

  // ---------------------------------------------------------------------
  // Properties of the plan

  /** The steps after the search, one by one. */
  lemma RunUnrolled(f: Flags, data: seq<Dict>)
    ensures Run(f, data, StepCount) ==
      Run(f, data, 3)
      + When(Truthy(f.like), Like(Arg(f.like)))
      + When(Truthy(f.tweet), PostTweet(Arg(f.tweet)))
      + When(Truthy(f.comment), Comment(Arg(f.comment), CommentText))
      + When(Truthy(f.retweet), Retweet(Arg(f.retweet)))
      + When(Truthy(f.quote), Quote(Arg(f.quote), QuoteText))
      + When(Truthy(f.follow), Follow(Arg(f.follow)))
      + When(Truthy(f.unfollow), Unfollow(Arg(f.unfollow)))
      + When(f.profile, OpenProfile)
      + When(f.summarize, Summarize(SummarizeScrapedData(data)))
      + When(Truthy(f.output) && data != [], Save(Arg(f.output), SaveFormat(Arg(f.output)), data))
      + [Quit]
  {
    assert Run(f, data, 4) == Run(f, data, 3) + When(Truthy(f.like), Like(Arg(f.like)));
    assert Run(f, data, 5) == Run(f, data, 4) + When(Truthy(f.tweet), PostTweet(Arg(f.tweet)));
    assert Run(f, data, 6) == Run(f, data, 5) + When(Truthy(f.comment), Comment(Arg(f.comment), CommentText));
    assert Run(f, data, 7) == Run(f, data, 6) + When(Truthy(f.retweet), Retweet(Arg(f.retweet)));
    assert Run(f, data, 8) == Run(f, data, 7) + When(Truthy(f.quote), Quote(Arg(f.quote), QuoteText));
    assert Run(f, data, 9) == Run(f, data, 8) + When(Truthy(f.follow), Follow(Arg(f.follow)));
    assert Run(f, data, 10) == Run(f, data, 9) + When(Truthy(f.unfollow), Unfollow(Arg(f.unfollow)));
    assert Run(f, data, 11) == Run(f, data, 10) + When(f.profile, OpenProfile);
    assert Run(f, data, 12) == Run(f, data, 11) + When(f.summarize, Summarize(SummarizeScrapedData(data)));
    assert Run(f, data, 13) == Run(f, data, 12) + When(Truthy(f.output) && data != [], Save(Arg(f.output), SaveFormat(Arg(f.output)), data));
    assert Run(f, data, 14) == Run(f, data, 13) + [Quit];
  }

  /** Each step's event has the rank of the step's position. */
  lemma StepRank(f: Flags, data: seq<Dict>, k: nat)
    requires k < StepCount
    ensures Rank(Step(f, data, k).event) == k
  {
  }

  /** The emitted events are exactly those of the steps whose guard holds. */
  lemma {:induction false} RunMembers(f: Flags, data: seq<Dict>, n: nat)
    requires n <= StepCount
    ensures forall k :: 0 <= k < n && Step(f, data, k).on ==> Step(f, data, k).event in Run(f, data, n)
    ensures forall e :: e in Run(f, data, n) ==>
      exists k :: 0 <= k < n && Step(f, data, k).on && Step(f, data, k).event == e
  {
    if n > 0 {
      RunMembers(f, data, n - 1);
      var last := Step(f, data, n - 1);
      assert Run(f, data, n) == Run(f, data, n - 1) + When(last.on, last.event);
    }
  }

  /** Appending an event that ranks above all others keeps the order. */
  lemma OrderedSnoc(a: seq<Event>, e: Event)
    requires Ordered(a) && forall x :: x in a ==> Rank(x) < Rank(e)
    ensures Ordered(a + [e])
  {
    var t := a + [e];
    forall i, j | 0 <= i < j < |t|
      ensures Rank(t[i]) < Rank(t[j])
    {
      assert t[i] == a[i];
      if j < |a| {
        assert t[j] == a[j];
      }
    }
  }

  /** The first `n` steps emit an ordered trace whose ranks are below `n`. */
  lemma {:induction false} RunOrdered(f: Flags, data: seq<Dict>, n: nat)
    requires n <= StepCount
    ensures Ordered(Run(f, data, n))
    ensures forall e :: e in Run(f, data, n) ==> Rank(e) < n
  {
    if n > 0 {
      RunOrdered(f, data, n - 1);
      var last := Step(f, data, n - 1);
      StepRank(f, data, n - 1);
      if last.on {
        OrderedSnoc(Run(f, data, n - 1), last.event);
      } else {
        assert Run(f, data, n) == Run(f, data, n - 1);
      }
    }
  }

  /** A step's event is emitted exactly when its guard holds. */
  lemma RunExactly(f: Flags, data: seq<Dict>, k: nat)
    requires k < StepCount
    ensures Step(f, data, k).event in Run(f, data, StepCount) <==> Step(f, data, k).on
  {
    RunMembers(f, data, StepCount);
    var step := Step(f, data, k);
    if step.event in Run(f, data, StepCount) {
      var i :| 0 <= i < StepCount && Step(f, data, i).on && Step(f, data, i).event == step.event;
      StepRank(f, data, i);
      StepRank(f, data, k);
    }
  }

  /** The actions run in the fixed order search, like, tweet, comment,
      retweet, quote, follow, unfollow, profile, then summary, output and
      quit, each at most once. */
  lemma PlanOrdered(f: Flags, loginSucceeds: bool, data: seq<Dict>)
    ensures Ordered(Plan(f, loginSucceeds, data))
  {
    if Ready(f, loginSucceeds) {
      RunOrdered(f, data, StepCount);
    }
  }

  /** Every event is asked for by a flag, carries that flag's argument,
      and the comment and quote texts are the fixed ones whatever the
      input. */
  lemma PlanJustified(f: Flags, loginSucceeds: bool, data: seq<Dict>)
    ensures forall e :: e in Plan(f, loginSucceeds, data) ==> Justified(f, loginSucceeds, data, e)
  {
    if Ready(f, loginSucceeds) {
      RunMembers(f, data, StepCount);
      forall e | e in Run(f, data, StepCount)
        ensures Justified(f, loginSucceeds, data, e)
      {
        var k :| 0 <= k < StepCount && Step(f, data, k).on && Step(f, data, k).event == e;
        StepJustified(f, loginSucceeds, data, k);
      }
    }
  }

  /** Each step of a run that logged in is asked for by its flag. */
  lemma StepJustified(f: Flags, loginSucceeds: bool, data: seq<Dict>, k: nat)
    requires Ready(f, loginSucceeds) && k < StepCount && Step(f, data, k).on
    ensures Justified(f, loginSucceeds, data, Step(f, data, k).event)
  {
  }

  /** The scraper is created exactly when a flag needs it, so `--summarize`
      and `--output` alone do nothing; an empty email or password stops
      right after creating it, a failed browser login right after trying;
      otherwise the trace runs from creation and login to quitting. */
  lemma PlanFrame(f: Flags, loginSucceeds: bool, data: seq<Dict>)
    ensures Plan(f, loginSucceeds, data) == [] <==> !NeedsScraper(f)
    ensures NeedsScraper(f) && (f.email == "" || f.password == "") ==>
      Plan(f, loginSucceeds, data) == [CreateScraper, LoginRefused]
    ensures NeedsScraper(f) && f.email != "" && f.password != "" && !loginSucceeds ==>
      Plan(f, loginSucceeds, data) == [CreateScraper, Login, LoginFailed]
    ensures Quit in Plan(f, loginSucceeds, data) <==> Ready(f, loginSucceeds)
    ensures Ready(f, loginSucceeds) ==>
      var p := Plan(f, loginSucceeds, data);
      |p| >= 3 && p[..2] == [CreateScraper, Login] && p[|p| - 1] == Quit
  {
    if Ready(f, loginSucceeds) {
      RunExactly(f, data, 13);
      RunPrefix(f, data, 2, StepCount);
      RunStart(f, data);
    }
  }

  /** Every run that logs in starts by creating the scraper and logging in. */
  lemma RunStart(f: Flags, data: seq<Dict>)
    ensures Run(f, data, 2) == [CreateScraper, Login]
  {
    assert Run(f, data, 1) == [CreateScraper];
  }

  /** The first steps emit a first part of the trace. */
  lemma {:induction false} RunPrefix(f: Flags, data: seq<Dict>, m: nat, n: nat)
    requires m <= n <= StepCount
    ensures Run(f, data, m) <= Run(f, data, n)
    decreases n
  {
    if m < n {
      RunPrefix(f, data, m, n - 1);
    }
  }

  /** Once logged in, each of the nine flag actions runs exactly when its
      flag is set, with the flag's value as its argument. */
  lemma PlanActions(f: Flags, loginSucceeds: bool, data: seq<Dict>)
    requires Ready(f, loginSucceeds)
    ensures var p := Plan(f, loginSucceeds, data);
      && (SearchTerm(Arg(f.search)) in p <==> Truthy(f.search))
      && (Like(Arg(f.like)) in p <==> Truthy(f.like))
      && (PostTweet(Arg(f.tweet)) in p <==> Truthy(f.tweet))
      && (Comment(Arg(f.comment), CommentText) in p <==> Truthy(f.comment))
      && (Retweet(Arg(f.retweet)) in p <==> Truthy(f.retweet))
      && (Quote(Arg(f.quote), QuoteText) in p <==> Truthy(f.quote))
      && (Follow(Arg(f.follow)) in p <==> Truthy(f.follow))
      && (Unfollow(Arg(f.unfollow)) in p <==> Truthy(f.unfollow))
      && (OpenProfile in p <==> f.profile)
  {
    RunExactly(f, data, 2);
    RunExactly(f, data, 3);
    RunExactly(f, data, 4);
    RunExactly(f, data, 5);
    RunExactly(f, data, 6);
    RunExactly(f, data, 7);
    RunExactly(f, data, 8);
    RunExactly(f, data, 9);
    RunExactly(f, data, 10);
  }

  /** Once logged in, the summary of the records is logged exactly when
      `--summarize` is given: the scraper exists, so the `and scraper`
      guard holds. */
  lemma PlanSummary(f: Flags, loginSucceeds: bool, data: seq<Dict>)
    requires Ready(f, loginSucceeds)
    ensures var p := Plan(f, loginSucceeds, data);
      && (Summarize(SummarizeScrapedData(data)) in p <==> f.summarize)
  {
    RunExactly(f, data, 11);
  }

  /** Once logged in, the records are saved exactly when `--output` names
      a file and the scraper holds records, in the format the file name
      selects. */
  lemma PlanOutput(f: Flags, loginSucceeds: bool, data: seq<Dict>)
    requires Ready(f, loginSucceeds)
    ensures var p := Plan(f, loginSucceeds, data);
      && (Save(Arg(f.output), SaveFormat(Arg(f.output)), data) in p <==> Truthy(f.output) && data != [])
  {
    RunExactly(f, data, 12);
  }

  /** The records a search leaves are all `to_dict` output, so the summary
      step never meets a content that is not a string. */
  lemma ScrapedSummaryIsText(f: Flags, feed: seq<Pass>)
    ensures SummarizeScrapedData(Scraped(f, feed)) != NotText
  {
    if Truthy(f.search) {
      var cfg := ConfigOf(SearchCall(f.search.value));
      var r := Scrape(Start(FreshSession), feed, cfg);
      RunConsistent(FreshSession, feed, cfg);
      RecordsHaveText(r.visited, cfg.posterDetails);
    }
  }

  lemma {:induction false} RecordsHaveText(cards: seq<FeedCard>, posterDetails: bool)
    ensures forall i :: 0 <= i < |Records(cards, posterDetails)| ==>
      ContentOf(Records(cards, posterDetails)[i]).Some?
  {
    if cards != [] {
      var init := cards[..|cards| - 1];
      var last := cards[|cards| - 1];
      RecordsHaveText(init, posterDetails);
      if Clean(last, posterDetails) {
        var d := ToDict(Extract(last.body.card, posterDetails));
        assert d[ContentKey].Str?;
      }
    }
  }
}
