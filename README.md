# Twitter scraping automation: a verified model of its core

This project models the core of a command-line tool that drives a browser
to log into Twitter, scrape tweets from the home timeline, a profile, a
hashtag or a search, act on tweets (like, comment, retweet, quote, follow,
unfollow, post, open the profile page), summarise what was scraped and save
it as CSV or JSON. The model covers:

- `Tweets` (`tweet.dfy`): how a `Tweet` object pulls its fields out of one
  rendered tweet card. The steps are the mandatory author, handle and time
  lookups, the optional lookups that fall back to defaults, and the hover
  loop for poster details. It also covers `to_dict`. The class `Tweet`
  updates its fields step by step. Each method is proved equal to a pure
  function of the card (`MandatoryLookups`, `OptionalLookups`,
  `BasicInfo`, `ApplyHover`, `HoverLoop`, `PosterDetails`, `Extract`). The
  extraction policy is then proved about those functions.
- `Scrolling` (`scroller.dfy`): the scroll-position bookkeeping of
  `Scroller`.
- `Scraping` (`scraper.dfy`): `TwitterScraper`'s navigation URLs and its
  scraping loop. The loop has a deduplicating sweep over the rendered
  cards, a record limit and two abort paths. The module also covers the
  choice of output format by `save_data`. `CollectTweets` and `ScrapeTweets` are proved
  equal to the functions `Sweep` and `Scrape` over a `Session` value. The
  dedup, limit and termination properties are proved about those
  functions.
- `Search` (`search.dfy`): `search_for_term`.
- `Summarizer` (`summarizer.dfy`): `summarize_scraped_data`.
- `Actions` (`argument_parser.dfy`): `handle_actions`.
  `HandleActions` returns the trace of browser actions it performs. That
  trace is proved equal to the function `Plan`. Ordering, gating and
  justification are proved about `Plan`.
- `Common` (`common.dfy`): the Python string operations the source relies
  on, written out: truthiness, `lstrip`, `split`, `join`, `endswith` and
  `lower`.

The browser is not modelled. Every value the source reads from the page is
a parameter:

- a `Card` records what each lookup on a tweet card found;
- a feed of `Pass`es records what `find_elements` returned on each pass of
  the scraping loop;
- `loginSucceeds` says whether the browser login went through: the
  username and password fields were found and filled and the `auth_token`
  cookie was set;
- `pageOffset` and `newPosition` are the scroll offsets the browser
  reported.

## Model

| member | source | states |
|---|---|---|
| Common.LStrip | src/scraper.py:245 | the result is a suffix of the input; every removed character is the stripped one; the result does not start with it |
| Common.Split | src/tweet.py:170 | `split` on a one-character separator gives at least one piece, and no piece holds the separator |
| Common.LastSegment | src/tweet.py:170 | `split(sep)[-1]` is the longest separator-free suffix, preceded by a separator unless it is the whole string |
| Common.FirstSegment | src/tweet.py:221 | `split(sep)[0]` is the longest separator-free prefix, followed by a separator unless it is the whole string |
| Common.AsciiLower | src/scraper.py:268 | lower-casing keeps the length and maps each character to its lower-case form |
| Common.SplitJoin | src/tweet.py:170 | joining the pieces of a split with the separator gives the string back |
| Common.SplitLast | src/tweet.py:170 | the last piece of `split` is the last segment |
| Common.SplitFirst | src/tweet.py:221 | the first piece of `split` is the first segment |
| Common.JoinAppend | src/summarizer.py:15 | appending a part to a join appends the separator (unless the list was empty) and the part |
| Common.LStripAbsorbs | src/scraper.py:245 | `lstrip` is idempotent, and one more leading stripped character changes nothing |
| Tweets.TextOrDefault | src/tweet.py:225-232 | a found non-empty text is returned; a missing element or empty text gives the default; a non-empty default never yields "" |
| Tweets.TweetIdOf | src/tweet.py:169-171 | an empty or missing link gives ""; otherwise the id is the part after the last `/`, a suffix of the link without `/` |
| Tweets.UserIdOf | src/tweet.py:221 | an empty or missing `data-testid` gives None; otherwise the user id is the prefix before the first `-` |
| Tweets.EscapeChar | src/tweet.py:148 | one character escaped gives 1 to 10 printable ASCII characters; printable ASCII other than a backslash is kept |
| Tweets.UnicodeEscape | src/tweet.py:148 | the `unicode-escape` text is printable ASCII, one to ten characters per input character |
| Tweets.EscapeAll | src/tweet.py:147-150 | the emoji list has one entry per alt text, in order; every entry is printable ASCII, so decoding it as ASCII cannot fail, and is 1 to 10 times as long as its alt text |
| Tweets.Tweet.constructor | src/tweet.py:12-56 | after construction the fields are `Extract(card, scrape_poster_details)`: defaults, basic info, an early return on error, then poster details when asked |
| Tweets.Tweet.ExtractBasicInfo | src/tweet.py:58-174 | the fields become `BasicInfo`: mandatory lookups, then the optional lookups only while no error is flagged |
| Tweets.Tweet.ExtractOptionalInfo | src/tweet.py:86-174 | the optional lookups, in source order, give `OptionalLookups` of the previous fields |
| Tweets.Tweet.LookupUser | src/tweet.py:59-65 | a found author name is stored; a missing one flags an error and changes nothing else |
| Tweets.Tweet.LookupHandle | src/tweet.py:67-73 | a found handle is stored; a missing one flags an error and changes nothing else |
| Tweets.Tweet.LookupTime | src/tweet.py:75-84 | a missing `<time>` flags ad and error; a present one sets date_time to its `datetime` attribute and clears the ad flag only when that is not None |
| Tweets.Tweet.LookupVerified | src/tweet.py:86-94 | verified is whether the verified icon is on the card |
| Tweets.Tweet.LookupContent | src/tweet.py:96-102 | the content is the text parts concatenated |
| Tweets.Tweet.LookupReplyCount | src/tweet.py:106-108 | the reply counter is its text or "0" |
| Tweets.Tweet.LookupRetweetCount | src/tweet.py:109-111 | the retweet counter is its text or "0" |
| Tweets.Tweet.LookupLikeCount | src/tweet.py:112-114 | the like counter is its text or "0" |
| Tweets.Tweet.LookupAnalyticsCount | src/tweet.py:115-117 | the analytics counter is its text or "0" |
| Tweets.Tweet.LookupTags | src/tweet.py:119-127 | the tags are the hashtag link texts |
| Tweets.Tweet.LookupMentions | src/tweet.py:129-138 | the mentions are the mention link texts |
| Tweets.Tweet.LookupEmojis | src/tweet.py:140-152 | the emojis are the escaped alt texts |
| Tweets.Tweet.LookupProfileImg | src/tweet.py:154-161 | the profile image is the avatar's `src` (possibly None), or "" without an avatar |
| Tweets.Tweet.LookupTweetLink | src/tweet.py:163-174 | the link is the status link's `href` and the id is derived from it; without a status link both are "" |
| Tweets.Tweet.ExtractPosterDetails | src/tweet.py:176-213 | the hover loop's fields are `PosterDetails`: no author element, nothing; up to three attempts; stale flags an error |
| Tweets.Tweet.ReadHoverCard | src/tweet.py:193-205 | a shown hover card sets the user id (when a follow button is found) and the two follower counters |
| Tweets.Tweet.ExtractUserId | src/tweet.py:215-223 | without a follow button nothing changes; with one, only the user id changes, to the prefix of its `data-testid` |
| Tweets.ToDict | src/tweet.py:234-256 | the record holds all eighteen keys, `content` being the tweet's content |
| Tweets.KeyCount | src/tweet.py:238-256 | the record has eighteen distinct keys in insertion order |
| Tweets.KeyNamesDistinct | src/tweet.py:238-256 | no two keys of the record share a string name |
| Tweets.ToDictValues | src/tweet.py:238-256 | each key holds its field |
| Tweets.ToDictShape | src/tweet.py:238-256 | every value in the record has the kind `to_dict` stores under its key |
| Tweets.ToDictRoundTrip | src/tweet.py:234-256 | reading a record back gives the tweet's fields: nothing but the error and ad flags is lost |
| Tweets.BasicFlags | src/tweet.py:58-84 | the ad flag is set exactly when `<time>` is missing; the error flag exactly when author, handle or time is missing |
| Tweets.TimeWithoutDatetime | src/tweet.py:76-81 | a `<time>` without `datetime` gives a None date_time, no ad flag and no error |
| Tweets.ErrorKeepsDefaults | src/tweet.py:50-52 | after a basic-info error every optional field keeps its default and the hover outcomes are never consulted |
| Tweets.CleanCardFields | src/tweet.py:58-174 | a clean card keeps author, handle, content, tags, mentions and link-derived id as found |
| Tweets.CountersNeverEmpty | src/tweet.py:105-117 | every counter, hover counters included, is a non-empty string |
| Tweets.HoverLoopFrame | src/tweet.py:186-211 | the hover loop changes only the error flag, the user id and the two follower counters |
| Tweets.HoverOutcome | src/tweet.py:186-211 | the loop flags an error exactly when a stale reference comes before any shown hover card in the first three attempts; three misses change nothing |
| Tweets.HoverAttemptsBounded | src/tweet.py:186 | hover outcomes after the third attempt are never consulted |
| Tweets.ExtractFlags | src/tweet.py:12-56 | after construction the ad flag depends only on `<time>`; the error flag is a missing author, handle or time, or, with details asked, a stale reference before any hover card |
| Tweets.EscapeKeepsPlainText | src/tweet.py:148 | printable ASCII without backslashes passes through escaping unchanged |
| Scrolling.Scroller.constructor | src/scroller.py:9-19 | position and count start at zero, the last position is the page offset, scrolling is on |
| Scrolling.Scroller.Reset | src/scroller.py:29-36 | position and count return to zero, the last position is re-read, and the scrolling flag is kept |
| Scrolling.Scroller.ScrollToTop | src/scroller.py:38-43 | no field changes |
| Scrolling.Scroller.ScrollToBottom | src/scroller.py:45-50 | no field changes |
| Scrolling.Scroller.UpdateScrollPosition | src/scroller.py:52-62 | a different offset becomes the position and counts one scroll; an equal one changes nothing; the count never decreases |
| Scraping.SaveFormat | src/scraper.py:264-274 | JSON exactly for a `.json` suffix in any case; CSV otherwise; a warning exactly when neither suffix matches |
| Scraping.TwitterScraper.constructor | src/scraper.py:28-40 | the scraper starts with the given limit, no ids, no records, not interrupted, and a fresh scroller with scrolling on, position and count zero and the last position read from the page |
| Scraping.TwitterScraper.CollectTweets | src/scraper.py:197-229 | one pass of `_collect_tweets` leaves the state `Sweep` gives and reports whether an exception escaped; of the scroller only the scrolling flag may change |
| Scraping.TwitterScraper.VisitCard | src/scraper.py:206-225 | one card's visit leaves the state `Visit` gives: seen ids skipped, new ids recorded first, stale cards skipped, other exceptions raised; of the scroller only the scrolling flag may change |
| Scraping.TwitterScraper.StoreCard | src/scraper.py:213-223 | a live card's record is appended only when clean, and reaching the limit turns scrolling off and stops the pass; no other scroller field changes |
| Scraping.TwitterScraper.ScrapeTweets | src/scraper.py:146-195 | the page opened is `NavigationUrl`; the records returned and the new state are `Scrape` from the reset state over the feed; a scroller already stopped yields no records; the scroller's position, last position and count are unchanged |
| Scraping.SeenCardSkipped | src/scraper.py:207-208 | a card whose id was seen changes nothing |
| Scraping.NewCardMarkedSeen | src/scraper.py:208-225 | a new card is marked seen first; stale and faulty cards add no record; only clean cards add one |
| Scraping.VisitConsistent | src/scraper.py:205-225 | one visit preserves the run invariant (distinct processed ids, seen set equal to them, records of the clean ones) |
| Scraping.SweepConsistent | src/scraper.py:205-225 | one pass preserves the run invariant |
| Scraping.ScrapeConsistent | src/scraper.py:180-192 | the loop preserves the run invariant |
| Scraping.RunConsistent | src/scraper.py:160-192 | in a whole run no card id is processed twice, and the result holds exactly the records of the clean processed cards, in order |
| Scraping.RecordsAppend | src/scraper.py:219-220 | processing one more card appends its record exactly when it is clean |
| Scraping.SweepWithinLimit | src/scraper.py:219-223 | with a limit of at least one and `no_tweets_limit` unset, within one pass the records never pass the limit, and reaching it turns scrolling off |
| Scraping.ScrapeWithinLimit | src/scraper.py:180-192 | with a limit of at least one the loop never collects more than the limit, and stops scrolling exactly when it reaches it |
| Scraping.RunWithinLimit | src/scraper.py:146-195 | with a limit of at least one and `no_tweets_limit` unset, a run that starts with scrolling on returns at most `max_tweets` records |
| Scraping.ZeroLimitKeepsOne | src/scraper.py:219-223 | with a limit of 0 the first clean card's record is still appended before the limit is tested, so the run returns that one record |
| Scraping.SweepUnlimited | src/scraper.py:205-225 | with `no_tweets_limit` a pass never turns scrolling off and, without a faulty card, looks at every card |
| Scraping.ScrapeUnlimited | src/scraper.py:180-192 | with `no_tweets_limit` scrolling stays on and every card of every pass is looked at unless the run is aborted |
| Scraping.FaultEndsRun | src/scraper.py:190-192 | an exception on a new card ends the run: its id is recorded, no record is added and nothing later is looked at |
| Scraping.SecondRunEmpty | src/scraper.py:180 | once scrolling is off a later `scrape_tweets` on the same scraper returns no records |
| Scraping.SeenPassNoProgress | src/scraper.py:205-208 | a pass of already-seen cards changes nothing |
| Scraping.RepeatedPassNeverStops | src/scraper.py:180-192 | the loop has no exit for a page without new cards: repeated seen passes leave the state and scrolling unchanged |
| Scraping.ProfileUrlStripsAt | src/scraper.py:244-247 | leading `@`s do not change the profile URL; a name without one is used as it is |
| Scraping.HashtagUrlStripsHash | src/scraper.py:249-255 | leading `#`s do not change the hashtag URL |
| Scraping.LiveIffLatest | src/scraper.py:249-262 | hashtag and search URLs end in `&f=live` exactly when the latest tweets are asked for |
| Scraping.LiveSuffix | src/scraper.py:252-253 | appending `&f=live` to a URL with a fixed suffix is the only way it ends in `&f=live` |
| Scraping.QueryVerbatim | src/scraper.py:258 | the query stands in the search URL unencoded, character for character |
| Scraping.NavigationPriority | src/scraper.py:165-172 | a username opens its profile whatever else is given; otherwise a hashtag its hashtag page; otherwise a query its search page; otherwise the home timeline; `scrape_top` never matters |
| Search.SearchCall | src/search.py:12-17 | a `#` term becomes a hashtag scrape and any other term a query scrape, every other argument at its default |
| Search.SearchForTerm | src/search.py:6-17 | the scraper ends in the state of one scrape with the search's call, at the default limit; the scroller's position, last position and count are unchanged |
| Search.SearchNavigation | src/search.py:12-17 | a `#` term opens the latest hashtag page, a non-empty term the latest search results, an empty term the home timeline |
| Search.SearchWithinLimit | src/search.py:6-17 | a search collects at most 50 records |
| Summarizer.Contents | src/summarizer.py:15 | the contents of the records in order, present exactly when every content can be joined |
| Summarizer.Truncate | src/summarizer.py:16 | text of at most 200 characters is kept; longer text keeps its first 200 and ends in `...`; never over 203 |
| Summarizer.SummarizeScrapedData | src/summarizer.py:5-22 | no records gives None; a non-string content raises; otherwise the summary is at most 203 characters |
| Summarizer.TruncateIdempotent | src/summarizer.py:16 | cutting a summary again changes nothing |
| Summarizer.MissingContentIsEmpty | src/summarizer.py:15 | a record without `content` contributes an empty piece |
| Summarizer.ContentsAppend | src/summarizer.py:15 | the joined text holds the contents in record order, one space apart |
| Summarizer.SummaryOfTweets | src/summarizer.py:5-22 | scraped records always summarise to the cut join of their contents |
| Actions.HandleActions | src/argument_parser.py:78-168 | the actions performed are exactly `Plan` of the flags, the login outcome and the records the search leaves |
| Actions.RunUnrolled | src/argument_parser.py:111-168 | the steps after the search are appended one at a time in source order |
| Actions.StepRank | src/argument_parser.py:106-168 | each step's action sits at the step's place in the fixed order |
| Actions.RunMembers | src/argument_parser.py:106-168 | the actions performed are exactly those of the steps whose flag is set |
| Actions.RunOrdered | src/argument_parser.py:106-168 | the actions come out in the fixed order, each at most once |
| Actions.RunExactly | src/argument_parser.py:106-168 | a step's action is performed exactly when its guard holds |
| Actions.RunStart | src/argument_parser.py:102-103 | every run that logs in starts by creating the scraper and logging in |
| Actions.RunPrefix | src/argument_parser.py:106-168 | the first steps produce a prefix of the trace |
| Actions.PlanOrdered | src/argument_parser.py:106-168 | search, like, tweet, comment, retweet, quote, follow, unfollow, profile, summary, output and quit run in that order, each at most once |
| Actions.PlanJustified | src/argument_parser.py:106-168 | every action is asked for by its flag and carries that flag's value; comment and quote texts are the fixed ones |
| Actions.StepJustified | src/argument_parser.py:106-168 | each performed step of a logged-in run is asked for by its flag |
| Actions.PlanFrame | src/argument_parser.py:87-104 | the scraper is created exactly when a browser flag is set; quitting happens exactly when the login went through |
| Actions.PlanActions | src/argument_parser.py:106-154 | once logged in each of the nine actions runs exactly when its flag is set, with the flag's value |
| Actions.PlanSummary | src/argument_parser.py:157-158 | once logged in the summary of the records is made exactly when `--summarize` is set |
| Actions.PlanOutput | src/argument_parser.py:161-163 | once logged in the records are saved exactly when `--output` is set and records exist, in the format the name selects |
| Actions.ScrapedSummaryIsText | src/argument_parser.py:157-158 | summarising the records a search left never raises |
| Actions.RecordsHaveText | src/tweet.py:243 | every scraped record has a string content |

## Left out

- The browser is not modelled. WebDriver setup, page loads, sleeps, the
  cookie banner, `scrollIntoView` and hover gestures are I/O; the values
  the source reads from the page are parameters.
- XPath lookups are not evaluated. A `Card` holds each lookup's outcome;
  the hover outcomes of successive attempts are a list.
- The login steps are not modelled: username, the unusual-activity prompt
  and password, in `src/scraper.py:67-144`. An empty email or password
  raises ValueError (`src/scraper.py:71-72`), modelled as the event
  `LoginRefused` that ends the trace. A failed browser login calls
  `sys.exit(1)` (`src/scraper.py:99-100`), modelled as `LoginFailed`.
  Driver creation failing with `sys.exit` is left out.
- Actions.HandleActions: every browser action is modelled as returning.
  In the source an exception from an action escapes `handle_actions`:
  `driver.get` outside the try blocks of the interaction helpers and of
  the `_go_to_*` methods, `open_profile_page` with no handler at all, and
  any error other than a missing element in the helpers. Such an
  exception skips the later actions, the save and `driver.quit()`. The
  trace, and the lemma `PlanFrame` that quitting happens exactly when the
  login went through, hold only for runs in which no action raises.
- Scraping.RunWithinLimit: the bound needs `max_tweets` of at least one.
  A limit of 0 or less still returns the first clean record, because the
  source appends before it tests the limit; `ZeroLimitKeepsOne` shows it.
- Some files are not part of this model: `src/interaction.py` (like,
  comment, retweet, quote), `src/user.py` (follow, unfollow, post, open
  profile), `src/utils.py` (CSV/JSON writers) and `main.py`. Their calls
  are events in the `HandleActions` trace.
- `parse_arguments` (argparse) is not part of this model. `Flags` is its
  result, with `--email` and `--password` always present.
- Logging is left out. So is the `KeyboardInterrupt` inside `login`.
- Scraping.TwitterScraper.ScrapeTweets: the source loops for as long as
  scrolling is on. The model reads a finite list of passes, and running
  out of them ends the run. This exit exists only in the model.
  `RepeatedPassNeverStops` shows the source has no exit of its own for a
  page without new cards.
- Scraping.TwitterScraper.ScrapeTweets: a user interrupt and other
  exceptions are modelled only as a whole pass.
  - A `Crash` pass aborts the run before any card of that pass.
  - A `Faulty` card aborts it partway through a pass.
  - A `KeyboardInterrupt` in the middle of a pass is not modelled
    separately.
- Tweets.Tweet.ExtractPosterDetails: a stale reference raised partway
  through a shown hover card is modelled as raised before that attempt
  writes anything. The tweet is dropped for its error flag either way.
- Tweets.Tweet.LookupEmojis: an emoji image without an `alt` attribute
  makes the source raise AttributeError. This is not modelled: alt texts
  are always strings.
- Tweets.UnicodeEscape: lone surrogate code points are not modelled,
  since Dafny's `char` has none.
- Common.AsciiLower: `str.lower` is modelled for ASCII letters only. This
  is enough to decide the `.csv`/`.json` suffix test, except for non-ASCII
  letters that lower-case to ASCII.
- Scrolling.Scroller: the page offset is an unbounded integer. Reading it
  is a parameter.
- Tweets.ToDict: a Dafny map has no insertion order. `KeyOrder` records
  the order of `to_dict`.
- Summarizer.SummarizeScrapedData: the only falsy input modelled is an
  empty list. A `tweet_dicts` of None is not modelled, and neither is
  `" ".join` over values that are not records.
- The `email` and `password` fields of the scraper are not kept in
  `TwitterScraper`. Only `handle_actions` looks at them, through `Flags`.
- The scraper's `driver` and `actions` fields are not modelled.
