/** `search_for_term` (src/search.py): a term starting with `#` is scraped
    as a hashtag, any other term as a search query; every other argument
    of `scrape_tweets` keeps its default. */
module Search {
  import opened Common
  import opened Scraping

  predicate StartsWithHash(term: string) {
    |term| > 0 && term[0] == '#'
  }

  /** The `scrape_tweets` call `search_for_term` makes for `term`. */
  function SearchCall(term: string): (call: ScrapeCall)
    ensures StartsWithHash(term) ==> call.hashtag == Some(term) && call.query == None
    ensures !StartsWithHash(term) ==> call.query == Some(term) && call.hashtag == None
    ensures call.(hashtag := None, query := None) == DefaultCall
  {
    if StartsWithHash(term) then DefaultCall.(hashtag := Some(term))
    else DefaultCall.(query := Some(term))
  }

  /** `search_for_term`: one scrape on the given scraper. Nothing is
      returned; the records stay in the scraper. */
  method SearchForTerm(scraper: TwitterScraper, term: string, feed: seq<Pass>)
    modifies scraper, scraper.scroller`scrolling
    ensures scraper.State() == Scrape(Start(old(scraper.State())), feed, ConfigOf(SearchCall(term)))
    ensures scraper.maxTweets == DefaultCall.maxTweets
    ensures unchanged(scraper.scroller`currentPosition, scraper.scroller`lastPosition, scraper.scroller`scrollCount)
  {
    var _, _ := scraper.ScrapeTweets(SearchCall(term), feed);
  }

  /** The page a search opens: a `#` term opens the latest tweets of the
      hashtag (its leading `#` characters dropped), any other non-empty
      term the latest results of the query as typed, and an empty term,
      being falsy, the home timeline. */
  lemma SearchNavigation(term: string)
    ensures StartsWithHash(term) ==> NavigationUrl(SearchCall(term)) == HashtagUrl(term, true)
    ensures !StartsWithHash(term) && term != [] ==> NavigationUrl(SearchCall(term)) == SearchUrl(term, true)
    ensures term == [] ==> NavigationUrl(SearchCall(term)) == Home
  {
  }

  /** A search collects at most 50 records, with the limit in force. */
  lemma SearchWithinLimit(s: Session, term: string, feed: seq<Pass>)
    requires s.scrolling
    ensures |Scrape(Start(s), feed, ConfigOf(SearchCall(term))).data| <= 50
  {
    RunWithinLimit(s, feed, ConfigOf(SearchCall(term)));
  }
}
