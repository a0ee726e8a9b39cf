/** `summarize_scraped_data` (src/summarizer.py): the contents of the
    records, joined with single spaces and cut to 200 characters plus an
    ellipsis. Lengths count characters (code points), as Python does. */
module Summarizer {
  import opened Common
  import opened Tweets

  const SummaryLimit: nat := 200
  const Ellipsis: string := "..."

  /** What the function gives back: None for no records, the summary
      text, or the TypeError that `" ".join` raises when a content value is
      not a string. */
  datatype SummaryResult = NoTweets | Summary(text: string) | NotText

  /** `t.get("content", "")` as the join sees it: a missing key gives "",
      a string value is itself, any other value cannot be joined. */
  function ContentOf(d: Dict): Option<string> {
    if ContentKey !in d then Some("")
    else if d[ContentKey].Str? then Some(d[ContentKey].s)
    else None
  }

  /** The contents of the records in order, or None when one of them is
      not a string. */
  function Contents(records: seq<Dict>): (r: Option<seq<string>>)
    ensures r.Some? <==> forall i :: 0 <= i < |records| ==> ContentOf(records[i]).Some?
    ensures r.Some? ==> |r.value| == |records|
    ensures r.Some? ==> forall i :: 0 <= i < |records| ==> r.value[i] == ContentOf(records[i]).value
  {
    if records == [] then Some([])
    else
      var rest := Contents(records[1..]);
      if ContentOf(records[0]).None? || rest.None? then
        assert rest.None? ==> exists i :: 1 <= i < |records| && ContentOf(records[i]).None? by {
          if rest.None? {
            var j :| 0 <= j < |records[1..]| && ContentOf(records[1..][j]).None?;
            assert records[1..][j] == records[j + 1];
          }
        }
        None
      else
        assert forall i :: 1 <= i < |records| ==> records[1..][i - 1] == records[i];
        Some([ContentOf(records[0]).value] + rest.value)
  }

  /** The slice-and-ellipsis step: text up to the limit is kept as it is;
      longer text keeps its first 200 characters and gains `...`. */
  function Truncate(combined: string): (r: string)
    ensures |combined| <= SummaryLimit ==> r == combined
    ensures |combined| > SummaryLimit ==> |r| == SummaryLimit + |Ellipsis| && EndsWith(r, Ellipsis)
    ensures |r| <= SummaryLimit + |Ellipsis|
    ensures var n := if |combined| < SummaryLimit then |combined| else SummaryLimit;
      n <= |r| && r[..n] == combined[..n]
  {
    if |combined| > SummaryLimit then combined[..SummaryLimit] + Ellipsis else combined
  }

  /** `summarize_scraped_data`. */
  function SummarizeScrapedData(records: seq<Dict>): (r: SummaryResult)
    ensures r == NoTweets <==> records == []
    ensures r == NotText <==> records != [] && exists i :: 0 <= i < |records| && ContentOf(records[i]).None?
    ensures r.Summary? ==> |r.text| <= SummaryLimit + |Ellipsis|
  {
    if records == [] then NoTweets
    else
      match Contents(records)
      case None => NotText
      case Some(parts) => Summary(Truncate(JoinWith(parts, " ")))
  }

  /** Cutting a summary again changes nothing: a cut text is 203
      characters whose first 200 are those of the original. */
  lemma TruncateIdempotent(combined: string)
    ensures Truncate(Truncate(combined)) == Truncate(combined)
  {
    if |combined| > SummaryLimit {
      var r := Truncate(combined);
      assert r[..SummaryLimit] == combined[..SummaryLimit];
    }
  }

  /** A record without a `content` key adds an empty piece to the join, so
      it still adds its separating space. */
  lemma MissingContentIsEmpty(d: Dict)
    requires ContentKey !in d
    ensures ContentOf(d) == Some("")
    ensures SummarizeScrapedData([d]) == Summary("")
  {
  }

  /** Appending a record appends a space and its content to the joined
      text: the contents appear in record order, one space apart. */
  lemma {:induction false} ContentsAppend(records: seq<Dict>, d: Dict)
    requires Contents(records).Some? && ContentOf(d).Some?
    ensures Contents(records + [d]) == Some(Contents(records).value + [ContentOf(d).value])
    ensures var joined := JoinWith(Contents(records + [d]).value, " ");
      joined == if records == [] then ContentOf(d).value
                else JoinWith(Contents(records).value, " ") + " " + ContentOf(d).value
  {
    var r := Contents(records + [d]);
    assert forall i :: 0 <= i < |records| ==> (records + [d])[i] == records[i];
    assert (records + [d])[|records|] == d;
    assert r.Some?;
    assert r.value == Contents(records).value + [ContentOf(d).value];
    JoinAppend(Contents(records).value, ContentOf(d).value, " ");
  }

  /** The records `to_dict` produces always have a string content, so
      summarizing scraped tweets never raises: it gives the summary of
      their contents, in order. */
  lemma SummaryOfTweets(tweets: seq<TweetData>)
    ensures var records := seq(|tweets|, i requires 0 <= i < |tweets| => ToDict(tweets[i]));
      SummarizeScrapedData(records) ==
        if tweets == [] then NoTweets
        else Summary(Truncate(JoinWith(seq(|tweets|, i requires 0 <= i < |tweets| => tweets[i].content), " ")))
  {
    var records := seq(|tweets|, i requires 0 <= i < |tweets| => ToDict(tweets[i]));
    var contents := seq(|tweets|, i requires 0 <= i < |tweets| => tweets[i].content);
    forall i | 0 <= i < |records|
      ensures ContentOf(records[i]) == Some(contents[i])
    {
      var d := ToDict(tweets[i]);
      assert d[ContentKey] == Str(tweets[i].content);
    }
    var r := Contents(records);
    assert r.Some?;
    assert r.value == contents;
  }
}
