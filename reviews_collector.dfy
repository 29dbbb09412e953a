/** `TrustpilotReviewsCollector` (src/TrustpilotReviewsCollector.php), the
    older variant: its record has other keys and no id, its URL is the raw
    href, and its `getReviews` fetches through a method the class does not
    define. The extractors, the pagination detector, the listing URL of
    `getData`, the loop and `sort` are the same code as in the newer class
    and are modelled once, in Dom, Collect and Sorter. */
module TrustpilotReviewsCollector {
  import opened Php
  import opened Dom
  import opened Collect
  import opened Sorter

  /** The constructor's settings (defaults: -1, "time", "desc"). */
  datatype Collector = Collector(id: string, count: int, orderby: string, order: string)

  /** The array `parse_data` builds. */
  datatype Review = Review(
    consumer: string, avatar: string, isVerified: bool, title: string,
    url: string, content: string, rating: string, time: string)

  /** `getData($page)` requests this URL. */
  function PageUrlOf(c: Collector): nat -> string {
    (page: nat) => PageUrl(c.id, page)
  }

  /** `parse_url`: the title link's raw href, with no origin in front. */
  function ParseUrl(card: Card): (r: Result<string>)
    ensures r.Err? <==> card.titleLink.None?
    ensures r.Err? ==> r.error == MissingElement(TitleMarker)
    ensures r.Ok? ==> (r.value == "" <==> Falsy(card.titleLink.value.href))
    ensures r.Ok? && r.value != "" ==> r.value == card.titleLink.value.href
  {
    TitleHref(card)
  }

  /** `parse_data`: one record per card; it fails on a missing title,
      rating or date element, in that order. */
  function ParseData(card: Card): (r: Result<Review>)
    ensures r.Ok? <==> card.titleLink.Some? && card.rating.Some? && card.dateTime.Some?
    ensures card.titleLink.None? ==> r == Err(MissingElement(TitleMarker))
    ensures card.titleLink.Some? && card.rating.None? ==> r == Err(MissingElement(RatingMarker))
    ensures card.titleLink.Some? && card.rating.Some? && card.dateTime.None? ==> r == Err(MissingElement(DateTimeMarker))
    ensures r.Ok? ==>
      r.value.consumer == ParseConsumer(card) && r.value.avatar == ParseAvatarUrl(card) &&
      r.value.isVerified == ParseUserVerified(card) && r.value.title == ParseTitle(card) &&
      r.value.url == ParseUrl(card).value && r.value.content == ParseContent(card) &&
      r.value.rating == ParseRating(card).value && r.value.time == ParseTime(card).value
  {
    match ParseUrl(card)
    case Err(e) => Err(e)
    case Ok(url) =>
      match ParseRating(card)
      case Err(e) => Err(e)
      case Ok(rating) =>
        match ParseTime(card)
        case Err(e) => Err(e)
        case Ok(time) =>
          Ok(Review(ParseConsumer(card), ParseAvatarUrl(card), ParseUserVerified(card),
                    ParseTitle(card), url, ParseContent(card), rating, time))
  }

  // ------------------------------------------------------------ the record as a PHP array

  datatype Value = Str(s: string) | Flag(b: bool)

  const ReviewKeys: set<string> := {"consumer", "avatar", "is_verified", "title", "url", "content", "rating", "time"}

  /** The associative array `parse_data` returns: these eight keys, no `id`. */
  function ToArray(r: Review): (m: map<string, Value>)
    ensures m.Keys == ReviewKeys
  {
    map["consumer" := Str(r.consumer), "avatar" := Str(r.avatar), "is_verified" := Flag(r.isVerified),
        "title" := Str(r.title), "url" := Str(r.url), "content" := Str(r.content),
        "rating" := Str(r.rating), "time" := Str(r.time)]
  }

  function FromArray(m: map<string, Value>): Option<Review> {
    if ReviewKeys <= m.Keys && m["is_verified"].Flag? &&
       m["consumer"].Str? && m["avatar"].Str? && m["title"].Str? && m["url"].Str? &&
       m["content"].Str? && m["rating"].Str? && m["time"].Str?
    then Some(Review(m["consumer"].s, m["avatar"].s, m["is_verified"].b, m["title"].s,
                     m["url"].s, m["content"].s, m["rating"].s, m["time"].s))
    else None
  }

  /** The array holds the whole record, and it has no `id` key. */
  lemma ArrayRoundTrip(r: Review)
    ensures FromArray(ToArray(r)) == Some(r)
    ensures "id" !in ToArray(r)
  {
  }

  // ------------------------------------------------------------ getReviews

  function TimeKey(env: Env): Review -> int {
    (r: Review) => env.strtotime(r.time)
  }

  function RatingKey(env: Env): Review -> int {
    (r: Review) => env.ratingValue(r.rating)
  }

  /** `getReviews` as written: its first statement calls `$this->getHtml()`,
      which the class does not define, so every call fails before any
      request is made. */
  function GetReviewsAsWritten(c: Collector, env: Env): (r: Result<seq<Review>>)
    ensures r.Err? && r.error.UndefinedMethod?
  {
    Err(UndefinedMethod("getHtml"))
  }

  /** What `getReviews` returns once it fetches through `getData`. */
  function Reviews(c: Collector, env: Env): Result<seq<Review>> {
    match Listing(c.count, PageUrlOf(c), env.fetch, ParseData)
    case Err(e) => Err(e)
    case Ok(col) => Ok(Ordered(col.records, c.orderby, c.order, TimeKey(env), RatingKey(env)))
  }

  /** `getReviews` with `getHtml` read as `getData`: collects the capped
      cards of every page and sorts the records in place. */
  method GetReviews(c: Collector, env: Env) returns (res: Result<seq<Review>>)
    ensures res == Reviews(c, env)
  {
    var col := CollectReviews(c.count, PageUrlOf(c), env.fetch, ParseData);
    if col.Err? {
      return Err(col.error);
    }
    var parsed := col.value.records;
    var data := new Review[|parsed|](i requires 0 <= i < |parsed| => parsed[i]);
    assert data[..] == parsed;
    Sort(data, c.orderby, c.order, TimeKey(env), RatingKey(env));
    return Ok(data[..]);
  }

  /** A successful `getReviews` returns at most `count` records for a
      non-negative count, every record of the fetched pages for -1, and
      none for other negative counts; the result is a permutation of the
      collected records. */
  lemma ReviewsCap(c: Collector, env: Env)
    requires Reviews(c, env).Ok?
    ensures var col := Listing(c.count, PageUrlOf(c), env.fetch, ParseData).value;
      multiset(Reviews(c, env).value) == multiset(col.records)
    ensures var col := Listing(c.count, PageUrlOf(c), env.fetch, ParseData).value;
      FetchAll(col.requested, env.fetch).Some? &&
      var cards := Flatten(FetchAll(col.requested, env.fetch).value);
      |Reviews(c, env).value| == (if c.count == -1 then |cards| else if c.count < 0 then 0
                                  else if c.count < |cards| then c.count else |cards|)
  {
    var urlOf := PageUrlOf(c);
    var col := Listing(c.count, urlOf, env.fetch, ParseData).value;
    ListingCap(c.count, urlOf, env.fetch, ParseData);
    OrderedMeaning(col.records, c.orderby, c.order, TimeKey(env), RatingKey(env));
    var r := Reviews(c, env).value;
    assert |r| == |multiset(r)| == |multiset(col.records)| == |col.records|;
  }

  /** A single-page listing with one complete card: `getReviews` as written
      fails, while the same call fetching through `getData` returns that
      card's review. */
  lemma GetHtmlIsUndefined()
    ensures var card := Card(Some("Ann"), true, false, None, Some(Link("Great", "/reviews/abc")),
                             Some("Fine"), Some("5"), Some("2024-01-01T10:00:00.000Z"));
      var env := Env(url => Some(Page([card], [])), s => 0, s => 0);
      var c := Collector("example.com", 1, "time", "desc");
      GetReviewsAsWritten(c, env) == Err(UndefinedMethod("getHtml")) &&
      Reviews(c, env) == Ok([Review("Ann", "", true, "Great", "/reviews/abc", "Fine", "5", "2024-01-01T10:00:00.000Z")])
  {
    var card := Card(Some("Ann"), true, false, None, Some(Link("Great", "/reviews/abc")),
                     Some("Fine"), Some("5"), Some("2024-01-01T10:00:00.000Z"));
    var env := Env(url => Some(Page([card], [])), s => 0, s => 0);
    var c := Collector("example.com", 1, "time", "desc");
    var review := Review("Ann", "", true, "Great", "/reviews/abc", "Fine", "5", "2024-01-01T10:00:00.000Z");
    assert ParseData(card) == Ok(review);
    assert Capped(1, [card]) == [card];
    assert ParseAll([card], ParseData) == Ok([review]) by {
      assert [card][1..] == [];
      assert [review] + [] == [review];
    }
    assert ParsePagination([]) == NoButtons;
    var first := Page([card], []);
    assert env.fetch(PageUrlOf(c)(1)) == Some(first);
    assert Listing(c.count, PageUrlOf(c), env.fetch, ParseData) == Ok(Collection([review], [PageUrlOf(c)(1)]));
  }
}
