/** `TrustpilotReviewCollector` (src/TrustpilotReviewCollector.php): the
    review record, the extractors it adds to the shared ones, `parse_data`,
    and `getReviews` with its `sort`. */
module TrustpilotReviewCollector {
  import opened Php
  import opened Dom
  import opened Collect
  import opened Sorter

  /** The constructor's settings; they never change afterwards. `count` -1
      means "every review"; `orderBy` is "time" or "rating", `order` "asc"
      or "desc" (defaults: -1, "time", "desc"). */
  datatype Collector = Collector(businessUnitId: string, count: int, orderBy: string, order: string)

  /** The array `parse_data` builds, one field per key. */
  datatype Review = Review(
    id: string, user: string, avatar: string, verified: bool, title: string,
    url: string, body: string, rating: string, time: string)

  const ReviewOrigin := "https://trustpilot.com/"

  /** `getPageHtml($page)` requests this URL. */
  function PageUrlOf(c: Collector): nat -> string {
    (page: nat) => PageUrl(c.businessUnitId, page)
  }

  /** `parse_id`: the title link's href with every "/reviews/" removed. */
  function ParseId(card: Card): (r: Result<string>)
    ensures r.Err? <==> card.titleLink.None?
    ensures r.Err? ==> r.error == MissingElement(TitleMarker)
    ensures r.Ok? ==> r.value == Remove(TitleHref(card).value, "/reviews/")
  {
    match TitleHref(card)
    case Err(e) => Err(e)
    case Ok(href) => Ok(Remove(href, "/reviews/"))
  }

  /** `parse_url`: the site origin followed by the title link's href. */
  function ParseUrl(card: Card): (r: Result<string>)
    ensures r.Err? <==> card.titleLink.None?
    ensures r.Err? ==> r.error == MissingElement(TitleMarker)
    ensures r.Ok? ==> StartsWith(r.value, ReviewOrigin) && r.value[|ReviewOrigin|..] == TitleHref(card).value
  {
    match TitleHref(card)
    case Err(e) => Err(e)
    case Ok(href) => Ok(ReviewOrigin + href)
  }

  /** A permalink of the site's form "/reviews/<review id>" gives that id,
      and a URL that keeps the permalink's leading slash after the origin's. */
  lemma IdAndUrlOfPermalink(card: Card, review: string)
    requires card.titleLink.Some? && card.titleLink.value.href == "/reviews/" + review
    requires !Contains(review, "/reviews/")
    ensures ParseId(card) == Ok(review)
    ensures ParseUrl(card) == Ok("https://trustpilot.com//reviews/" + review)
  {
    RemoveLeading("/reviews/", review);
    assert ReviewOrigin + ("/reviews/" + review) == "https://trustpilot.com//reviews/" + review;
  }

  /** `parse_data`: one record per card. Field extraction runs in key order,
      so a card that lacks the title element, the rating element or the
      date element fails with the first of these that is missing. */
  function ParseData(card: Card): (r: Result<Review>)
    ensures r.Ok? <==> card.titleLink.Some? && card.rating.Some? && card.dateTime.Some?
    ensures card.titleLink.None? ==> r == Err(MissingElement(TitleMarker))
    ensures card.titleLink.Some? && card.rating.None? ==> r == Err(MissingElement(RatingMarker))
    ensures card.titleLink.Some? && card.rating.Some? && card.dateTime.None? ==> r == Err(MissingElement(DateTimeMarker))
    ensures r.Ok? ==>
      r.value.id == ParseId(card).value && r.value.user == ParseConsumer(card) &&
      r.value.avatar == ParseAvatarUrl(card) && r.value.verified == ParseUserVerified(card) &&
      r.value.title == ParseTitle(card) && r.value.url == ParseUrl(card).value &&
      r.value.body == ParseContent(card) && r.value.rating == ParseRating(card).value &&
      r.value.time == ParseTime(card).value
  {
    match ParseId(card)
    case Err(e) => Err(e)
    case Ok(id) =>
      match ParseUrl(card)
      case Err(e) => Err(e)
      case Ok(url) =>
        match ParseRating(card)
        case Err(e) => Err(e)
        case Ok(rating) =>
          match ParseTime(card)
          case Err(e) => Err(e)
          case Ok(time) =>
            Ok(Review(id, ParseConsumer(card), ParseAvatarUrl(card), ParseUserVerified(card),
                      ParseTitle(card), url, ParseContent(card), rating, time))
  }

  /** Every field of a parsed card is present and holds its normalised
      value: "" for a missing name or title and for a falsy one, "" for a
      missing text element, "" for a falsy rating or date, and the
      verified flag exactly when the badge is present. */
  lemma MissingOrFalsyFields(card: Card)
    requires ParseData(card).Ok?
    ensures var r := ParseData(card).value;
      (r.user == "" <==> card.consumerName.None? || Falsy(card.consumerName.value)) &&
      (r.title == "" <==> Falsy(card.titleLink.value.text)) &&
      (r.body == "" <==> card.reviewText.None? || card.reviewText.value == "") &&
      (r.rating == "" <==> Falsy(card.rating.value)) &&
      (r.time == "" <==> Falsy(card.dateTime.value)) &&
      (r.verified <==> card.verifiedBadge) &&
      (r.avatar == "" <==> !card.avatarImage || card.profileLink.None? || Falsy(card.profileLink.value))
  {
  }

  // ------------------------------------------------------------ the record as a PHP array

  datatype Value = Str(s: string) | Flag(b: bool)

  const ReviewKeys: set<string> := {"id", "user", "avatar", "verified", "title", "url", "body", "rating", "time"}

  /** The associative array `parse_data` returns. */
  function ToArray(r: Review): (m: map<string, Value>)
    ensures m.Keys == ReviewKeys
  {
    map["id" := Str(r.id), "user" := Str(r.user), "avatar" := Str(r.avatar), "verified" := Flag(r.verified),
        "title" := Str(r.title), "url" := Str(r.url), "body" := Str(r.body), "rating" := Str(r.rating),
        "time" := Str(r.time)]
  }

  /** Reads a record back from its array; None unless every key is there
      with a value of the right kind. */
  function FromArray(m: map<string, Value>): Option<Review> {
    if ReviewKeys <= m.Keys && m["verified"].Flag? &&
       m["id"].Str? && m["user"].Str? && m["avatar"].Str? && m["title"].Str? &&
       m["url"].Str? && m["body"].Str? && m["rating"].Str? && m["time"].Str?
    then Some(Review(m["id"].s, m["user"].s, m["avatar"].s, m["verified"].b, m["title"].s,
                     m["url"].s, m["body"].s, m["rating"].s, m["time"].s))
    else None
  }

  /** The array holds the whole record: nothing is lost and nothing added. */
  lemma ArrayRoundTrip(r: Review)
    ensures FromArray(ToArray(r)) == Some(r)
    ensures "id" in ToArray(r)
  {
  }

  // ------------------------------------------------------------ getReviews

  function TimeKey(env: Env): Review -> int {
    (r: Review) => env.strtotime(r.time)
  }

  function RatingKey(env: Env): Review -> int {
    (r: Review) => env.ratingValue(r.rating)
  }

  /** What `getReviews` returns. */
  function Reviews(c: Collector, env: Env): Result<seq<Review>> {
    match Listing(c.count, PageUrlOf(c), env.fetch, ParseData)
    case Err(e) => Err(e)
    case Ok(col) => Ok(Ordered(col.records, c.orderBy, c.order, TimeKey(env), RatingKey(env)))
  }

  /** `getReviews`: collects the capped cards of every page and sorts the
      records in place. */
  method GetReviews(c: Collector, env: Env) returns (res: Result<seq<Review>>)
    ensures res == Reviews(c, env)
  {
    var col := CollectReviews(c.count, PageUrlOf(c), env.fetch, ParseData);
    if col.Err? {
      return Err(col.error);
    }
    var parsed := col.value.records;
    var data := new Review[|parsed|](i requires 0 <= i < |parsed| => parsed[i]);
    assert data[..] == parsed;
    Sort(data, c.orderBy, c.order, TimeKey(env), RatingKey(env));
    return Ok(data[..]);
  }

  /** A successful `getReviews` fetched each of pages 1..N exactly once
      and in order, N being the page count of page 1, even when the cap was
      reached on an earlier page. */
  lemma EachPageFetchedOnce(c: Collector, env: Env)
    requires Reviews(c, env).Ok?
    ensures var col := Listing(c.count, PageUrlOf(c), env.fetch, ParseData).value;
      var n := PageCount(ParsePagination(env.fetch(PageUrl(c.businessUnitId, 1)).value.elements)).value;
      |col.requested| == (if n > 1 then n else 1) &&
      (forall i :: 0 <= i < |col.requested| ==> col.requested[i] == PageUrl(c.businessUnitId, i + 1)) &&
      (forall i, j :: 0 <= i < j < |col.requested| ==> col.requested[i] != col.requested[j])
  {
    var urlOf := PageUrlOf(c);
    ListingShape(c.count, urlOf, env.fetch, ParseData);
    var n := PageCount(ParsePagination(env.fetch(urlOf(1)).value.elements)).value;
    PageUrls(c, if n > 1 then n else 1);
  }

  /** The URLs of pages 1..m are the listing URLs of those pages, and no
      two are equal. */
  lemma PageUrls(c: Collector, m: nat)
    ensures var urls := Urls(PageUrlOf(c), m);
      (forall i :: 0 <= i < m ==> urls[i] == PageUrl(c.businessUnitId, i + 1)) &&
      (forall i, j :: 0 <= i < j < m ==> urls[i] != urls[j])
  {
    var urls := Urls(PageUrlOf(c), m);
    forall i, j | 0 <= i < j < m ensures urls[i] != urls[j] {
      if urls[i] == urls[j] {
        PageUrlInjective(c.businessUnitId, i + 1, j + 1);
      }
    }
  }

  /** A successful `getReviews` returns a permutation of the records of
      the first `count` cards of the fetched pages: `min(count, cards)` of
      them for a non-negative count, all for -1, none for other negatives. */
  lemma ReviewsCap(c: Collector, env: Env)
    requires Reviews(c, env).Ok?
    ensures var col := Listing(c.count, PageUrlOf(c), env.fetch, ParseData).value;
      multiset(Reviews(c, env).value) == multiset(col.records)
    ensures var col := Listing(c.count, PageUrlOf(c), env.fetch, ParseData).value;
      FetchAll(col.requested, env.fetch).Some? &&
      var cards := Flatten(FetchAll(col.requested, env.fetch).value);
      |Reviews(c, env).value| == (if c.count == -1 then |cards| else if c.count < 0 then 0
                                  else if c.count < |cards| then c.count else |cards|)
  {
    var urlOf := PageUrlOf(c);
    var col := Listing(c.count, urlOf, env.fetch, ParseData).value;
    ListingCap(c.count, urlOf, env.fetch, ParseData);
    OrderedMeaning(col.records, c.orderBy, c.order, TimeKey(env), RatingKey(env));
    var r := Reviews(c, env).value;
    assert |r| == |multiset(r)| == |multiset(col.records)| == |col.records|;
  }

  /** The test's scenario: with `count` 1, a successful call that found at
      least one card returns exactly one review. */
  lemma CountOneGivesOneReview(c: Collector, env: Env)
    requires c.count == 1
    ensures var first := env.fetch(PageUrl(c.businessUnitId, 1));
      Reviews(c, env).Ok? && first.Some? && first.value.cards != [] ==> |Reviews(c, env).value| == 1
  {
    var first := env.fetch(PageUrl(c.businessUnitId, 1));
    if Reviews(c, env).Ok? && first.Some? && first.value.cards != [] {
      ReviewsCap(c, env);
      var urlOf := PageUrlOf(c);
      ListingShape(c.count, urlOf, env.fetch, ParseData);
      var col := Listing(c.count, urlOf, env.fetch, ParseData).value;
      var pages := FetchAll(col.requested, env.fetch).value;
      FirstPageFirst(col.requested, env.fetch);
      assert pages[0] == env.fetch(urlOf(1)).value;
      FlattenHasFirst(pages);
    }
  }

  lemma {:induction false} FirstPageFirst(urls: seq<string>, fetch: string -> Option<Page>)
    requires urls != [] && FetchAll(urls, fetch).Some?
    ensures |FetchAll(urls, fetch).value| == |urls|
    ensures Some(FetchAll(urls, fetch).value[0]) == fetch(urls[0])
    decreases |urls|
  {
    if |urls| > 1 {
      FirstPageFirst(urls[..|urls| - 1], fetch);
    } else {
      assert urls[..0] == [];
    }
  }

  lemma {:induction false} FlattenHasFirst(pages: seq<Page>)
    requires pages != []
    ensures |Flatten(pages)| >= |pages[0].cards|
    decreases |pages|
  {
    if |pages| > 1 {
      FlattenHasFirst(pages[..|pages| - 1]);
    } else {
      assert pages[..0] == [];
    }
  }
}
