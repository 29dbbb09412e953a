/** The listing URL and the capped, page-by-page collection loop of
    `getReviews`, generic in the record a card is parsed into.

    Each page is fetched by URL and comes back as its own card sequence.
    (In the PHP code the loop over pages 2..N iterates the `article` node
    list taken from page 1's document, after `loadHTML` has replaced that
    document's content; that the list then yields the new page's cards is
    libxml's behaviour and is taken as given here.) */
module Collect {
  import opened Php
  import opened Dom

  const ListingHost := "https://trustpilot.com/review/"
  const LanguagesQuery := "?languages=all"
  const PageQuery := "&page="
  const SortQuery := "&sort=recency"

  /** The URL of listing page `page` of `business`; page 1 has no `page`
      parameter. */
  function PageUrl(business: string, page: nat): string {
    ListingHost + business + LanguagesQuery
      + (if page != 1 then PageQuery + NatToString(page) else "")
      + SortQuery
  }

  /** Reads the page number back from a listing URL of `business`. */
  function PageOf(business: string, url: string): Option<nat> {
    var prefix := ListingHost + business + LanguagesQuery;
    if |url| < |prefix| + |SortQuery| || url[..|prefix|] != prefix || url[|url| - |SortQuery|..] != SortQuery then None
    else
      var middle := url[|prefix|..|url| - |SortQuery|];
      if middle == "" then Some(1)
      else if StartsWith(middle, PageQuery) && IsDecimal(middle[|PageQuery|..]) then
        Some(DecimalValue(middle[|PageQuery|..]))
      else None
  }

  /** The page number can be read back from every listing URL, and exactly
      the URL of page 1 carries no `page` parameter. */
  lemma PageUrlRoundTrip(business: string, page: nat)
    ensures PageOf(business, PageUrl(business, page)) == Some(page)
    ensures PageUrl(business, page) == ListingHost + business + LanguagesQuery + SortQuery <==> page == 1
  {
    var prefix := ListingHost + business + LanguagesQuery;
    var middle := if page != 1 then PageQuery + NatToString(page) else "";
    var url := PageUrl(business, page);
    assert url == prefix + middle + SortQuery;
    assert url[..|prefix|] == prefix;
    assert url[|url| - |SortQuery|..] == SortQuery;
    assert url[|prefix|..|url| - |SortQuery|] == middle;
    if page != 1 {
      assert |url| > |prefix + SortQuery|;
      assert middle[..|PageQuery|] == PageQuery;
      assert middle[|PageQuery|..] == NatToString(page);
      DecimalValueOfNatToString(page);
    }
  }

  /** Different pages have different URLs. */
  lemma PageUrlInjective(business: string, n: nat, m: nat)
    requires PageUrl(business, n) == PageUrl(business, m)
    ensures n == m
  {
    PageUrlRoundTrip(business, n);
    PageUrlRoundTrip(business, m);
  }

  // ------------------------------------------------------------ the cap

  /** How many of `available` cards the loop appends to a list that holds
      `have`: it breaks as soon as `count(parsed) >= count && count != -1`. */
  function Room(count: int, have: nat, available: nat): (n: nat)
    ensures n <= available
    ensures count == -1 ==> n == available
    ensures count != -1 ==> have + n <= count || n == 0
    ensures count != -1 && n < available ==> have + n >= count
  {
    if count == -1 then available
    else if count - have <= 0 then 0
    else if count - have < available then count - have
    else available
  }

  /** The cards a cap of `count` lets through: all for -1, the first
      `count` for any other non-negative count, none for other negatives. */
  function Capped(count: int, cards: seq<Card>): (r: seq<Card>)
    ensures |r| <= |cards| && r == cards[..|r|]
    ensures count == -1 ==> r == cards
    ensures count >= 0 ==> |r| == if count < |cards| then count else |cards|
    ensures count < -1 ==> r == []
  {
    cards[..Room(count, 0, |cards|)]
  }

  /** Capping the cards of several pages is capping the first ones and
      letting the next page fill what room is left. */
  lemma CappedAppend(count: int, f: seq<Card>, p: seq<Card>)
    ensures Capped(count, f + p) == Capped(count, f) + p[..Room(count, |Capped(count, f)|, |p|)]
  {
    var h := |Capped(count, f)|;
    var room := Room(count, h, |p|);
    if count == -1 {
      assert p[..room] == p;
    } else if count > |f| {
      assert (f + p)[..|f| + room] == f + p[..room];
    } else {
      assert room == 0;
    }
  }

  /** Parses the cards in order and stops at the first card that fails. */
  function ParseAll<R>(cards: seq<Card>, parse: Card -> Result<R>): (r: Result<seq<R>>)
    ensures r.Ok? <==> forall i :: 0 <= i < |cards| ==> parse(cards[i]).Ok?
    ensures r.Ok? ==> |r.value| == |cards| && forall i :: 0 <= i < |cards| ==> r.value[i] == parse(cards[i]).value
    ensures r.Err? ==> exists i :: 0 <= i < |cards| && parse(cards[i]) == Err(r.error) &&
                         forall j :: 0 <= j < i ==> parse(cards[j]).Ok?
    decreases |cards|
  {
    if cards == [] then Ok([])
    else match parse(cards[0])
      case Err(e) => Err(e)
      case Ok(x) =>
        match ParseAll(cards[1..], parse)
        case Err(e) => Err(e)
        case Ok(xs) => Ok([x] + xs)
  }

  lemma {:induction false} ParseAllAppend<R>(a: seq<Card>, b: seq<Card>, parse: Card -> Result<R>)
    ensures ParseAll(a + b, parse) ==
      match ParseAll(a, parse)
      case Err(e) => Err(e)
      case Ok(xs) =>
        match ParseAll(b, parse)
        case Err(e) => Err(e)
        case Ok(ys) => Ok(xs + ys)
    decreases |a|
  {
    if a == [] {
      assert a + b == b;
      match ParseAll(b, parse)
      case Err(e) =>
      case Ok(ys) => assert [] + ys == ys;
    } else {
      assert (a + b)[0] == a[0];
      assert (a + b)[1..] == a[1..] + b;
      ParseAllAppend(a[1..], b, parse);
      match parse(a[0])
      case Err(e) =>
      case Ok(x) =>
        match ParseAll(a[1..], parse)
        case Err(e) =>
        case Ok(xs) =>
          match ParseAll(b, parse)
          case Err(e) =>
          case Ok(ys) =>
            assert [x] + (xs + ys) == ([x] + xs) + ys;
    }
  }

  // ------------------------------------------------------------ pages

  function Flatten(pages: seq<Page>): seq<Card>
    decreases |pages|
  {
    if pages == [] then [] else Flatten(pages[..|pages| - 1]) + pages[|pages| - 1].cards
  }

  /** Fetches every URL in order; None when one of the fetches fails. */
  function FetchAll(urls: seq<string>, fetch: string -> Option<Page>): Option<seq<Page>>
    decreases |urls|
  {
    if urls == [] then Some([])
    else match FetchAll(urls[..|urls| - 1], fetch)
      case None => None
      case Some(pages) =>
        match fetch(urls[|urls| - 1])
        case None => None
        case Some(p) => Some(pages + [p])
  }

  /** The URLs of pages 1..n, and of page 1 alone when n is at most 1. */
  function Requested(urlOf: nat -> string, n: nat): seq<string> {
    Urls(urlOf, if n > 1 then n else 1)
  }

  /** The URLs of pages 1..n. */
  function Urls(urlOf: nat -> string, n: nat): (r: seq<string>)
    ensures |r| == n && forall i :: 0 <= i < n ==> r[i] == urlOf(i + 1)
  {
    seq(n, i requires 0 <= i < n => urlOf(i + 1))
  }

  /** What a collection returns: the records, and the URLs it fetched in
      the order it fetched them. */
  datatype Collection<R> = Collection(records: seq<R>, requested: seq<string>)

  /** The collection from page `page` to page `last`, after `acc`. */
  function MorePages<R>(count: int, urlOf: nat -> string, fetch: string -> Option<Page>,
                        parse: Card -> Result<R>, page: nat, last: nat, acc: Collection<R>): Result<Collection<R>>
    decreases last + 1 - page
  {
    if page > last then Ok(acc)
    else match fetch(urlOf(page))
      case None => Err(TransportFailure(urlOf(page)))
      case Some(p) =>
        match ParseAll(p.cards[..Room(count, |acc.records|, |p.cards|)], parse)
        case Err(e) => Err(e)
        case Ok(rs) =>
          MorePages(count, urlOf, fetch, parse, page + 1, last,
                    Collection(acc.records + rs, acc.requested + [urlOf(page)]))
  }

  /** The whole collection, step by step as `getReviews` does it: page 1,
      its cards up to the cap, the page count, then pages 2..N. */
  function Listing<R>(count: int, urlOf: nat -> string, fetch: string -> Option<Page>,
                      parse: Card -> Result<R>): Result<Collection<R>>
  {
    match fetch(urlOf(1))
    case None => Err(TransportFailure(urlOf(1)))
    case Some(first) =>
      match ParseAll(Capped(count, first.cards), parse)
      case Err(e) => Err(e)
      case Ok(head) =>
        match PageCount(ParsePagination(first.elements))
        case Err(e) => Err(e)
        case Ok(n) => MorePages(count, urlOf, fetch, parse, 2, n, Collection(head, [urlOf(1)]))
  }

  // ------------------------------------------------------------ what it collects

  /** Page 1 alone: its URL list, its fetch and its cards. */
  lemma FirstPage(urlOf: nat -> string, fetch: string -> Option<Page>, first: Page)
    requires fetch(urlOf(1)) == Some(first)
    ensures Urls(urlOf, 1) == [urlOf(1)]
    ensures FetchAll([urlOf(1)], fetch) == Some([first])
    ensures Flatten([first]) == first.cards
  {
    assert [urlOf(1)][..0] == [];
    assert [] + [first] == [first];
    assert [first][..0] == [];
  }

  /** Fetching one more page extends the URL list and the fetched pages. */
  lemma NextPage(urlOf: nat -> string, fetch: string -> Option<Page>, page: nat, seen: seq<Page>, p: Page)
    requires page >= 1
    requires FetchAll(Urls(urlOf, page - 1), fetch) == Some(seen)
    requires fetch(urlOf(page)) == Some(p)
    ensures Urls(urlOf, page - 1) + [urlOf(page)] == Urls(urlOf, page)
    ensures FetchAll(Urls(urlOf, page), fetch) == Some(seen + [p])
  {
    var urls := Urls(urlOf, page);
    assert Urls(urlOf, page - 1) + [urlOf(page)] == urls;
    assert urls[..|urls| - 1] == Urls(urlOf, page - 1);
  }

  /** The records of one more page are what room is left for its cards. */
  lemma NextRecords<R>(count: int, seen: seq<Page>, p: Page, records: seq<R>, parse: Card -> Result<R>)
    requires ParseAll(Capped(count, Flatten(seen)), parse) == Ok(records)
    ensures ParseAll(Capped(count, Flatten(seen + [p])), parse) ==
      match ParseAll(p.cards[..Room(count, |records|, |p.cards|)], parse)
      case Err(e) => Err(e)
      case Ok(rs) => Ok(records + rs)
  {
    assert (seen + [p])[..|seen|] == seen;
    assert Flatten(seen + [p]) == Flatten(seen) + p.cards;
    CappedAppend(count, Flatten(seen), p.cards);
    ParseAllAppend(Capped(count, Flatten(seen)), p.cards[..Room(count, |records|, |p.cards|)], parse);
  }

  lemma {:induction false} MorePagesShape<R>(count: int, urlOf: nat -> string, fetch: string -> Option<Page>,
                                             parse: Card -> Result<R>, page: nat, last: nat,
                                             acc: Collection<R>, seen: seq<Page>)
    requires page >= 2
    requires acc.requested == Urls(urlOf, page - 1)
    requires FetchAll(acc.requested, fetch) == Some(seen)
    requires ParseAll(Capped(count, Flatten(seen)), parse) == Ok(acc.records)
    requires MorePages(count, urlOf, fetch, parse, page, last, acc).Ok?
    ensures var col := MorePages(count, urlOf, fetch, parse, page, last, acc).value;
      col.requested == Urls(urlOf, if last >= page then last else page - 1) &&
      FetchAll(col.requested, fetch).Some? &&
      ParseAll(Capped(count, Flatten(FetchAll(col.requested, fetch).value)), parse) == Ok(col.records)
    decreases last + 1 - page
  {
    if page <= last {
      var p := fetch(urlOf(page)).value;
      var room := Room(count, |acc.records|, |p.cards|);
      var rs := ParseAll(p.cards[..room], parse).value;
      var next := Collection(acc.records + rs, acc.requested + [urlOf(page)]);
      NextPage(urlOf, fetch, page, seen, p);
      NextRecords(count, seen, p, acc.records, parse);
      MorePagesShape(count, urlOf, fetch, parse, page + 1, last, next, seen + [p]);
    }
  }

  /** A successful collection fetched pages 1..N, each once and in order
      (N the page count of page 1), whether or not the cap was reached, and
      holds the records of the capped cards of those pages. */
  lemma ListingShape<R>(count: int, urlOf: nat -> string, fetch: string -> Option<Page>, parse: Card -> Result<R>)
    requires Listing(count, urlOf, fetch, parse).Ok?
    ensures fetch(urlOf(1)).Some?
    ensures PageCount(ParsePagination(fetch(urlOf(1)).value.elements)).Ok?
    ensures Listing(count, urlOf, fetch, parse).value.requested
         == Requested(urlOf, PageCount(ParsePagination(fetch(urlOf(1)).value.elements)).value)
    ensures FetchAll(Listing(count, urlOf, fetch, parse).value.requested, fetch).Some?
    ensures ParseAll(Capped(count, Flatten(FetchAll(Listing(count, urlOf, fetch, parse).value.requested, fetch).value)), parse)
         == Ok(Listing(count, urlOf, fetch, parse).value.records)
  {
    var first := fetch(urlOf(1)).value;
    var head := ParseAll(Capped(count, first.cards), parse).value;
    var n := PageCount(ParsePagination(first.elements)).value;
    var acc := Collection(head, [urlOf(1)]);
    FirstPage(urlOf, fetch, first);
    MorePagesShape(count, urlOf, fetch, parse, 2, n, acc, [first]);
  }

  /** The records of a successful collection are those of the first `count`
      cards of pages 1..N in page and then card order: all of them for -1,
      none for any other negative count. */
  lemma ListingCap<R>(count: int, urlOf: nat -> string, fetch: string -> Option<Page>, parse: Card -> Result<R>)
    requires Listing(count, urlOf, fetch, parse).Ok?
    ensures FetchAll(Listing(count, urlOf, fetch, parse).value.requested, fetch).Some?
    ensures var records := Listing(count, urlOf, fetch, parse).value.records;
      var cards := Flatten(FetchAll(Listing(count, urlOf, fetch, parse).value.requested, fetch).value);
      |records| == (if count == -1 then |cards| else if count < 0 then 0
                    else if count < |cards| then count else |cards|) &&
      forall i :: 0 <= i < |records| ==> parse(cards[i]) == Ok(records[i])
  {
    ListingShape(count, urlOf, fetch, parse);
  }

  /** A successful fetch of several URLs fetched each of its prefixes. */
  lemma {:induction false} FetchAllPrefix(urls: seq<string>, k: nat, fetch: string -> Option<Page>)
    requires k <= |urls| && FetchAll(urls, fetch).Some?
    ensures |FetchAll(urls, fetch).value| == |urls|
    ensures FetchAll(urls[..k], fetch) == Some(FetchAll(urls, fetch).value[..k])
    ensures k < |urls| ==> fetch(urls[k]) == Some(FetchAll(urls, fetch).value[k])
    decreases |urls|
  {
    if urls == [] {
      assert urls[..k] == [];
    } else {
      var init := urls[..|urls| - 1];
      FetchAllPrefix(init, if k == |urls| then |init| else k, fetch);
      var pages := FetchAll(init, fetch).value;
      var last := fetch(urls[|urls| - 1]).value;
      assert FetchAll(urls, fetch).value == pages + [last];
      if k == |urls| {
        assert urls[..k] == urls;
        assert (pages + [last])[..k] == pages + [last];
      } else {
        assert init[..k] == urls[..k];
        assert (pages + [last])[..k] == pages[..k];
        if k < |init| {
          assert init[k] == urls[k];
        }
      }
    }
  }

  lemma {:induction false} FlattenAppend(a: seq<Page>, b: seq<Page>)
    ensures Flatten(a + b) == Flatten(a) + Flatten(b)
    decreases |b|
  {
    if b == [] {
      assert a + b == a;
    } else {
      var init := b[..|b| - 1];
      FlattenAppend(a, init);
      assert (a + b)[..|a + b| - 1] == a + init;
    }
  }

  /** When the capped cards of a longer card list all parse, so do those of
      a prefix of it. */
  lemma CappedPrefixParses<R>(count: int, xs: seq<Card>, ys: seq<Card>, parse: Card -> Result<R>)
    requires ParseAll(Capped(count, xs + ys), parse).Ok?
    ensures ParseAll(Capped(count, xs), parse).Ok?
  {
    CappedAppend(count, xs, ys);
    ParseAllAppend(Capped(count, xs), ys[..Room(count, |Capped(count, xs)|, |ys|)], parse);
  }

  lemma FlattenPrefixParses<R>(count: int, pages: seq<Page>, k: nat, parse: Card -> Result<R>)
    requires k <= |pages|
    requires ParseAll(Capped(count, Flatten(pages)), parse).Ok?
    ensures ParseAll(Capped(count, Flatten(pages[..k])), parse).Ok?
  {
    var front, back := pages[..k], pages[k..];
    assert pages == front + back;
    FlattenAppend(front, back);
    CappedPrefixParses(count, Flatten(front), Flatten(back), parse);
  }

  /** One step of `MorePagesSucceeds`: page `page` of the longer fetch is
      fetched, and the capped cards up to it parse. */
  lemma NextPageSucceeds<R>(count: int, urlOf: nat -> string, fetch: string -> Option<Page>,
                            parse: Card -> Result<R>, page: nat, last: nat, seen: seq<Page>)
    requires 2 <= page <= last
    requires FetchAll(Urls(urlOf, page - 1), fetch) == Some(seen)
    requires var urls := Urls(urlOf, last);
      FetchAll(urls, fetch).Some? && ParseAll(Capped(count, Flatten(FetchAll(urls, fetch).value)), parse).Ok?
    ensures fetch(urlOf(page)).Some?
    ensures ParseAll(Capped(count, Flatten(seen + [fetch(urlOf(page)).value])), parse).Ok?
  {
    var urls := Urls(urlOf, last);
    var all := FetchAll(urls, fetch).value;
    FetchAllPrefix(urls, page - 1, fetch);
    assert urls[..page - 1] == Urls(urlOf, page - 1);
    assert urls[page - 1] == urlOf(page);
    var p := fetch(urlOf(page)).value;
    assert all[..page] == seen + [p];
    FlattenPrefixParses(count, all, page, parse);
  }

  lemma {:induction false} MorePagesSucceeds<R>(count: int, urlOf: nat -> string, fetch: string -> Option<Page>,
                                                parse: Card -> Result<R>, page: nat, last: nat,
                                                acc: Collection<R>, seen: seq<Page>)
    requires page >= 2
    requires acc.requested == Urls(urlOf, page - 1)
    requires FetchAll(acc.requested, fetch) == Some(seen)
    requires ParseAll(Capped(count, Flatten(seen)), parse) == Ok(acc.records)
    requires var urls := Urls(urlOf, if last >= page then last else page - 1);
      FetchAll(urls, fetch).Some? && ParseAll(Capped(count, Flatten(FetchAll(urls, fetch).value)), parse).Ok?
    ensures MorePages(count, urlOf, fetch, parse, page, last, acc).Ok?
    decreases last + 1 - page
  {
    if page <= last {
      NextPageSucceeds(count, urlOf, fetch, parse, page, last, seen);
      var p := fetch(urlOf(page)).value;
      NextPage(urlOf, fetch, page, seen, p);
      NextRecords(count, seen, p, acc.records, parse);
      var rs := ParseAll(p.cards[..Room(count, |acc.records|, |p.cards|)], parse).value;
      var next := Collection(acc.records + rs, acc.requested + [urlOf(page)]);
      assert (if last >= page + 1 then last else page) == last;
      MorePagesSucceeds(count, urlOf, fetch, parse, page + 1, last, next, seen + [p]);
    }
  }

  /** When the capped cards of pages 1..N all parse, so do those of page 1. */
  lemma FirstPageParses<R>(count: int, urlOf: nat -> string, fetch: string -> Option<Page>, parse: Card -> Result<R>,
                           first: Page, urls: seq<string>)
    requires fetch(urlOf(1)) == Some(first)
    requires |urls| >= 1 && urls[0] == urlOf(1)
    requires FetchAll(urls, fetch).Some? && ParseAll(Capped(count, Flatten(FetchAll(urls, fetch).value)), parse).Ok?
    ensures ParseAll(Capped(count, first.cards), parse).Ok?
  {
    var all := FetchAll(urls, fetch).value;
    FetchAllPrefix(urls, 0, fetch);
    assert all[..1] == [first];
    FlattenPrefixParses(count, all, 1, parse);
    assert Flatten([first]) == first.cards by { assert [first][..0] == []; }
  }

  /** The converse of `ListingShape`: when page 1 is fetched, its last page
      button is a number N, pages 1..N are fetched and the capped cards of
      all of them parse, the collection succeeds. */
  lemma ListingSucceeds<R>(count: int, urlOf: nat -> string, fetch: string -> Option<Page>, parse: Card -> Result<R>)
    requires fetch(urlOf(1)).Some?
    requires PageCount(ParsePagination(fetch(urlOf(1)).value.elements)).Ok?
    requires var urls := Requested(urlOf, PageCount(ParsePagination(fetch(urlOf(1)).value.elements)).value);
      FetchAll(urls, fetch).Some? && ParseAll(Capped(count, Flatten(FetchAll(urls, fetch).value)), parse).Ok?
    ensures Listing(count, urlOf, fetch, parse).Ok?
  {
    var first := fetch(urlOf(1)).value;
    var n := PageCount(ParsePagination(first.elements)).value;
    var urls := Requested(urlOf, n);
    FirstPageParses(count, urlOf, fetch, parse, first, urls);
    FirstPage(urlOf, fetch, first);
    var acc := Collection(ParseAll(Capped(count, first.cards), parse).value, [urlOf(1)]);
    MorePagesSucceeds(count, urlOf, fetch, parse, 2, n, acc, [first]);
  }

  /** A collection fails exactly when a fetch of pages 1..N fails, when the
      last page button is not a number, or when one of the capped cards
      fails to parse. */
  lemma ListingSucceedsWhen<R>(count: int, urlOf: nat -> string, fetch: string -> Option<Page>, parse: Card -> Result<R>)
    ensures Listing(count, urlOf, fetch, parse).Ok? <==>
      fetch(urlOf(1)).Some? &&
      PageCount(ParsePagination(fetch(urlOf(1)).value.elements)).Ok? &&
      var urls := Requested(urlOf, PageCount(ParsePagination(fetch(urlOf(1)).value.elements)).value);
      FetchAll(urls, fetch).Some? && ParseAll(Capped(count, Flatten(FetchAll(urls, fetch).value)), parse).Ok?
  {
    if Listing(count, urlOf, fetch, parse).Ok? {
      ListingShape(count, urlOf, fetch, parse);
    } else if fetch(urlOf(1)).Some? && PageCount(ParsePagination(fetch(urlOf(1)).value.elements)).Ok? {
      var urls := Requested(urlOf, PageCount(ParsePagination(fetch(urlOf(1)).value.elements)).value);
      if FetchAll(urls, fetch).Some? && ParseAll(Capped(count, Flatten(FetchAll(urls, fetch).value)), parse).Ok? {
        ListingSucceeds(count, urlOf, fetch, parse);
      }
    }
  }

  // ------------------------------------------------------------ the loop

  /** Parsing one card more: the records so far and then that card's. */
  lemma ParseNext<R>(cards: seq<Card>, k: nat, parse: Card -> Result<R>)
    requires k < |cards|
    ensures ParseAll(cards[..k + 1], parse) ==
      match ParseAll(cards[..k], parse)
      case Err(e) => Err(e)
      case Ok(xs) =>
        match parse(cards[k])
        case Err(e) => Err(e)
        case Ok(x) => Ok(xs + [x])
  {
    assert cards[..k + 1] == cards[..k] + [cards[k]];
    ParseAllAppend(cards[..k], [cards[k]], parse);
    assert [cards[k]][1..] == [];
    match parse(cards[k])
    case Err(e) =>
    case Ok(x) => assert [x] + [] == [x];
  }

  /** The first card that fails to parse decides the error of every longer
      prefix. */
  lemma ParseStops<R>(cards: seq<Card>, k: nat, m: nat, parse: Card -> Result<R>)
    requires k < m <= |cards|
    requires ParseAll(cards[..k], parse).Ok? && parse(cards[k]).Err?
    ensures ParseAll(cards[..m], parse) == Err(parse(cards[k]).error)
  {
    ParseNext(cards, k, parse);
    assert cards[..m] == cards[..k + 1] + cards[k + 1..m];
    ParseAllAppend(cards[..k + 1], cards[k + 1..m], parse);
  }

  /** The inner `foreach ($items as $item)` loop: appends the parsed cards to
      `parsed`, breaking as soon as the cap is reached; a card whose parse
      fails aborts the collection. */
  method AppendCards<R>(count: int, parsed: seq<R>, cards: seq<Card>, parse: Card -> Result<R>)
    returns (res: Result<seq<R>>)
    ensures res == match ParseAll(cards[..Room(count, |parsed|, |cards|)], parse)
                   case Err(e) => Err(e)
                   case Ok(rs) => Ok(parsed + rs)
  {
    var acc := parsed;
    var k := 0;
    ghost var room := Room(count, |parsed|, |cards|);
    assert cards[..0] == [] && acc[|parsed|..] == [];
    while k < |cards|
      invariant 0 <= k <= room
      invariant |acc| == |parsed| + k && acc[..|parsed|] == parsed
      invariant ParseAll(cards[..k], parse) == Ok(acc[|parsed|..])
    {
      if |acc| >= count && count != -1 {
        break;
      }
      var r := parse(cards[k]);
      ParseNext(cards, k, parse);
      if r.Err? {
        ParseStops(cards, k, room, parse);
        return Err(r.error);
      }
      assert (acc + [r.value])[|parsed|..] == acc[|parsed|..] + [r.value];
      acc := acc + [r.value];
      k := k + 1;
    }
    assert k == room;
    assert acc == parsed + acc[|parsed|..];
    return Ok(acc);
  }

  /** `getReviews` up to the sort: fetch page 1, collect its cards, read the
      page count, then fetch and collect pages 2..N. */
  method CollectReviews<R>(count: int, urlOf: nat -> string, fetch: string -> Option<Page>, parse: Card -> Result<R>)
    returns (res: Result<Collection<R>>)
    ensures res == Listing(count, urlOf, fetch, parse)
  {
    var data := fetch(urlOf(1));
    if data.None? {
      return Err(TransportFailure(urlOf(1)));
    }
    var dom := data.value;
    var items := dom.cards;
    var pagination := ParsePagination(dom.elements);
    var first := AppendCards(count, [], items, parse);
    if first.Err? {
      return Err(first.error);
    }
    var total := PageCount(pagination);
    if total.Err? {
      return Err(total.error);
    }
    var parsed := first.value;
    var requested := [urlOf(1)];
    assert parsed == ParseAll(Capped(count, items), parse).value by {
      assert [] + parsed == parsed;
    }
    var last := total.value;
    var page := 2;
    while page <= last
      invariant 2 <= page
      invariant MorePages(count, urlOf, fetch, parse, page, last, Collection(parsed, requested))
             == Listing(count, urlOf, fetch, parse)
      decreases last as int + 1 - page
    {
      var next := fetch(urlOf(page));
      if next.None? {
        return Err(TransportFailure(urlOf(page)));
      }
      var more := AppendCards(count, parsed, next.value.cards, parse);
      if more.Err? {
        return Err(more.error);
      }
      parsed := more.value;
      requested := requested + [urlOf(page)];
      page := page + 1;
    }
    return Ok(Collection(parsed, requested));
  }
}
