# Trustpilot review collector, modelled in Dafny

The repository has two PHP classes that collect the public reviews a business
has on trustpilot.com. `TrustpilotReviewCollector` is the current class and
`TrustpilotReviewsCollector` is its older variant. Each one:

- downloads page 1 of the business's review listing;
- reads the review cards (`article` elements) one by one and turns each into
  a record with the `parse_*` extractors and `parse_data`;
- stops adding records once `count` of them are held, unless `count` is -1;
- reads the number N on the last pagination button (`parse_pagination`);
- fetches and reads pages 2..N in the same way;
- sorts the records by time or by rating (`sort`).

The model keeps this structure, one module per concern:

| module | file | contents |
|---|---|---|
| `Php` | php.dfy | the PHP string semantics the code depends on: truthiness for `?:` and `empty()`, `str_replace` with an empty replacement, XPath `contains()`, and decimal rendering and reading of integers |
| `Dom` | dom.dfy | a fetched page as the XPath queries observe it; the extractors and the pagination detector, which both classes share word for word |
| `Collect` | collect.dfy | the listing URL and its inverse; the cap; the page-by-page collection, as a specification function `Listing` and as the loop methods `AppendCards` and `CollectReviews` |
| `Sorter` | sorter.dfy | `sort`, specified by the function `Ordered` and implemented in place on an array by a stable insertion sort |
| `TrustpilotReviewCollector` | review_collector.dfy | the current class: its record, `parse_id`, `parse_url`, `parse_data` and `getReviews` |
| `TrustpilotReviewsCollector` | reviews_collector.dfy | the older class: its record, `parse_url`, `parse_data`, and `getReviews` both as written and corrected |

The outside world is abstracted. An `Env` value gives three functions:

- the HTTP GET together with the HTML parse of its body, as a function from
  URL to page, where `None` is a transport failure;
- `strtotime`;
- the number PHP's `<=>` reads from a rating string.

Where PHP raises an `Error`, the model returns `Err(...)`. This happens when
`getAttribute` is called on a missing node in `parse_id`, `parse_url`,
`parse_rating` or `parse_time`. Where PHP only warns, the model returns the
value PHP goes on with. This happens when `->nodeValue` is read from a
missing node: the result is null, and `?: ''` turns it into "".

Behaviour of the code that the model keeps as it is:

- A missing rating element is an error. A falsy rating ("0" or "") gives
  "" (`?: ''`).
- `count` 0 yields no records, yet pages 2..N are still fetched, because the
  cap only breaks the inner card loops.
- The review URL is `https://trustpilot.com/` followed by the href. A
  permalink `/reviews/<id>` therefore gives a doubled slash
  (`IdAndUrlOfPermalink`).

One behaviour is not kept. A pagination label that is not a plain decimal
number is made an error (`NonNumericPagination`), where PHP would fall back
to a loose comparison with the loop counter (see "## Left out").

## Model

| member | source | states |
|---|---|---|
| `Php.RemoveChangesIffContains` | src/TrustpilotReviewCollector.php:151 | `str_replace(p, "", s)` leaves `s` unchanged exactly when `p` does not occur in it; when `p` occurs, the result is strictly shorter |
| `Php.RemoveLeading` | src/TrustpilotReviewCollector.php:206 | removing the prefix `p` from `p + u` gives `u` when `p` does not occur in `u` |
| `Php.NatToString` | src/TrustpilotReviewCollector.php:61 | the rendering of a page number is a non-empty string of decimal digits |
| `Php.DecimalValueOfNatToString` | src/TrustpilotReviewCollector.php:61 | reading back a rendered page number gives the number |
| `Dom.ParsePagination` | src/TrustpilotReviewCollector.php:103-110 | the result is "no buttons" exactly when no element's name matches the button filter; otherwise it is the text of a matching element after which no element matches |
| `Dom.PageCount` | src/TrustpilotReviewCollector.php:329-331 | the number `$pagination > 1` and `$page <= $pagination` compare against. No buttons gives 1. A label gives a count exactly when it is decimal, and the count is the label's decimal value, so "03" gives 3. The count renders back to the label unless the label has a leading zero. A non-decimal label gives a `NonNumericPagination` error carrying the label |
| `Dom.NextControlIgnored` | src/TrustpilotReviewCollector.php:107 | a `pagination-button-next` element at the end does not change the result |
| `Dom.LastNumberedButtonCounts` | src/TrustpilotReviewCollector.php:107-109 | when the last element is the button `pagination-button-<n>` labelled `<n>`, the page count is n (for n up to 999) |
| `Dom.ParseConsumer` | src/TrustpilotReviewCollector.php:119-124 | the result is "" exactly when the name element is missing or its text is falsy; otherwise it is that text |
| `Dom.ParseAvatarUrl` | src/TrustpilotReviewCollector.php:144-155 | non-empty exactly when the avatar image, the profile link and a non-falsy href are all present; it is then the avatar host, the href with every "/users/" removed, and "/73x73.png" |
| `Dom.AvatarOfProfile` | src/TrustpilotReviewCollector.php:147-152 | a profile link `/users/<user>`, where `<user>` itself contains no "/users/", gives the 73x73 image of `<user>` |
| `Dom.ParseTitle` | src/TrustpilotReviewCollector.php:176-181 | "" exactly when the title element is missing or its text is falsy; otherwise that text |
| `Dom.ParseRating` | src/TrustpilotReviewCollector.php:232-237 | an error exactly when the rating element is missing; otherwise "" exactly when the attribute is falsy, and the attribute when it is not |
| `Dom.ParseTime` | src/TrustpilotReviewCollector.php:246-251 | an error exactly when the date element is missing; otherwise "" exactly when `datetime` is falsy, and the attribute when it is not |
| `Dom.TitleHref` | src/TrustpilotReviewCollector.php:194 | an error exactly when the title element is missing; otherwise its href, with a falsy href becoming "" |
| `Collect.PageUrlRoundTrip` | src/TrustpilotReviewCollector.php:61 | the page number can be read back from every listing URL; the URL has no `page` parameter exactly when the page is 1 |
| `Collect.PageUrlInjective` | src/TrustpilotReviewCollector.php:88 | different page numbers give different request URLs |
| `Collect.Room` | src/TrustpilotReviewCollector.php:322-324 | the number of cards the inner loop takes: all of them for -1; otherwise never past the cap, and fewer than are available only once the cap is reached |
| `Collect.Capped` | src/TrustpilotReviewCollector.php:320-327 | the cards kept from one list form a prefix of it: all cards for -1, `min(count, cards)` cards for a non-negative count, none for any other negative count |
| `Collect.CappedAppend` | src/TrustpilotReviewCollector.php:337-344 | capping two pages' cards is capping the first page, then letting the second page fill the room that is left |
| `Collect.ParseAll` | src/TrustpilotReviewCollector.php:326 | succeeds exactly when every card parses; a success holds the records pointwise; an error is the first card's failure |
| `Collect.ParseAllAppend` | src/TrustpilotReviewCollector.php:343 | parsing two card lists is parsing the first and then the second, failing at the first error |
| `Collect.ListingShape` | src/TrustpilotReviewCollector.php:306-346 | a successful collection requested pages 1..N, where N is the page count of page 1, whether or not the cap was reached earlier; each page was fetched; the records are the parse of the capped cards of those pages |
| `Collect.ListingCap` | src/TrustpilotReviewCollector.php:320-345 | the number of records of a successful collection is all cards for -1, none for another negative count, and `min(count, cards)` otherwise; record i is the parse of card i |
| `Collect.ListingSucceeds` | src/TrustpilotReviewCollector.php:306-346 | the converse of `ListingShape`: the collection succeeds when page 1 is fetched, its label is numeric, pages 1..N are fetched and their capped cards parse |
| `Collect.ListingSucceedsWhen` | src/TrustpilotReviewCollector.php:306-346 | both directions: the collection succeeds if and only if those four conditions hold |
| `Collect.AppendCards` | src/TrustpilotReviewCollector.php:320-327 | the inner card loop: the records already held, followed by the parse of the cards up to the cap, or the first card's error |
| `Collect.CollectReviews` | src/TrustpilotReviewCollector.php:308-346 | the loop over pages 1..N computes exactly `Listing` |
| `Sorter.InsertionSortPermutes` | src/TrustpilotReviewCollector.php:291-297 | sorting by a key gives a permutation of the input |
| `Sorter.InsertionSortSorts` | src/TrustpilotReviewCollector.php:291-297 | sorting by a key gives a sequence that is non-decreasing in that key |
| `Sorter.InsertionSortIsStable` | src/TrustpilotReviewCollector.php:291-297 | records with equal keys keep their relative order, as PHP 8's `usort` keeps them |
| `Sorter.InsertionSortOfSorted` | src/TrustpilotReviewCollector.php:291-297 | sorting an already sorted sequence changes nothing |
| `Sorter.OrderedMeaning` | src/TrustpilotReviewCollector.php:283-301 | always a permutation. Time/desc is unchanged. Time with any other order is ascending by time. Rating/asc is ascending by rating. Rating with any other order is descending by rating. Every sort is stable. An unknown `orderBy` is unchanged |
| `Sorter.OrderedIsIdempotent` | src/TrustpilotReviewCollector.php:283-301 | sorting twice with the same settings equals sorting once |
| `Sorter.InsertAt` | src/TrustpilotReviewCollector.php:291-293 | shifts `a[i]` into the sorted prefix `a[..i]`, which is then the insertion of that element; the rest of the array is unchanged |
| `Sorter.SortByKey` | src/TrustpilotReviewCollector.php:291-297 | the array afterwards is the stable insertion sort of what it held |
| `Sorter.Sort` | src/TrustpilotReviewCollector.php:283-301 | `sort(&$data)` in place: the array becomes `Ordered` of its old contents, with the order and permutation properties above stated directly |
| `TrustpilotReviewCollector.ParseId` | src/TrustpilotReviewCollector.php:203-207 | an error exactly when the title element is missing; otherwise the href with every "/reviews/" removed |
| `TrustpilotReviewCollector.ParseUrl` | src/TrustpilotReviewCollector.php:191-195 | an error exactly when the title element is missing; otherwise the site origin followed by the href |
| `TrustpilotReviewCollector.IdAndUrlOfPermalink` | src/TrustpilotReviewCollector.php:191-207 | a permalink `/reviews/<id>`, where `<id>` itself contains no "/reviews/", gives the id `<id>` and the URL `https://trustpilot.com//reviews/<id>` |
| `TrustpilotReviewCollector.ParseData` | src/TrustpilotReviewCollector.php:260-276 | succeeds exactly when the title, rating and date elements are all present; otherwise fails on the first one missing, in that order; a success holds each extractor's value in its field |
| `TrustpilotReviewCollector.MissingOrFalsyFields` | src/TrustpilotReviewCollector.php:119-273 | for a parsed card, which fields are "" and why. This covers the record fields of `Dom.ParseUserVerified` (lines 132-136: `verified` holds exactly when the badge is present) and of `Dom.ParseContent` (lines 216-223: `body` is "" exactly when the text element is missing or its text is ""), along with the user, title, rating, time and avatar fields |
| `TrustpilotReviewCollector.ToArray` | src/TrustpilotReviewCollector.php:263-273 | the array has exactly the nine keys id, user, avatar, verified, title, url, body, rating and time |
| `TrustpilotReviewCollector.ArrayRoundTrip` | src/TrustpilotReviewCollector.php:263-275 | the record can be read back from its array unchanged |
| `TrustpilotReviewCollector.GetReviews` | src/TrustpilotReviewCollector.php:306-351 | the imperative `getReviews`, with its in-place sort, returns exactly `Reviews` |
| `TrustpilotReviewCollector.EachPageFetchedOnce` | src/TrustpilotReviewCollector.php:329-345 | a successful call requested max(N, 1) URLs: URL i is that of page i + 1, and no two are equal |
| `TrustpilotReviewCollector.ReviewsCap` | src/TrustpilotReviewCollector.php:320-350 | a successful call returns a permutation of the collected records, with as many as the cap allows: all for -1, none for another negative count, `min(count, cards)` otherwise |
| `TrustpilotReviewCollector.CountOneGivesOneReview` | src/TrustpilotReviewCollector.php:322-326 | with `count` 1 and at least one card on page 1, a successful call returns exactly one review |
| `TrustpilotReviewsCollector.ParseUrl` | src/TrustpilotReviewsCollector.php:152-157 | an error exactly when the title element is missing; otherwise the raw href, with a falsy href becoming "" |
| `TrustpilotReviewsCollector.ParseData` | src/TrustpilotReviewsCollector.php:210-225 | succeeds exactly when the title, rating and date elements are present; otherwise fails on the first one missing; a success holds each extractor's value |
| `TrustpilotReviewsCollector.ToArray` | src/TrustpilotReviewsCollector.php:213-222 | the array has exactly the eight keys consumer, avatar, is_verified, title, url, content, rating and time |
| `TrustpilotReviewsCollector.ArrayRoundTrip` | src/TrustpilotReviewsCollector.php:213-224 | the record can be read back from its array unchanged, and the array has no `id` key |
| `TrustpilotReviewsCollector.GetReviewsAsWritten` | src/TrustpilotReviewsCollector.php:257 | as written, `getReviews` always fails with a call to the undefined method `getHtml` |
| `TrustpilotReviewsCollector.GetReviews` | src/TrustpilotReviewsCollector.php:255-300 | the corrected `getReviews`, which fetches through `getData`, returns exactly `Reviews` |
| `TrustpilotReviewsCollector.ReviewsCap` | src/TrustpilotReviewsCollector.php:269-297 | a successful corrected call returns a permutation of the collected records, as many as the cap allows |
| `TrustpilotReviewsCollector.GetHtmlIsUndefined` | src/TrustpilotReviewsCollector.php:282 | for a one-page listing with one complete card, the call as written fails, while the corrected call returns that card's review |

## Left out

- HTTP (Guzzle or cURL, headers, redirects, timeouts) and libxml's HTML parsing are left out. A fetched page is given as an abstract `Page`: its cards, and its elements' `name` attributes and text. `getPageHtml` and `getData` are modelled only as the URL they request (`Collect.PageUrl`).
- `strtotime` and PHP's `<=>` on rating strings are left out of the model. Both are opaque Env functions into int.
- `parse_iso` is left out: its body is empty in both classes and `parse_data` never calls it.
- The later pages use a stale node list: the PHP loop over pages 2..N iterates the `$items` list taken from page 1's document after `loadHTML` has replaced that document. The model assumes each page contributes its own cards.
- A pagination label that is not a plain decimal string is left out. This includes a label with surrounding whitespace, which PHP's numeric comparison would accept. The model returns `NonNumericPagination` rather than following PHP 8's string comparison.
- `sort`'s return value is left out. Only the in-place effect on `$data` is modelled, and `getReviews` ignores the return value. That value is `$data` for time/desc, `usort`'s `true` after a sort, and an undefined `$sorted` for an unknown `orderBy`.
- `count` is modelled as an integer. The string default '-1' and PHP's loose `!=` against -1 are represented by the integer -1.
- `Dom.LastNumberedButtonCounts`: stated only for page counts below 1000. The proof uses that such a button name is too short to contain `pagination-button-next`. Longer digit strings are not covered.

## Findings

| source | as written | input that shows it | evidently intended | confidence | as-written member | corrected member |
|---|---|---|---|---|---|---|
| src/TrustpilotReviewsCollector.php:257 | `getReviews` calls `$this->getHtml()` (and `getHtml($page)` at line 282), which the class does not define, so every call fails with an Error before any request | any collector, e.g. business "example.com" with count 1 whose listing has one complete card | fetch through `getData($page)`, the class's own fetcher, as the newer class does with `getPageHtml` | high; not executed | `TrustpilotReviewsCollector.GetReviewsAsWritten` (exhibited by `TrustpilotReviewsCollector.GetHtmlIsUndefined`) | `TrustpilotReviewsCollector.GetReviews` |
