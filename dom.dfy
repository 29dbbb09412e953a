/** The fetched listing page, reduced to what the collectors' XPath queries
    look for, and the field extractors and the pagination detector that the
    two collector classes share word for word.

    A review card (an `article` element) is given by the first match, inside
    that card, of each `data-*` marker query; a page by its cards in document
    order and by its elements' `name` attributes and text, in document order. */
module Dom {
  import opened Php

  datatype Option<T> = None | Some(value: T)

  datatype Error =
    | TransportFailure(url: string)       // the page could not be fetched
    | MissingElement(marker: string)      // a method was called on a missing node
    | NonNumericPagination(caption: string) // the last page button is not a number
    | UndefinedMethod(name: string)       // a call to a method the class lacks

  datatype Result<T> = Ok(value: T) | Err(error: Error)

  /** The element marked `data-review-title-typography`: its text and its
      `href` attribute ("" when the attribute is absent). */
  datatype Link = Link(text: string, href: string)

  datatype Card = Card(
    consumerName: Option<string>,  // text of `.//*[@data-consumer-name-typography]`
    verifiedBadge: bool,           // some `.//*[contains(@class, 'ic-verified-user-check')]`
    avatarImage: bool,             // some `.//*[@data-consumer-avatar-image]`
    profileLink: Option<string>,   // href of `.//*[@data-consumer-profile-link]`
    titleLink: Option<Link>,       // `.//*[@data-review-title-typography]`
    reviewText: Option<string>,    // text of `.//*[@data-service-review-text-typography]`
    rating: Option<string>,        // `data-service-review-rating` of `.//div[@data-service-review-rating]`
    dateTime: Option<string>)      // `datetime` of `.//*[@data-service-review-date-time-ago]`

  /** An element of the page: its `name` attribute ("" when absent) and text. */
  datatype Element = Element(name: string, text: string)

  datatype Page = Page(cards: seq<Card>, elements: seq<Element>)

  /** The library calls the collectors make: the HTTP GET (with the HTML
      parse of its body), `strtotime`, and the numeric reading PHP's `<=>`
      gives a rating string. */
  datatype Env = Env(
    fetch: string -> Option<Page>,
    strtotime: string -> int,
    ratingValue: string -> int)

  const TitleMarker := "data-review-title-typography"
  const RatingMarker := "data-service-review-rating"
  const DateTimeMarker := "data-service-review-date-time-ago"
  const AvatarHost := "https://user-images.trustpilot.com/"
  const AvatarSize := "/73x73.png"
  const ButtonPrefix := "pagination-button-"
  const NextControl := "pagination-button-next"

  // ---------------------------------------------------------------- pagination

  /** The XPath filter of the pagination query: a `pagination-button-*`
      name that is not the `pagination-button-next` control. */
  predicate IsPageButton(name: string) {
    Contains(name, ButtonPrefix) && !Contains(name, NextControl)
  }

  /** What `parse_pagination` returns: the integer 1 when there is no page
      button, otherwise the text of the last one. */
  datatype Pagination = NoButtons | LastLabel(caption: string)

  function ParsePagination(elements: seq<Element>): (p: Pagination)
    ensures p.NoButtons? <==> forall i :: 0 <= i < |elements| ==> !IsPageButton(elements[i].name)
    ensures p.LastLabel? ==>
      exists i :: 0 <= i < |elements| && IsPageButton(elements[i].name) && p.caption == elements[i].text &&
        forall j :: i < j < |elements| ==> !IsPageButton(elements[j].name)
    decreases |elements|
  {
    if elements == [] then NoButtons
    else if IsPageButton(elements[|elements| - 1].name) then LastLabel(elements[|elements| - 1].text)
    else ParsePagination(elements[..|elements| - 1])
  }

  /** The page count `getReviews` compares against: 1 without buttons, the
      number the last label spells otherwise. */
  function PageCount(p: Pagination): (r: Result<nat>)
    ensures p.NoButtons? ==> r == Ok(1)
    ensures p.LastLabel? ==> (r.Ok? <==> IsDecimal(p.caption))
    ensures p.LastLabel? && r.Ok? ==> r.value == DecimalValue(p.caption)
    ensures p.LastLabel? && r.Ok? ==> NatToString(r.value) == p.caption || p.caption[0] == '0'
    ensures r.Err? ==> r.error == NonNumericPagination(p.caption)
  {
    match p
    case NoButtons => Ok(1)
    case LastLabel(caption) =>
      if IsDecimal(caption) then
        CanonicalDecimal(caption);
        Ok(DecimalValue(caption))
      else Err(NonNumericPagination(caption))
  }

  /** The "next page" control after the buttons does not count. */
  lemma NextControlIgnored(elements: seq<Element>, text: string)
    ensures ParsePagination(elements + [Element(NextControl, text)]) == ParsePagination(elements)
  {
    var next := NextControl;
    assert StartsWith(next, next) by { assert next[..|next|] == next; }
    assert (elements + [Element(next, text)])[..|elements|] == elements;
  }

  /** When the last page button is `pagination-button-<n>` labelled <n>,
      for a page count of at most three digits, the count is n. */
  lemma LastNumberedButtonCounts(elements: seq<Element>, n: nat)
    requires n < 1000
    ensures var button := Element(ButtonPrefix + NatToString(n), NatToString(n));
      PageCount(ParsePagination(elements + [button])) == Ok(n)
  {
    var digits := NatToString(n);
    var name := ButtonPrefix + digits;
    assert |digits| <= 3 by {
      if n >= 10 {
        assert NatToString(n) == NatToString(n / 10) + [DigitChar(n % 10)];
        if n / 10 >= 10 {
          assert NatToString(n / 10) == NatToString(n / 100) + [DigitChar(n / 10 % 10)];
        }
      }
    }
    assert StartsWith(name, ButtonPrefix) by { assert name[..|ButtonPrefix|] == ButtonPrefix; }
    NoRoomNoOccurrence(name, NextControl);
    assert IsPageButton(name);
    DecimalValueOfNatToString(n);
  }

  /** A decimal string without a leading zero is the rendering of its value. */
  lemma {:induction false} CanonicalDecimal(s: string)
    requires IsDecimal(s)
    ensures NatToString(DecimalValue(s)) == s || s[0] == '0'
    decreases |s|
  {
    var init, d := s[..|s| - 1], s[|s| - 1];
    assert IsDigit(d);
    if init == [] {
      assert DecimalValue(s) == d as int - '0' as int;
    } else if s[0] != '0' {
      assert IsDecimal(init) && init[0] == s[0];
      CanonicalDecimal(init);
      var v := DecimalValue(init);
      assert v >= 1 by {
        if v == 0 { ZeroValueMeansZeros(init); }
      }
      var n := DecimalValue(s);
      assert n == v * 10 + (d as int - '0' as int);
      assert n / 10 == v && n % 10 == d as int - '0' as int;
      assert DigitChar(n % 10) == d;
    }
  }

  lemma {:induction false} ZeroValueMeansZeros(s: string)
    requires IsDecimal(s) && DecimalValue(s) == 0
    ensures s[0] == '0'
    decreases |s|
  {
    if |s| > 1 {
      assert IsDecimal(s[..|s| - 1]);
      ZeroValueMeansZeros(s[..|s| - 1]);
    }
  }

  // ---------------------------------------------------------------- extractors

  /** `parse_consumer`: the name text, "" when the element is missing (null)
      or its text is falsy. */
  function ParseConsumer(card: Card): (r: string)
    ensures r == "" <==> card.consumerName.None? || Falsy(card.consumerName.value)
    ensures r != "" ==> r == card.consumerName.value
  {
    match card.consumerName
    case None => ""
    case Some(name) => Elvis(name)
  }

  /** `parse_user_verified`: whether the verified badge is present. */
  function ParseUserVerified(card: Card): (r: bool)
    ensures r <==> card.verifiedBadge
  {
    card.verifiedBadge
  }

  /** `parse_avatar_url`: the 73x73 image of the profile link, with every
      "/users/" removed from the link; "" without the avatar image, without
      the profile link, or with a falsy href. */
  function ParseAvatarUrl(card: Card): (r: string)
    ensures r != "" <==>
      card.avatarImage && card.profileLink.Some? && !Falsy(card.profileLink.value)
    ensures r != "" ==> r == AvatarHost + Remove(card.profileLink.value, "/users/") + AvatarSize
  {
    if !card.avatarImage then ""
    else
      var href := match card.profileLink case None => "" case Some(h) => h;
      if Falsy(href) then "" else AvatarHost + Remove(href, "/users/") + AvatarSize
  }

  /** A profile link of the site's form "/users/<user id>" gives the image
      of that user id. */
  lemma AvatarOfProfile(card: Card, user: string)
    requires card.avatarImage && card.profileLink == Some("/users/" + user)
    requires !Contains(user, "/users/")
    ensures ParseAvatarUrl(card) == AvatarHost + user + AvatarSize
  {
    RemoveLeading("/users/", user);
  }

  /** `parse_title`: the title text, "" when missing or falsy. */
  function ParseTitle(card: Card): (r: string)
    ensures r == "" <==> card.titleLink.None? || Falsy(card.titleLink.value.text)
    ensures r != "" ==> r == card.titleLink.value.text
  {
    match card.titleLink
    case None => ""
    case Some(link) => Elvis(link.text)
  }

  /** `parse_content`: the review text as is ("0" included), "" when the
      text element is missing. */
  function ParseContent(card: Card): (r: string)
    ensures card.reviewText.None? ==> r == ""
    ensures card.reviewText.Some? ==> r == card.reviewText.value
  {
    match card.reviewText
    case None => ""
    case Some(text) => text
  }

  /** `parse_rating`: the rating attribute, "" when falsy; calling
      `getAttribute` on a missing element is an error. */
  function ParseRating(card: Card): (r: Result<string>)
    ensures r.Err? <==> card.rating.None?
    ensures r.Err? ==> r.error == MissingElement(RatingMarker)
    ensures r.Ok? ==> (r.value == "" <==> Falsy(card.rating.value))
    ensures r.Ok? && r.value != "" ==> r.value == card.rating.value
  {
    match card.rating
    case None => Err(MissingElement(RatingMarker))
    case Some(value) => Ok(Elvis(value))
  }

  /** `parse_time`: the `datetime` attribute, "" when falsy; an error when
      the date element is missing. */
  function ParseTime(card: Card): (r: Result<string>)
    ensures r.Err? <==> card.dateTime.None?
    ensures r.Err? ==> r.error == MissingElement(DateTimeMarker)
    ensures r.Ok? ==> (r.value == "" <==> Falsy(card.dateTime.value))
    ensures r.Ok? && r.value != "" ==> r.value == card.dateTime.value
  {
    match card.dateTime
    case None => Err(MissingElement(DateTimeMarker))
    case Some(value) => Ok(Elvis(value))
  }

  /** The title link's href as `?: ''` leaves it; an error when the title
      element is missing (both `parse_id` and `parse_url` call
      `getAttribute` on it). */
  function TitleHref(card: Card): (r: Result<string>)
    ensures r.Err? <==> card.titleLink.None?
    ensures r.Err? ==> r.error == MissingElement(TitleMarker)
    ensures r.Ok? ==> (r.value == "" <==> Falsy(card.titleLink.value.href))
    ensures r.Ok? && r.value != "" ==> r.value == card.titleLink.value.href
  {
    match card.titleLink
    case None => Err(MissingElement(TitleMarker))
    case Some(link) => Ok(Elvis(link.href))
  }
}
