/** `getOccasionSuggestions`: derive a tag from the occasion's type, find
    the requester's wardrobe items whose occasion contains it (ignoring
    case), newest first, and format each as a suggestion. */
module Suggestions {
  import opened Wrappers
  import opened JsText
  import opened Seqs
  import opened Records

  /** The generic occasion type; "casual" is searched for instead. */
  const OtherTag := "other"
  /** The tag searched for instead of "other". */
  const FallbackTag := "casual"
  const WardrobeBrand := "My Wardrobe"
  const NoGender := "not set"
  const ReasonPrefix := "From your wardrobe for "

  /** The tag matched against wardrobe items: the type trimmed and lowered,
      "other" when the type is missing or empty, and "casual" in place of
      "other". */
  function TargetTag(t: Option<string>): (r: string)
    ensures r != OtherTag
    ensures IsLower(r)
    ensures !StringTruthy(t) ==> r == FallbackTag
    ensures StringTruthy(t) && ToLower(Trim(t.value)) == OtherTag ==> r == FallbackTag
    ensures StringTruthy(t) && ToLower(Trim(t.value)) != OtherTag ==> r == ToLower(Trim(t.value))
  {
    var target := if StringTruthy(t) then ToLower(Trim(t.value)) else OtherTag;
    if target == OtherTag then FallbackTag else target
  }

  /** A whitespace-only type is truthy, trims to nothing, and so yields the
      empty tag. */
  lemma WhitespaceTypeGivesEmptyTag(s: string)
    requires s != [] && AllSpace(s)
    ensures TargetTag(Some(s)) == []
  {
  }

  /** The tag is empty exactly when the type is a non-empty run of
      whitespace. */
  lemma EmptyTagIff(t: Option<string>)
    ensures TargetTag(t) == [] <==> t.Some? && t.value != [] && AllSpace(t.value)
  {
  }

  /** The wardrobe query `{ ownerId: userId, occasion: /tag/i }`. */
  predicate InQuery(item: ClothingItem, userId: Id, tag: string) {
    item.ownerId == userId && ContainsIgnoreCase(item.occasion, tag)
  }

  /** The query ignores case: an item matches exactly when its occasion,
      lowered, matches. */
  lemma QueryIgnoresCase(item: ClothingItem, userId: Id, tag: string)
    ensures InQuery(item, userId, tag) <==> InQuery(item.(occasion := ToLower(item.occasion)), userId, tag)
  {
    ToLowerIdempotent(item.occasion);
  }

  /** The sort key `createdAt`. */
  function CreatedAtKey(item: ClothingItem): int {
    item.createdAt
  }

  /** `find(query).sort({ createdAt: -1 })`: the items answering the query,
      newest first. */
  function MatchingItems(wardrobe: seq<ClothingItem>, userId: Id, tag: string): (r: seq<ClothingItem>)
    ensures SortedDesc(r, CreatedAtKey)
    ensures forall x :: multiset(r)[x] == if InQuery(x, userId, tag) then multiset(wardrobe)[x] else 0
    ensures forall x :: x in r <==> x in wardrobe && InQuery(x, userId, tag)
  {
    var found := Filter(wardrobe, (x: ClothingItem) => InQuery(x, userId, tag));
    var sorted := SortDesc(found, CreatedAtKey);
    SortDescSameMembers(found, CreatedAtKey);
    sorted
  }

  /** The reason shown on every suggestion; it uses the occasion's type as
      stored, not the normalised tag. A missing type prints as
      "undefined". */
  function MatchReason(t: Option<string>): (r: string)
    ensures |r| >= |ReasonPrefix| && r[..|ReasonPrefix|] == ReasonPrefix
    ensures t.Some? ==> r[|ReasonPrefix|..] == t.value
    ensures t.None? ==> r[|ReasonPrefix|..] == "undefined"
  {
    ReasonPrefix + t.GetOr("undefined")
  }

  /** The suggestion record for one wardrobe item. */
  function ToSuggestion(item: ClothingItem, t: Option<string>): Suggestion {
    Suggestion(item.id, item.name, item.category, item.color, item.image,
               item.gender, item.price, WardrobeBrand, MatchReason(t), None)
  }

  /** The `.map` over the matches: one suggestion per item, in the same
      order, copying the item's fields, marked as the requester's own and
      without a partner. */
  function FormatSuggestions(items: seq<ClothingItem>, t: Option<string>): (r: seq<Suggestion>)
    ensures |r| == |items|
    ensures forall i :: 0 <= i < |items| ==>
      && r[i].id == items[i].id && r[i].name == items[i].name
      && r[i].category == items[i].category && r[i].color == items[i].color
      && r[i].image == items[i].image && r[i].gender == items[i].gender
      && r[i].price == items[i].price
    ensures forall i :: 0 <= i < |r| ==>
      r[i].brand == WardrobeBrand && r[i].partner == None && r[i].matchReason == MatchReason(t)
  {
    if items == [] then [] else [ToSuggestion(items[0], t)] + FormatSuggestions(items[1..], t)
  }

  /** `userGender || 'not set'`. */
  function GenderOrNotSet(g: Option<string>): (r: string)
    ensures g.Some? && g.value != "" ==> r == g.value
    ensures g.None? || g.value == "" ==> r == NoGender
  {
    if g.Some? && g.value != "" then g.value else NoGender
  }

  /** The suggestions for an occasion of type `t`: the requester's items
      matching the target tag, newest first, formatted. */
  function Suggest(wardrobe: seq<ClothingItem>, userId: Id, t: Option<string>): (r: seq<Suggestion>)
    ensures forall i :: 0 <= i < |r| ==>
      exists x :: x in wardrobe && x.id == r[i].id && InQuery(x, userId, TargetTag(t))
    ensures forall i :: 0 <= i < |r| ==>
      r[i].brand == WardrobeBrand && r[i].partner == None && r[i].matchReason == MatchReason(t)
  {
    var m := MatchingItems(wardrobe, userId, TargetTag(t));
    var r := FormatSuggestions(m, t);
    SuggestionsFromMatches(m, r, wardrobe, userId, TargetTag(t));
    r
  }

  /** Each suggestion formatted from the matches carries the id of a
      matching item. */
  lemma SuggestionsFromMatches(
    m: seq<ClothingItem>, r: seq<Suggestion>, wardrobe: seq<ClothingItem>, userId: Id, tag: string)
    requires m == MatchingItems(wardrobe, userId, tag)
    requires |r| == |m| && forall i :: 0 <= i < |r| ==> r[i].id == m[i].id
    ensures forall i :: 0 <= i < |r| ==>
      exists x :: x in wardrobe && x.id == r[i].id && InQuery(x, userId, tag)
  {
    forall i | 0 <= i < |r|
      ensures exists x :: x in wardrobe && x.id == r[i].id && InQuery(x, userId, tag)
    {
      assert m[i] in m;
    }
  }

  /** `getOccasionSuggestions` for occasion `id` requested by `userId`;
      `stylerGender` is the requester's recorded gender, if any. 404 when
      the requester owns no such occasion; otherwise 200 with the
      suggestions for its type, its summary and the gender. */
  function GetOccasionSuggestions(
    occasions: seq<Occasion>, wardrobe: seq<ClothingItem>,
    id: Id, userId: Id, stylerGender: Option<string>): (r: Response)
    ensures FindOwned(occasions, id, userId).None? <==> r == NotFound
    ensures r != NotFound ==>
      var occasion := FindOwned(occasions, id, userId).value;
      && r.status == 200
      && r.body == SuggestionsBody(
           Suggest(wardrobe, userId, occasion.occasionType),
           OccasionSummary(occasion.title, occasion.occasionType, occasion.date),
           GenderOrNotSet(stylerGender))
  {
    match FindOwned(occasions, id, userId)
    case None => NotFound
    case Some(occasion) =>
      Response(200, SuggestionsBody(
        Suggest(wardrobe, userId, occasion.occasionType),
        OccasionSummary(occasion.title, occasion.occasionType, occasion.date),
        GenderOrNotSet(stylerGender)))
  }

  /** Every suggestion comes from a wardrobe item of the requester whose
      occasion contains the target tag, and every such item is suggested,
      once per copy in the wardrobe. */
  lemma SuggestionsAreOwnMatches(wardrobe: seq<ClothingItem>, userId: Id, t: Option<string>)
    ensures var sugs := Suggest(wardrobe, userId, t);
      var tag := TargetTag(t);
      && (forall s :: s in sugs ==>
            exists x :: x in wardrobe && x.id == s.id && InQuery(x, userId, tag))
      && (forall x :: x in wardrobe && InQuery(x, userId, tag) ==>
            exists s :: s in sugs && s.id == x.id)
      && |sugs| == |Filter(wardrobe, (x: ClothingItem) => InQuery(x, userId, tag))|
  {
  }

  /** The suggestions appear in the order of their items' creation times,
      newest first. */
  lemma SuggestionsNewestFirst(wardrobe: seq<ClothingItem>, userId: Id, t: Option<string>)
    ensures var m := MatchingItems(wardrobe, userId, TargetTag(t));
      var sugs := FormatSuggestions(m, t);
      && |sugs| == |m|
      && (forall i :: 0 <= i < |m| ==> sugs[i].id == m[i].id)
      && (forall i, j :: 0 <= i < j < |m| ==> m[i].createdAt >= m[j].createdAt)
  {
  }


  /** No item of another user is ever suggested. */
  lemma NoForeignItems(wardrobe: seq<ClothingItem>, userId: Id, tag: string, x: ClothingItem)
    requires x.ownerId != userId
    ensures x !in MatchingItems(wardrobe, userId, tag)
  {
  }

  /** A requester without matching items still gets 200, with no
      suggestions. */
  lemma NoMatchesIsEmptySuccess(
    occasions: seq<Occasion>, wardrobe: seq<ClothingItem>,
    id: Id, userId: Id, stylerGender: Option<string>, occasion: Occasion)
    requires FindOwned(occasions, id, userId) == Some(occasion)
    requires forall x :: x in wardrobe ==> !InQuery(x, userId, TargetTag(occasion.occasionType))
    ensures var r := GetOccasionSuggestions(occasions, wardrobe, id, userId, stylerGender);
      r.status == 200 && r.body.suggestions == []
  {
  }

  /** An occasion of another user is not found: no suggestions are made
      from it. */
  lemma ForeignOccasionGivesNotFound(
    occasions: seq<Occasion>, wardrobe: seq<ClothingItem>,
    id: Id, userId: Id, stylerGender: Option<string>, k: nat)
    requires UniqueIds(occasions)
    requires k < |occasions| && occasions[k].id == id && occasions[k].userId != userId
    ensures GetOccasionSuggestions(occasions, wardrobe, id, userId, stylerGender) == NotFound
  {
  }

  /** With an empty tag, every wardrobe item of the requester matches. */
  lemma EmptyTagMatchesAllOwnItems(wardrobe: seq<ClothingItem>, userId: Id)
    ensures forall x :: x in MatchingItems(wardrobe, userId, []) <==> x in wardrobe && x.ownerId == userId
  {
  }

  /** "Other " is trimmed and lowered to "other", which falls back to
      "casual"; the match reason still shows the type as stored. */
  lemma OtherWithSpaceFallsBack()
    ensures TargetTag(Some("Other ")) == FallbackTag
    ensures MatchReason(Some("Other ")) == "From your wardrobe for Other "
  {
    var s := "Other ";
    assert SkipSpaces(s, 0) == 0;
    assert IsJsSpace(s[5]) && !IsJsSpace(s[4]);
    assert SkipSpacesBack(s, 0, 6) == 5;
    assert Trim(s) == "Other";
    assert ToLower("Other") == OtherTag;
  }

  /** "Wedding " is trimmed and lowered to "wedding". */
  lemma WeddingTypeTag()
    ensures TargetTag(Some("Wedding ")) == "wedding"
  {
    var s := "Wedding ";
    assert SkipSpaces(s, 0) == 0;
    assert IsJsSpace(s[7]) && !IsJsSpace(s[6]);
    assert SkipSpacesBack(s, 0, 8) == 7;
    assert Trim(s) == "Wedding";
    assert ToLower("Wedding") == "wedding";
  }

  /** An item tagged "Wedding Guest" matches the tag "wedding", and one
      tagged "Beach Party" matches "beach". */
  lemma PartialMatchesIgnoreCase()
    ensures ContainsIgnoreCase("Wedding Guest", "wedding")
    ensures ContainsIgnoreCase("Beach Party", "beach")
  {
    assert ToLower("Wedding Guest") == "wedding guest";
    assert ToLower("wedding") == "wedding";
    assert OccursAt("wedding guest", "wedding", 0);
    assert ToLower("Beach Party") == "beach party";
    assert ToLower("beach") == "beach";
    assert OccursAt("beach party", "beach", 0);
  }

  /** Two matching items of the requester come back newest first. */
  lemma TwoMatchesNewestFirst(userId: Id, tag: string, older: ClothingItem, newer: ClothingItem)
    requires InQuery(older, userId, tag) && InQuery(newer, userId, tag)
    requires older.createdAt < newer.createdAt
    ensures MatchingItems([older, newer], userId, tag) == [newer, older]
  {
  }

  /** A "wedding" occasion with an item tagged "wedding" from day 1 and one
      tagged "Wedding Guest" from day 2 suggests the day-2 item first. */
  lemma WeddingScenario(user: Id, dayOne: ClothingItem, dayTwo: ClothingItem)
    requires dayOne.ownerId == user && dayOne.occasion == "wedding" && dayOne.createdAt == 1
    requires dayTwo.ownerId == user && dayTwo.occasion == "Wedding Guest" && dayTwo.createdAt == 2
    ensures MatchingItems([dayOne, dayTwo], user, TargetTag(Some("wedding"))) == [dayTwo, dayOne]
  {
    var s := "wedding";
    assert SkipSpaces(s, 0) == 0;
    assert SkipSpacesBack(s, 0, 7) == 7;
    assert Trim(s) == s;
    assert ToLower(s) == s;
    assert TargetTag(Some(s)) == s;
    PartialMatchesIgnoreCase();
    assert s[..7] == s;
    assert InQuery(dayOne, user, s) && InQuery(dayTwo, user, s);
    TwoMatchesNewestFirst(user, s, dayOne, dayTwo);
  }
}
