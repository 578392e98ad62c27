# Occasion controller and owner check, modelled in Dafny

This project models the decision logic of a wardrobe and styling backend:
the occasion handlers (create, list, get, update, delete), the occasion
suggestion matcher, and the `verifyOwner` middleware. It proves what the
handlers promise about these operations.

The matcher turns an occasion's free-text `type` into a target tag. It
trims and lowercases the type. A missing or empty type becomes `"other"`,
and `"other"` is replaced by `"casual"`. The matcher then finds the
requester's wardrobe items whose `occasion` contains the tag, ignoring
case, newest first. Each found item becomes a suggestion record.

The document store is modelled as sequences of records. A query is a filter
and a sort over such a sequence (`Seqs.Filter`, `Seqs.SortDesc`). The
owner-scoped lookup `findOne({ _id, userId })` is `Records.IndexOwned`.
The handlers that only read are functions of the collection. The handlers
that write (`createOccasion`, `updateOccasion`, `deleteOccasion`) are
methods of the class `OccasionCrud.OccasionStore`, whose `occasions` field
is the collection. `UpdateOccasion` writes the supplied fields into the
fetched document one at a time, as the handler does, and then saves it
back in place. Its result is tied to the pure merge `OccasionCrud.Merge`.
Responses are a datatype holding a status and a JSON body.

Files:
- `wrappers.dfy`: `Option`.
- `js_text.dfy`: JavaScript `trim`, ASCII `toLowerCase` and substring search.
- `seqs.dfy`: filter and stable descending sort.
- `records.dfy`: the documents, the responses and the owner-scoped lookup.
- `occasion_crud.dfy`: create, list, get, update and delete.
- `suggestions.dfy`: `getOccasionSuggestions`.
- `owner.dfy`: `verifyOwner`.

Inputs that come from outside the model are parameters:
- the id the store gives a new document (`freshId`);
- the requester's recorded gender (the styler lookup);
- the authenticated user and the route's `:id`.

## Model

| member | source | states |
|---|---|---|
| JsText.SkipSpaces | controllers/occasionController.js:172 | `trim` cuts exactly the leading whitespace: everything before the result position is whitespace, and the character at it is not |
| JsText.SkipSpacesBack | controllers/occasionController.js:172 | `trim` cuts exactly the trailing whitespace: everything from the result position on is whitespace, and the character before it is not |
| JsText.Trim | controllers/occasionController.js:172 | `.trim()` gives a result no longer than its input that neither starts nor ends with whitespace (TrimIsInnerSlice and TrimEmptyIff characterise it fully) |
| JsText.TrimIsInnerSlice | controllers/occasionController.js:172 | `trim` keeps one contiguous slice whose ends are not whitespace, and drops only whitespace on both sides |
| JsText.TrimEmptyIff | controllers/occasionController.js:172 | a string trims to the empty string exactly when it is all whitespace |
| JsText.LowerChar | controllers/occasionController.js:172 | ASCII capitals map to the matching small letter (code + 32); every other character is kept |
| JsText.ToLower | controllers/occasionController.js:172 | lowering keeps the length, lowers each character in place, and leaves no ASCII capital |
| JsText.ToLowerIdempotent | controllers/occasionController.js:172 | lowering a lowered string changes nothing |
| JsText.ToLowerOfLower | controllers/occasionController.js:172 | a string with no capitals is its own lowercase form |
| JsText.ContainsIff | controllers/occasionController.js:182 | the left-to-right scan finds the needle exactly when it occurs at some position of the haystack |
| JsText.ContainsEmpty | controllers/occasionController.js:182 | the empty pattern occurs in every string |
| JsText.ContainsIgnoreCase | controllers/occasionController.js:182 | the `/tag/i` test holds exactly when the lowered tag occurs at some position of the lowered occasion |
| Seqs.Filter | controllers/occasionController.js:180-186 | a query returns each stored record that satisfies it, as many times as it is stored, and nothing else |
| Seqs.Insert | controllers/occasionController.js:186 | inserting into a descending sequence keeps it descending and adds exactly the one record |
| Seqs.SortDesc | controllers/occasionController.js:186 | `sort({ key: -1 })` returns a permutation of its input ordered by descending key |
| Seqs.SortDescSameMembers | controllers/occasionController.js:186 | sorting keeps exactly the records it was given |
| Records.IndexOwned | controllers/occasionController.js:91-95 | the lookup finds the first occasion with both the id and the owner, and finds none exactly when no occasion has both |
| Records.FindOwned | controllers/occasionController.js:147-151 | the occasion found is stored and matches both id and owner; there is none exactly when no stored occasion matches both |
| Records.ForeignOccasionNotFound | controllers/occasionController.js:68-73 | with unique ids, an occasion that exists but belongs to another user is not found by the requester |
| OccasionCrud.NewOccasion | controllers/occasionController.js:18-28 | a created occasion is owned by the requester; `type` defaults to "other" and `clothesList` to []; the stored type is always non-empty; the other fields are copied from the request |
| OccasionCrud.HasRequiredFields | controllers/occasionController.js:14-16 | a create request is refused exactly when the title is missing or empty or the date is missing or zero |
| OccasionCrud.Merge | controllers/occasionController.js:97-105 | each supplied field is overwritten; each field left undefined, the id and the owner are unchanged |
| OccasionCrud.MergeEmptyIsIdentity | controllers/occasionController.js:97-105 | an update that supplies no field leaves the occasion unchanged |
| OccasionCrud.MergeIdempotent | controllers/occasionController.js:97-105 | applying the same update twice has the effect of applying it once |
| OccasionCrud.GetAllOccasions | controllers/occasionController.js:45-58 | 200 with exactly the requester's occasions, each as many times as it is stored and no other, latest date first |
| OccasionCrud.GetOccasionById | controllers/occasionController.js:63-80 | 200 with a stored occasion of that id and owner when one exists; otherwise 404 "Occasion not found" |
| OccasionCrud.OccasionStore.CreateOccasion | controllers/occasionController.js:8-40 | without a truthy title or date: 400 and nothing stored; a duplicate id: 500 and nothing stored; otherwise the new occasion is appended and returned with 201; ids stay unique |
| OccasionCrud.OccasionStore.UpdateOccasion | controllers/occasionController.js:85-115 | 404 and no change when the requester owns no such occasion; otherwise that one document becomes its merge with the request, and no other document changes |
| OccasionCrud.OccasionStore.DeleteOccasion | controllers/occasionController.js:120-136 | 404 and no change when the requester owns no such occasion; otherwise exactly that document is removed, the rest keep their order, and no document with that id remains |
| Suggestions.TargetTag | controllers/occasionController.js:171-175 | the tag is never "other" and has no capitals; a missing or empty type gives "casual"; a type that trims and lowers to "other" gives "casual"; any other type gives its trimmed, lowered form |
| Suggestions.WhitespaceTypeGivesEmptyTag | controllers/occasionController.js:172 | a non-empty whitespace-only type gives the empty tag |
| Suggestions.EmptyTagIff | controllers/occasionController.js:171-175 | the tag is empty exactly when the type is a non-empty run of whitespace |
| Suggestions.QueryIgnoresCase | controllers/occasionController.js:180-183 | the query `{ ownerId, occasion: /tag/i }` (InQuery) ignores case: an item matches exactly when the same item with its occasion lowered matches |
| Suggestions.MatchingItems | controllers/occasionController.js:180-186 | the wardrobe query returns each of the requester's items whose occasion contains the tag ignoring case, as often as stored, and nothing else; newest first |
| Suggestions.FormatSuggestions | controllers/occasionController.js:206-217 | one suggestion per match, in the same order; id, name, category, color, image, gender and price are copied from the item; brand is "My Wardrobe", partner is null, and the reason is built from the occasion's stored type, not the tag |
| Suggestions.MatchReason | controllers/occasionController.js:215 | the reason is "From your wardrobe for " followed by the occasion's type exactly as stored ("undefined" when missing) |
| Suggestions.Suggest | controllers/occasionController.js:171-217 | every suggestion carries the id of a wardrobe item of the requester that matches the target tag, with brand "My Wardrobe", no partner and the reason for the stored type |
| Suggestions.SuggestionsFromMatches | controllers/occasionController.js:206-217 | suggestions formatted position by position from the matches each carry the id of a matching item of the requester |
| Suggestions.GenderOrNotSet | controllers/occasionController.js:234 | a missing or empty gender is reported as "not set"; any other gender is reported as is |
| Suggestions.GetOccasionSuggestions | controllers/occasionController.js:141-240 | 404 exactly when the requester owns no such occasion; otherwise 200 with the formatted matches for the occasion's type, the summary (title, type, date) and the gender |
| Suggestions.SuggestionsAreOwnMatches | controllers/occasionController.js:180-217 | every suggestion comes from an item of the requester that matches the tag; every such item is suggested; there are as many suggestions as matching stored items |
| Suggestions.SuggestionsNewestFirst | controllers/occasionController.js:186 | there is one suggestion per match, suggestion i comes from match i, and earlier matches were created no earlier than later ones |
| Suggestions.NoForeignItems | controllers/occasionController.js:180-183 | no item of another user is ever among the matches |
| Suggestions.NoMatchesIsEmptySuccess | controllers/occasionController.js:227-235 | with no matching item the answer is still 200, with an empty list |
| Suggestions.ForeignOccasionGivesNotFound | controllers/occasionController.js:147-151 | with unique ids, asking for another user's occasion gives 404 |
| Suggestions.EmptyTagMatchesAllOwnItems | controllers/occasionController.js:180-183 | the empty tag matches every wardrobe item of the requester |
| Suggestions.OtherWithSpaceFallsBack | controllers/occasionController.js:172-175 | the type "Other " gives the tag "casual", while the match reason shows "Other " as stored |
| Suggestions.WeddingTypeTag | controllers/occasionController.js:172 | the type "Wedding " gives the tag "wedding" |
| Suggestions.PartialMatchesIgnoreCase | controllers/occasionController.js:182 | "Wedding Guest" matches "wedding" and "Beach Party" matches "beach" |
| Suggestions.TwoMatchesNewestFirst | controllers/occasionController.js:186 | two matching items come back with the newer one first |
| Suggestions.WeddingScenario | controllers/occasionController.js:171-186 | for a "wedding" occasion, an item tagged "Wedding Guest" from day 2 is suggested before an item tagged "wedding" from day 1 |
| OwnerCheck.VerifyOwner | middleware/owner.js:8-28 | no user: 401; a user without an id: 500; a user id different from the route id: 403; `next` is called exactly when the user id equals the route id |
| OwnerCheck.RoleIsIgnored | middleware/owner.js:3-18 | the decision is the same whatever the user's role |
| OwnerCheck.AdminGetsNoBypass | middleware/owner.js:3-22 | an administrator who does not own the resource gets 403 |
| OwnerCheck.RejectStatuses | middleware/owner.js:8-28 | every refusal has status 401, 403 or 500 |

## Left out

- Persistence: `save`, `populate`, `find`, `countDocuments` and `distinct` are not modelled. Stores are sequences of records, and queries are filters and sorts over them. `populate('clothesList')` would replace item ids by the items; the model returns the ids.
- Storage failures other than a duplicate id on create are not modelled. A failing query would make a handler answer 500. So would an id that is not a valid ObjectId. The model has no such error path.
- The diagnostic queries and console logging in `getOccasionSuggestions` (lines 162-169, 177-201, 224-225) are left out. They never affect the response.
- The styler gender lookup is not modelled. The gender is a parameter.
- Suggestions.MatchingItems: the tag is matched as a plain substring. The source passes it unescaped to `new RegExp`. A type containing regular-expression metacharacters would match differently, or make the handler fail with 500. The model assumes the tag contains none.
- JsText.ToLower: only ASCII letters are lowered. JavaScript `toLowerCase` and the `i` flag also fold other letters.
- Suggestions.MatchingItems: every wardrobe item is modelled with a string `occasion`. The store never matches a `$regex` query against an item that lacks the field, not even with the empty pattern; such items are not modelled, so Suggestions.EmptyTagMatchesAllOwnItems assumes every item has the field.
- Dates are integers. `createdAt` and `date` are not parsed. In `createOccasion`, `!date` is read with JavaScript number truthiness, so a date of 0 is refused.
- Seqs.SortDesc: records with equal keys keep their store order. The store does not promise any order among ties, so this is one of the orders it may return.
- `null` and `undefined` are one value (`None`) in stored documents. In `matchReason`, a missing type prints as "undefined"; a type stored as `null` would print "null".
- `Occasion.date` cannot be null after an update. An update that sends `clothesList: null` is not modelled either.
- The store's schema validation on save is not modelled. For example, an update could set a required title to null; the model accepts it.
- Handlers assume `req.user` is set by the authentication middleware. The model has no path where it is missing.
- The image host uploads, the route wiring and the one-off maintenance scripts are not part of this model.
