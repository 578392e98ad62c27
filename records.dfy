/** The documents of the occasion and wardrobe collections, the suggestion
    records the matcher builds, the responses the handlers send, and the
    owner-scoped lookup `findOne({ _id: id, userId })` that every handler of
    a single occasion starts with. */
module Records {
  import opened Wrappers

  /** A document id or user id, in its string form. */
  type Id = string

  /** An occasion document. `occasionType` is the `type` field; `None`
      stands for a missing or null value. The date is an instant, as an
      integer. */
  datatype Occasion = Occasion(
    id: Id,
    userId: Id,
    title: Option<string>,
    occasionType: Option<string>,
    date: int,
    location: Option<string>,
    dressCode: Option<string>,
    notes: Option<string>,
    skinTone: Option<string>,
    clothesList: seq<Id>)

  /** A wardrobe item owned by `ownerId`; `occasion` is its free-text tag. */
  datatype ClothingItem = ClothingItem(
    id: Id,
    ownerId: Id,
    occasion: string,
    createdAt: int,
    name: string,
    category: string,
    color: string,
    image: string,
    gender: Option<string>,
    price: Option<int>)

  /** One suggestion sent to the client. `partner` is always null for items
      from the requester's own wardrobe. */
  datatype Suggestion = Suggestion(
    id: Id,
    name: string,
    category: string,
    color: string,
    image: string,
    gender: Option<string>,
    price: Option<int>,
    brand: string,
    matchReason: string,
    partner: Option<Id>)

  /** The occasion summary echoed beside the suggestions. */
  datatype OccasionSummary = OccasionSummary(title: Option<string>, occasionType: Option<string>, date: int)

  /** JSON bodies the handlers send. The summary is sent under the key
      `occasion`. */
  datatype Body =
    | ErrorBody(error: string)
    | OccasionBody(occasion: Occasion)
    | OccasionListBody(data: seq<Occasion>)
    | MessageBody(message: string)
    | SuggestionsBody(suggestions: seq<Suggestion>, summary: OccasionSummary, userGender: string)

  /** An HTTP status with its JSON body. */
  datatype Response = Response(status: int, body: Body)

  /** JavaScript truthiness of an optional string: present and not empty. */
  predicate StringTruthy(v: Option<string>) {
    v.Some? && v.value != ""
  }

  /** JavaScript truthiness of an optional number: present and not zero. */
  predicate NumberTruthy(v: Option<int>) {
    v.Some? && v.value != 0
  }

  const NotFound := Response(404, ErrorBody("Occasion not found"))

  /** No two occasion documents share an id (the store's unique `_id` index). */
  ghost predicate UniqueIds(occasions: seq<Occasion>) {
    forall i, j :: 0 <= i < j < |occasions| ==> occasions[i].id != occasions[j].id
  }

  /** The document matches the query `{ _id: id, userId }`. */
  predicate OwnedMatch(o: Occasion, id: Id, userId: Id) {
    o.id == id && o.userId == userId
  }

  /** `findOne({ _id: id, userId })`: the position of the first occasion with
      that id AND that owner, or `None` when there is none. */
  function IndexOwned(occasions: seq<Occasion>, id: Id, userId: Id): (r: Option<nat>)
    ensures r.Some? ==> r.value < |occasions| && OwnedMatch(occasions[r.value], id, userId)
    ensures r.Some? ==> forall j :: 0 <= j < r.value ==> !OwnedMatch(occasions[j], id, userId)
    ensures r.None? <==> forall j :: 0 <= j < |occasions| ==> !OwnedMatch(occasions[j], id, userId)
  {
    if occasions == [] then None
    else if OwnedMatch(occasions[0], id, userId) then Some(0)
    else
      match IndexOwned(occasions[1..], id, userId)
      case None => None
      case Some(k) => Some(k + 1)
  }

  /** The document `findOne({ _id: id, userId })` returns, if any. */
  function FindOwned(occasions: seq<Occasion>, id: Id, userId: Id): (r: Option<Occasion>)
    ensures r.Some? ==> r.value in occasions && OwnedMatch(r.value, id, userId)
    ensures r.None? <==> forall o :: o in occasions ==> !OwnedMatch(o, id, userId)
  {
    match IndexOwned(occasions, id, userId)
    case None => None
    case Some(i) => Some(occasions[i])
  }

  /** An occasion that exists but belongs to someone else is not found for
      the requester: the lookup never crosses owners. */
  lemma ForeignOccasionNotFound(occasions: seq<Occasion>, id: Id, userId: Id, k: nat)
    requires UniqueIds(occasions)
    requires k < |occasions| && occasions[k].id == id && occasions[k].userId != userId
    ensures IndexOwned(occasions, id, userId) == None
    ensures FindOwned(occasions, id, userId) == None
  {
  }
}
