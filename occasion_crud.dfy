/** The occasion handlers `createOccasion`, `getAllOccasions`,
    `getOccasionById`, `updateOccasion` and `deleteOccasion`. The read-only
    handlers are functions of the collection; the three that write to it are
    methods of `OccasionStore`, whose `occasions` field is the collection. */
module OccasionCrud {
  import opened Wrappers
  import opened Seqs
  import opened Records

  /** The fields of a create request body; `None` is a missing field. */
  datatype CreateRequest = CreateRequest(
    title: Option<string>,
    occasionType: Option<string>,
    date: Option<int>,
    location: Option<string>,
    dressCode: Option<string>,
    notes: Option<string>,
    skinTone: Option<string>,
    clothesList: Option<seq<Id>>)

  /** The guard `!title || !date` lets the request through: it refuses
      exactly a title that is missing or empty and a date that is missing
      or zero. */
  predicate HasRequiredFields(req: CreateRequest): (ok: bool)
    ensures ok <==> req.title !in {None, Some("")} && req.date !in {None, Some(0)}
  {
    StringTruthy(req.title) && NumberTruthy(req.date)
  }

  /** The occasion type stored when the request gives none. */
  const DefaultType := "other"

  const MissingFields := Response(400, ErrorBody("Title and date are required"))
  const ServerError := Response(500, ErrorBody("Server error"))

  /** The document `createOccasion` builds: the request's fields, owned by
      the requester, with `type` defaulting to "other" and `clothesList` to
      the empty list. */
  function NewOccasion(id: Id, userId: Id, req: CreateRequest): (o: Occasion)
    requires HasRequiredFields(req)
    ensures o.id == id && o.userId == userId
    ensures o.title == req.title && o.date == req.date.value
    ensures StringTruthy(req.occasionType) ==> o.occasionType == req.occasionType
    ensures !StringTruthy(req.occasionType) ==> o.occasionType == Some(DefaultType)
    ensures StringTruthy(o.occasionType)
    ensures req.clothesList.Some? ==> o.clothesList == req.clothesList.value
    ensures req.clothesList.None? ==> o.clothesList == []
    ensures o.location == req.location && o.dressCode == req.dressCode
    ensures o.notes == req.notes && o.skinTone == req.skinTone
  {
    Occasion(
      id, userId, req.title,
      if StringTruthy(req.occasionType) then req.occasionType else Some(DefaultType),
      req.date.value, req.location, req.dressCode, req.notes, req.skinTone,
      req.clothesList.GetOr([]))
  }

  /** One field of an update request: `Keep` when the field is `undefined`,
      `Put(v)` when it is given (a given `null` is `Put(None)`). */
  datatype Patch<T> = Keep | Put(value: T)

  /** The fields of an update request body. */
  datatype UpdatePatch = UpdatePatch(
    title: Patch<Option<string>>,
    occasionType: Patch<Option<string>>,
    date: Patch<int>,
    location: Patch<Option<string>>,
    dressCode: Patch<Option<string>>,
    notes: Patch<Option<string>>,
    skinTone: Patch<Option<string>>,
    clothesList: Patch<seq<Id>>)

  /** An update request that supplies no field. */
  const EmptyPatch := UpdatePatch(Keep, Keep, Keep, Keep, Keep, Keep, Keep, Keep)

  function Apply<T>(p: Patch<T>, current: T): T {
    match p
    case Keep => current
    case Put(v) => v
  }

  /** The occasion after `updateOccasion`: every supplied field is
      overwritten, every other field, the id and the owner are as before. */
  function Merge(o: Occasion, p: UpdatePatch): (r: Occasion)
    ensures r.id == o.id && r.userId == o.userId
    ensures p.title.Keep? ==> r.title == o.title
    ensures p.title.Put? ==> r.title == p.title.value
    ensures p.occasionType.Keep? ==> r.occasionType == o.occasionType
    ensures p.occasionType.Put? ==> r.occasionType == p.occasionType.value
    ensures p.date.Keep? ==> r.date == o.date
    ensures p.date.Put? ==> r.date == p.date.value
    ensures p.location.Keep? ==> r.location == o.location
    ensures p.location.Put? ==> r.location == p.location.value
    ensures p.dressCode.Keep? ==> r.dressCode == o.dressCode
    ensures p.dressCode.Put? ==> r.dressCode == p.dressCode.value
    ensures p.notes.Keep? ==> r.notes == o.notes
    ensures p.notes.Put? ==> r.notes == p.notes.value
    ensures p.skinTone.Keep? ==> r.skinTone == o.skinTone
    ensures p.skinTone.Put? ==> r.skinTone == p.skinTone.value
    ensures p.clothesList.Keep? ==> r.clothesList == o.clothesList
    ensures p.clothesList.Put? ==> r.clothesList == p.clothesList.value
  {
    o.(title := Apply(p.title, o.title),
       occasionType := Apply(p.occasionType, o.occasionType),
       date := Apply(p.date, o.date),
       location := Apply(p.location, o.location),
       dressCode := Apply(p.dressCode, o.dressCode),
       notes := Apply(p.notes, o.notes),
       skinTone := Apply(p.skinTone, o.skinTone),
       clothesList := Apply(p.clothesList, o.clothesList))
  }

  /** An update that supplies nothing leaves the occasion as it was. */
  lemma MergeEmptyIsIdentity(o: Occasion)
    ensures Merge(o, EmptyPatch) == o
  {
  }

  /** Sending the same update twice has the effect of sending it once. */
  lemma MergeIdempotent(o: Occasion, p: UpdatePatch)
    ensures Merge(Merge(o, p), p) == Merge(o, p)
  {
  }

  /** The sort key of `getAllOccasions`. */
  function DateKey(o: Occasion): int {
    o.date
  }

  /** `getAllOccasions`: the requester's occasions, latest date first. */
  function GetAllOccasions(occasions: seq<Occasion>, userId: Id): (r: Response)
    ensures r.status == 200 && r.body.OccasionListBody?
    ensures forall o :: multiset(r.body.data)[o] == if o.userId == userId then multiset(occasions)[o] else 0
    ensures forall o :: o in r.body.data <==> o in occasions && o.userId == userId
    ensures SortedDesc(r.body.data, DateKey)
  {
    var mine := Filter(occasions, (o: Occasion) => o.userId == userId);
    var sorted := SortDesc(mine, DateKey);
    SortDescSameMembers(mine, DateKey);
    Response(200, OccasionListBody(sorted))
  }

  /** `getOccasionById`: the occasion with this id and owner, else 404. */
  function GetOccasionById(occasions: seq<Occasion>, id: Id, userId: Id): (r: Response)
    ensures r.status == 200 <==> exists o :: o in occasions && OwnedMatch(o, id, userId)
    ensures r.status == 200 ==>
      r.body.OccasionBody? && r.body.occasion in occasions && OwnedMatch(r.body.occasion, id, userId)
    ensures r.status != 200 ==> r == NotFound
  {
    match FindOwned(occasions, id, userId)
    case None => NotFound
    case Some(o) => Response(200, OccasionBody(o))
  }

  /** The occasion collection, written by the create, update and delete
      handlers. */
  class OccasionStore {
    var occasions: seq<Occasion>

    /** The store keeps `_id` unique. */
    ghost predicate Valid()
      reads this
    {
      UniqueIds(occasions)
    }

    constructor ()
      ensures Valid() && occasions == []
    {
      occasions := [];
    }

    /** `createOccasion`. A request without a truthy title or date is
        refused with 400 and nothing is stored. Otherwise the new document
        gets `freshId`, the id the store generates; should it already be
        taken, the save fails and the handler answers 500 with nothing
        stored. */
    method CreateOccasion(userId: Id, req: CreateRequest, freshId: Id) returns (resp: Response)
      requires Valid()
      modifies this
      ensures Valid()
      ensures !HasRequiredFields(req) ==> resp == MissingFields && occasions == old(occasions)
      ensures HasRequiredFields(req) && (exists o :: o in old(occasions) && o.id == freshId) ==>
        resp == ServerError && occasions == old(occasions)
      ensures HasRequiredFields(req) && (forall o :: o in old(occasions) ==> o.id != freshId) ==>
        occasions == old(occasions) + [NewOccasion(freshId, userId, req)] &&
        resp == Response(201, OccasionBody(NewOccasion(freshId, userId, req)))
    {
      if !(StringTruthy(req.title) && NumberTruthy(req.date)) {
        return MissingFields;
      }
      var occasion := NewOccasion(freshId, userId, req);
      if exists o :: o in occasions && o.id == freshId {
        return ServerError;
      }
      occasions := occasions + [occasion];
      resp := Response(201, OccasionBody(occasion));
    }

    /** `updateOccasion`. 404 and no change when the requester owns no
        occasion with this id; otherwise the fields the request supplies are
        written into the fetched document one by one, the document is saved
        back in place, and no other document changes. */
    method UpdateOccasion(id: Id, userId: Id, patch: UpdatePatch) returns (resp: Response)
      requires Valid()
      modifies this
      ensures Valid()
      ensures IndexOwned(old(occasions), id, userId).None? ==>
        resp == NotFound && occasions == old(occasions)
      ensures IndexOwned(old(occasions), id, userId).Some? ==>
        var i := IndexOwned(old(occasions), id, userId).value;
        occasions == old(occasions)[i := Merge(old(occasions)[i], patch)] &&
        resp == Response(200, OccasionBody(occasions[i]))
    {
      var found := IndexOwned(occasions, id, userId);
      if found.None? {
        return NotFound;
      }
      var i := found.value;
      var fetched := occasions[i];
      var occasion := fetched;
      if patch.title.Put? { occasion := occasion.(title := patch.title.value); }
      assert occasion == fetched.(title := Apply(patch.title, fetched.title));
      if patch.occasionType.Put? { occasion := occasion.(occasionType := patch.occasionType.value); }
      assert occasion.occasionType == Apply(patch.occasionType, fetched.occasionType);
      if patch.date.Put? { occasion := occasion.(date := patch.date.value); }
      assert occasion.date == Apply(patch.date, fetched.date);
      if patch.location.Put? { occasion := occasion.(location := patch.location.value); }
      assert occasion.location == Apply(patch.location, fetched.location);
      if patch.dressCode.Put? { occasion := occasion.(dressCode := patch.dressCode.value); }
      assert occasion.dressCode == Apply(patch.dressCode, fetched.dressCode);
      if patch.notes.Put? { occasion := occasion.(notes := patch.notes.value); }
      assert occasion.notes == Apply(patch.notes, fetched.notes);
      if patch.skinTone.Put? { occasion := occasion.(skinTone := patch.skinTone.value); }
      assert occasion.skinTone == Apply(patch.skinTone, fetched.skinTone);
      if patch.clothesList.Put? { occasion := occasion.(clothesList := patch.clothesList.value); }
      assert occasion == Merge(fetched, patch);
      occasions := occasions[i := occasion];
      resp := Response(200, OccasionBody(occasion));
    }

    /** `deleteOccasion`. 404 and no change when the requester owns no
        occasion with this id; otherwise that one document is removed, the
        others keep their order, and no document with that id remains. */
    method DeleteOccasion(id: Id, userId: Id) returns (resp: Response)
      requires Valid()
      modifies this
      ensures Valid()
      ensures IndexOwned(old(occasions), id, userId).None? ==>
        resp == NotFound && occasions == old(occasions)
      ensures IndexOwned(old(occasions), id, userId).Some? ==>
        var i := IndexOwned(old(occasions), id, userId).value;
        occasions == old(occasions)[..i] + old(occasions)[i + 1..] &&
        resp == Response(200, MessageBody("Occasion deleted successfully")) &&
        forall o :: o in occasions ==> o.id != id
    {
      var found := IndexOwned(occasions, id, userId);
      if found.None? {
        return NotFound;
      }
      var i := found.value;
      ghost var before := occasions;
      occasions := occasions[..i] + occasions[i + 1..];
      forall o | o in occasions ensures o.id != id {
        var k :| 0 <= k < |occasions| && occasions[k] == o;
        if k < i {
          assert o == before[k];
        } else {
          assert o == before[k + 1];
        }
      }
      resp := Response(200, MessageBody("Occasion deleted successfully"));
    }
  }
}
