/**
  The artist handlers of src/controllers/artist.js, as methods of a store that
  maps ids to records and remembers the order in which records were inserted.

  Every handler that names an artist reads the record by id and answers
  ARTIST_NOTFOUND when it is absent or soft-deleted. `create`, `update` and
  `changeRate` validate their input and answer BAD_REQUEST when it is refused:
  `create` looks nothing up, `update` validates before its lookup, and
  `changeRate` after it. The handlers that write apply a `$set` restricted to
  the fields they own; `getById` and `get` only read.

  The acting user and the current time, which the source takes from the
  request and the clock, are parameters.
*/
module ArtistController {
  import opened Wrappers
  import opened Decimals
  import opened ArtistModel

  /** The error keys the handlers raise, with HTTP statuses 404, 400 and 304. */
  datatype ErrorKind = ARTIST_NOTFOUND | BAD_REQUEST | NOT_MODIFIED

  /**
    A request body for `create` or `update`: the `name` if it is a string, the
    `rate` if it is a number, and whether any other key is present.
  */
  datatype ArtistBody = ArtistBody(name: Option<string>, rate: Option<Decimal>, hasOtherKeys: bool)

  /** The query of `changeRate`: `newRate` if it is a number, and whether any other key is present. */
  datatype RateQuery = RateQuery(newRate: Option<Decimal>, hasOtherKeys: bool)

  /** A validated body: a non-empty name and a rate in millionths. */
  datatype ArtistInput = ArtistInput(name: string, rate: nat)

  /** What `payout` returns: the artist id and the streams count it has just paid. */
  datatype PayoutReceipt = PayoutReceipt(artistId: Id, paidStreams: nat)

  /**
    The body schema of `create` and `update`: an object with a required
    non-empty string `name`, a required rate that is non-negative with at most
    six fractional digits, and no other key.
  */
  function ValidateArtistBody(body: Option<ArtistBody>): (r: Result<ArtistInput, ErrorKind>)
    ensures r.Success? <==>
      && body.Some?
      && body.value.name.Some? && body.value.name.value != ""
      && body.value.rate.Some? && IsValidRate(body.value.rate.value)
      && !body.value.hasOtherKeys
    ensures r.Failure? ==> r.error == BAD_REQUEST
    ensures r.Success? ==> r.value.name == body.value.name.value && Denotes(body.value.rate.value, r.value.rate)
  {
    match body
    case None => Failure(BAD_REQUEST)
    case Some(b) =>
      if b.name.Some? && b.name.value != "" && b.rate.Some? && IsValidRate(b.rate.value) && !b.hasOtherKeys then
        MillionthsDenotes(b.rate.value);
        Success(ArtistInput(b.name.value, Millionths(b.rate.value)))
      else
        Failure(BAD_REQUEST)
  }

  /** The query schema of `changeRate`: a required `newRate` under the same numeric rule, and no other key. */
  function ValidateRateQuery(q: RateQuery): (r: Result<nat, ErrorKind>)
    ensures r.Success? <==> q.newRate.Some? && IsValidRate(q.newRate.value) && !q.hasOtherKeys
    ensures r.Failure? ==> r.error == BAD_REQUEST
    ensures r.Success? ==> Denotes(q.newRate.value, r.value)
  {
    if q.newRate.Some? && IsValidRate(q.newRate.value) && !q.hasOtherKeys then
      MillionthsDenotes(q.newRate.value);
      Success(Millionths(q.newRate.value))
    else
      Failure(BAD_REQUEST)
  }

  /** `changeRate` answers NOT_MODIFIED exactly when the requested number equals the stored rate. */
  lemma SameRateIsExactEquality(q: RateQuery, stored: nat)
    requires ValidateRateQuery(q).Success?
    ensures ValidateRateQuery(q).value == stored <==> Denotes(q.newRate.value, stored)
  {
    if Denotes(q.newRate.value, stored) {
      DenotesUnique(q.newRate.value, stored, ValidateRateQuery(q).value);
    }
  }

  /** The object `create` hands to `createArtist`: a fresh `_id`, the validated name and rate, the acting user. */
  function NewArtistData(id: Id, name: string, rate: nat, user: Id): Document
  {
    map[MongoId := ObjectId(id), Name := Text(name), Rate := Amount(rate), CreatedBy := ObjectId(user)]
  }

  /** The record `create` stores: what it passes in, streams and paid streams 0, never paid, not deleted. */
  lemma CreatedRecord(id: Id, name: string, rate: nat, user: Id)
    ensures FromDocument(Generated(NewArtistData(id, name, rate, user), id))
         == Some(Artist(id, name, rate, 0, 0, user, None, None, false))
  {
    var data := NewArtistData(id, name, rate, user);
    GeneratedStartsUnstreamed(data, id);
    assert MongoId in Whitelist && Name in Whitelist && Rate in Whitelist && CreatedBy in Whitelist;
  }

  /**
    What `createArtist` stores for the object `create` builds: `generate`
    applied to it, read back as a record.
  */
  method CreatedArtist(id: Id, name: string, rate: nat, user: Id) returns (a: Artist)
    ensures a == Artist(id, name, rate, 0, 0, user, None, None, false)
  {
    var data := NewArtistData(id, name, rate, user);
    assert MongoId in data;
    var generated := Generate(data, id);
    CreatedRecord(id, name, rate, user);
    a := FromDocument(generated.value).value;
  }

  /** `s` is `t` with some elements left out, the rest in the same order. */
  ghost predicate IsSubsequence<T>(s: seq<T>, t: seq<T>)
    decreases |t|
  {
    if s == [] then true
    else if t == [] then false
    else if s[0] == t[0] then IsSubsequence(s[1..], t[1..])
    else IsSubsequence(s, t[1..])
  }

  /** `find({ deleted: false })`: the ids of the records not soft-deleted, in store order. */
  function ActiveIds(records: map<Id, Artist>, order: seq<Id>): (r: seq<Id>)
    requires forall k :: k in order ==> k in records
    ensures forall k :: k in r <==> k in order && !records[k].deleted
    ensures IsSubsequence(r, order)
    decreases |order|
  {
    if order == [] then []
    else if records[order[0]].deleted then ActiveIds(records, order[1..])
    else [order[0]] + ActiveIds(records, order[1..])
  }

  /**
    The store's invariant: each id is listed once in `order`, exactly the ids
    of `records` are listed, each record sits under its own id, and every id
    in use is below the next fresh one.
  */
  ghost predicate Consistent(records: map<Id, Artist>, order: seq<Id>, nextId: Id)
  {
    && (forall i, j :: 0 <= i < j < |order| ==> order[i] != order[j])
    && (forall k :: k in records <==> k in order)
    && (forall k :: k in records ==> records[k].id == k && k < nextId)
  }

  /** Inserting a record under the next fresh id keeps the store consistent. */
  lemma InsertKeepsConsistent(records: map<Id, Artist>, order: seq<Id>, nextId: Id, a: Artist)
    requires Consistent(records, order, nextId) && a.id == nextId
    ensures nextId !in records
    ensures Consistent(records[nextId := a], order + [nextId], nextId + 1)
    ensures DeletionsKept(records, records[nextId := a])
  {
    assert nextId !in order;
  }

  /** Replacing a record by one with the same id keeps the store consistent. */
  lemma ReplaceKeepsConsistent(records: map<Id, Artist>, order: seq<Id>, nextId: Id, a: Artist)
    requires Consistent(records, order, nextId) && a.id in records
    ensures Consistent(records[a.id := a], order, nextId)
  {
  }

  /** Every record soft-deleted in `before` is still held, and still deleted, in `after`. */
  ghost predicate DeletionsKept(before: map<Id, Artist>, after: map<Id, Artist>)
  {
    forall k :: k in before && before[k].deleted ==> k in after && after[k].deleted
  }

  /** The artist store: records by id, and the ids in the order the records were inserted. */
  class ArtistStore {
    var records: map<Id, Artist>
    var order: seq<Id>
    /** The next fresh ObjectId. */
    var nextId: Id

    ghost predicate Valid()
      reads this
    {
      Consistent(records, order, nextId)
    }

    /** The lookup every handler starts with: the record exists and is not soft-deleted. */
    predicate IsActive(id: Id)
      reads this
    {
      id in records && !records[id].deleted
    }

    constructor ()
      ensures Valid() && records == map[] && order == []
    {
      records := map[];
      order := [];
      nextId := 0;
    }

    /**
      `create`: validates the body, then stores a generated artist under a
      fresh id, created by the acting user, and returns its view.
    */
    method Create(body: Option<ArtistBody>, user: Id, now: Time) returns (r: Result<Document, ErrorKind>)
      requires Valid()
      modifies this
      ensures DeletionsKept(old(records), records)
      ensures Valid()
      ensures r.Failure? <==> ValidateArtistBody(body).Failure?
      ensures r.Failure? ==> r.error == BAD_REQUEST && records == old(records) && order == old(order) && nextId == old(nextId)
      ensures r.Success? ==>
        var id := old(nextId);
        var input := ValidateArtistBody(body).value;
        && nextId == old(nextId) + 1
        && id !in old(records)
        && records == old(records)[id := Artist(id, input.name, input.rate, 0, 0, user, None, None, false)]
        && order == old(order) + [id]
        && r.value == ArtistView(records[id], now)
    {
      var input := ValidateArtistBody(body);
      if input.Failure? {
        return Failure(BAD_REQUEST);
      }
      var id := nextId;
      var artist := CreatedArtist(id, input.value.name, input.value.rate, user);
      InsertKeepsConsistent(records, order, nextId, artist);
      records := records[id := artist];
      order := order + [id];
      nextId := nextId + 1;
      r := Success(ArtistView(artist, now));
    }

    /**
      `update`: validates the body first, then looks the artist up, then sets
      `name` and `rate` and nothing else.
    */
    method Update(id: Id, body: Option<ArtistBody>) returns (r: Result<Id, ErrorKind>)
      requires Valid()
      modifies this
      ensures DeletionsKept(old(records), records)
      ensures Valid() && order == old(order) && nextId == old(nextId)
      ensures ValidateArtistBody(body).Failure? ==> r == Failure(BAD_REQUEST)
      ensures ValidateArtistBody(body).Success? && !old(IsActive(id)) ==> r == Failure(ARTIST_NOTFOUND)
      ensures r.Success? <==> ValidateArtistBody(body).Success? && old(IsActive(id))
      ensures r.Failure? ==> records == old(records)
      ensures r.Success? ==>
        var input := ValidateArtistBody(body).value;
        && r.value == id
        && records == old(records)[id := old(records)[id].(name := input.name, rate := input.rate)]
        && SameOutside(old(records)[id], records[id], {Name, Rate})
    {
      var input := ValidateArtistBody(body);
      if input.Failure? {
        return Failure(BAD_REQUEST);
      }
      if !IsActive(id) {
        return Failure(ARTIST_NOTFOUND);
      }
      var updated := records[id].(name := input.value.name, rate := input.value.rate);
      ReplaceKeepsConsistent(records, order, nextId, updated);
      records := records[id := updated];
      r := Success(id);
    }

    /**
      `payout`: looks the artist up, then sets `paidStreams` to the streams
      count just read, `paidBy` to the acting user and `lastPaidAt` to now.
      There is no "nothing owed" guard: an artist whose streams are all paid
      is paid again and re-stamped.
    */
    method Payout(id: Id, user: Id, now: Time) returns (r: Result<PayoutReceipt, ErrorKind>)
      requires Valid()
      modifies this
      ensures DeletionsKept(old(records), records)
      ensures Valid() && order == old(order) && nextId == old(nextId)
      ensures r.Success? <==> old(IsActive(id))
      ensures r.Failure? ==> r.error == ARTIST_NOTFOUND && records == old(records)
      ensures r.Success? ==>
        var before := old(records)[id];
        && r.value == PayoutReceipt(id, before.streams)
        && records == old(records)[id := before.(paidStreams := before.streams, paidBy := Some(user), lastPaidAt := Some(now))]
        && SameOutside(before, records[id], {PaidStreams, PaidBy, LastPaidAt})
    {
      if !IsActive(id) {
        return Failure(ARTIST_NOTFOUND);
      }
      var artist := records[id];
      var paid := artist.(paidStreams := artist.streams, paidBy := Some(user), lastPaidAt := Some(now));
      ReplaceKeepsConsistent(records, order, nextId, paid);
      records := records[id := paid];
      r := Success(PayoutReceipt(id, artist.streams));
    }

    /**
      `changeRate`: looks the artist up first, then validates `newRate`, then
      refuses a rate equal to the stored one, then sets `rate` and nothing else.
    */
    method ChangeRate(id: Id, query: RateQuery) returns (r: Result<Id, ErrorKind>)
      requires Valid()
      modifies this
      ensures DeletionsKept(old(records), records)
      ensures Valid() && order == old(order) && nextId == old(nextId)
      ensures !old(IsActive(id)) ==> r == Failure(ARTIST_NOTFOUND)
      ensures old(IsActive(id)) && ValidateRateQuery(query).Failure? ==> r == Failure(BAD_REQUEST)
      ensures old(IsActive(id)) && ValidateRateQuery(query).Success? && ValidateRateQuery(query).value == old(records)[id].rate
        ==> r == Failure(NOT_MODIFIED)
      ensures r.Success? <==>
        old(IsActive(id)) && ValidateRateQuery(query).Success? && ValidateRateQuery(query).value != old(records)[id].rate
      ensures r.Failure? ==> records == old(records)
      ensures r.Success? ==>
        var newRate := ValidateRateQuery(query).value;
        && r.value == id
        && records == old(records)[id := old(records)[id].(rate := newRate)]
        && SameOutside(old(records)[id], records[id], {Rate})
    {
      if !IsActive(id) {
        return Failure(ARTIST_NOTFOUND);
      }
      var newRate := ValidateRateQuery(query);
      if newRate.Failure? {
        return Failure(BAD_REQUEST);
      }
      if records[id].rate == newRate.value {
        return Failure(NOT_MODIFIED);
      }
      var updated := records[id].(rate := newRate.value);
      ReplaceKeepsConsistent(records, order, nextId, updated);
      records := records[id := updated];
      r := Success(id);
    }

    /** `deleteById`: looks the artist up, then sets `deleted` and nothing else; the record stays. */
    method DeleteById(id: Id) returns (r: Result<Id, ErrorKind>)
      requires Valid()
      modifies this
      ensures DeletionsKept(old(records), records)
      ensures Valid() && order == old(order) && nextId == old(nextId)
      ensures r.Success? <==> old(IsActive(id))
      ensures r.Failure? ==> r.error == ARTIST_NOTFOUND && records == old(records)
      ensures r.Success? ==>
        && r.value == id
        && records == old(records)[id := old(records)[id].(deleted := true)]
        && SameOutside(old(records)[id], records[id], {Deleted})
        && !IsActive(id)
    {
      if !IsActive(id) {
        return Failure(ARTIST_NOTFOUND);
      }
      var deleted := records[id].(deleted := true);
      ReplaceKeepsConsistent(records, order, nextId, deleted);
      records := records[id := deleted];
      r := Success(id);
    }

    /** `getById`: the view of an active artist. */
    method GetById(id: Id, now: Time) returns (r: Result<Document, ErrorKind>)
      ensures r.Success? <==> IsActive(id)
      ensures r.Failure? ==> r.error == ARTIST_NOTFOUND
      ensures r.Success? ==> r.value == ArtistView(records[id], now)
    {
      if !IsActive(id) {
        return Failure(ARTIST_NOTFOUND);
      }
      r := Success(ArtistView(records[id], now));
    }

    /** `get`: the views of the artists not soft-deleted, in store order. */
    method List(now: Time) returns (r: seq<Document>)
      requires forall k :: k in order ==> k in records
      ensures |r| == |ActiveIds(records, order)|
      ensures forall i :: 0 <= i < |r| ==> r[i] == ArtistView(records[ActiveIds(records, order)[i]], now)
    {
      var artists := ActiveIds(records, order);
      assert forall j :: 0 <= j < |artists| ==> artists[j] in records;
      r := [];
      for i := 0 to |artists|
        invariant |r| == i
        invariant forall j :: 0 <= j < i ==> r[j] == ArtistView(records[artists[j]], now)
      {
        var view := ArtistView(records[artists[i]], now);
        r := r + [view];
      }
    }
  }

  // ---------------------------------------------------------------------------
  // Handler sequences a client can issue
  // ---------------------------------------------------------------------------

  /**
    After a successful soft delete, every handler that names the artist
    answers as if it did not exist; `update` still validates its body first.
  */
  method DeleteThenUse(store: ArtistStore, id: Id, body: Option<ArtistBody>, query: RateQuery, user: Id, now: Time)
    returns (deleted: Result<Id, ErrorKind>, got: Result<Document, ErrorKind>, paid: Result<PayoutReceipt, ErrorKind>,
             rated: Result<Id, ErrorKind>, updated: Result<Id, ErrorKind>, again: Result<Id, ErrorKind>)
    requires store.Valid()
    modifies store
    ensures deleted.Success? <==> old(store.IsActive(id))
    ensures got == Failure(ARTIST_NOTFOUND)
    ensures paid == Failure(ARTIST_NOTFOUND)
    ensures rated == Failure(ARTIST_NOTFOUND)
    ensures updated == Failure(if ValidateArtistBody(body).Success? then ARTIST_NOTFOUND else BAD_REQUEST)
    ensures again == Failure(ARTIST_NOTFOUND)
    ensures id in old(store.records) ==> id in store.records && store.records[id].deleted
  {
    deleted := store.DeleteById(id);
    got := store.GetById(id, now);
    paid := store.Payout(id, user, now);
    rated := store.ChangeRate(id, query);
    updated := store.Update(id, body);
    again := store.DeleteById(id);
  }

  /** Asking twice for the same new rate changes it once; the second request is NOT_MODIFIED. */
  method ChangeRateTwice(store: ArtistStore, id: Id, query: RateQuery) returns (first: Result<Id, ErrorKind>, second: Result<Id, ErrorKind>)
    requires store.Valid()
    modifies store
    ensures first.Success? ==> second == Failure(NOT_MODIFIED)
    ensures first.Failure? ==> second == first
  {
    first := store.ChangeRate(id, query);
    second := store.ChangeRate(id, query);
  }

  /** Right after a payout, the artist's view shows every stream paid and the status PAID. */
  method PayoutThenGet(store: ArtistStore, id: Id, user: Id, now: Time)
    returns (paid: Result<PayoutReceipt, ErrorKind>, got: Result<Document, ErrorKind>)
    requires store.Valid()
    modifies store
    ensures paid.Success? <==> got.Success?
    ensures paid.Success? ==>
      && PaidStatus in got.value && got.value[PaidStatus] == Status(PAID)
      && Streams in got.value && got.value[Streams] == Count(paid.value.paidStreams)
      && PaidStreams in got.value && got.value[PaidStreams] == Count(paid.value.paidStreams)
  {
    paid := store.Payout(id, user, now);
    got := store.GetById(id, now);
    if paid.Success? {
      PaidRightAfterPayout(store.records[id], now);
      ArtistViewKeys(store.records[id], now);
      ArtistViewIdentity(store.records[id], now);
      ArtistViewContents(store.records[id], now);
    }
  }

  /** A new artist is shown with no streams, nothing paid, and the status PAID, as it was never paid. */
  method CreateThenGet(store: ArtistStore, body: Option<ArtistBody>, user: Id, now: Time, later: Time)
    returns (created: Result<Document, ErrorKind>, got: Result<Document, ErrorKind>)
    requires store.Valid()
    modifies store
    ensures created.Success? <==> ValidateArtistBody(body).Success?
    ensures created.Success? ==>
      && got.Success?
      && Name in got.value && got.value[Name] == Text(body.value.name.value)
      && Streams in got.value && got.value[Streams] == Count(0)
      && PaidStreams in got.value && got.value[PaidStreams] == Count(0)
      && PaidStatus in got.value && got.value[PaidStatus] == Status(PAID)
  {
    var id := store.nextId;
    created := store.Create(body, user, now);
    got := store.GetById(id, later);
    if created.Success? {
      NeverPaidIsPaid(store.records[id], later);
      ArtistViewKeys(store.records[id], later);
      ArtistViewIdentity(store.records[id], later);
      ArtistViewContents(store.records[id], later);
    }
  }
}
