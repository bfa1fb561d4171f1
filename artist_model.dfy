/**
  The artist model of src/models/artist.js: the stored record, the static
  `generate` that builds a new artist from schema defaults and a whitelist of
  input keys, and `artistToJSON`, the external view with its PAID/UNPAID rule.

  The current time, which the source reads from the clock (`moment()`), is a
  parameter here.
*/
module ArtistModel {
  import opened Wrappers

  /** An ObjectId: artist ids and acting-user ids are opaque. */
  type Id = nat

  /** Milliseconds since the epoch, as `Date.now()` returns. */
  type Time = int

  /** PAID_STATUS_TYPE. */
  datatype PaidStatusType = PAID | UNPAID

  /**
    A stored artist. `rate` is in millionths (six fractional digits);
    `lastPaidAt` and `paidBy` are absent until the first payout; `deleted` is
    the soft-delete flag.
  */
  datatype Artist = Artist(
    id: Id,
    name: string,
    rate: nat,
    streams: nat,
    paidStreams: nat,
    createdBy: Id,
    lastPaidAt: Option<Time>,
    paidBy: Option<Id>,
    deleted: bool)

  /** The values a document key can hold; `Undefined` is what reading an absent key gives. */
  datatype Value =
    | Undefined
    | ObjectId(oid: Id)
    | Text(text: string)
    | Count(count: nat)
    | Amount(micros: nat)
    | Timestamp(ms: Time)
    | Flag(flag: bool)
    | Status(status: PaidStatusType)

  /** The property names that have a constructor of their own in `Key`. */
  const ListedNames: set<string> :=
    {"_id", "id", "name", "rate", "streams", "paidStreams", "createdBy",
     "deleted", "lastPaidAt", "paidBy", "lastPaidBy", "paidStatus"}

  /** Any other property name. */
  type UnlistedName = n: string | n !in ListedNames witness ""

  /**
    Property names, each in one spelling. Each constructor but the last stands
    for the name in its comment; `Other(name)` stands for `name`, which is
    never one of those.
  */
  datatype Key =
    | MongoId      // "_id"
    | ViewId       // "id"
    | Name         // "name"
    | Rate         // "rate"
    | Streams      // "streams"
    | PaidStreams  // "paidStreams"
    | CreatedBy    // "createdBy"
    | Deleted      // "deleted"
    | LastPaidAt   // "lastPaidAt"
    | PaidBy       // "paidBy"
    | LastPaidBy   // "lastPaidBy"
    | PaidStatus   // "paidStatus"
    | Other(name: UnlistedName)

  /** The JavaScript property name a key stands for. */
  function Spelling(k: Key): string
  {
    match k
    case MongoId => "_id"
    case ViewId => "id"
    case Name => "name"
    case Rate => "rate"
    case Streams => "streams"
    case PaidStreams => "paidStreams"
    case CreatedBy => "createdBy"
    case Deleted => "deleted"
    case LastPaidAt => "lastPaidAt"
    case PaidBy => "paidBy"
    case LastPaidBy => "lastPaidBy"
    case PaidStatus => "paidStatus"
    case Other(n) => n
  }

  /** Each JavaScript property name has exactly one key: two keys are equal exactly when they spell the same name. */
  lemma OneKeyPerName(k: Key, k': Key)
    ensures k == k' <==> Spelling(k) == Spelling(k')
  {
    if Spelling(k) == Spelling(k') {
      if k.Other? || k'.Other? {
        assert k.Other? && k'.Other?;
      }
    }
  }

  /** A plain object: its own keys and their values. */
  type Document = map<Key, Value>

  // ---------------------------------------------------------------------------
  // The record as a document
  // ---------------------------------------------------------------------------

  /** `artist[key]` on a lean read of the record: undefined for a key it does not hold. */
  function Field(a: Artist, key: Key): Value
  {
    match key
    case MongoId => ObjectId(a.id)
    case Name => Text(a.name)
    case Rate => Amount(a.rate)
    case Streams => Count(a.streams)
    case PaidStreams => Count(a.paidStreams)
    case CreatedBy => ObjectId(a.createdBy)
    case Deleted => Flag(a.deleted)
    case LastPaidAt => if a.lastPaidAt.Some? then Timestamp(a.lastPaidAt.value) else Undefined
    case PaidBy => if a.paidBy.Some? then ObjectId(a.paidBy.value) else Undefined
    case _ => Undefined
  }

  /** The keys a stored record holds. */
  const StoredKeys: set<Key> := {MongoId, Name, Rate, Streams, PaidStreams, CreatedBy, Deleted, LastPaidAt, PaidBy}

  /** The record as a document: its defined fields. */
  function Doc(a: Artist): Document
  {
    map k | k in StoredKeys && Field(a, k) != Undefined :: Field(a, k)
  }

  /** True when the records `a` and `b` hold the same value under every key outside `keys`. */
  ghost predicate SameOutside(a: Artist, b: Artist, keys: set<Key>)
  {
    forall k :: k !in keys ==> Field(a, k) == Field(b, k)
  }

  /**
    A document as the schema stores it: `name`, `rate` and `createdBy` are
    required, `streams` and `paidStreams` have defaults, the soft-delete flag is
    present; `lastPaidAt` and `paidBy` are optional.
  */
  function FromDocument(doc: Document): Option<Artist>
  {
    if && MongoId in doc && doc[MongoId].ObjectId?
       && Name in doc && doc[Name].Text?
       && Rate in doc && doc[Rate].Amount?
       && Streams in doc && doc[Streams].Count?
       && PaidStreams in doc && doc[PaidStreams].Count?
       && CreatedBy in doc && doc[CreatedBy].ObjectId?
       && Deleted in doc && doc[Deleted].Flag?
    then
      Some(Artist(
        doc[MongoId].oid,
        doc[Name].text,
        doc[Rate].micros,
        doc[Streams].count,
        doc[PaidStreams].count,
        doc[CreatedBy].oid,
        if LastPaidAt in doc && doc[LastPaidAt].Timestamp? then Some(doc[LastPaidAt].ms) else None,
        if PaidBy in doc && doc[PaidBy].ObjectId? then Some(doc[PaidBy].oid) else None,
        doc[Deleted].flag))
    else None
  }

  /** A record read from a document holds what the document holds under each key it keeps. */
  lemma FromDocumentKeeps(doc: Document)
    requires FromDocument(doc).Some?
    ensures forall k :: k in Doc(FromDocument(doc).value) ==> k in doc && Doc(FromDocument(doc).value)[k] == doc[k]
  {
  }

  /** Reading back the document of a record gives the record. */
  lemma DocumentRoundTrip(a: Artist)
    ensures FromDocument(Doc(a)) == Some(a)
  {
  }

  // ---------------------------------------------------------------------------
  // generate
  // ---------------------------------------------------------------------------

  /** The only input keys `generate` copies. */
  const Whitelist: seq<Key> := [MongoId, Name, Rate, CreatedBy]

  /**
    A new document before any key is copied: the schema defaults
    (`streams` and `paidStreams` 0, the soft-delete flag false) and an
    automatically allocated `_id`.
  */
  function SchemaDefaults(autoId: Id): Document
  {
    map[MongoId := ObjectId(autoId), Streams := Count(0), PaidStreams := Count(0), Deleted := Flag(false)]
  }

  /** The document `generate` returns for non-empty `data`. */
  function Generated(data: Document, autoId: Id): Document
  {
    SchemaDefaults(autoId) + map k | k in data && k in Whitelist :: data[k]
  }

  /**
    The generated document holds the schema defaults and the whitelisted keys
    of `data`; a whitelisted key takes the value `data` gives it, every other
    key keeps its default.
  */
  lemma GeneratedShape(data: Document, autoId: Id)
    ensures forall k :: k in Generated(data, autoId) <==> k in SchemaDefaults(autoId) || (k in Whitelist && k in data)
    ensures forall k :: k in Whitelist && k in data ==> Generated(data, autoId)[k] == data[k]
    ensures forall k :: k in Generated(data, autoId) && !(k in Whitelist && k in data) ==>
      Generated(data, autoId)[k] == SchemaDefaults(autoId)[k]
  {
  }

  /**
    `generate`: refuses empty data, otherwise starts from the schema defaults
    and copies each whitelisted key that `data` holds.
  */
  method Generate(data: Document, autoId: Id) returns (r: Result<Document, string>)
    ensures r.Failure? <==> data == map[]
    ensures r.Failure? ==> r.error == "Artist data is required"
    ensures r.Success? ==> r.value == Generated(data, autoId)
  {
    if data == map[] {
      return Failure("Artist data is required");
    }
    var artist := SchemaDefaults(autoId);
    for i := 0 to |Whitelist|
      invariant forall k :: k in artist <==> k in SchemaDefaults(autoId) || (k in data && k in Whitelist[..i])
      invariant forall k :: k in data && k in Whitelist[..i] ==> artist[k] == data[k]
      invariant forall k :: k in artist && !(k in data && k in Whitelist[..i]) ==> artist[k] == SchemaDefaults(autoId)[k]
    {
      var x := Whitelist[i];
      assert Whitelist[..i + 1] == Whitelist[..i] + [x];
      if x in data {
        artist := artist[x := data[x]];
      }
    }
    assert Whitelist[..|Whitelist|] == Whitelist;
    GeneratedShape(data, autoId);
    return Success(artist);
  }

  /** A generated artist starts with no streams and nothing paid, whatever the input holds. */
  lemma GeneratedStartsUnstreamed(data: Document, autoId: Id)
    ensures Generated(data, autoId)[Streams] == Count(0)
    ensures Generated(data, autoId)[PaidStreams] == Count(0)
    ensures Generated(data, autoId)[Deleted] == Flag(false)
    ensures LastPaidAt !in Generated(data, autoId) && PaidBy !in Generated(data, autoId)
  {
  }

  /** Keys outside the whitelist do not influence `generate`. */
  lemma GeneratedIgnoresOtherKeys(data: Document, data': Document, autoId: Id)
    requires forall k :: k in Whitelist ==> (k in data <==> k in data')
    requires forall k :: k in Whitelist && k in data ==> data[k] == data'[k]
    ensures Generated(data, autoId) == Generated(data', autoId)
  {
  }

  // ---------------------------------------------------------------------------
  // Paid status
  // ---------------------------------------------------------------------------

  /** Milliseconds in a day. */
  const DayMillis := 86400000

  /** Days after the last payout beyond which an artist with unpaid streams is UNPAID. */
  const StaleAfterDays := 14

  /** moment's `diff(..., 'd')`: whole days in `ms`, truncated toward zero. */
  function WholeDays(ms: int): (d: int)
    ensures ms >= 0 ==> 0 <= d && d * DayMillis <= ms < (d + 1) * DayMillis
    ensures ms < 0 ==> d <= 0 && (d - 1) * DayMillis < ms <= d * DayMillis
  {
    if ms >= 0 then ms / DayMillis else -((-ms) / DayMillis)
  }

  /**
    `moment().diff(artist.lastPaidAt, 'd')`. With no `lastPaidAt`, `moment()`
    is diffed against the current instant itself and the difference is 0.
  */
  function DaysSinceLastPayout(a: Artist, now: Time): int
  {
    match a.lastPaidAt
    case None => 0
    case Some(t) => WholeDays(now - t)
  }

  function PaidStatusOf(a: Artist, now: Time): PaidStatusType
  {
    if DaysSinceLastPayout(a, now) > StaleAfterDays && a.streams > a.paidStreams then UNPAID else PAID
  }

  /**
    An artist is UNPAID exactly when it was paid at least fifteen full days
    ago and has streams beyond those paid.
  */
  lemma UnpaidIff(a: Artist, now: Time)
    ensures PaidStatusOf(a, now) == UNPAID <==>
      && a.lastPaidAt.Some?
      && now - a.lastPaidAt.value >= (StaleAfterDays + 1) * DayMillis
      && a.streams > a.paidStreams
  {
  }

  /** With every stream paid, the status is PAID however much time has passed. */
  lemma CoveredStreamsArePaid(a: Artist, now: Time)
    requires a.streams <= a.paidStreams
    ensures PaidStatusOf(a, now) == PAID
  {
  }

  /** Within fourteen whole days of a payout the status is PAID, whatever the stream counts. */
  lemma RecentPayoutIsPaid(a: Artist, now: Time)
    requires a.lastPaidAt.Some? && now - a.lastPaidAt.value < (StaleAfterDays + 1) * DayMillis
    ensures PaidStatusOf(a, now) == PAID
  {
  }

  /** An artist never paid is reported PAID: the elapsed days read as 0. */
  lemma NeverPaidIsPaid(a: Artist, now: Time)
    requires a.lastPaidAt.None?
    ensures PaidStatusOf(a, now) == PAID
  {
  }

  /** At the instant of a payout that covered every stream, the status is PAID. */
  lemma PaidRightAfterPayout(a: Artist, now: Time)
    requires a.lastPaidAt == Some(now) && a.paidStreams == a.streams
    ensures PaidStatusOf(a, now) == PAID
  {
  }

  // ---------------------------------------------------------------------------
  // artistToJSON
  // ---------------------------------------------------------------------------

  /** The keys `artistToJSON` always writes (the formatted dates and the monthly average aside). */
  const ViewKeys: set<Key> := {ViewId, Name, Rate, Streams, PaidStatus, PaidStreams, LastPaidBy}

  /** The value the object literal of `artistToJSON` gives a view key. */
  function ViewValue(a: Artist, status: PaidStatusType, key: Key): Value
  {
    match key
    case ViewId => ObjectId(a.id)
    case PaidStatus => Status(status)
    case _ => Field(a, key)
  }

  /**
    The `reduce` over the extra property names: starting from `{}`, each name
    in turn is bound to the record's value for it.
  */
  function ExtraProps(a: Artist, props: seq<Key>): Document
    decreases |props|
  {
    if props == [] then map[]
    else
      var last := props[|props| - 1];
      ExtraProps(a, props[..|props| - 1])[last := Field(a, last)]
  }

  /** What the fold builds: each requested name bound to the record's value for it, and nothing else. */
  lemma {:induction false} ExtraPropsBindsEachName(a: Artist, props: seq<Key>)
    ensures ExtraProps(a, props) == map p | p in props :: Field(a, p)
    decreases |props|
  {
    if props != [] {
      var init, last := props[..|props| - 1], props[|props| - 1];
      ExtraPropsBindsEachName(a, init);
      assert props == init + [last];
      assert forall p :: p in props <==> p in init || p == last;
    }
  }

  /**
    `artistToJSON(artist, ...extraProps)`. The extra properties are spread
    last, so a requested name that is also a view key replaces that key's
    value.
  */
  function ArtistToJson(a: Artist, now: Time, extraProps: seq<Key>): Document
  {
    var status := PaidStatusOf(a, now);
    var base := map k | k in ViewKeys :: ViewValue(a, status, k);
    base + ExtraProps(a, extraProps)
  }

  /**
    The view holds exactly the view keys and the extra properties; a view key
    not asked for again keeps its literal value, an extra property takes the
    record's value.
  */
  lemma ArtistToJsonShape(a: Artist, now: Time, extraProps: seq<Key>)
    ensures forall k :: k in ArtistToJson(a, now, extraProps) <==> k in ViewKeys || k in extraProps
    ensures forall k :: k in ViewKeys && k !in extraProps ==>
      ArtistToJson(a, now, extraProps)[k] == ViewValue(a, PaidStatusOf(a, now), k)
    ensures forall p :: p in extraProps ==> ArtistToJson(a, now, extraProps)[p] == Field(a, p)
  {
    ExtraPropsBindsEachName(a, extraProps);
  }

  /**
    The view carries the record's name, rate and stream counts whatever extra
    properties are asked for, and `lastPaidBy`, a field no handler writes, is
    always undefined.
  */
  lemma ViewPassesThrough(a: Artist, now: Time, extraProps: seq<Key>)
    ensures ArtistToJson(a, now, extraProps)[Name] == Text(a.name)
    ensures ArtistToJson(a, now, extraProps)[Rate] == Amount(a.rate)
    ensures ArtistToJson(a, now, extraProps)[Streams] == Count(a.streams)
    ensures ArtistToJson(a, now, extraProps)[PaidStreams] == Count(a.paidStreams)
    ensures ArtistToJson(a, now, extraProps)[LastPaidBy] == Undefined
  {
    ExtraPropsBindsEachName(a, extraProps);
    assert Name in ViewKeys;
    assert Rate in ViewKeys;
    assert Streams in ViewKeys;
    assert PaidStreams in ViewKeys;
    assert LastPaidBy in ViewKeys;
  }

  /** `id` is the record's `_id` unless an extra property `id` replaces it (a lean record holds no own `id`). */
  lemma ViewIdIsRecordId(a: Artist, now: Time, extraProps: seq<Key>)
    ensures ArtistToJson(a, now, extraProps)[ViewId] == (if ViewId in extraProps then Undefined else ObjectId(a.id))
  {
    ExtraPropsBindsEachName(a, extraProps);
    assert ViewId in ViewKeys;
  }

  /** `paidStatus` is the derived status unless an extra property `paidStatus` replaces it. */
  lemma ViewStatusIsDerived(a: Artist, now: Time, extraProps: seq<Key>)
    ensures ArtistToJson(a, now, extraProps)[PaidStatus] ==
      (if PaidStatus in extraProps then Undefined else Status(PaidStatusOf(a, now)))
  {
    ExtraPropsBindsEachName(a, extraProps);
    assert PaidStatus in ViewKeys;
  }

  /**
    The handlers call `artistDTO(artist, null)`, which passes `[null]` on as the
    single extra property; its key is the string form of `[null]`, the empty
    string, and the record holds nothing under it.
  */
  const NullPropKey := Other("")

  /** The view every handler returns. */
  function ArtistView(a: Artist, now: Time): Document
  {
    ArtistToJson(a, now, [NullPropKey])
  }

  /** The view the handlers return holds every view key and the one extra key. */
  lemma ArtistViewKeys(a: Artist, now: Time)
    ensures forall k :: k in ArtistView(a, now) <==> k in ViewKeys || k == NullPropKey
  {
    assert ExtraProps(a, [NullPropKey]) == map[NullPropKey := Undefined];
  }

  /** The view the handlers return shows the record's id and its derived status. */
  lemma ArtistViewIdentity(a: Artist, now: Time)
    ensures ArtistView(a, now)[ViewId] == ObjectId(a.id)
    ensures ArtistView(a, now)[PaidStatus] == Status(PaidStatusOf(a, now))
  {
    ArtistViewKeys(a, now);
    ViewIdIsRecordId(a, now, [NullPropKey]);
    ViewStatusIsDerived(a, now, [NullPropKey]);
  }

  /**
    The view the handlers return shows the record's name, rate and stream
    counts; the extra key it gains holds nothing.
  */
  lemma ArtistViewContents(a: Artist, now: Time)
    ensures ArtistView(a, now)[Name] == Text(a.name)
    ensures ArtistView(a, now)[Rate] == Amount(a.rate)
    ensures ArtistView(a, now)[Streams] == Count(a.streams)
    ensures ArtistView(a, now)[PaidStreams] == Count(a.paidStreams)
    ensures ArtistView(a, now)[NullPropKey] == Undefined
  {
    var props := [NullPropKey];
    ExtraPropsBindsEachName(a, props);
    ViewPassesThrough(a, now, props);
  }
}
