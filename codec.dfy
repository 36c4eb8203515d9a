/**
  The subscription record and its stored form. The payload column holds a JSON object; JSON text itself
  is not modelled, so a payload is the decoded object: a map from field name to JSON value.
*/
module SubscriptionCodec {
  import opened Wrappers
  import opened JavaTypes

  /** The JSON values a payload field can hold. Numbers are integral. */
  datatype JsonValue = JString(s: string) | JNumber(n: int) | JBool(b: bool) | JNull

  type Payload = map<string, JsonValue>

  /**
    OwnedSubscription. The table filter is kept in its canonical string form: parsing and printing it
    belong to the condition language and are taken to be inverse. `expiresAt` is a java.util.Date,
    i.e. epoch milliseconds in a `long`; a null owner is None.
  */
  datatype OwnedSubscription = OwnedSubscription(
    name: string,
    tableFilter: string,
    expiresAt: Long,
    eventTtl: Duration,
    ownerId: Option<string>)

  /** Errors of the DAO: failed schema resolution, and payloads that cannot be decoded. */
  datatype Error =
    | TableMissing                        // the keyspace has no table "subscription"
    | MissingPrimaryKeyColumn(index: nat) // the primary key has no column at this position
    | MissingColumn(index: nat)           // the table has no column at this position
    | MissingField(field: string)         // Objects.requireNonNull on a payload field failed
    | WrongFieldType(field: string)       // a cast of a payload field failed

  const FilterField := "filter"
  const ExpiresAtField := "expiresAt"
  const EventTtlField := "eventTtl"
  const OwnerIdField := "ownerId"

  /** Map.get on the decoded JSON object: an absent key and a JSON null both read as null. */
  function Get(p: Payload, field: string): Option<JsonValue> {
    if field in p && p[field] != JNull then Some(p[field]) else None
  }

  /** A field holding JSON null reads exactly like a field that is absent: both are null. */
  lemma NullReadsAsAbsent(p: Payload, field: string)
    ensures Get(p[field := JNull], field) == Get(p - {field}, field) == None
    ensures field in p && p[field] != JNull ==> Get(p, field) == Some(p[field])
  {
  }

  /** The four-field object written for a subscription; a null owner is written as JSON null. */
  function Encode(sub: OwnedSubscription): (p: Payload)
    ensures p.Keys == {FilterField, ExpiresAtField, EventTtlField, OwnerIdField}
    ensures p[ExpiresAtField].JNumber? && InLong(p[ExpiresAtField].n)
    ensures Encodable(sub) ==> p[EventTtlField].JNumber? && InInt(p[EventTtlField].n)
  {
    map[FilterField := JString(sub.tableFilter),
        ExpiresAtField := JNumber(sub.expiresAt),
        EventTtlField := JNumber(sub.eventTtl.seconds),
        OwnerIdField := if sub.ownerId.Some? then JString(sub.ownerId.value) else JNull]
  }

  /** The payload has every field decoding needs, each of the type its cast expects. */
  predicate WellTyped(p: Payload) {
    && Get(p, FilterField).Some? && Get(p, FilterField).value.JString?
    && Get(p, ExpiresAtField).Some? && Get(p, ExpiresAtField).value.JNumber?
    && Get(p, EventTtlField).Some? && Get(p, EventTtlField).value.JNumber?
    && (Get(p, OwnerIdField).None? || Get(p, OwnerIdField).value.JString?)
  }

  /**
    rowToOwnedSubscription: `name` is the row's clustering key. The fields are read in the order
    filter, expiresAt, eventTtl, ownerId; the first failure is the result. `longValue()` and
    `intValue()` narrow the JSON number to 64 and 32 bits.
  */
  function Decode(name: string, p: Payload): (r: Result<OwnedSubscription, Error>)
    ensures r.Success? <==> WellTyped(p)
    ensures Get(p, FilterField).None? ==> r == Failure(MissingField(FilterField))
    ensures Get(p, FilterField).Some? && Get(p, FilterField).value.JString? && Get(p, ExpiresAtField).None?
      ==> r == Failure(MissingField(ExpiresAtField))
    ensures Get(p, FilterField).Some? && Get(p, FilterField).value.JString?
      && Get(p, ExpiresAtField).Some? && Get(p, ExpiresAtField).value.JNumber? && Get(p, EventTtlField).None?
      ==> r == Failure(MissingField(EventTtlField))
    ensures r.Failure? ==> r.error.MissingField? || r.error.WrongFieldType?
    ensures r.Success? ==>
      && r.value.name == name
      && p[FilterField] == JString(r.value.tableFilter)
      && r.value.expiresAt == WrapLong(p[ExpiresAtField].n)
      && r.value.eventTtl == OfSeconds(WrapInt(p[EventTtlField].n))
      && (r.value.ownerId.None? <==> Get(p, OwnerIdField).None?)
      && (r.value.ownerId.Some? ==> p[OwnerIdField] == JString(r.value.ownerId.value))
  {
    match Get(p, FilterField)
    case None => Failure(MissingField(FilterField))
    case Some(filter) =>
      if !filter.JString? then Failure(WrongFieldType(FilterField)) else
      match Get(p, ExpiresAtField)
      case None => Failure(MissingField(ExpiresAtField))
      case Some(expiresAt) =>
        if !expiresAt.JNumber? then Failure(WrongFieldType(ExpiresAtField)) else
        match Get(p, EventTtlField)
        case None => Failure(MissingField(EventTtlField))
        case Some(eventTtl) =>
          if !eventTtl.JNumber? then Failure(WrongFieldType(EventTtlField)) else
          match Get(p, OwnerIdField)
          case None =>
            Success(OwnedSubscription(name, filter.s, WrapLong(expiresAt.n), OfSeconds(WrapInt(eventTtl.n)), None))
          case Some(owner) =>
            if !owner.JString? then Failure(WrongFieldType(OwnerIdField))
            else Success(OwnedSubscription(name, filter.s, WrapLong(expiresAt.n), OfSeconds(WrapInt(eventTtl.n)), Some(owner.s)))
  }

  /**
    A subscription survives being written and read back when its event TTL is whole seconds that fit
    in an `int`; the `long` expiry always does.
  */
  predicate Encodable(sub: OwnedSubscription) {
    sub.eventTtl.nanos == 0 && InInt(sub.eventTtl.seconds)
  }

  /** Decoding the payload written for a subscription gives the subscription back, null owner included. */
  lemma DecodeEncode(sub: OwnedSubscription)
    requires Encodable(sub)
    ensures Decode(sub.name, Encode(sub)) == Success(sub)
  {
  }

  /** Records written before owners were tracked have no ownerId; they decode with a null owner. */
  lemma DecodeWithoutOwner(name: string, filter: string, expiresAt: Long, eventTtl: Int)
    ensures Decode(name, map[FilterField := JString(filter), ExpiresAtField := JNumber(expiresAt),
                             EventTtlField := JNumber(eventTtl)])
         == Success(OwnedSubscription(name, filter, expiresAt, OfSeconds(eventTtl), None))
  {
  }

  /** An event TTL beyond the range of `int` does not survive the narrowing on read. */
  lemma NarrowingLosesWideEventTtl(sub: OwnedSubscription)
    requires sub.eventTtl == OfSeconds(MaxInt + 1) && sub.ownerId.None?
    ensures Decode(sub.name, Encode(sub)).Success?
    ensures Decode(sub.name, Encode(sub)).value.eventTtl == OfSeconds(MinInt)
  {
  }
}
