/**
  The column family "subscription" as the DAO sees it. Every subscription is a row of the single
  partition "subscriptions", clustered by subscription name; each write carries its own TTL, after
  which Cassandra removes the row (that expiry is Cassandra's, not modelled here).
*/
module SubscriptionTable {
  import opened Wrappers
  import opened JavaTypes
  import opened Ttls
  import opened SubscriptionCodec
  import opened Clustering

  /** The partition key shared by every subscription row. */
  const RowKey := "subscriptions"

  /** 365 days in seconds: the bound on both the row TTL and the event TTL. */
  const SubscriptionTtlLimit: Int := 365 * SecondsPerDay

  /** A primary key: partition key and clustering key (the subscription name). */
  datatype Key = Key(rowkey: string, name: string)

  /** A stored row: the payload column and the TTL, in seconds, its write was given. */
  datatype Row = Row(payload: Payload, ttl: Int)

  type Table = map<Key, Row>

  /** An INSERT of `row` under (RowKey, name): Cassandra writes are upserts. */
  function Upsert(t: Table, name: string, row: Row): (r: Table)
    ensures r.Keys == t.Keys + {Key(RowKey, name)}
    ensures r[Key(RowKey, name)] == row
    ensures forall k :: k in t && k != Key(RowKey, name) ==> r[k] == t[k]
  {
    t[Key(RowKey, name) := row]
  }

  /** A DELETE of (RowKey, name); deleting a row that is not there changes nothing. */
  function Remove(t: Table, name: string): (r: Table)
    ensures r.Keys == t.Keys - {Key(RowKey, name)}
    ensures forall k :: k in r ==> r[k] == t[k]
    ensures Key(RowKey, name) !in t ==> r == t
  {
    t - {Key(RowKey, name)}
  }

  /** The clustering keys of the subscriptions partition. */
  function PartitionNames(t: Table): (names: set<string>)
    ensures forall n :: n in names <==> Key(RowKey, n) in t
  {
    set k | k in t && k.rowkey == RowKey :: k.name
  }

  /** getSubscription once the column names are known: no row is null, a row is decoded. */
  function ReadSubscription(t: Table, name: string): (r: Result<Option<OwnedSubscription>, Error>)
    ensures r == Success(None) <==> Key(RowKey, name) !in t
    ensures r.Success? && r.value.Some? ==> r.value.value.name == name
  {
    if Key(RowKey, name) !in t then Success(None)
    else match Decode(name, t[Key(RowKey, name)].payload)
      case Success(sub) => Success(Some(sub))
      case Failure(e) => Failure(e)
  }

  /**
    The record the public insertSubscription builds: it expires `subscriptionTtl` after `now` (a
    `long` sum, so it wraps), and its event TTL is `eventTtl` bounded to [1 s, 365 days].
  */
  function NewSubscription(ownerId: Option<string>, name: string, tableFilter: string,
                           subscriptionTtl: Duration, eventTtl: Duration, now: Long): (sub: OwnedSubscription)
    requires InLong(ToMillis(subscriptionTtl))
    ensures sub.name == name && sub.tableFilter == tableFilter && sub.ownerId == ownerId
    ensures sub.eventTtl.nanos == 0 && 1 <= sub.eventTtl.seconds <= SubscriptionTtlLimit
    ensures 1 <= eventTtl.seconds <= SubscriptionTtlLimit ==> sub.eventTtl == OfSeconds(eventTtl.seconds)
    ensures Encodable(sub)
    ensures InLong(now + ToMillis(subscriptionTtl)) ==> sub.expiresAt == now + ToMillis(subscriptionTtl)
  {
    OwnedSubscription(name, tableFilter, WrapLong(now + ToMillis(subscriptionTtl)),
                      OfSeconds(ToSeconds(eventTtl, 1, SubscriptionTtlLimit)), ownerId)
  }

  /** The TTL the insert is written with: the subscription lifetime bounded to [1 s, 365 days]. */
  function RowTtl(subscriptionTtl: Duration): (ttl: Int)
    ensures 1 <= ttl <= SubscriptionTtlLimit
    ensures 1 <= subscriptionTtl.seconds <= SubscriptionTtlLimit ==> ttl == subscriptionTtl.seconds
  {
    ToSeconds(subscriptionTtl, 1, SubscriptionTtlLimit)
  }

  /** A lifetime of zero is written with a TTL of one second; one of 1000 days is bounded to 365 days,
      while its expiry time is not bounded. */
  lemma LifetimeBounds(ownerId: Option<string>, name: string, tableFilter: string, eventTtl: Duration, now: Long)
    requires 0 <= now <= 0x1_0000_0000_0000
    ensures RowTtl(Duration(0, 0)) == 1
    ensures RowTtl(Duration(1000 * SecondsPerDay, 0)) == SubscriptionTtlLimit
    ensures NewSubscription(ownerId, name, tableFilter, Duration(1000 * SecondsPerDay, 0), eventTtl, now).expiresAt
         == now + 1000 * SecondsPerDay * 1000
  {
  }

  /** Every row of the partition decodes, and both its TTLs lie in [1 s, 365 days]. */
  ghost predicate WellFormed(t: Table) {
    forall n :: Key(RowKey, n) in t ==>
      var row := t[Key(RowKey, n)];
      && 1 <= row.ttl <= SubscriptionTtlLimit
      && Decode(n, row.payload).Success?
      && 1 <= Decode(n, row.payload).value.eventTtl.seconds <= SubscriptionTtlLimit
  }

  /** An insert followed by a get of the same name returns the record just built, whatever was there. */
  lemma InsertThenRead(t: Table, ownerId: Option<string>, name: string, tableFilter: string,
                       subscriptionTtl: Duration, eventTtl: Duration, now: Long)
    requires InLong(ToMillis(subscriptionTtl))
    ensures var sub := NewSubscription(ownerId, name, tableFilter, subscriptionTtl, eventTtl, now);
            ReadSubscription(Upsert(t, name, Row(Encode(sub), RowTtl(subscriptionTtl))), name) == Success(Some(sub))
  {
  }

  /** Writing one name leaves what a get of any other name returns unchanged. */
  lemma InsertLeavesOthers(t: Table, name: string, row: Row, other: string)
    requires other != name
    ensures ReadSubscription(Upsert(t, name, row), other) == ReadSubscription(t, other)
  {
  }

  /** A second insert of the same name replaces the first entirely. */
  lemma InsertOverwrites(t: Table, name: string, first: Row, second: Row)
    ensures Upsert(Upsert(t, name, first), name, second) == Upsert(t, name, second)
  {
  }

  /** After a delete, a get of that name returns null; gets of other names are unchanged. */
  lemma DeleteThenRead(t: Table, name: string, other: string)
    ensures ReadSubscription(Remove(t, name), name) == Success(None)
    ensures other != name ==> ReadSubscription(Remove(t, name), other) == ReadSubscription(t, other)
  {
  }

  /** Inserts and deletes touch no partition but "subscriptions". */
  lemma OtherPartitionsUntouched(t: Table, name: string, row: Row, k: Key)
    requires k.rowkey != RowKey
    ensures k in Upsert(t, name, row) <==> k in t
    ensures k in Remove(t, name) <==> k in t
    ensures k in t ==> Upsert(t, name, row)[k] == t[k] && Remove(t, name)[k] == t[k]
  {
  }

  /** A call of insertSubscription or deleteSubscription, for reasoning about sequences of them. */
  datatype Op =
    | InsertOp(ownerId: Option<string>, name: string, tableFilter: string,
               subscriptionTtl: Duration, eventTtl: Duration, now: Long)
    | DeleteOp(name: string)

  /** The lifetime of an insert must be expressible in milliseconds (Duration.toMillis throws otherwise). */
  predicate Allowed(op: Op) {
    op.InsertOp? ==> InLong(ToMillis(op.subscriptionTtl))
  }

  function Apply(t: Table, op: Op): Table
    requires Allowed(op)
  {
    match op
    case InsertOp(ownerId, name, tableFilter, subscriptionTtl, eventTtl, now) =>
      Upsert(t, name, Row(Encode(NewSubscription(ownerId, name, tableFilter, subscriptionTtl, eventTtl, now)),
                          RowTtl(subscriptionTtl)))
    case DeleteOp(name) => Remove(t, name)
  }

  function Run(t: Table, ops: seq<Op>): Table
    requires forall i :: 0 <= i < |ops| ==> Allowed(ops[i])
    decreases |ops|
  {
    if ops == [] then t else Run(Apply(t, ops[0]), ops[1..])
  }

  lemma ApplyPreservesWellFormed(t: Table, op: Op)
    requires Allowed(op) && WellFormed(t)
    ensures WellFormed(Apply(t, op))
  {
  }

  /** Any sequence of inserts and deletes keeps every stored row readable, with both TTLs in range. */
  lemma {:induction false} RunPreservesWellFormed(t: Table, ops: seq<Op>)
    requires forall i :: 0 <= i < |ops| ==> Allowed(ops[i])
    requires WellFormed(t)
    ensures WellFormed(Run(t, ops))
    decreases |ops|
  {
    if ops != [] {
      ApplyPreservesWellFormed(t, ops[0]);
      RunPreservesWellFormed(Apply(t, ops[0]), ops[1..]);
    }
  }

  /** In a well-formed table the listed names are exactly the names a get finds. */
  lemma NamesAreReadable(t: Table, name: string)
    requires WellFormed(t)
    ensures name in PartitionNames(t) <==> ReadSubscription(t, name).Success? && ReadSubscription(t, name).value.Some?
  {
  }

  /** getAllSubscriptionNames: the partition's names in clustering order. */
  ghost function AllNames(t: Table): (names: seq<string>)
    ensures StrictlySorted(names)
    ensures forall n :: n in names <==> Key(RowKey, n) in t
  {
    ClusteringOrder(PartitionNames(t))
  }

  /** The rows a scan of the partition returns, in clustering order. */
  ghost function PartitionRows(t: Table): (rows: seq<(string, Row)>)
    ensures |rows| == |AllNames(t)|
    ensures forall i :: 0 <= i < |rows| ==>
      rows[i].0 == AllNames(t)[i] && Key(RowKey, rows[i].0) in t && rows[i].1 == t[Key(RowKey, rows[i].0)]
  {
    var names := AllNames(t);
    seq(|names|, i requires 0 <= i < |names| => (names[i], t[Key(RowKey, names[i])]))
  }

  /** getAllSubscriptions: each row of the scan decoded, in the same order. */
  ghost function AllSubscriptions(t: Table): (subs: seq<Result<OwnedSubscription, Error>>)
    ensures |subs| == |AllNames(t)|
    ensures forall i :: 0 <= i < |subs| ==>
      Key(RowKey, AllNames(t)[i]) in t && subs[i] == Decode(AllNames(t)[i], t[Key(RowKey, AllNames(t)[i])].payload)
  {
    var rows := PartitionRows(t);
    seq(|rows|, i requires 0 <= i < |rows| => Decode(rows[i].0, rows[i].1.payload))
  }

  /** The listing is the only one possible: any ascending, duplicate-free listing of the partition's names
      is the one getAllSubscriptionNames returns. */
  lemma AllNamesExact(t: Table, names: seq<string>)
    requires StrictlySorted(names)
    requires forall n :: n in names <==> Key(RowKey, n) in t
    ensures names == AllNames(t)
  {
    var ks := PartitionNames(t);
    assert forall n :: n in names <==> n in ks;
    assert |names| == |ks| by { SortedHasSize(names, ks); }
    SortedUnique(names, AllNames(t));
  }

  /** Both enumerations visit the same names in the same order, and the i-th subscription is what a get
      of the i-th name returns. */
  lemma EnumerationsAgree(t: Table, i: nat)
    requires i < |AllNames(t)|
    ensures |AllSubscriptions(t)| == |AllNames(t)|
    ensures AllSubscriptions(t)[i].Success? ==> AllSubscriptions(t)[i].value.name == AllNames(t)[i]
    ensures ReadSubscription(t, AllNames(t)[i]) ==
      match AllSubscriptions(t)[i]
      case Success(sub) => Success(Some(sub))
      case Failure(e) => Failure(e)
  {
  }

  /** In a well-formed table the full enumeration holds no decode error. */
  lemma WellFormedEnumeratesCleanly(t: Table)
    requires WellFormed(t)
    ensures forall i :: 0 <= i < |AllSubscriptions(t)| ==> AllSubscriptions(t)[i].Success?
  {
  }
}
