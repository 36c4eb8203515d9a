# CqlSubscriptionDAO in Dafny

A model of emodb's databus subscription store, `CqlSubscriptionDAO`. The store keeps every
subscription as a row of one Cassandra partition, `"subscriptions"`, in the column family
`subscription`. Each row is clustered by subscription name and holds a JSON payload: filter,
expiry time, event TTL and owner. Each row is written with a Cassandra TTL, so the store itself drops
rows that expire. The DAO looks up the names of its three columns in the table metadata the first
time a statement needs them, and keeps them for the rest of its life.

The model has these parts:

- `JavaTypes` (java_types.dfy): Java `int` and `long` as subset types, with two's-complement
  narrowing written out, and the part of `java.time.Duration` the DAO uses.
- `Ttls` (ttls.dfy): `Ttls.toSeconds`. Its source is not part of this model, so it is given an
  assumed definition: the duration's whole seconds clamped to `[min, max]`.
- `SubscriptionCodec` (codec.dfy): the subscription record, the payload as a map from field name
  to JSON value, the encoder (lines 70-75) and `rowToOwnedSubscription` as `Decode`.
- `Clustering` (clustering.dfy): Cassandra's clustering order for text keys (lexicographic by
  Unicode scalar value, which is the same as UTF-8 byte order). It includes a proof that a strictly
  sorted listing of a key set is unique, and the method that lists a partition's keys in that order.
- `SubscriptionTable` (table.dfy): the column family as a map from (partition key, name) to
  (payload, TTL). It holds the pure specification of insert, delete, get and the two enumerations,
  the record an insert builds, and the lemmas relating them. These include insert-then-get,
  last-write-wins, delete-then-get, other partitions untouched, any sequence of inserts and deletes
  keeping every row readable with both TTLs in range, and the two enumerations listing the same
  names in the same order.
- `CqlDao` (dao.dfy): the class `CqlSubscriptionDao`. It holds the table, the table metadata, the
  three nullable column-name fields and a ghost count of metadata reads. Its methods are the DAO's
  operations, each specified against `SubscriptionTable`.

Two points about the column names and the owner field:

- No operation should see a partly filled set of column names. `getColumnNames` (lines 181-186)
  assigns the three fields one after the other, so a lookup that fails part way leaves the earlier
  fields set, and the accessors (lines 155-174) then return them without reading the metadata. The
  model follows the code. Delete and the name listing need only the two key columns. On a table whose primary
  key is complete but which has no payload column, they therefore fail on first use and succeed
  afterwards (`PartialResolutionScenario`). Operations that need all three columns still fail
  every time.
- A null owner is put into the payload map as `null` (line 74). How `JsonHelper.asJson` writes a
  null map value is not part of this model, so the model writes it as JSON null. On read, an absent
  key and a JSON null are the same, because `Map.get` returns null for both (line 136). The choice
  therefore makes no observable difference.

## Model

| member | source | states |
|---|---|---|
| `JavaTypes.WrapInt` | databus/src/main/java/com/bazaarvoice/emodb/databus/db/cql/CqlSubscriptionDAO.java:134 | `intValue()` gives an `int` congruent to the number mod 2^32, and the number itself when it fits |
| `JavaTypes.WrapLong` | databus/src/main/java/com/bazaarvoice/emodb/databus/db/cql/CqlSubscriptionDAO.java:61 | `long` addition and `longValue()` give a `long` congruent mod 2^64, and the exact value when it fits |
| `JavaTypes.OfSeconds` | databus/src/main/java/com/bazaarvoice/emodb/databus/db/cql/CqlSubscriptionDAO.java:62 | `Duration.ofSeconds(s)` lasts exactly `s` seconds, so its `toMillis()` is `s * 1000` |
| `JavaTypes.ToMillis` | databus/src/main/java/com/bazaarvoice/emodb/databus/db/cql/CqlSubscriptionDAO.java:61 | `toMillis()` is the duration's length in whole milliseconds, rounded down |
| `Ttls.ToSeconds` | databus/src/main/java/com/bazaarvoice/emodb/databus/db/cql/CqlSubscriptionDAO.java:62-65 | assumed: the result lies in `[min, max]` and is the duration's seconds when those lie in range |
| `SubscriptionCodec.NullReadsAsAbsent` | databus/src/main/java/com/bazaarvoice/emodb/databus/db/cql/CqlSubscriptionDAO.java:131-136 | `json.get` of a field holding JSON null and of an absent field both read as null; a present non-null field reads as its value |
| `SubscriptionCodec.Encode` | databus/src/main/java/com/bazaarvoice/emodb/databus/db/cql/CqlSubscriptionDAO.java:70-75 | the payload has exactly the four fields `filter`, `expiresAt`, `eventTtl`, `ownerId`; `expiresAt` is stored as a number within `long` milliseconds, and for an encodable record `eventTtl` as a number within `int` seconds, so the narrowing `intValue()` on read leaves it unchanged |
| `SubscriptionCodec.Decode` | databus/src/main/java/com/bazaarvoice/emodb/databus/db/cql/CqlSubscriptionDAO.java:129-138 | decoding succeeds iff filter, expiresAt and eventTtl are present with the cast types and ownerId is absent or a string; a missing filter, then expiresAt, then eventTtl is reported as that missing field; a success carries the row's name, the fields narrowed to `long`/`int`, and a null owner exactly when ownerId is absent |
| `SubscriptionCodec.DecodeEncode` | databus/src/main/java/com/bazaarvoice/emodb/databus/db/cql/CqlSubscriptionDAO.java:70-137 | decoding an encoded record whose event TTL is whole seconds within `int` returns the same name, filter, expiry, event TTL and owner, null owner included |
| `SubscriptionCodec.DecodeWithoutOwner` | databus/src/main/java/com/bazaarvoice/emodb/databus/db/cql/CqlSubscriptionDAO.java:135-136 | a payload without ownerId decodes to a subscription with a null owner, not an error |
| `SubscriptionCodec.NarrowingLosesWideEventTtl` | databus/src/main/java/com/bazaarvoice/emodb/databus/db/cql/CqlSubscriptionDAO.java:134 | an event TTL of 2^31 seconds reads back as -2^31: the bound on the event TTL is what makes the `int` narrowing safe |
| `Clustering.ClusteringOrder` | databus/src/main/java/com/bazaarvoice/emodb/databus/db/cql/CqlSubscriptionDAO.java:116-126 | the partition's keys as Cassandra returns them: strictly ascending, each key once, no other |
| `Clustering.SortedUnique` | databus/src/main/java/com/bazaarvoice/emodb/databus/db/cql/CqlSubscriptionDAO.java:142-152 | two strictly sorted listings of the same keys are equal, so every scan lists the partition in one order |
| `Clustering.SortKeys` | databus/src/main/java/com/bazaarvoice/emodb/databus/db/cql/CqlSubscriptionDAO.java:118-125 | the scan of a partition lists its keys in clustering order |
| `SubscriptionTable.Upsert` | databus/src/main/java/com/bazaarvoice/emodb/databus/db/cql/CqlSubscriptionDAO.java:77-83 | an insert writes the row under (`"subscriptions"`, name), replacing any row there, and leaves every other key as it was |
| `SubscriptionTable.Remove` | databus/src/main/java/com/bazaarvoice/emodb/databus/db/cql/CqlSubscriptionDAO.java:88-95 | a delete removes exactly (`"subscriptions"`, name), keeps every other row, and changes nothing when the row is absent |
| `SubscriptionTable.PartitionNames` | databus/src/main/java/com/bazaarvoice/emodb/databus/db/cql/CqlSubscriptionDAO.java:144-149 | the names of the partition are exactly the names with a row under `"subscriptions"` |
| `SubscriptionTable.ReadSubscription` | databus/src/main/java/com/bazaarvoice/emodb/databus/db/cql/CqlSubscriptionDAO.java:107-111 | get returns null exactly when no row exists, and a found record carries the requested name |
| `SubscriptionTable.NewSubscription` | databus/src/main/java/com/bazaarvoice/emodb/databus/db/cql/CqlSubscriptionDAO.java:57-66 | the record built by insert keeps name, filter and owner; its event TTL is whole seconds in `[1, 365 days]` and equals the requested event TTL when that is in range; it expires at clock + lifetime in ms when that sum fits a `long`, unclamped |
| `SubscriptionTable.RowTtl` | databus/src/main/java/com/bazaarvoice/emodb/databus/db/cql/CqlSubscriptionDAO.java:65 | the write's TTL lies in `[1, 31 536 000]` seconds and is the lifetime's seconds when in range |
| `SubscriptionTable.LifetimeBounds` | databus/src/main/java/com/bazaarvoice/emodb/databus/db/cql/CqlSubscriptionDAO.java:41-65 | a zero lifetime is written with TTL 1 s, a 1000-day lifetime with TTL 365 days, while its expiry is still 1000 days after the clock reading |
| `SubscriptionTable.InsertThenRead` | databus/src/main/java/com/bazaarvoice/emodb/databus/db/cql/CqlSubscriptionDAO.java:57-111 | after an insert, a get of that name returns the record just built, whatever was stored before |
| `SubscriptionTable.InsertLeavesOthers` | databus/src/main/java/com/bazaarvoice/emodb/databus/db/cql/CqlSubscriptionDAO.java:77-83 | an insert does not change what a get of any other name returns |
| `SubscriptionTable.InsertOverwrites` | databus/src/main/java/com/bazaarvoice/emodb/databus/db/cql/CqlSubscriptionDAO.java:77-83 | two inserts of one name leave only the second |
| `SubscriptionTable.DeleteThenRead` | databus/src/main/java/com/bazaarvoice/emodb/databus/db/cql/CqlSubscriptionDAO.java:88-110 | after a delete, get of that name returns null; gets of other names are unchanged |
| `SubscriptionTable.OtherPartitionsUntouched` | databus/src/main/java/com/bazaarvoice/emodb/databus/db/cql/CqlSubscriptionDAO.java:35 | inserts and deletes only touch partition `"subscriptions"` |
| `SubscriptionTable.ApplyPreservesWellFormed` | databus/src/main/java/com/bazaarvoice/emodb/databus/db/cql/CqlSubscriptionDAO.java:57-95 | one insert or delete keeps every row of the partition decodable, with row TTL and event TTL in `[1 s, 365 days]` |
| `SubscriptionTable.RunPreservesWellFormed` | databus/src/main/java/com/bazaarvoice/emodb/databus/db/cql/CqlSubscriptionDAO.java:57-95 | any sequence of inserts and deletes keeps that invariant |
| `SubscriptionTable.NamesAreReadable` | databus/src/main/java/com/bazaarvoice/emodb/databus/db/cql/CqlSubscriptionDAO.java:99-152 | in such a table a name is listed exactly when get returns a record for it |
| `SubscriptionTable.AllNames` | databus/src/main/java/com/bazaarvoice/emodb/databus/db/cql/CqlSubscriptionDAO.java:142-152 | the names getAllSubscriptionNames yields: strictly ascending, exactly the names with a row under `"subscriptions"` |
| `SubscriptionTable.AllSubscriptions` | databus/src/main/java/com/bazaarvoice/emodb/databus/db/cql/CqlSubscriptionDAO.java:116-126 | what getAllSubscriptions yields: one entry per listed name, in the same order, each the decoding of that name's stored payload |
| `SubscriptionTable.PartitionRows` | databus/src/main/java/com/bazaarvoice/emodb/databus/db/cql/CqlSubscriptionDAO.java:118-123 | the scan returns one row per listed name, in the same order, each the row stored under that name |
| `SubscriptionTable.AllNamesExact` | databus/src/main/java/com/bazaarvoice/emodb/databus/db/cql/CqlSubscriptionDAO.java:142-152 | the listing getAllSubscriptionNames returns is the only ascending, duplicate-free listing of the partition's names |
| `SubscriptionTable.EnumerationsAgree` | databus/src/main/java/com/bazaarvoice/emodb/databus/db/cql/CqlSubscriptionDAO.java:116-152 | the two enumerations have equal length; the i-th subscription carries the i-th name and is what get of that name returns |
| `SubscriptionTable.WellFormedEnumeratesCleanly` | databus/src/main/java/com/bazaarvoice/emodb/databus/db/cql/CqlSubscriptionDAO.java:116-138 | in a well-formed table every enumerated row decodes |
| `CqlDao.ResolveColumns` | databus/src/main/java/com/bazaarvoice/emodb/databus/db/cql/CqlSubscriptionDAO.java:182-185 | resolution succeeds iff the table exists with at least two primary-key columns and three columns, giving primary-key positions 0 and 1 and column 2; otherwise it reports the missing table, primary-key position or column 2, first failure first |
| `CqlDao.ColumnsAfterLookup` | databus/src/main/java/com/bazaarvoice/emodb/databus/db/cql/CqlSubscriptionDAO.java:181-186 | getColumnNames sets all three fields exactly when resolution succeeds, to positions 0 and 1 of the primary key and column 2; the name field is set only with the row-key field, the payload field only with both; whatever the outcome, the row-key field holds primary-key position 0 whenever it exists and the name field position 1 whenever it exists, so a failed resolution leaves those set |
| `CqlDao.CqlSubscriptionDao.constructor` | databus/src/main/java/com/bazaarvoice/emodb/databus/db/cql/CqlSubscriptionDAO.java:49-53 | a new DAO has no column names and has read no metadata |
| `CqlDao.CqlSubscriptionDao.GetColumnNames` | databus/src/main/java/com/bazaarvoice/emodb/databus/db/cql/CqlSubscriptionDAO.java:181-186 | reads the metadata once, fills the fields as far as the table allows, and fails with the first missing table or column |
| `CqlDao.CqlSubscriptionDao.RowkeyColumn` | databus/src/main/java/com/bazaarvoice/emodb/databus/db/cql/CqlSubscriptionDAO.java:155-160 | returns primary-key column 0 on every successful call; reads metadata only while its field is null |
| `CqlDao.CqlSubscriptionDao.SubscriptionNameColumn` | databus/src/main/java/com/bazaarvoice/emodb/databus/db/cql/CqlSubscriptionDAO.java:162-167 | returns primary-key column 1 on every successful call; reads metadata only while its field is null |
| `CqlDao.CqlSubscriptionDao.SubscriptionColumn` | databus/src/main/java/com/bazaarvoice/emodb/databus/db/cql/CqlSubscriptionDAO.java:169-174 | returns column 2 exactly when the schema resolves; reads metadata only while its field is null |
| `CqlDao.CqlSubscriptionDao.InsertOwned` | databus/src/main/java/com/bazaarvoice/emodb/databus/db/cql/CqlSubscriptionDAO.java:69-84 | upserts the encoded record with the given TTL when the columns resolve; otherwise fails with the table unchanged |
| `CqlDao.CqlSubscriptionDao.InsertSubscription` | databus/src/main/java/com/bazaarvoice/emodb/databus/db/cql/CqlSubscriptionDAO.java:55-67 | the table becomes the specification's insert of the built record with the bounded row TTL |
| `CqlDao.CqlSubscriptionDao.DeleteSubscription` | databus/src/main/java/com/bazaarvoice/emodb/databus/db/cql/CqlSubscriptionDAO.java:86-95 | removes (`"subscriptions"`, name) once both key columns are known, absent rows included; otherwise fails unchanged |
| `CqlDao.CqlSubscriptionDao.GetSubscription` | databus/src/main/java/com/bazaarvoice/emodb/databus/db/cql/CqlSubscriptionDAO.java:97-112 | returns the specification's get when the columns resolve, the resolution error otherwise; the table is unchanged |
| `CqlDao.CqlSubscriptionDao.ScanPartition` | databus/src/main/java/com/bazaarvoice/emodb/databus/db/cql/CqlSubscriptionDAO.java:118-123 | the scan returns the partition's rows in clustering order |
| `CqlDao.CqlSubscriptionDao.GetAllSubscriptions` | databus/src/main/java/com/bazaarvoice/emodb/databus/db/cql/CqlSubscriptionDAO.java:114-127 | returns every row of the partition decoded, in clustering order, when the columns resolve |
| `CqlDao.CqlSubscriptionDao.GetAllSubscriptionNames` | databus/src/main/java/com/bazaarvoice/emodb/databus/db/cql/CqlSubscriptionDAO.java:140-153 | returns the partition's names in clustering order once both key columns are known |
| `CqlDao.RegistrationScenario` | databus/src/main/java/com/bazaarvoice/emodb/databus/db/cql/CqlSubscriptionDAO.java:57-111 | owner "alice" registering "svc-1" for 30 s with a 10 s event TTL reads back as that record, expiring 30 000 ms after the clock reading |
| `CqlDao.PartialResolutionScenario` | databus/src/main/java/com/bazaarvoice/emodb/databus/db/cql/CqlSubscriptionDAO.java:155-186 | on a table without a payload column, a first delete fails with the missing column and a second succeeds |

## Left out

- The Cassandra session, the query builder, the `LOCAL_QUORUM` consistency level and the fetch sizes 200 and 5000 are not modelled. Every statement that can be built is taken to succeed; transient store errors are not modelled.
- The enumerations are computed eagerly, when the method is called. In Java they are lazy, paged iterables, and the column names are looked up when `iterator()` is called.
- CqlDao.CqlSubscriptionDao.GetAllSubscriptions: a row that fails to decode appears as an error in its place in the result. The Java iterator throws when it reaches that row.
- Expiry of rows by Cassandra when their TTL elapses is not modelled. Each row records the TTL it was written with.
- JSON text (`JsonHelper.asJson` and `fromJson`) is not modelled. A payload is the decoded JSON object, and only integral JSON numbers are modelled, so `longValue()` and `intValue()` on fractional numbers are out. A payload that is not a JSON object is out too.
- The filter language (`Conditions.fromString`, `Condition.toString`) is not modelled. The filter is its canonical string, parsing and printing are taken to be inverse, and parse failures are not modelled.
- Ttls.ToSeconds: `Ttls.toSeconds` is not part of this model. It is assumed to clamp the duration's whole seconds to `[min, max]`, and every TTL property rests on that assumption.
- `java.time.Clock` is replaced by the parameter `now`.
- CqlDao.CqlSubscriptionDao.GetColumnNames: the table metadata is fixed for the DAO's life (`schema` is a constant). The Java re-reads it on every call made while a field is null. So a table that is created or altered after a failed lookup, and fields resolved from two different reads, are not modelled.
- SubscriptionCodec.Decode: a JSON value is a string, a number, a boolean or null. A field holding a JSON array or object cannot be represented, so the `ClassCastException` such a payload raises in lines 132-136 is not modelled.
- The enumeration order assumes that the subscription-name column is a text clustering column in ascending order. That comes from the table's CQL definition, which is not part of this model.
- CqlDao.CqlSubscriptionDao.InsertSubscription: requires the lifetime to fit in `long` milliseconds. `Duration.toMillis` throws otherwise, and that exception is not modelled. `Math.toIntExact` on 365 days cannot fail.
- JavaTypes.ToMillis: follows the Java 8 formula. For negative durations with a fractional second, later JDKs round toward zero instead.
- `@Timed` metrics, Guice `@Inject`, the constructor's `requireNonNull` checks, and null arguments are not modelled.
- Concurrent first use of the column-name fields is not modelled; access is sequential.
