/**
  CqlSubscriptionDAO: the subscription store over the Cassandra column family "subscription".
  The CQL statements name their columns by the names read from the table metadata; the table here is
  addressed by position (partition key, clustering key, payload), so those names only decide whether a
  statement can be built at all.
*/
module CqlDao {
  import opened Wrappers
  import opened JavaTypes
  import opened SubscriptionCodec
  import opened Clustering
  import opened SubscriptionTable

  /** The driver's TableMetadata: the primary-key columns and all columns, in declared order. */
  datatype TableMetadata = TableMetadata(primaryKey: seq<string>, columns: seq<string>)

  /** The three nullable column-name fields of the DAO. */
  datatype ColumnCache = ColumnCache(rowkey: Option<string>, subscriptionName: Option<string>, subscription: Option<string>)

  const Unresolved := ColumnCache(None, None, None)

  /**
    The column names of the table: primary-key positions 0 and 1 and column ordinal 2, or the error
    raised by the first lookup that fails.
  */
  function ResolveColumns(schema: Option<TableMetadata>): (r: Result<ColumnCache, Error>)
    ensures r.Success? <==> schema.Some? && |schema.value.primaryKey| >= 2 && |schema.value.columns| >= 3
    ensures r.Success? ==> r.value == ColumnCache(Some(schema.value.primaryKey[0]), Some(schema.value.primaryKey[1]),
                                                  Some(schema.value.columns[2]))
    ensures schema.None? ==> r == Failure(TableMissing)
    ensures schema.Some? && |schema.value.primaryKey| < 2 ==> r == Failure(MissingPrimaryKeyColumn(|schema.value.primaryKey|))
    ensures schema.Some? && |schema.value.primaryKey| >= 2 && |schema.value.columns| < 3 ==> r == Failure(MissingColumn(2))
  {
    match schema
    case None => Failure(TableMissing)
    case Some(t) =>
      if |t.primaryKey| < 1 then Failure(MissingPrimaryKeyColumn(0))
      else if |t.primaryKey| < 2 then Failure(MissingPrimaryKeyColumn(1))
      else if |t.columns| < 3 then Failure(MissingColumn(2))
      else Success(ColumnCache(Some(t.primaryKey[0]), Some(t.primaryKey[1]), Some(t.columns[2])))
  }

  /**
    The fields as getColumnNames leaves them. It assigns them one after the other, so a lookup that
    fails leaves the fields assigned before it set.
  */
  function ColumnsAfterLookup(schema: Option<TableMetadata>): (c: ColumnCache)
    ensures c.subscription.Some? <==> ResolveColumns(schema).Success?
    ensures ResolveColumns(schema).Success? ==> c == ResolveColumns(schema).value
    ensures c.subscriptionName.Some? ==> c.rowkey.Some?
    ensures c.subscription.Some? ==> c.subscriptionName.Some?
    ensures c.rowkey == if schema.Some? && |schema.value.primaryKey| >= 1 then Some(schema.value.primaryKey[0]) else None
    ensures c.subscriptionName == if schema.Some? && |schema.value.primaryKey| >= 2 then Some(schema.value.primaryKey[1]) else None
  {
    match schema
    case None => Unresolved
    case Some(t) =>
      if |t.primaryKey| < 1 then Unresolved
      else if |t.primaryKey| < 2 then ColumnCache(Some(t.primaryKey[0]), None, None)
      else if |t.columns| < 3 then ColumnCache(Some(t.primaryKey[0]), Some(t.primaryKey[1]), None)
      else ColumnCache(Some(t.primaryKey[0]), Some(t.primaryKey[1]), Some(t.columns[2]))
  }

  class CqlSubscriptionDao {
    /** The rows of the column family "subscription". */
    var table: Table
    /** The table's metadata as the keyspace reports it; None when the keyspace has no such table. */
    const schema: Option<TableMetadata>

    var rowkeyColumn: Option<string>
    var subscriptionNameColumn: Option<string>
    var subscriptionColumn: Option<string>
    /** How many times the table metadata has been read. */
    ghost var metadataReads: nat

    ghost function Cache(): ColumnCache
      reads this
    {
      ColumnCache(rowkeyColumn, subscriptionNameColumn, subscriptionColumn)
    }

    /** The column-name fields are unset, or hold what the table metadata says. */
    ghost predicate Valid()
      reads this
    {
      Cache() == Unresolved || Cache() == ColumnsAfterLookup(schema)
    }

    constructor (table: Table, schema: Option<TableMetadata>)
      ensures Valid()
      ensures this.table == table && this.schema == schema
      ensures Cache() == Unresolved && metadataReads == 0
    {
      this.table := table;
      this.schema := schema;
      rowkeyColumn, subscriptionNameColumn, subscriptionColumn := None, None, None;
      metadataReads := 0;
    }

    /** getColumnNames: reads the table metadata and assigns the three fields in turn. */
    method GetColumnNames() returns (outcome: Outcome<Error>)
      requires Valid()
      modifies this`rowkeyColumn, this`subscriptionNameColumn, this`subscriptionColumn, this`metadataReads
      ensures Valid() && Cache() == ColumnsAfterLookup(schema)
      ensures metadataReads == old(metadataReads) + 1
      ensures outcome.Pass? <==> ResolveColumns(schema).Success?
      ensures outcome.Fail? ==> outcome.error == ResolveColumns(schema).error
    {
      metadataReads := metadataReads + 1;
      if schema.None? {
        return Fail(TableMissing);
      }
      var metadata := schema.value;
      if |metadata.primaryKey| < 1 {
        return Fail(MissingPrimaryKeyColumn(0));
      }
      rowkeyColumn := Some(metadata.primaryKey[0]);
      if |metadata.primaryKey| < 2 {
        return Fail(MissingPrimaryKeyColumn(1));
      }
      subscriptionNameColumn := Some(metadata.primaryKey[1]);
      if |metadata.columns| < 3 {
        return Fail(MissingColumn(2));
      }
      subscriptionColumn := Some(metadata.columns[2]);
      return Pass;
    }

    /** rowkeyColumn(): the partition-key column name, read from the metadata only while unset. */
    method RowkeyColumn() returns (r: Result<string, Error>)
      requires Valid()
      modifies this`rowkeyColumn, this`subscriptionNameColumn, this`subscriptionColumn, this`metadataReads
      ensures Valid()
      ensures Cache() == if old(rowkeyColumn).Some? then old(Cache()) else ColumnsAfterLookup(schema)
      ensures metadataReads == old(metadataReads) + if old(rowkeyColumn).Some? then 0 else 1
      ensures r.Success? <==> old(rowkeyColumn).Some? || ResolveColumns(schema).Success?
      ensures r.Success? ==> schema.Some? && |schema.value.primaryKey| >= 1 && r.value == schema.value.primaryKey[0]
      ensures r.Failure? ==> r.error == ResolveColumns(schema).error
    {
      if rowkeyColumn.None? {
        var outcome := GetColumnNames();
        if outcome.Fail? {
          return Failure(outcome.error);
        }
      }
      return Success(rowkeyColumn.value);
    }

    /** subscriptionNameColumn(): the clustering-key column name, read from the metadata only while unset. */
    method SubscriptionNameColumn() returns (r: Result<string, Error>)
      requires Valid()
      modifies this`rowkeyColumn, this`subscriptionNameColumn, this`subscriptionColumn, this`metadataReads
      ensures Valid()
      ensures Cache() == if old(subscriptionNameColumn).Some? then old(Cache()) else ColumnsAfterLookup(schema)
      ensures metadataReads == old(metadataReads) + if old(subscriptionNameColumn).Some? then 0 else 1
      ensures r.Success? <==> old(subscriptionNameColumn).Some? || ResolveColumns(schema).Success?
      ensures r.Success? ==> schema.Some? && |schema.value.primaryKey| >= 2 && r.value == schema.value.primaryKey[1]
      ensures r.Failure? ==> r.error == ResolveColumns(schema).error
    {
      if subscriptionNameColumn.None? {
        var outcome := GetColumnNames();
        if outcome.Fail? {
          return Failure(outcome.error);
        }
      }
      return Success(subscriptionNameColumn.value);
    }

    /** subscriptionColumn(): the payload column name, read from the metadata only while unset. */
    method SubscriptionColumn() returns (r: Result<string, Error>)
      requires Valid()
      modifies this`rowkeyColumn, this`subscriptionNameColumn, this`subscriptionColumn, this`metadataReads
      ensures Valid()
      ensures Cache() == if old(subscriptionColumn).Some? then old(Cache()) else ColumnsAfterLookup(schema)
      ensures metadataReads == old(metadataReads) + if old(subscriptionColumn).Some? then 0 else 1
      ensures r.Success? <==> ResolveColumns(schema).Success?
      ensures r.Success? ==> schema.Some? && |schema.value.columns| >= 3 && r.value == schema.value.columns[2]
      ensures r.Failure? ==> r.error == ResolveColumns(schema).error
    {
      if subscriptionColumn.None? {
        var outcome := GetColumnNames();
        if outcome.Fail? {
          return Failure(outcome.error);
        }
      }
      return Success(subscriptionColumn.value);
    }

    /** The private insertSubscription(subscription, ttl): one INSERT of the encoded record with that TTL. */
    method InsertOwned(sub: OwnedSubscription, ttl: Int) returns (outcome: Outcome<Error>)
      requires Valid()
      modifies this
      ensures Valid() && Cache() == ColumnsAfterLookup(schema)
      ensures metadataReads == old(metadataReads) + if old(subscriptionColumn).Some? then 0 else 1
      ensures outcome.Pass? <==> ResolveColumns(schema).Success?
      ensures outcome.Pass? ==> table == Upsert(old(table), sub.name, Row(Encode(sub), ttl))
      ensures outcome.Fail? ==> outcome.error == ResolveColumns(schema).error && table == old(table)
    {
      var keyColumn := RowkeyColumn();
      if keyColumn.Failure? {
        return Fail(keyColumn.error);
      }
      var nameColumn := SubscriptionNameColumn();
      if nameColumn.Failure? {
        return Fail(nameColumn.error);
      }
      var payloadColumn := SubscriptionColumn();
      if payloadColumn.Failure? {
        return Fail(payloadColumn.error);
      }
      table := Upsert(table, sub.name, Row(Encode(sub), ttl));
      return Pass;
    }

    /**
      The public insertSubscription: the record expires `subscriptionTtl` after `now` (the clock
      reading), and both the row TTL and the event TTL are bounded to [1 s, 365 days].
    */
    method InsertSubscription(ownerId: Option<string>, name: string, tableFilter: string,
                              subscriptionTtl: Duration, eventTtl: Duration, now: Long)
      returns (outcome: Outcome<Error>)
      requires Valid()
      requires InLong(ToMillis(subscriptionTtl))
      modifies this
      ensures Valid() && Cache() == ColumnsAfterLookup(schema)
      ensures metadataReads == old(metadataReads) + if old(subscriptionColumn).Some? then 0 else 1
      ensures outcome.Pass? <==> ResolveColumns(schema).Success?
      ensures outcome.Pass? ==> table == Apply(old(table), InsertOp(ownerId, name, tableFilter, subscriptionTtl, eventTtl, now))
      ensures outcome.Fail? ==> outcome.error == ResolveColumns(schema).error && table == old(table)
    {
      var sub := NewSubscription(ownerId, name, tableFilter, subscriptionTtl, eventTtl, now);
      outcome := InsertOwned(sub, RowTtl(subscriptionTtl));
    }

    /**
      deleteSubscription: one DELETE of (RowKey, name). It needs only the key columns, so once those are
      known it succeeds even when the payload column cannot be found.
    */
    method DeleteSubscription(name: string) returns (outcome: Outcome<Error>)
      requires Valid()
      modifies this
      ensures Valid() && Cache() == ColumnsAfterLookup(schema)
      ensures metadataReads == old(metadataReads) + if old(subscriptionNameColumn).Some? then 0 else 1
      ensures outcome.Pass? <==> old(subscriptionNameColumn).Some? || ResolveColumns(schema).Success?
      ensures outcome.Pass? ==> table == Remove(old(table), name)
      ensures outcome.Fail? ==> outcome.error == ResolveColumns(schema).error && table == old(table)
    {
      var keyColumn := RowkeyColumn();
      if keyColumn.Failure? {
        return Fail(keyColumn.error);
      }
      var nameColumn := SubscriptionNameColumn();
      if nameColumn.Failure? {
        return Fail(nameColumn.error);
      }
      table := Remove(table, name);
      return Pass;
    }

    /** getSubscription: the decoded row for `name`, or None (Java's null) when there is no row. */
    method GetSubscription(name: string) returns (r: Result<Option<OwnedSubscription>, Error>)
      requires Valid()
      modifies this`rowkeyColumn, this`subscriptionNameColumn, this`subscriptionColumn, this`metadataReads
      ensures Valid() && Cache() == ColumnsAfterLookup(schema)
      ensures metadataReads == old(metadataReads) + if old(subscriptionColumn).Some? then 0 else 1
      ensures ResolveColumns(schema).Success? ==> r == ReadSubscription(table, name)
      ensures ResolveColumns(schema).Failure? ==> r == Failure(ResolveColumns(schema).error)
    {
      var nameColumn := SubscriptionNameColumn();
      if nameColumn.Failure? {
        return Failure(nameColumn.error);
      }
      var payloadColumn := SubscriptionColumn();
      if payloadColumn.Failure? {
        return Failure(payloadColumn.error);
      }
      // Both key columns are known once the payload column is: these lookups hit the fields.
      var keyColumn := RowkeyColumn();
      assert keyColumn.Success?;
      nameColumn := SubscriptionNameColumn();
      assert nameColumn.Success?;
      if Key(RowKey, name) !in table {
        return Success(None);
      }
      var decoded := Decode(name, table[Key(RowKey, name)].payload);
      if decoded.Failure? {
        return Failure(decoded.error);
      }
      return Success(Some(decoded.value));
    }

    /** The rows Cassandra returns for a SELECT over the partition "subscriptions": clustering order. */
    method ScanPartition() returns (rows: seq<(string, Row)>)
      ensures rows == PartitionRows(table)
    {
      var names := SortKeys(PartitionNames(table));
      rows := [];
      for i := 0 to |names|
        invariant |rows| == i
        invariant forall j :: 0 <= j < i ==> rows[j] == (names[j], table[Key(RowKey, names[j])])
      {
        rows := rows + [(names[i], table[Key(RowKey, names[i])])];
      }
    }

    /** getAllSubscriptions: every row of the partition, each decoded, in clustering order. A row that
        fails to decode yields its error in its place and does not affect the others. */
    method GetAllSubscriptions() returns (r: Result<seq<Result<OwnedSubscription, Error>>, Error>)
      requires Valid()
      modifies this`rowkeyColumn, this`subscriptionNameColumn, this`subscriptionColumn, this`metadataReads
      ensures Valid() && Cache() == ColumnsAfterLookup(schema)
      ensures metadataReads == old(metadataReads) + if old(subscriptionColumn).Some? then 0 else 1
      ensures ResolveColumns(schema).Success? ==> r == Success(AllSubscriptions(table))
      ensures ResolveColumns(schema).Failure? ==> r == Failure(ResolveColumns(schema).error)
    {
      var nameColumn := SubscriptionNameColumn();
      if nameColumn.Failure? {
        return Failure(nameColumn.error);
      }
      var payloadColumn := SubscriptionColumn();
      if payloadColumn.Failure? {
        return Failure(payloadColumn.error);
      }
      // The partition-key column is known once the payload column is.
      var keyColumn := RowkeyColumn();
      assert keyColumn.Success?;
      var rows := ScanPartition();
      var subs := [];
      for i := 0 to |rows|
        invariant |subs| == i
        invariant forall j :: 0 <= j < i ==> subs[j] == Decode(rows[j].0, rows[j].1.payload)
      {
        subs := subs + [Decode(rows[i].0, rows[i].1.payload)];
      }
      assert subs == AllSubscriptions(table);
      return Success(subs);
    }

    /** getAllSubscriptionNames: the clustering keys of the partition, in clustering order. */
    method GetAllSubscriptionNames() returns (r: Result<seq<string>, Error>)
      requires Valid()
      modifies this`rowkeyColumn, this`subscriptionNameColumn, this`subscriptionColumn, this`metadataReads
      ensures Valid() && Cache() == ColumnsAfterLookup(schema)
      ensures metadataReads == old(metadataReads) + if old(subscriptionNameColumn).Some? then 0 else 1
      ensures r.Success? <==> old(subscriptionNameColumn).Some? || ResolveColumns(schema).Success?
      ensures r.Success? ==> r.value == AllNames(table)
      ensures r.Failure? ==> r.error == ResolveColumns(schema).error
    {
      var nameColumn := SubscriptionNameColumn();
      if nameColumn.Failure? {
        return Failure(nameColumn.error);
      }
      // The partition-key column is known once the clustering-key column is.
      var keyColumn := RowkeyColumn();
      assert keyColumn.Success?;
      var rows := ScanPartition();
      var names := [];
      for i := 0 to |rows|
        invariant |names| == i
        invariant forall j :: 0 <= j < i ==> names[j] == rows[j].0
      {
        names := names + [rows[i].0];
      }
      return Success(names);
    }
  }

  /**
    A registration on a well-formed table: owner "alice" registers "svc-1" for 30 s with events kept
    10 s. The get that follows returns that record, expiring 30 000 ms after the clock reading, and
    the metadata has been read once for both calls.
  */
  method RegistrationScenario(rows: Table, now: Long, filter: string)
    returns (inserted: Outcome<Error>, got: Result<Option<OwnedSubscription>, Error>)
    requires now <= MaxLong - 30_000
    ensures inserted == Pass
    ensures got == Success(Some(OwnedSubscription("svc-1", filter, now + 30_000, OfSeconds(10), Some("alice"))))
  {
    var dao := new CqlSubscriptionDao(rows, Some(TableMetadata(["rowkey", "column1"], ["rowkey", "column1", "value"])));
    inserted := dao.InsertSubscription(Some("alice"), "svc-1", filter, OfSeconds(30), OfSeconds(10), now);
    got := dao.GetSubscription("svc-1");
    assert dao.metadataReads == 1;
  }

  /**
    A table whose primary key is complete but which has no payload column: the first delete reads the
    metadata, sets the two key-column fields and fails; the second finds them set and succeeds.
  */
  method PartialResolutionScenario(rows: Table, name: string)
    returns (first: Outcome<Error>, second: Outcome<Error>)
    ensures first == Fail(MissingColumn(2))
    ensures second == Pass
  {
    var dao := new CqlSubscriptionDao(rows, Some(TableMetadata(["rowkey", "column1"], ["rowkey", "column1"])));
    first := dao.DeleteSubscription(name);
    second := dao.DeleteSubscription(name);
  }
}
