/**
 * The SQLite table and query assets. Each one builds on the generic SQL asset
 * and, once the generic initialiser has filled the partitioner implementation
 * map, re-points the entry for the converted-datetime partitioner at the
 * SQLite-specific implementation. Nothing else in the map changes.
 *
 * The partitioner classes are defined by the generic SQL datasource; here they
 * are opaque class references, told apart by name.
 */
module SqliteAssets {

  /** A class object, as used for the keys and values of the partitioner map. */
  datatype ClassRef = ClassRef(name: string)

  /** The generic converted-datetime partitioner configuration class (the key). */
  const PartitionerConvertedDatetime: ClassRef := ClassRef("PartitionerConvertedDatetime")

  /** The SQLite implementation of that partitioner (the new value). */
  const SqlitePartitionerConvertedDateTime: ClassRef := ClassRef("SqlitePartitionerConvertedDateTime")

  /** Partitioner configuration class to the class that implements it. */
  type PartitionerMap = map<ClassRef, ClassRef>

  /** The `type` tags of the two asset kinds. */
  const TableAssetType: string := "table"
  const QueryAssetType: string := "query"

  /**
   * The partitioner map after the SQLite override: the converted-datetime key
   * is present and points at the SQLite implementation, every other entry is
   * kept, and no other key is added.
   */
  function WithSqlitePartitioner(m: PartitionerMap): (r: PartitionerMap)
    ensures r.Keys == m.Keys + {PartitionerConvertedDatetime}
    ensures r[PartitionerConvertedDatetime] == SqlitePartitionerConvertedDateTime
    ensures forall k :: k in m && k != PartitionerConvertedDatetime ==> r[k] == m[k]
  {
    m[PartitionerConvertedDatetime := SqlitePartitionerConvertedDateTime]
  }

  /** Overriding a second time changes nothing. */
  lemma WithSqlitePartitionerIdempotent(m: PartitionerMap)
    ensures WithSqlitePartitioner(WithSqlitePartitioner(m)) == WithSqlitePartitioner(m)
  {
  }

  /** What the generic initialiser put under the overridden key does not matter. */
  lemma WithSqlitePartitionerIgnoresInheritedEntry(m1: PartitionerMap, m2: PartitionerMap)
    requires m1 - {PartitionerConvertedDatetime} == m2 - {PartitionerConvertedDatetime}
    ensures WithSqlitePartitioner(m1) == WithSqlitePartitioner(m2)
  {
    var r1, r2 := WithSqlitePartitioner(m1), WithSqlitePartitioner(m2);
    forall k | k in r1.Keys ensures k in r2.Keys && r1[k] == r2[k] {
      if k != PartitionerConvertedDatetime {
        assert k in m1 - {PartitionerConvertedDatetime};
      }
    }
    forall k | k in r2.Keys ensures k in r1.Keys {
      if k != PartitionerConvertedDatetime {
        assert k in m2 - {PartitionerConvertedDatetime};
      }
    }
  }

  class SqliteTableAsset {
    const assetType: string
    var partitionerImplementationMap: PartitionerMap

    /** `inherited` is the map the generic table asset's initialiser leaves behind. */
    constructor (inherited: PartitionerMap)
      ensures assetType == TableAssetType
      ensures partitionerImplementationMap == WithSqlitePartitioner(inherited)
    {
      assetType := TableAssetType;
      partitionerImplementationMap := inherited;
      new;
      UseSqlitePartitioner();
    }

    /** Re-points the converted-datetime entry at the SQLite implementation, in place. */
    method UseSqlitePartitioner()
      modifies this`partitionerImplementationMap
      ensures partitionerImplementationMap == WithSqlitePartitioner(old(partitionerImplementationMap))
    {
      partitionerImplementationMap :=
        partitionerImplementationMap[PartitionerConvertedDatetime := SqlitePartitionerConvertedDateTime];
    }
  }

  class SqliteQueryAsset {
    const assetType: string
    var partitionerImplementationMap: PartitionerMap

    /** `inherited` is the map the generic query asset's initialiser leaves behind. */
    constructor (inherited: PartitionerMap)
      ensures assetType == QueryAssetType
      ensures partitionerImplementationMap == WithSqlitePartitioner(inherited)
    {
      assetType := QueryAssetType;
      partitionerImplementationMap := inherited;
      new;
      UseSqlitePartitioner();
    }

    /** Re-points the converted-datetime entry at the SQLite implementation, in place. */
    method UseSqlitePartitioner()
      modifies this`partitionerImplementationMap
      ensures partitionerImplementationMap == WithSqlitePartitioner(old(partitionerImplementationMap))
    {
      partitionerImplementationMap :=
        partitionerImplementationMap[PartitionerConvertedDatetime := SqlitePartitionerConvertedDateTime];
    }
  }

  /**
   * A table asset and a query asset built over the same inherited map end up
   * with the same partitioner map: the converted-datetime key points at the
   * SQLite implementation and every other inherited entry is as it was. Their
   * type tags differ.
   */
  method BuildBothAssets(inherited: PartitionerMap)
    returns (tableMap: PartitionerMap, queryMap: PartitionerMap, tableType: string, queryType: string)
    ensures tableMap == queryMap == WithSqlitePartitioner(inherited)
    ensures tableType == "table" && queryType == "query"
  {
    var table := new SqliteTableAsset(inherited);
    var query := new SqliteQueryAsset(inherited);
    tableMap, queryMap := table.partitionerImplementationMap, query.partitionerImplementationMap;
    tableType, queryType := table.assetType, query.assetType;
  }
}
