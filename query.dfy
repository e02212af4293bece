/**
 * The Query aggregate of NI.Data (Query.cs): a mutable record holding the
 * source, the condition, the sort and field arrays, the paging window and a
 * lazily allocated map of extended properties.
 */
module Queries {
  import opened Wrappers
  import opened QueryValues
  import opened QueryText

  /** A Hashtable of extended properties (keys are property names, values any object). */
  class PropertyMap {
    var entries: map<string, object>

    /** `new Hashtable()`. */
    constructor ()
      ensures entries == map[]
    {
      entries := map[];
    }

    /** `new Hashtable(other)`: a new table holding the same entries. */
    constructor CopyOf(other: PropertyMap)
      ensures entries == other.entries
    {
      entries := other.entries;
    }

    /** The indexer's setter, `table[key] = value`. */
    method Put(key: string, value: object)
      modifies this
      ensures entries == old(entries)[key := value]
    {
      entries := entries[key := value];
    }
  }

  class Query {
    var sourceName: QSource
    /** Null (None) means no condition. */
    var condition: Option<QueryNode>
    /** Null means natural order. */
    var sort: array?<QSort>
    /** Null means all fields. */
    var fields: array?<QField>
    var startRecord: Int32
    var recordCount: Int32
    /** Allocated on first use by GetExtendedProperties. */
    var extendedProperties: PropertyMap?

    /** Everything ToString depends on, as a value. */
    function Snapshot(): QueryState
      reads this, sort, fields
    {
      QueryState(sourceName, condition,
        if sort == null then None else Some(sort[..]),
        if fields == null then None else Some(fields[..]),
        startRecord, recordCount)
    }

    /** The query as an IQueryValue (a nested query). */
    function AsValue(): (v: QueryValue)
      reads this, sort, fields
      ensures v.SubQuery? && v.query == Snapshot()
    {
      SubQuery(Snapshot())
    }

    /** Query.ToString: `source(cond)[fields; sort]{start,count}`. */
    function ToString(n: Notation): (text: string)
      reads this, sort, fields
      ensures text == BuildValue(n, AsValue())
      ensures PagingWindow(text) == Some((startRecord as int, recordCount as int))
    {
      PagingWindowRoundTrip(n, Snapshot());
      BuildQueryString(n, Snapshot())
    }

    /** The child nodes: always exactly one, the condition, even when it is null. */
    function Nodes(): (r: seq<Option<QueryNode>>)
      reads this
      ensures |r| == 1 && r[0] == condition
    {
      [condition]
    }

    /** `new Query(sourceName)`. */
    constructor (sourceName: string)
      ensures this.sourceName == QSource(sourceName) && condition == None
      ensures sort == null && fields == null
      ensures startRecord == 0 && recordCount == Int32MaxValue
      ensures extendedProperties == null
    {
      this.sourceName := QSource(sourceName);
      condition := None;
      sort, fields := null, null;
      startRecord, recordCount := 0, Int32MaxValue;
      extendedProperties := null;
    }

    /** `new Query(sourceName, condition)`. */
    constructor WithCondition(sourceName: string, condition: Option<QueryNode>)
      ensures this.sourceName == QSource(sourceName) && this.condition == condition
      ensures sort == null && fields == null
      ensures startRecord == 0 && recordCount == Int32MaxValue
      ensures extendedProperties == null
    {
      this.sourceName := QSource(sourceName);
      this.condition := condition;
      sort, fields := null, null;
      startRecord, recordCount := 0, Int32MaxValue;
      extendedProperties := null;
    }

    /**
     * `new Query(sourceName, condition, sort)`: the sort strings are converted
     * one by one without the normalisation of SetSort, so an empty array gives
     * an empty, non-null sort array. (A null array throws in the source.)
     */
    constructor WithSort(sourceName: string, condition: Option<QueryNode>, sort: array<string>)
      ensures this.sourceName == QSource(sourceName) && this.condition == condition
      ensures this.sort != null && fresh(this.sort) && this.sort[..] == SortsOf(sort[..])
      ensures fields == null
      ensures startRecord == 0 && recordCount == Int32MaxValue
      ensures extendedProperties == null
    {
      this.sourceName := QSource(sourceName);
      this.condition := condition;
      var names := sort[..];
      this.sort := new QSort[|names|](i requires 0 <= i < |names| => QSort(names[i]));
      fields := null;
      startRecord, recordCount := 0, Int32MaxValue;
      extendedProperties := null;
    }

    /** `new Query(sourceName, condition, sort, startRecord, recordCount)`: the sort goes through SetSort. */
    constructor WithSortAndPage(sourceName: string, condition: Option<QueryNode>, sort: array?<string>,
                                startRecord: Int32, recordCount: Int32)
      ensures this.sourceName == QSource(sourceName) && this.condition == condition
      ensures sort == null || sort.Length == 0 ==> this.sort == null
      ensures sort != null && sort.Length > 0 ==>
                this.sort != null && fresh(this.sort) && this.sort[..] == SortsOf(sort[..])
      ensures fields == null
      ensures this.startRecord == startRecord && this.recordCount == recordCount
      ensures extendedProperties == null
    {
      this.sourceName := QSource(sourceName);
      this.condition := condition;
      this.sort, fields := null, null;
      this.startRecord, this.recordCount := startRecord, recordCount;
      extendedProperties := null;
      new;
      SetSortNames(sort);
    }

    /** `new Query(sourceName, startRecord, recordCount)`. */
    constructor WithPage(sourceName: string, startRecord: Int32, recordCount: Int32)
      ensures this.sourceName == QSource(sourceName) && condition == None
      ensures sort == null && fields == null
      ensures this.startRecord == startRecord && this.recordCount == recordCount
      ensures extendedProperties == null
    {
      this.sourceName := QSource(sourceName);
      condition := None;
      sort, fields := null, null;
      this.startRecord, this.recordCount := startRecord, recordCount;
      extendedProperties := null;
    }

    /** `new Query(sourceName, sort, startRecord, recordCount)`: the sort goes through SetSort. */
    constructor WithSortPage(sourceName: string, sort: array?<string>, startRecord: Int32, recordCount: Int32)
      ensures this.sourceName == QSource(sourceName) && condition == None
      ensures sort == null || sort.Length == 0 ==> this.sort == null
      ensures sort != null && sort.Length > 0 ==>
                this.sort != null && fresh(this.sort) && this.sort[..] == SortsOf(sort[..])
      ensures fields == null
      ensures this.startRecord == startRecord && this.recordCount == recordCount
      ensures extendedProperties == null
    {
      this.sourceName := QSource(sourceName);
      condition := None;
      this.sort, fields := null, null;
      this.startRecord, this.recordCount := startRecord, recordCount;
      extendedProperties := null;
      new;
      SetSortNames(sort);
    }

    /**
     * `new Query(q)`: source, sort and field arrays, paging window and
     * condition are those of `q` (the arrays are shared, not copied), while
     * the extended properties are a fresh table with the same entries. Reading
     * `q.ExtendedProperties` allocates q's table if it had none.
     */
    constructor Copy(q: Query)
      modifies q`extendedProperties
      ensures sourceName == q.sourceName && condition == q.condition
      ensures sort == q.sort && fields == q.fields
      ensures startRecord == q.startRecord && recordCount == q.recordCount
      ensures q.extendedProperties != null
      ensures old(q.extendedProperties) != null ==> q.extendedProperties == old(q.extendedProperties)
      ensures old(q.extendedProperties) == null ==> fresh(q.extendedProperties) && q.extendedProperties.entries == map[]
      ensures extendedProperties != null && fresh(extendedProperties)
      ensures extendedProperties != q.extendedProperties
      ensures extendedProperties.entries == q.extendedProperties.entries
    {
      sourceName := q.sourceName;
      sort := q.sort;
      startRecord := q.startRecord;
      recordCount := q.recordCount;
      condition := q.condition;
      fields := q.fields;
      var source := q.GetExtendedProperties();
      extendedProperties := new PropertyMap.CopyOf(source);
    }

    /** The ExtendedProperties getter: never null; allocates an empty table once, then keeps returning it. */
    method GetExtendedProperties() returns (m: PropertyMap)
      modifies this`extendedProperties
      ensures extendedProperties == m
      ensures old(extendedProperties) != null ==> m == old(extendedProperties)
      ensures old(extendedProperties) == null ==> fresh(m) && m.entries == map[]
    {
      if extendedProperties == null {
        extendedProperties := new PropertyMap();
      }
      m := extendedProperties;
    }

    /** `SetSort(params QSort[])`: null for a null or empty array, otherwise that very array. */
    method SetSort(sortFields: array?<QSort>)
      modifies this`sort
      ensures sort == if sortFields == null || sortFields.Length == 0 then null else sortFields
    {
      if sortFields != null && sortFields.Length > 0 {
        sort := sortFields;
      } else {
        sort := null;
      }
    }

    /** `SetSort(params string[])`: null for a null or empty array, otherwise a new array of the converted strings, in order. */
    method SetSortNames(sortFields: array?<string>)
      modifies this`sort
      ensures sortFields == null || sortFields.Length == 0 ==> sort == null
      ensures sortFields != null && sortFields.Length > 0 ==>
                sort != null && fresh(sort) && sort[..] == SortsOf(sortFields[..])
    {
      if sortFields != null && sortFields.Length > 0 {
        var names := sortFields[..];
        sort := new QSort[|names|](i requires 0 <= i < |names| => QSort(names[i]));
      } else {
        sort := null;
      }
    }

    /** `SetFields(params QField[])`: null for a null or empty array, otherwise that very array. */
    method SetFields(fields: array?<QField>)
      modifies this`fields
      ensures this.fields == if fields == null || fields.Length == 0 then null else fields
    {
      if fields != null && fields.Length > 0 {
        this.fields := fields;
      } else {
        this.fields := null;
      }
    }

    /** `SetFields(params string[])`: null for a null or empty array, otherwise a new array of the converted strings, in order. */
    method SetFieldNames(fields: array?<string>)
      modifies this`fields
      ensures fields == null || fields.Length == 0 ==> this.fields == null
      ensures fields != null && fields.Length > 0 ==>
                this.fields != null && fresh(this.fields) && this.fields[..] == FieldsOf(fields[..])
    {
      if fields != null && fields.Length > 0 {
        var names := fields[..];
        this.fields := new QField[|names|](i requires 0 <= i < |names| => QField(names[i]));
      } else {
        this.fields := null;
      }
    }
  }

  /** Applying SetSort twice with the same argument leaves the query as applying it once. */
  method SetSortTwice(q: Query, sortFields: array?<QSort>) returns (once: QueryState, twice: QueryState)
    modifies q`sort
    ensures once == twice
    ensures twice.sort == if sortFields == null || sortFields.Length == 0 then None else Some(sortFields[..])
  {
    q.SetSort(sortFields);
    once := q.Snapshot();
    q.SetSort(sortFields);
    twice := q.Snapshot();
  }

  /** Applying SetSort(string[]) twice leaves the query as applying it once (a new array, the same contents). */
  method SetSortNamesTwice(q: Query, sortFields: array?<string>) returns (once: QueryState, twice: QueryState)
    modifies q`sort
    ensures once == twice
    ensures twice.sort == if sortFields == null || sortFields.Length == 0 then None else Some(SortsOf(sortFields[..]))
  {
    q.SetSortNames(sortFields);
    once := q.Snapshot();
    q.SetSortNames(sortFields);
    twice := q.Snapshot();
  }

  /** Applying SetFields(string[]) twice leaves the query as applying it once. */
  method SetFieldNamesTwice(q: Query, fields: array?<string>) returns (once: QueryState, twice: QueryState)
    modifies q`fields
    ensures once == twice
    ensures twice.fields == if fields == null || fields.Length == 0 then None else Some(FieldsOf(fields[..]))
  {
    q.SetFieldNames(fields);
    once := q.Snapshot();
    q.SetFieldNames(fields);
    twice := q.Snapshot();
  }

  /**
   * After copying, an edit to the copy's extended properties is not seen in
   * the original, whose table holds what it held before (empty if it had none).
   */
  method EditCopiedProperties(q: Query, key: string, value: object) returns (copy: Query)
    modifies q`extendedProperties
    ensures fresh(copy) && copy.extendedProperties != null && q.extendedProperties != null
    ensures q.extendedProperties.entries ==
              if old(q.extendedProperties) == null then map[] else old(q.extendedProperties.entries)
    ensures copy.extendedProperties.entries == q.extendedProperties.entries[key := value]
  {
    copy := new Query.Copy(q);
    var props := copy.GetExtendedProperties();
    props.Put(key, value);
  }

  /**
   * From an empty sort array, the three-argument constructor keeps an empty,
   * non-null sort while the constructors that go through SetSort store null;
   * the difference shows in the text (`; ` inside the brackets).
   */
  method EmptySortArrayConstructors(n: Notation, sourceName: string, condition: Option<QueryNode>)
    returns (converted: Query, normalised: Query)
    ensures converted.sort != null && converted.sort.Length == 0
    ensures normalised.sort == null
    ensures converted.ToString(n) != normalised.ToString(n)
  {
    var empty := new string[0];
    converted := new Query.WithSort(sourceName, condition, empty);
    normalised := new Query.WithSortAndPage(sourceName, condition, empty, 0, Int32MaxValue);
    assert converted.Snapshot().sort == Some([]);
    assert normalised.Snapshot() == converted.Snapshot().(sort := None);
    EmptySortIsVisible(n, converted.Snapshot());
  }
}
