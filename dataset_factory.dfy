/**
 * DataSetFactory of NI.Data.Dalc: finds the schema descriptor that lists a
 * source name (through a lookup table built lazily from the descriptor list)
 * and hands out DataSets built from that schema, keeping parsed DataSets in a
 * size-bounded cache.
 */
module Dalc {
  import opened Wrappers

  /** SchemaDescriptor: the source names it serves (None for a null array) and its XML schema text. */
  datatype SchemaDescriptor = SchemaDescriptor(sourceNames: Option<seq<string>>, xmlSchema: string)

  /** The context object handed to GetDataSet: a string, or anything else (null included). */
  datatype Context = Text(value: string) | NonText

  /** The cache is cleared when it holds more than this many DataSets. */
  const MaxDataSetCacheSize: nat := 200

  /**
   * System.Data.DataSet, kept opaque: all the factory needs of it is the
   * schema it was read from, which a clone shares.
   */
  class DataSet {
    const schema: string

    /** `new DataSet()` followed by `ReadXmlSchema(new StringReader(xmlSchema))`. */
    constructor ReadXmlSchema(xmlSchema: string)
      ensures schema == xmlSchema
    {
      schema := xmlSchema;
    }

    /** `DataSet.Clone()`: a new DataSet with the same schema. */
    method Clone() returns (c: DataSet)
      ensures fresh(c) && c.schema == schema
    {
      c := new DataSet.ReadXmlSchema(schema);
    }
  }

  /** The process-wide DataSetCache, as an explicit object: schema text to parsed DataSet. */
  class DataSetCache {
    var entries: map<string, DataSet>

    /** Every entry was parsed from its key, and the size bound holds. */
    ghost predicate Valid()
      reads this
    {
      && |entries| <= MaxDataSetCacheSize + 1
      && forall xml :: xml in entries ==> entries[xml].schema == xml
    }

    constructor ()
      ensures Valid() && entries == map[]
    {
      entries := map[];
    }
  }

  // ---------------------------------------------------------------------
  // What the lookup table holds

  predicate Lists(d: SchemaDescriptor, name: string)
  {
    d.sourceNames.Some? && name in d.sourceNames.value
  }

  /** The index of the first descriptor, in list order, that lists `name`. */
  function FirstListing(schemas: seq<SchemaDescriptor>, name: string): (r: Option<nat>)
    decreases |schemas|
    ensures r.Some? ==> r.value < |schemas| && Lists(schemas[r.value], name)
    ensures r.Some? ==> forall j :: 0 <= j < r.value ==> !Lists(schemas[j], name)
    ensures r.None? <==> forall j :: 0 <= j < |schemas| ==> !Lists(schemas[j], name)
  {
    if schemas == [] then None
    else
      match FirstListing(schemas[..|schemas| - 1], name)
      case Some(k) => Some(k)
      case None => if Lists(schemas[|schemas| - 1], name) then Some(|schemas| - 1) else None
  }

  /** One descriptor's pass of the inner loop: each of its names not yet in the table maps to it. */
  function AddNames(table: map<string, SchemaDescriptor>, d: SchemaDescriptor): map<string, SchemaDescriptor>
  {
    match d.sourceNames
    case None => table
    case Some(names) => table + map n | n in names && n !in table :: d
  }

  /** The inner loop's table after the first `j` names of `names`. */
  function AddedSoFar(table: map<string, SchemaDescriptor>, names: seq<string>, j: nat, d: SchemaDescriptor): map<string, SchemaDescriptor>
    requires j <= |names|
  {
    table + map n | n in names[..j] && n !in table :: d
  }

  /** One step of the inner loop: a name already in the table is skipped, a new one maps to the descriptor. */
  lemma AddNextName(table: map<string, SchemaDescriptor>, names: seq<string>, j: nat, d: SchemaDescriptor)
    requires j < |names|
    ensures var sofar := AddedSoFar(table, names, j, d);
            AddedSoFar(table, names, j + 1, d) == if names[j] in sofar then sofar else sofar[names[j] := d]
  {
    assert names[..j + 1] == names[..j] + [names[j]];
  }

  /** The table the nested loops build from a list of descriptors, in order. */
  function LookupOf(schemas: seq<SchemaDescriptor>): (r: map<string, SchemaDescriptor>)
    decreases |schemas|
    ensures forall name :: name in r ==> r[name] in schemas && Lists(r[name], name)
  {
    if schemas == [] then map[]
    else AddNames(LookupOf(schemas[..|schemas| - 1]), schemas[|schemas| - 1])
  }

  /** How many descriptors the build gets through: up to the first one whose SourceNames is null. */
  function BuildablePrefix(schemas: seq<SchemaDescriptor>): (k: nat)
    decreases |schemas|
    ensures k <= |schemas|
    ensures forall j :: 0 <= j < k ==> schemas[j].sourceNames.Some?
    ensures k < |schemas| ==> schemas[k].sourceNames.None?
  {
    if schemas == [] then 0
    else if schemas[0].sourceNames.None? then 0
    else 1 + BuildablePrefix(schemas[1..])
  }

  /** The build throws NullReferenceException: Schemas is null, or some descriptor's SourceNames is. */
  predicate BuildThrows(schemas: Option<seq<SchemaDescriptor>>)
  {
    schemas.None? || BuildablePrefix(schemas.value) < |schemas.value|
  }

  /**
   * The table left behind by a build. The source assigns the new, empty
   * dictionary to SourceNameDescrHash before filling it, so a build that
   * throws leaves what it had filled so far.
   */
  function BuiltLookup(schemas: Option<seq<SchemaDescriptor>>): map<string, SchemaDescriptor>
  {
    match schemas
    case None => map[]
    case Some(s) => LookupOf(s[..BuildablePrefix(s)])
  }

  function Get(table: map<string, SchemaDescriptor>, name: string): Option<SchemaDescriptor>
  {
    if name in table then Some(table[name]) else None
  }

  /** What FindDescriptor returns, given the table it starts from (None for null). */
  function FindResult(table: Option<map<string, SchemaDescriptor>>, schemas: Option<seq<SchemaDescriptor>>,
                      name: string): Result<Option<SchemaDescriptor>>
  {
    match table
    case Some(t) => Success(Get(t, name))
    case None =>
      if BuildThrows(schemas) then Failure(NullReferenceException)
      else Success(Get(BuiltLookup(schemas), name))
  }

  // ---------------------------------------------------------------------
  // Properties of the lookup

  /**
   * The table maps a name exactly when some descriptor lists it, and then to
   * the first such descriptor in list order: later duplicates never override.
   */
  lemma {:induction false} LookupOfIsFirstListing(schemas: seq<SchemaDescriptor>, name: string)
    ensures name in LookupOf(schemas) <==> FirstListing(schemas, name).Some?
    ensures name in LookupOf(schemas) ==> LookupOf(schemas)[name] == schemas[FirstListing(schemas, name).value]
    decreases |schemas|
  {
    if schemas != [] {
      var init := schemas[..|schemas| - 1];
      LookupOfIsFirstListing(init, name);
      assert forall j :: 0 <= j < |init| ==> init[j] == schemas[j];
    }
  }

  /**
   * With a complete descriptor list (non-null, every SourceNames non-null),
   * FindDescriptor on a fresh factory finds the first descriptor listing the
   * name, and null when none lists it.
   */
  lemma FindDescriptorFirstWins(schemas: seq<SchemaDescriptor>, name: string)
    requires !BuildThrows(Some(schemas))
    ensures FindResult(None, Some(schemas), name) ==
              match FirstListing(schemas, name)
              case None => Success(None)
              case Some(k) => Success(Some(schemas[k]))
  {
    assert schemas[..BuildablePrefix(schemas)] == schemas;
    LookupOfIsFirstListing(schemas, name);
  }

  /**
   * After a build that threw at descriptor k (its SourceNames is null), the
   * table is left built from the descriptors before k, and every later
   * lookup of a name first listed after k silently yields null.
   */
  lemma PartialLookupAfterFailure(schemas: seq<SchemaDescriptor>, name: string)
    requires BuildThrows(Some(schemas))
    requires FirstListing(schemas[..BuildablePrefix(schemas)], name).None?
    ensures FindResult(None, Some(schemas), name) == Failure(NullReferenceException)
    ensures FindResult(Some(BuiltLookup(Some(schemas))), Some(schemas), name) == Success(None)
  {
    LookupOfIsFirstListing(schemas[..BuildablePrefix(schemas)], name);
  }

  /** The keys of the cache after one GetDataSetWithSchema call: cleared if over the bound, then the requested schema. */
  function CachedKeysAfter(keys: set<string>, xmlSchema: string): set<string>
  {
    (if |keys| > MaxDataSetCacheSize then {} else keys) + {xmlSchema}
  }

  /** Whatever the size on entry, a call leaves at most MaxDataSetCacheSize + 1 entries, the requested schema among them. */
  lemma CacheSizeBound(keys: set<string>, xmlSchema: string)
    ensures xmlSchema in CachedKeysAfter(keys, xmlSchema)
    ensures |CachedKeysAfter(keys, xmlSchema)| <= MaxDataSetCacheSize + 1
    ensures |keys| <= MaxDataSetCacheSize ==> keys <= CachedKeysAfter(keys, xmlSchema)
  {
    if |keys| <= MaxDataSetCacheSize {
      assert |keys + {xmlSchema}| <= |keys| + |{xmlSchema}|;
    }
  }

  // ---------------------------------------------------------------------
  // The factory

  class DataSetFactory {
    var schemas: Option<seq<SchemaDescriptor>>
    /** SourceNameDescrHash: None until the first lookup after Schemas was last assigned. */
    var lookup: Option<map<string, SchemaDescriptor>>
    /** The DataSet cache the factory shares with every other factory. */
    const cache: DataSetCache

    /** Once built, the table is the one built from the current Schemas. */
    ghost predicate Valid()
      reads this
    {
      lookup.Some? ==> lookup.value == BuiltLookup(schemas)
    }

    /** `new DataSetFactory()`: Schemas is null and no table is built. */
    constructor (cache: DataSetCache)
      ensures Valid() && this.cache == cache
      ensures schemas == None && lookup == None
    {
      this.cache := cache;
      schemas := None;
      lookup := None;
    }

    /** The Schemas setter: assigning a list drops the table, so the next lookup rebuilds it from the new list. */
    method SetSchemas(value: Option<seq<SchemaDescriptor>>)
      modifies this`schemas, this`lookup
      ensures Valid()
      ensures schemas == value && lookup == None
    {
      schemas := value;
      lookup := None;
    }

    /**
     * FindDescriptor: builds the table on first use (every source name to the
     * first descriptor that lists it), then answers from it; null for a name
     * no descriptor lists. A table already built is used as it is.
     */
    method FindDescriptor(name: string) returns (r: Result<Option<SchemaDescriptor>>)
      requires Valid()
      modifies this`lookup
      ensures Valid()
      ensures lookup == Some(BuiltLookup(schemas))
      ensures old(lookup).Some? ==> lookup == old(lookup)
      ensures r == FindResult(old(lookup), schemas, name)
    {
      if lookup.None? {
        lookup := Some(map[]);
        if schemas.None? {
          return Failure(NullReferenceException);
        }
        var all := schemas.value;
        var i := 0;
        while i < |all|
          invariant 0 <= i <= |all|
          invariant forall j :: 0 <= j < i ==> all[j].sourceNames.Some?
          invariant lookup == Some(LookupOf(all[..i]))
        {
          var descr := all[i];
          if descr.sourceNames.None? {
            assert BuildablePrefix(all) == i;
            return Failure(NullReferenceException);
          }
          var names := descr.sourceNames.value;
          ghost var before := LookupOf(all[..i]);
          var j := 0;
          assert AddedSoFar(before, names, 0, descr) == before;
          while j < |names|
            invariant 0 <= j <= |names|
            invariant lookup == Some(AddedSoFar(before, names, j, descr))
          {
            var sn := names[j];
            AddNextName(before, names, j, descr);
            if sn !in lookup.value {
              lookup := Some(lookup.value[sn := descr]);
            }
            j := j + 1;
          }
          assert names[..j] == names;
          assert all[..i + 1][..i] == all[..i];
          i := i + 1;
        }
        assert all[..i] == all;
        assert BuildablePrefix(all) == |all|;
      }
      r := Success(Get(lookup.value, name));
    }

    /**
     * GetDataSetWithSchema: clears the whole cache when it holds more than
     * MaxDataSetCacheSize entries on entry; on a hit clones the cached DataSet
     * without parsing again; on a miss parses the schema, caches that DataSet
     * under exactly this key and returns a clone of it. The caller never gets
     * the cached instance.
     */
    method GetDataSetWithSchema(xmlSchema: string) returns (ds: DataSet)
      requires cache.Valid()
      modifies cache
      ensures cache.Valid()
      ensures fresh(ds) && ds.schema == xmlSchema
      ensures forall xml :: xml in cache.entries ==> cache.entries[xml] != ds
      ensures cache.entries.Keys == CachedKeysAfter(old(cache.entries).Keys, xmlSchema)
      ensures var kept := if |old(cache.entries)| > MaxDataSetCacheSize then map[] else old(cache.entries);
              && (forall xml :: xml in kept ==> cache.entries[xml] == kept[xml])
              && (xmlSchema !in kept ==> fresh(cache.entries[xmlSchema]))
    {
      if |cache.entries| > MaxDataSetCacheSize {
        cache.entries := map[];
      }
      if xmlSchema in cache.entries {
        ds := cache.entries[xmlSchema].Clone();
        return;
      }
      var parsed := new DataSet.ReadXmlSchema(xmlSchema);
      CacheSizeBound(cache.entries.Keys, xmlSchema);
      cache.entries := cache.entries[xmlSchema := parsed];
      ds := parsed.Clone();
    }

    /**
     * GetDataSet: ArgumentException for a context that is not a string; null
     * for a source name no descriptor lists; otherwise a new DataSet with the
     * schema of the descriptor FindDescriptor returns.
     */
    method GetDataSet(context: Context) returns (r: Result<Option<DataSet>>)
      requires Valid() && cache.Valid()
      modifies this`lookup, cache
      ensures Valid() && cache.Valid()
      ensures context.NonText? ==>
                && r == Failure(ArgumentException("Source name (string) expected as a context."))
                && lookup == old(lookup) && cache.entries == old(cache.entries)
      ensures context.Text? ==> lookup == Some(BuiltLookup(schemas))
      ensures context.Text? ==>
                match FindResult(old(lookup), schemas, context.value)
                case Failure(e) => r == Failure(e) && cache.entries == old(cache.entries)
                case Success(None) => r == Success(None) && cache.entries == old(cache.entries)
                case Success(Some(d)) =>
                  && r.Success? && r.value.Some? && fresh(r.value.value)
                  && r.value.value.schema == d.xmlSchema
                  && (forall xml :: xml in cache.entries ==> cache.entries[xml] != r.value.value)
                  && cache.entries.Keys == CachedKeysAfter(old(cache.entries).Keys, d.xmlSchema)
    {
      if context.NonText? {
        return Failure(ArgumentException("Source name (string) expected as a context."));
      }
      var found := FindDescriptor(context.value);
      match found
      case Failure(e) =>
        r := Failure(e);
      case Success(None) =>
        r := Success(None);
      case Success(Some(d)) =>
        var ds := GetDataSetWithSchema(d.xmlSchema);
        r := Success(Some(ds));
    }

    /** GetObject: exactly GetDataSet. */
    method GetObject(context: Context) returns (r: Result<Option<DataSet>>)
      requires Valid() && cache.Valid()
      modifies this`lookup, cache
      ensures Valid() && cache.Valid()
      ensures context.NonText? ==>
                && r == Failure(ArgumentException("Source name (string) expected as a context."))
                && lookup == old(lookup) && cache.entries == old(cache.entries)
      ensures context.Text? ==> lookup == Some(BuiltLookup(schemas))
      ensures context.Text? ==>
                match FindResult(old(lookup), schemas, context.value)
                case Failure(e) => r == Failure(e) && cache.entries == old(cache.entries)
                case Success(None) => r == Success(None) && cache.entries == old(cache.entries)
                case Success(Some(d)) =>
                  && r.Success? && r.value.Some? && fresh(r.value.value)
                  && r.value.value.schema == d.xmlSchema
                  && (forall xml :: xml in cache.entries ==> cache.entries[xml] != r.value.value)
                  && cache.entries.Keys == CachedKeysAfter(old(cache.entries).Keys, d.xmlSchema)
    {
      r := GetDataSet(context);
    }
  }
}
