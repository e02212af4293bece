# NI.Data query aggregate, DataSet factory, DbType resolver and ontology class — a Dafny model

This project models five small components of the NIC.NET data-access library and proves properties of them:

- **Query** (`NI.Data.Query`): the mutable query record. It holds a source, a condition, sort and field arrays, a paging window (StartRecord, RecordCount) and a lazily allocated table of extended properties. The model covers its constructors, the normalising `SetSort`/`SetFields` setters, and the copy constructor. That constructor shares the condition and the sort and field arrays but copies the property table. The model also covers the `ExtendedProperties` getter, `Nodes`, and the diagnostic text form `source(cond)[fields; sort]{start,count}`. Nested queries render in that same form. `Queries.Query` is a Dafny class whose sort and field arrays are `array?`, so reference sharing is modelled. The text form lives in module `QueryText`, over a value snapshot (`QueryValues.QueryState`).
- **QRawSql and IQueryValue**: `QueryValues.QueryValue` is the value sum type. `RawSql` is the raw-text case and keeps its text verbatim, null included. `SubQuery` is a query used as a value.
- **DataSetFactory** (`NI.Data.Dalc`): module `Dalc`.
  - The source-name table is built lazily by two nested loops, and the first descriptor that lists a name wins. Assigning `Schemas` drops the table.
  - The source assigns the new dictionary before filling it. So a build that throws `NullReferenceException` (null `Schemas`, or a descriptor whose `SourceNames` is null) leaves a partial table. Later lookups trust that table and quietly return null. The model keeps this behaviour.
  - The DataSet cache is cleared when it holds more than 200 entries on entry, so it never holds more than 201. Callers always receive a clone.
- **DbTypeResolver** (`NI.Data`): module `DbTypes`. It maps the thirteen known runtime types to their `DbType`. `UseAnsiString` changes only the `string` case, and every other type maps to `Object`.
- **Class** (`NI.Data.Storage.Model`): module `StorageModel`. It models `operator ==`/`!=`, which compare IDs, and `Equals`, which compares IDs only when both are non-null and otherwise uses identity. It also models `GetHashCode` and `FindRelationship`, which filters and then takes the first match.

Some code these components call is not part of this model: `SqlBuilder`, `QSource`, `QSort`, `QField`, the ontology and `System.Data`. Their behaviour is taken as parameters:

- `QueryText.Notation` bundles the text forms and the base `SqlBuilder.BuildValue`/`BuildExpression` as uninterpreted functions.
- `StorageModel.Class.HashCode` takes the identity hash and the string hash as functions.
- Relationships are given as a sequence.

Three behaviours of the code worth noting:

- The three-argument `Query` constructor does not normalise an empty sort array to null.
- `StartRecord` is not checked to be non-negative.
- Copying a query forces allocation of the original's property table.

A null condition renders as the empty text. Whether `SqlBuilder.BuildExpression` returns null or "" for it, the guard at Query.cs line 228 treats the two alike, so the query text is the same either way.

## Model

| member | source | states |
|---|---|---|
| `QueryValues.NewRawSql` | src/NI.Data/Query/QRawSql.cs:39-41 | a QRawSql is the raw-text value, and its text is the constructor argument exactly, null or empty included |
| `QueryText.BuildQueryString` | src/NI.Data/Query/Query.cs:226-236 | the text of a query starts with the source's text and always ends with the `}` that closes the paging window; its layout and read-back are the lemmas below |
| `QueryText.BuildValue` | src/NI.Data/Query/Query.cs:238-242 | a nested query renders in the full query form (source first, closing `}`); every other value is exactly what the base builder gives |
| `QueryText.PagingWindowRoundTrip` | src/NI.Data/Query/Query.cs:226-236 | the paging window `{start,count}` can be read back unambiguously from the end of any query's text, whatever the source, condition, field and sort texts are |
| `QueryText.IntRoundTrip` | src/NI.Data/Query/Query.cs:234-235 | the decimal text of StartRecord/RecordCount determines the number |
| `QueryText.TextLayout` | src/NI.Data/Query/Query.cs:226-236 | the text starts with the source; `(cond)` follows exactly when the condition text is non-empty, otherwise `[` follows at once; a null field list shows as `*` |
| `QueryText.EmptySortIsVisible` | src/NI.Data/Query/Query.cs:231 | a non-null empty sort array renders `; ` and so differs in text from a null sort |
| `QueryText.NestedQueryRendersRecursively` | src/NI.Data/Query/Query.cs:238-242 | a query nested as a value renders recursively in the full query form; any other value (raw text included) is left to the base builder |
| `QueryText.BuildValuesAt` | src/NI.Data/Query/Query.cs:238-242 | the values of a node are each rendered through BuildValue, in order |
| `Queries.Query.ToString` | src/NI.Data/Query/Query.cs:220-222 | ToString is BuildValue of the query as a value (the nested form), and its paging window reads back as StartRecord, RecordCount |
| `Queries.Query.AsValue` | src/NI.Data/Query/Query.cs:29 | a Query is an IQueryValue: the nested-query case, carrying the query's current state |
| `Queries.Query.Nodes` | src/NI.Data/Query/Query.cs:46-48 | the child list always has exactly one element, the condition, even when it is null |
| `Queries.Query.constructor` | src/NI.Data/Query/Query.cs:107-109 | a new query has the given source, a null condition, null sort and fields, StartRecord 0, RecordCount Int32.MaxValue and no property table |
| `Queries.Query.WithCondition` | src/NI.Data/Query/Query.cs:116-119 | as above, with the given condition |
| `Queries.Query.WithSort` | src/NI.Data/Query/Query.cs:127-131 | the sort strings are converted in order without normalising, so an empty array gives an empty, non-null sort array |
| `Queries.Query.WithSortAndPage` | src/NI.Data/Query/Query.cs:141-147 | the sort goes through SetSort (null for a null or empty array); start, count and condition are those given |
| `Queries.Query.WithPage` | src/NI.Data/Query/Query.cs:155-159 | the given source and paging window, with no condition, sort or fields |
| `Queries.Query.WithSortPage` | src/NI.Data/Query/Query.cs:168-173 | the sort goes through SetSort; start and count are those given; no condition |
| `Queries.Query.Copy` | src/NI.Data/Query/Query.cs:179-187 | source, condition, paging window and the very same sort and field arrays are the original's; the property table is a fresh, distinct table with equal entries; the original's table is allocated if it had none |
| `Queries.Query.GetExtendedProperties` | src/NI.Data/Query/Query.cs:94-101 | the getter never returns null; it allocates an empty table once and returns that same table afterwards |
| `Queries.Query.SetSort` | src/NI.Data/Query/Query.cs:196-202 | null for a null or empty array, otherwise that very array; only the sort changes |
| `Queries.Query.SetSortNames` | src/NI.Data/Query/Query.cs:189-195 | null for a null or empty array, otherwise a new array of the converted strings, same length and order; only the sort changes |
| `Queries.Query.SetFields` | src/NI.Data/Query/Query.cs:211-217 | null for a null or empty array, otherwise that very array; only the fields change |
| `Queries.Query.SetFieldNames` | src/NI.Data/Query/Query.cs:204-210 | null for a null or empty array, otherwise a new array of the converted strings, same length and order; only the fields change |
| `Queries.SetSortTwice` | src/NI.Data/Query/Query.cs:196-202 | applying SetSort twice with the same argument gives the same query state as applying it once |
| `Queries.SetSortNamesTwice` | src/NI.Data/Query/Query.cs:189-195 | applying SetSort(string[]) twice gives the same query state as once |
| `Queries.SetFieldNamesTwice` | src/NI.Data/Query/Query.cs:204-210 | applying SetFields(string[]) twice gives the same query state as once |
| `Queries.EditCopiedProperties` | src/NI.Data/Query/Query.cs:186 | an edit to a copy's extended properties is not seen in the original's table |
| `Queries.EmptySortArrayConstructors` | src/NI.Data/Query/Query.cs:127-131 | from an empty sort array the three-argument constructor keeps an empty non-null sort, a SetSort constructor stores null, and their texts differ |
| `Dalc.FirstListing` | src/NI.Data.Dalc/DataSetFactory.cs:55-58 | the index of the first descriptor in list order that lists a name, or none exactly when no descriptor lists it |
| `Dalc.LookupOf` | src/NI.Data.Dalc/DataSetFactory.cs:53-58 | every name in the table built by the nested loops maps to a descriptor of the list that lists that name |
| `Dalc.LookupOfIsFirstListing` | src/NI.Data.Dalc/DataSetFactory.cs:53-59 | the table built by the nested loops maps a name exactly when some descriptor lists it, and to the first such descriptor; later duplicates never override |
| `Dalc.FindDescriptorFirstWins` | src/NI.Data.Dalc/DataSetFactory.cs:52-61 | with a complete descriptor list, FindDescriptor returns the first descriptor listing the name, and null when none does |
| `Dalc.PartialLookupAfterFailure` | src/NI.Data.Dalc/DataSetFactory.cs:53-58 | a build that throws leaves the table of the descriptors before the faulty one, and a later lookup of a name listed only after it returns null instead of throwing |
| `Dalc.AddNextName` | src/NI.Data.Dalc/DataSetFactory.cs:56-58 | one step of the inner loop adds a name not yet present and skips one already present |
| `Dalc.CacheSizeBound` | src/NI.Data.Dalc/DataSetFactory.cs:64-78 | after one call the cache holds the requested schema and at most 201 keys; nothing is evicted unless the cache held more than 200 |
| `Dalc.DataSetFactory.constructor` | src/NI.Data.Dalc/DataSetFactory.cs:48-50 | a new factory has null Schemas and no table |
| `Dalc.DataSetFactory.SetSchemas` | src/NI.Data.Dalc/DataSetFactory.cs:35-41 | assigning Schemas drops the table, so the next lookup rebuilds it from the new list |
| `Dalc.DataSetFactory.FindDescriptor` | src/NI.Data.Dalc/DataSetFactory.cs:52-61 | the table is built at most once per Schemas value and then reused; the result is the table's entry for the name or null, or NullReferenceException when the build throws |
| `Dalc.DataSetFactory.GetDataSetWithSchema` | src/NI.Data.Dalc/DataSetFactory.cs:63-80 | clears the cache only when it holds more than 200 entries; a hit keeps the cached DataSet, a miss caches a newly parsed one under exactly this key; the caller gets a fresh clone with that schema, never an instance held by the cache |
| `Dalc.DataSetFactory.GetDataSet` | src/NI.Data.Dalc/DataSetFactory.cs:82-91 | ArgumentException for a non-string context, with nothing changed; null for an unknown source name; otherwise a fresh DataSet with the schema of the descriptor found, never an instance held by the cache |
| `Dalc.DataSetFactory.GetObject` | src/NI.Data.Dalc/DataSetFactory.cs:93-95 | the same contract as GetDataSet |
| `DbTypes.ResolveType` | src/NI.Data/DbTypeResolver.cs:43-58 | Object exactly for the unlisted types; `string` gives AnsiString exactly when UseAnsiString is set and String otherwise; no other type gives either |
| `DbTypes.SettingOnlyAffectsString` | src/NI.Data/DbTypeResolver.cs:44-57 | for every type other than `string`, the result does not depend on UseAnsiString |
| `DbTypes.ListedTypesMapInjectively` | src/NI.Data/DbTypeResolver.cs:44-56 | distinct listed types map to distinct DbTypes |
| `DbTypes.DbTypeResolver.constructor` | src/NI.Data/DbTypeResolver.cs:27 | UseAnsiString defaults to false |
| `DbTypes.DbTypeResolver.Resolve` | src/NI.Data/DbTypeResolver.cs:43-58 | Resolve(Type) under the resolver's current setting |
| `DbTypes.DbTypeResolver.ResolveValue` | src/NI.Data/DbTypeResolver.cs:60-65 | null gives Object; any other value resolves exactly as its runtime type does |
| `DbTypes.DefaultResolverMapsStringToString` | src/NI.Data/DbTypeResolver.cs:50 | a resolver with the default setting maps `string` to String |
| `StorageModel.Class.constructor` | src/NI.Data.Storage/Model/Class.cs:73-75 | the default constructor leaves the ID null and sets ObjectLocation to ObjectTable |
| `StorageModel.Class.WithId` | src/NI.Data.Storage/Model/Class.cs:77-79 | the ID is the one given; ObjectLocation keeps its default, ObjectTable |
| `StorageModel.Class.Equals` | src/NI.Data.Storage/Model/Class.cs:81-88 | a class Equals itself; Equals holds only against a Class, and against another reference only when both IDs are non-null and equal |
| `StorageModel.Class.HashCode` | src/NI.Data.Storage/Model/Class.cs:90-92 | the ID's string hash when the ID is non-empty; the identity hash when it is null or "" |
| `StorageModel.EqualsOperator` | src/NI.Data.Storage/Model/Class.cs:107-112 | equal references are `==`; `==` never relates null to a class, and between classes it means equal IDs, two null IDs included |
| `StorageModel.NotEqualsOperator` | src/NI.Data.Storage/Model/Class.cs:113-115 | `!=` holds only between distinct references, and between classes exactly when their IDs differ |
| `StorageModel.EqualsOperatorIsEquivalence` | src/NI.Data.Storage/Model/Class.cs:107-115 | `==` is reflexive, symmetric and transitive over null and non-null references, and `!=` is its negation |
| `StorageModel.EqualsIsEquivalence` | src/NI.Data.Storage/Model/Class.cs:81-88 | Equals is reflexive, symmetric and transitive on classes and false against null |
| `StorageModel.EqualsImpliesOperator` | src/NI.Data.Storage/Model/Class.cs:81-88 | Equals implies `==`; `==` implies Equals when the IDs are non-null |
| `StorageModel.OperatorAndEqualsDisagreeOnNullIds` | src/NI.Data.Storage/Model/Class.cs:107-112 | two distinct classes with null IDs are `==` but not Equals |
| `StorageModel.HashCodeAgreesOnNonEmptyIds` | src/NI.Data.Storage/Model/Class.cs:90-92 | classes that are Equals with a non-empty ID have equal hash codes |
| `StorageModel.EmptyIdBreaksHashContract` | src/NI.Data.Storage/Model/Class.cs:90-92 | two distinct classes with ID "" are Equals yet can have different hash codes |
| `StorageModel.CorrectedHashRespectsEquals` | src/NI.Data.Storage/Model/Class.cs:90-92 | with the identity hash kept for null IDs only, Equals always implies equal hash codes |
| `StorageModel.FirstMatch` | src/NI.Data.Storage/Model/Class.cs:99-105 | the position of the first relationship with matching predicate, object class and (when supplied) Reversed flag, or none exactly when no relationship matches |
| `StorageModel.FindRelationship` | src/NI.Data.Storage/Model/Class.cs:99-105 | filter-then-first returns null exactly when nothing matches, and otherwise the first match in sequence order |
| `StorageModel.FilterThenFirst` | src/NI.Data.Storage/Model/Class.cs:100-104 | filtering by predicate and object, then by Reversed, and taking the first element finds the first relationship meeting all conditions |
| `StorageModel.ReversedIgnoredWhenUnspecified` | src/NI.Data.Storage/Model/Class.cs:103-104 | without a Reversed value, the relationships' flags play no part in which one is found |

## Left out

- SqlBuilder's own rendering (BuildExpression, BuildValue for non-query values) and the text forms of QSource, QSort and QField are not part of this model. They are parameters of `QueryText.Notation`. QSource, QSort and QField are represented by the string they were built from.
- Queries nested as values inside a condition are value snapshots (`QueryState`), not live Query objects. A later change to a nested Query object is therefore not reflected. Condition nodes are immutable values, so the "shared condition reference" of the copy constructor is sharing of an immutable value.
- The public property setters (Sort, Fields, StartRecord, RecordCount, SourceName, Condition, ExtendedProperties) are plain field assignments of the class and have no members of their own.
- Queries.Query.WithSort takes a non-null array: with a null array the source throws ArgumentNullException from `Select`, and that exception is not modelled.
- Null strings are not modelled for source names, sort and field strings, schema source names, XML schema text or the DbTypeResolver's inputs. Null is modelled for the sort and field arrays, the condition, the property table, QRawSql text, Schemas, a descriptor's SourceNames, class IDs and class references.
- The extended-property table is a map from string keys to objects. Hashtable's other behaviour (non-string keys, enumeration order) is not modelled.
- DataSetFactory's `lock` blocks and the concurrent use of the shared static cache are not modelled. The static cache is an explicit `DataSetCache` object that factories share.
- `DataSet.ReadXmlSchema` and `DataSet.Clone` are library calls. A DataSet is opaque and remembers only the schema text it was read from. Malformed schema text, which throws in ReadXmlSchema, is not modelled.
- SchemaDescriptor is a mutable class in the source, and the lookup table keeps references to the descriptors. The model holds descriptors as values, so it does not capture changes made through a descriptor's setters after the table was built. A later XmlSchema change would be seen by GetDataSet. A later SourceNames change would leave the table stale.
- A descriptor array element that is null, and an in-place change to the Schemas array that bypasses the setter (which would leave the table stale), are not modelled.
- Class.Properties, Class.Relationships and Class.HasProperty depend on ontology lookups and on Property equality, which are not part of this model. FindRelationship takes the relationship list as a sequence, and HasProperty is not modelled.
- The identity hash (`object.GetHashCode`) and `string.GetHashCode` are uninterpreted functions passed to `Class.HashCode`.
- `Int32.ToString` is modelled as plain decimal text with a leading minus sign (invariant culture). Culture-specific formatting is not modelled.
- RelationalExprResolver.cs is entirely commented out, so it has no behaviour to model. IDalcConditionComposer.cs is an interface without an implementation. IDbDalcEventsMediator.cs is event plumbing. The condition-tree node classes, the SQL builder and the expression parser are not part of this model.

## Findings

| source | as written | input that shows it | evidently intended | confidence | as-written member | corrected member |
|---|---|---|---|---|---|---|
| src/NI.Data.Storage/Model/Class.cs:90-92 | GetHashCode uses the identity hash when the ID is null or empty, but Equals compares any two non-null IDs, "" included | two distinct Class objects whose IDs are both "": Equals returns true, yet each hashes by identity, so the hashes can differ (hash-based collections then treat them as different keys) | use the identity hash only when the ID is null, so that objects that are Equals always hash alike | medium; not executed | `StorageModel.EmptyIdBreaksHashContract` | `StorageModel.CorrectedHashRespectsEquals` |
