/**
 * The ontology class of NI.Data.Storage.Model (Class.cs): its equality
 * operators, its Equals/GetHashCode pair, and the lookup of a relationship by
 * predicate and object class.
 */
module StorageModel {
  import opened Wrappers

  /** ClassObjectLocationMode: where a class keeps its objects; ObjectTable is its only member. */
  datatype ClassObjectLocationMode = ObjectTable

  class Class {
    /** Null (None) for a class built without an ID. */
    var id: Option<string>
    var compactId: int
    var name: Option<string>
    var hidden: bool
    var indexable: bool
    var predefined: bool
    var isPredicate: bool
    var objectLocation: ClassObjectLocationMode

    /** `new Class()`: no ID; objects kept in the object table. */
    constructor ()
      ensures id == None && name == None && compactId == 0
      ensures !hidden && !indexable && !predefined && !isPredicate
      ensures objectLocation == ObjectTable
    {
      id, name, compactId := None, None, 0;
      hidden, indexable, predefined, isPredicate := false, false, false, false;
      objectLocation := ObjectTable;
    }

    /**
     * `new Class(id)`. ObjectLocation is not assigned and keeps the enum's
     * default value, which is ObjectTable, its only member.
     */
    constructor WithId(id: Option<string>)
      ensures this.id == id && name == None && compactId == 0
      ensures !hidden && !indexable && !predefined && !isPredicate
      ensures objectLocation == ObjectTable
    {
      this.id, name, compactId := id, None, 0;
      hidden, indexable, predefined, isPredicate := false, false, false, false;
      objectLocation := ObjectTable;
    }

    /**
     * Equals(object): against another Class, the IDs decide when both are
     * non-null; in every other case it is reference identity (object.Equals).
     */
    predicate Equals(obj: object?)
      reads this, obj
      ensures obj == this ==> Equals(obj)
      ensures Equals(obj) ==> obj is Class
      ensures Equals(obj) && obj != this ==> id.Some? && (obj as Class).id == id
    {
      if obj is Class && (obj as Class).id.Some? && id.Some? then id == (obj as Class).id
      else obj == this
    }

    /**
     * GetHashCode as written: the ID's hash when the ID is neither null nor
     * empty, the identity hash otherwise. The identity hash (object's) and the
     * string hash are taken as uninterpreted functions.
     */
    function HashCode(identityHash: object -> int, stringHash: string -> int): (r: int)
      reads this
      ensures id.Some? && id.value != "" ==> r == stringHash(id.value)
      ensures id.None? || id == Some("") ==> r == identityHash(this)
    {
      if id.None? || id.value == "" then identityHash(this) else stringHash(id.value)
    }

    /** GetHashCode as it evidently should be: identity hash only for a null ID, the ID's hash otherwise. */
    function CorrectedHashCode(identityHash: object -> int, stringHash: string -> int): (r: int)
      reads this
      ensures id.Some? ==> r == stringHash(id.value)
      ensures id.None? ==> r == identityHash(this)
    {
      if id.None? then identityHash(this) else stringHash(id.value)
    }
  }

  /** `operator ==`: true for two nulls, false for exactly one null, otherwise ID equality (two null IDs are equal). */
  predicate EqualsOperator(a: Class?, b: Class?)
    reads a, b
    ensures a == b ==> EqualsOperator(a, b)
    ensures EqualsOperator(a, b) ==> (a == null <==> b == null)
    ensures EqualsOperator(a, b) && a != null ==> a.id == b.id
  {
    if a == null && b == null then true
    else if a != null && b != null then a.id == b.id
    else false
  }

  /** `operator !=`: the negation of `==`. */
  predicate NotEqualsOperator(a: Class?, b: Class?)
    reads a, b
    ensures NotEqualsOperator(a, b) ==> a != b
    ensures a != null && b != null ==> (NotEqualsOperator(a, b) <==> a.id != b.id)
  {
    !EqualsOperator(a, b)
  }

  // ---------------------------------------------------------------------
  // Equality properties

  /** `==` is an equivalence relation on Class references, null included. */
  lemma EqualsOperatorIsEquivalence(a: Class?, b: Class?, c: Class?)
    ensures EqualsOperator(a, a)
    ensures EqualsOperator(a, b) == EqualsOperator(b, a)
    ensures EqualsOperator(a, b) && EqualsOperator(b, c) ==> EqualsOperator(a, c)
    ensures NotEqualsOperator(a, b) <==> !EqualsOperator(b, a)
  {
  }

  /** Equals is an equivalence relation on classes and never holds of null. */
  lemma EqualsIsEquivalence(a: Class, b: Class, c: Class)
    ensures a.Equals(a)
    ensures !a.Equals(null)
    ensures a.Equals(b) == b.Equals(a)
    ensures a.Equals(b) && b.Equals(c) ==> a.Equals(c)
  {
  }

  /** Equals between classes implies `==`, but not conversely. */
  lemma EqualsImpliesOperator(a: Class, b: Class)
    ensures a.Equals(b) ==> EqualsOperator(a, b)
    ensures EqualsOperator(a, b) && a.id.Some? ==> a.Equals(b)
  {
  }

  /** Two distinct classes without IDs are `==` yet not Equals. */
  lemma OperatorAndEqualsDisagreeOnNullIds(a: Class, b: Class)
    requires a != b && a.id.None? && b.id.None?
    ensures EqualsOperator(a, b)
    ensures !a.Equals(b)
  {
  }

  /** Equal classes with a non-empty ID hash alike under GetHashCode as written. */
  lemma HashCodeAgreesOnNonEmptyIds(a: Class, b: Class, identityHash: object -> int, stringHash: string -> int)
    requires a.Equals(b) && a.id.Some? && a.id.value != ""
    ensures a.HashCode(identityHash, stringHash) == b.HashCode(identityHash, stringHash)
  {
  }

  /**
   * GetHashCode as written breaks the hashing contract: two distinct classes
   * whose IDs are both "" are Equals, yet they hash by identity and can hash
   * differently.
   */
  lemma EmptyIdBreaksHashContract(a: Class, b: Class, identityHash: object -> int, stringHash: string -> int)
    requires a != b && a.id == Some("") && b.id == Some("")
    requires identityHash(a) != identityHash(b)
    ensures a.Equals(b)
    ensures a.HashCode(identityHash, stringHash) != b.HashCode(identityHash, stringHash)
  {
  }

  /** The corrected hash respects Equals for every pair of objects and any hash functions. */
  lemma CorrectedHashRespectsEquals(a: Class, obj: object, identityHash: object -> int, stringHash: string -> int)
    requires obj is Class && a.Equals(obj)
    ensures a.CorrectedHashCode(identityHash, stringHash) == (obj as Class).CorrectedHashCode(identityHash, stringHash)
  {
  }

  // ---------------------------------------------------------------------
  // FindRelationship

  /** A relationship of the ontology: the fields FindRelationship reads (the class itself is not part of this model). */
  datatype Relationship = Relationship(predicateClass: Class?, objectClass: Class?, reversed: bool)

  /** The classes the relationships refer to: what the lookup reads. */
  function ReferencedClasses(rels: seq<Relationship>): set<Class?>
  {
    (set r | r in rels :: r.predicateClass) + (set r | r in rels :: r.objectClass)
  }

  /** The first Where: same predicate and same object class, by `==`. */
  function WherePredicateAndObject(rels: seq<Relationship>, predicateClass: Class?, refClass: Class?): seq<Relationship>
    reads ReferencedClasses(rels), predicateClass, refClass
  {
    if rels == [] then []
    else
      var rest := WherePredicateAndObject(rels[1..], predicateClass, refClass);
      if EqualsOperator(rels[0].predicateClass, predicateClass) && EqualsOperator(rels[0].objectClass, refClass)
      then [rels[0]] + rest
      else rest
  }

  /** The second Where, when a Reversed value is supplied. */
  function WhereReversed(rels: seq<Relationship>, reversed: bool): seq<Relationship>
  {
    if rels == [] then []
    else if rels[0].reversed == reversed then [rels[0]] + WhereReversed(rels[1..], reversed)
    else WhereReversed(rels[1..], reversed)
  }

  function FirstOrDefault(rels: seq<Relationship>): Option<Relationship>
  {
    if rels == [] then None else Some(rels[0])
  }

  /** The condition a relationship must meet to be returned. */
  predicate Matches(r: Relationship, predicateClass: Class?, refClass: Class?, reversed: Option<bool>)
    reads r.predicateClass, r.objectClass, predicateClass, refClass
  {
    && EqualsOperator(r.predicateClass, predicateClass)
    && EqualsOperator(r.objectClass, refClass)
    && (reversed.None? || r.reversed == reversed.value)
  }

  /** A plain left-to-right search: the position of the first matching relationship. */
  function FirstMatch(rels: seq<Relationship>, predicateClass: Class?, refClass: Class?, reversed: Option<bool>): (r: Option<nat>)
    reads ReferencedClasses(rels), predicateClass, refClass
    ensures r.Some? ==> r.value < |rels| && Matches(rels[r.value], predicateClass, refClass, reversed)
    ensures r.Some? ==> forall j :: 0 <= j < r.value ==> !Matches(rels[j], predicateClass, refClass, reversed)
    ensures r.None? <==> forall j :: 0 <= j < |rels| ==> !Matches(rels[j], predicateClass, refClass, reversed)
  {
    if rels == [] then None
    else if Matches(rels[0], predicateClass, refClass, reversed) then Some(0)
    else match FirstMatch(rels[1..], predicateClass, refClass, reversed)
      case None => None
      case Some(k) => Some(k + 1)
  }

  /**
   * FindRelationship(predicate, refClass, reversed) over the class's
   * relationships: filter by predicate and object class, then by Reversed
   * when a value is supplied, and take the first (null when none).
   */
  function FindRelationship(rels: seq<Relationship>, predicateClass: Class?, refClass: Class?, reversed: Option<bool>): (r: Option<Relationship>)
    reads ReferencedClasses(rels), predicateClass, refClass
    ensures r == match FirstMatch(rels, predicateClass, refClass, reversed)
                 case None => None
                 case Some(k) => Some(rels[k])
  {
    FilterThenFirst(rels, predicateClass, refClass, reversed);
    var candidates := WherePredicateAndObject(rels, predicateClass, refClass);
    if reversed.Some? then FirstOrDefault(WhereReversed(candidates, reversed.value))
    else FirstOrDefault(candidates)
  }

  /** Filtering twice and taking the first element finds the first match of the combined condition. */
  lemma {:induction false} FilterThenFirst(rels: seq<Relationship>, predicateClass: Class?, refClass: Class?, reversed: Option<bool>)
    ensures var candidates := WherePredicateAndObject(rels, predicateClass, refClass);
            var found := if reversed.Some? then FirstOrDefault(WhereReversed(candidates, reversed.value))
                         else FirstOrDefault(candidates);
            found == match FirstMatch(rels, predicateClass, refClass, reversed)
                     case None => None
                     case Some(k) => Some(rels[k])
    decreases |rels|
  {
    if rels != [] {
      FilterThenFirst(rels[1..], predicateClass, refClass, reversed);
    }
  }

  /** Without a Reversed value, the flags of the relationships play no part in which one is found. */
  lemma {:induction false} ReversedIgnoredWhenUnspecified(rels1: seq<Relationship>, rels2: seq<Relationship>,
                                                         predicateClass: Class?, refClass: Class?)
    requires |rels1| == |rels2|
    requires forall i :: 0 <= i < |rels1| ==>
               rels1[i].predicateClass == rels2[i].predicateClass && rels1[i].objectClass == rels2[i].objectClass
    ensures FirstMatch(rels1, predicateClass, refClass, None) == FirstMatch(rels2, predicateClass, refClass, None)
    decreases |rels1|
  {
    if rels1 != [] {
      ReversedIgnoredWhenUnspecified(rels1[1..], rels2[1..], predicateClass, refClass);
    }
  }
}
