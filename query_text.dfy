/**
 * The diagnostic text form of a query (Query.ToString, built by the private
 * QueryStringBuilder of Query.cs):
 *
 *     source(condition)[fields; sort]{start,count}
 *
 * The condition is parenthesised only when its text is non-empty, the field
 * list is `*` when unset, the `; sort` part is present exactly when the sort
 * array is non-null (even when it is empty), and nested queries used as
 * values render recursively in the same form.
 */
module QueryText {
  import opened Wrappers
  import opened QueryValues

  /**
   * The text forms the builder borrows from code that is not part of this
   * model, taken as uninterpreted functions:
   *  - sourceText, sortText, fieldText: QSource/QSort/QField.ToString();
   *  - baseValue: SqlBuilder.BuildValue for values other than a Query;
   *  - nodeText: SqlBuilder.BuildExpression for one condition node, given the
   *    node's kind, the texts of its values (each rendered through
   *    BuildValue) and the texts of its child nodes.
   */
  datatype Notation = Notation(
    sourceText: QSource -> string,
    sortText: QSort -> string,
    fieldText: QField -> string,
    baseValue: QueryValue -> string,
    nodeText: (nat, seq<string>, seq<string>) -> string)

  /** `String.Join(",", parts)`. */
  function Join(parts: seq<string>): string
  {
    if |parts| == 0 then ""
    else if |parts| == 1 then parts[0]
    else parts[0] + "," + Join(parts[1..])
  }

  /** QueryStringBuilder.BuildQueryString: the whole diagnostic text of a query. */
  function BuildQueryString(n: Notation, q: QueryState): (r: string)
    decreases q, 1
    ensures n.sourceText(q.sourceName) <= r
    ensures |r| > 0 && r[|r| - 1] == '}'
  {
    n.sourceText(q.sourceName)
    + ConditionPart(BuildCondition(n, q.condition))
    + "[" + FieldsPart(n, q.fields) + SortPart(n, q.sort) + "]"
    + PagingPart(q.startRecord, q.recordCount)
  }

  /**
   * The rendered condition. A null condition renders as the empty text;
   * whether SqlBuilder returns null or "" for it, the guard in
   * BuildQueryString treats both alike, so the query text is the same.
   */
  function BuildCondition(n: Notation, c: Option<QueryNode>): string
    decreases c
  {
    match c
    case None => ""
    case Some(node) => BuildExpression(n, node)
  }

  /** SqlBuilder.BuildExpression over one node: its values through BuildValue, its children recursively. */
  function BuildExpression(n: Notation, node: QueryNode): string
    decreases node
  {
    n.nodeText(node.kind, BuildValues(n, node.values), BuildExpressions(n, node.nodes))
  }

  function BuildValues(n: Notation, vs: seq<QueryValue>): (r: seq<string>)
    decreases vs
    ensures |r| == |vs|
  {
    if vs == [] then [] else [BuildValue(n, vs[0])] + BuildValues(n, vs[1..])
  }

  function BuildExpressions(n: Notation, nodes: seq<QueryNode>): (r: seq<string>)
    decreases nodes
    ensures |r| == |nodes|
  {
    if nodes == [] then [] else [BuildExpression(n, nodes[0])] + BuildExpressions(n, nodes[1..])
  }

  /** QueryStringBuilder.BuildValue: a nested Query renders in this same form; every other value as the base builder does. */
  function BuildValue(n: Notation, v: QueryValue): (r: string)
    decreases v
    ensures v.SubQuery? ==> n.sourceText(v.query.sourceName) <= r && |r| > 0 && r[|r| - 1] == '}'
    ensures !v.SubQuery? ==> r == n.baseValue(v)
  {
    match v
    case SubQuery(q) => BuildQueryString(n, q)
    case _ => n.baseValue(v)
  }

  /** `(cond)` when the condition text is non-empty, nothing otherwise. */
  function ConditionPart(rootExpression: string): string
  {
    if |rootExpression| > 0 then "(" + rootExpression + ")" else ""
  }

  /** The field list comma-joined, or `*` when the array is null. */
  function FieldsPart(n: Notation, fields: Option<seq<QField>>): string
  {
    match fields
    case None => "*"
    case Some(fs) => Join(seq(|fs|, i requires 0 <= i < |fs| => n.fieldText(fs[i])))
  }

  /** `; ` and the sort list comma-joined when the array is non-null, nothing when it is null. */
  function SortPart(n: Notation, sort: Option<seq<QSort>>): string
  {
    match sort
    case None => ""
    case Some(ss) => "; " + Join(seq(|ss|, i requires 0 <= i < |ss| => n.sortText(ss[i])))
  }

  /** `{start,count}`. */
  function PagingPart(startRecord: Int32, recordCount: Int32): string
  {
    PagingPartOf(startRecord as int, recordCount as int)
  }

  function PagingPartOf(startRecord: int, recordCount: int): string
  {
    "{" + IntToString(startRecord) + "," + IntToString(recordCount) + "}"
  }

  // ---------------------------------------------------------------------
  // Decimal text of an integer (Int32.ToString with the invariant culture)

  function DigitChar(d: nat): (c: char)
    requires d < 10
  {
    "0123456789"[d]
  }

  function NatToString(k: nat): string
    decreases k
  {
    if k < 10 then [DigitChar(k)] else NatToString(k / 10) + [DigitChar(k % 10)]
  }

  function IntToString(i: int): string
  {
    if i < 0 then "-" + NatToString(-i) else NatToString(i)
  }

  // ---------------------------------------------------------------------
  // Reading the paging window back from a query's text

  function DigitValue(c: char): Option<nat>
  {
    if '0' <= c <= '9' then Some(c as nat - '0' as nat) else None
  }

  /** The natural number a non-empty string of decimal digits denotes. */
  function ParseNat(s: string): Option<nat>
    decreases |s|
  {
    if |s| == 0 then None
    else
      match DigitValue(s[|s| - 1])
      case None => None
      case Some(d) =>
        if |s| == 1 then Some(d)
        else
          match ParseNat(s[..|s| - 1])
          case None => None
          case Some(p) => Some(p * 10 + d)
  }

  function ParseInt(s: string): Option<int>
  {
    if |s| > 0 && s[0] == '-' then
      match ParseNat(s[1..])
      case None => None
      case Some(k) => Some(-(k as int))
    else
      match ParseNat(s)
      case None => None
      case Some(k) => Some(k)
  }

  /** The last position of `c` in `s`, if any. */
  function LastIndexOf(s: string, c: char): (r: Option<nat>)
    decreases |s|
    ensures r.Some? ==> r.value < |s| && s[r.value] == c
    ensures r.Some? ==> forall j :: r.value < j < |s| ==> s[j] != c
    ensures r.None? ==> forall j :: 0 <= j < |s| ==> s[j] != c
  {
    if |s| == 0 then None
    else if s[|s| - 1] == c then Some(|s| - 1)
    else LastIndexOf(s[..|s| - 1], c)
  }

  /** The first position of `c` in `s`, if any. */
  function IndexOf(s: string, c: char): (r: Option<nat>)
    decreases |s|
    ensures r.Some? ==> r.value < |s| && s[r.value] == c
    ensures r.Some? ==> forall j :: 0 <= j < r.value ==> s[j] != c
    ensures r.None? ==> forall j :: 0 <= j < |s| ==> s[j] != c
  {
    if |s| == 0 then None
    else if s[0] == c then Some(0)
    else match IndexOf(s[1..], c)
      case None => None
      case Some(k) => Some(k + 1)
  }

  /**
   * The paging window `{start,count}` read back from the end of a query's
   * diagnostic text: the text after the last `{`, up to a final `}`, split at
   * its first comma.
   */
  function PagingWindow(text: string): Option<(int, int)>
  {
    if |text| == 0 || text[|text| - 1] != '}' then None
    else
      match LastIndexOf(text, '{')
      case None => None
      case Some(open) =>
        if open + 1 > |text| - 1 then None
        else
          var body := text[open + 1 .. |text| - 1];
          match IndexOf(body, ',')
          case None => None
          case Some(comma) =>
            match (ParseInt(body[..comma]), ParseInt(body[comma + 1..]))
            case (Some(start), Some(count)) => Some((start, count))
            case _ => None
  }

  /** A numeral is one or more characters, each a digit or a minus sign. */
  lemma {:induction false} NatToStringDigits(k: nat)
    ensures |NatToString(k)| >= 1
    ensures forall j :: 0 <= j < |NatToString(k)| ==> '0' <= NatToString(k)[j] <= '9'
    decreases k
  {
    if k >= 10 {
      NatToStringDigits(k / 10);
    }
  }

  lemma IntToStringChars(i: int)
    ensures forall j :: 0 <= j < |IntToString(i)| ==> IntToString(i)[j] == '-' || '0' <= IntToString(i)[j] <= '9'
  {
    NatToStringDigits(if i < 0 then -i else i);
  }

  lemma DigitRoundTrip(d: nat)
    requires d < 10
    ensures DigitValue(DigitChar(d)) == Some(d)
  {
  }

  /** Reading back the decimal text of a natural number gives the number. */
  lemma {:induction false} NatRoundTrip(k: nat)
    ensures ParseNat(NatToString(k)) == Some(k)
    decreases k
  {
    DigitRoundTrip(k % 10);
    if k >= 10 {
      var s := NatToString(k);
      NatToStringDigits(k / 10);
      assert s[..|s| - 1] == NatToString(k / 10);
      assert s[|s| - 1] == DigitChar(k % 10);
      NatRoundTrip(k / 10);
    }
  }

  /** Int32.ToString and ParseInt are inverse: the decimal text of an integer determines it. */
  lemma IntRoundTrip(i: int)
    ensures ParseInt(IntToString(i)) == Some(i)
  {
    if i < 0 {
      NatRoundTrip(-i);
      assert IntToString(i)[1..] == NatToString(-i);
    } else {
      NatRoundTrip(i);
      NatToStringDigits(i);
    }
  }

  /** The contract of LastIndexOf pins its result down. */
  lemma LastIndexOfIs(s: string, c: char, k: nat)
    requires k < |s| && s[k] == c
    requires forall j :: k < j < |s| ==> s[j] != c
    ensures LastIndexOf(s, c) == Some(k)
  {
    var r := LastIndexOf(s, c);
    assert r.Some?;
    assert r.value >= k;
  }

  /** The contract of IndexOf pins its result down. */
  lemma IndexOfIs(s: string, c: char, k: nat)
    requires k < |s| && s[k] == c
    requires forall j :: 0 <= j < k ==> s[j] != c
    ensures IndexOf(s, c) == Some(k)
  {
    var r := IndexOf(s, c);
    assert r.Some?;
    assert r.value <= k;
  }

  /** A window `{s,c}` at the end of a text reads back as its two numbers when neither holds a brace and `s` holds no comma. */
  lemma WindowReadsBack(head: string, s: string, c: string, start: int, count: int)
    requires ParseInt(s) == Some(start) && ParseInt(c) == Some(count)
    requires forall j :: 0 <= j < |s| ==> s[j] != '{' && s[j] != ','
    requires forall j :: 0 <= j < |c| ==> c[j] != '{'
    ensures PagingWindow(head + "{" + s + "," + c + "}") == Some((start, count))
  {
    var text := head + "{" + s + "," + c + "}";
    assert forall j :: |head| < j <= |head| + |s| ==> text[j] == s[j - |head| - 1];
    assert text[|head| + |s| + 1] == ',';
    assert forall j :: |head| + |s| + 1 < j < |text| - 1 ==> text[j] == c[j - |head| - |s| - 2];
    assert text[|text| - 1] == '}';
    LastIndexOfIs(text, '{', |head|);
    var body := text[|head| + 1 .. |text| - 1];
    assert body == s + "," + c;
    assert forall j :: 0 <= j < |s| ==> body[j] == s[j];
    IndexOfIs(body, ',', |s|);
    assert body[..|s|] == s;
    assert body[|s| + 1..] == c;
  }

  /** The window `{start,count}` at the end of any text reads back as (start, count). */
  lemma PagingTextRoundTrip(head: string, start: int, count: int)
    ensures PagingWindow(head + PagingPartOf(start, count)) == Some((start, count))
  {
    var s := IntToString(start);
    var c := IntToString(count);
    IntToStringChars(start);
    IntToStringChars(count);
    IntRoundTrip(start);
    IntRoundTrip(count);
    assert head + PagingPartOf(start, count) == head + "{" + s + "," + c + "}";
    WindowReadsBack(head, s, c, start, count);
  }

  /**
   * Whatever the source, condition, field and sort texts contain, the paging
   * window can be read back unambiguously from the end of a query's text.
   */
  lemma PagingWindowRoundTrip(n: Notation, q: QueryState)
    ensures PagingWindow(BuildQueryString(n, q)) == Some((q.startRecord as int, q.recordCount as int))
  {
    var head := n.sourceText(q.sourceName)
      + ConditionPart(BuildCondition(n, q.condition))
      + "[" + FieldsPart(n, q.fields) + SortPart(n, q.sort) + "]";
    assert BuildQueryString(n, q) == head + PagingPartOf(q.startRecord as int, q.recordCount as int);
    PagingTextRoundTrip(head, q.startRecord as int, q.recordCount as int);
  }

  // ---------------------------------------------------------------------
  // Layout of the text

  /**
   * The text starts with the source; right after it comes `(` exactly when the
   * condition renders non-empty (the condition then sits inside the
   * parentheses), and `[` otherwise, so a null condition adds no filter part.
   * Inside the brackets a null field list shows as `*`.
   */
  lemma TextLayout(n: Notation, q: QueryState)
    ensures var src := n.sourceText(q.sourceName);
            var cond := BuildCondition(n, q.condition);
            var text := BuildQueryString(n, q);
            var open := |src| + (if |cond| > 0 then |cond| + 2 else 0);
            && |text| > open + 1
            && text[..|src|] == src
            && text[|src|] == (if |cond| > 0 then '(' else '[')
            && (|cond| > 0 ==> text[|src| + 1 .. |src| + 1 + |cond|] == cond && text[|src| + 1 + |cond|] == ')')
            && text[open] == '['
            && (q.fields.None? ==> text[open + 1] == '*')
  {
    var fieldsAndRest := FieldsPart(n, q.fields) + SortPart(n, q.sort) + "]" + PagingPart(q.startRecord, q.recordCount);
    assert q.fields.None? ==> fieldsAndRest[0] == '*';
    var rest := "[" + fieldsAndRest;
    assert BuildQueryString(n, q) == n.sourceText(q.sourceName) + ConditionPart(BuildCondition(n, q.condition)) + rest;
    SplicedCondition(n.sourceText(q.sourceName), BuildCondition(n, q.condition), rest);
  }

  /** Where the pieces of `src + ConditionPart(cond) + rest` sit. */
  lemma SplicedCondition(src: string, cond: string, rest: string)
    requires |rest| >= 2
    ensures var text := src + ConditionPart(cond) + rest;
            var open := |src| + (if |cond| > 0 then |cond| + 2 else 0);
            && |text| == open + |rest|
            && text[..|src|] == src
            && (|cond| > 0 ==> text[|src|] == '(' && text[|src| + 1 .. |src| + 1 + |cond|] == cond && text[|src| + 1 + |cond|] == ')')
            && text[open..] == rest
  {
    var text := src + ConditionPart(cond) + rest;
    if |cond| > 0 {
      assert text == src + "(" + cond + ")" + rest;
      assert text[|src| + 1 .. |src| + 1 + |cond|] == cond;
    }
    var open := |src| + (if |cond| > 0 then |cond| + 2 else 0);
    assert text[open..] == rest;
  }

  /**
   * A non-null but empty sort array (what the three-argument constructor
   * builds from an empty string array) renders as `; ` inside the brackets,
   * unlike a null one: the two states have different texts.
   */
  lemma EmptySortIsVisible(n: Notation, q: QueryState)
    requires q.sort == Some([])
    ensures SortPart(n, q.sort) == "; "
    ensures BuildQueryString(n, q) != BuildQueryString(n, q.(sort := None))
  {
    var head := n.sourceText(q.sourceName) + ConditionPart(BuildCondition(n, q.condition)) + "[" + FieldsPart(n, q.fields);
    var tail := "]" + PagingPart(q.startRecord, q.recordCount);
    assert BuildQueryString(n, q) == head + "; " + tail;
    assert BuildQueryString(n, q.(sort := None)) == head + "" + tail;
  }

  /** Rendering a list of values renders each one through BuildValue, in order. */
  lemma {:induction false} BuildValuesAt(n: Notation, vs: seq<QueryValue>, i: nat)
    requires i < |vs|
    ensures BuildValues(n, vs)[i] == BuildValue(n, vs[i])
    decreases i
  {
    if i > 0 {
      BuildValuesAt(n, vs[1..], i - 1);
    }
  }

  /**
   * A query nested as a value in a condition node is rendered by the same
   * builder, recursively, in the full `source(cond)[fields; sort]{start,count}`
   * form; a raw-text value is left to the base builder.
   */
  lemma NestedQueryRendersRecursively(n: Notation, node: QueryNode, i: nat)
    requires i < |node.values|
    ensures node.values[i].SubQuery? ==>
              BuildValues(n, node.values)[i] == BuildQueryString(n, node.values[i].query)
    ensures node.values[i].RawSql? ==>
              BuildValues(n, node.values)[i] == n.baseValue(node.values[i])
  {
    BuildValuesAt(n, node.values, i);
  }
}
