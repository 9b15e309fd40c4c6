/**
 * The three helper prompts of `buildNotionServer`, identical in both
 * copies: argument completion by prefix over fixed candidate lists, and
 * snippets of JSON for the query, append and create tools. A snippet is
 * modelled as the value that the prompt's message text serializes.
 */
module Prompts {
  import opened Json
  import opened JsText
  import P = Payloads
  import Tools

  /** `xs.filter(keep)` */
  function Filter(xs: seq<string>, keep: string -> bool): (r: seq<string>)
    ensures |r| <= |xs|
    ensures forall x :: x in r ==> keep(x)
  {
    if xs == [] then []
    else (if keep(xs[0]) then [xs[0]] else []) + Filter(xs[1..], keep)
  }

  /** The filter keeps exactly the candidates that pass. */
  lemma {:induction false} FilterMembers(xs: seq<string>, keep: string -> bool, x: string)
    ensures x in Filter(xs, keep) <==> x in xs && keep(x)
  {
    if xs != [] {
      FilterMembers(xs[1..], keep, x);
      assert xs == [xs[0]] + xs[1..];
    }
  }

  /** The filter keeps list order: filtering a concatenation filters each part. */
  lemma {:induction false} FilterAppend(a: seq<string>, b: seq<string>, keep: string -> bool)
    ensures Filter(a + b, keep) == Filter(a, keep) + Filter(b, keep)
  {
    if a == [] {
      assert a + b == b;
    } else {
      assert (a + b)[0] == a[0] && (a + b)[1..] == a[1..] + b;
      FilterAppend(a[1..], b, keep);
    }
  }

  /** When every candidate passes, the whole list comes back in order. */
  lemma {:induction false} FilterAll(xs: seq<string>, keep: string -> bool)
    requires forall i :: 0 <= i < |xs| ==> keep(xs[i])
    ensures Filter(xs, keep) == xs
  {
    if xs != [] {
      FilterAll(xs[1..], keep);
      assert [xs[0]] + xs[1..] == xs;
    }
  }

  // Completion of prompt arguments

  const PropertyNames: seq<string> := ["Name", "Title", "Status", "Assignee", "Tags", "Priority", "Done"]

  const OperatorNames: seq<string> := [
    "equals", "does_not_equal", "contains", "does_not_contain", "starts_with", "ends_with",
    "greater_than", "less_than", "on_or_after", "on_or_before", "is_empty", "is_not_empty"]

  const BlockTypeNames: seq<string> := ["paragraph", "heading_1", "heading_2", "to_do", "quote", "bulleted_list_item"]

  /** `v || ''` on a completion input: undefined becomes the empty prefix. */
  function Prefix(v: Option<string>): string {
    v.GetOr("")
  }

  /** `x => x.startsWith(p)` */
  function HasPrefix(p: string): string -> bool {
    x => StartsWith(x, p)
  }

  /** `x => x.toLowerCase().startsWith(p.toLowerCase())` */
  function HasPrefixIgnoringCase(p: string): string -> bool {
    x => StartsWith(Lower(x), Lower(p))
  }

  /** Completion of `property` in `notion_build_filter`: a prefix match ignoring ASCII case. */
  function CompleteProperty(v: Option<string>): seq<string> {
    Filter(PropertyNames, HasPrefixIgnoringCase(Prefix(v)))
  }

  /** Completion of `operator` in `notion_build_filter`: a case-sensitive prefix match. */
  function CompleteOperator(v: Option<string>): seq<string> {
    Filter(OperatorNames, HasPrefix(Prefix(v)))
  }

  /** Completion of `type` in `notion_blocks_snippet`: a case-sensitive prefix match. */
  function CompleteBlockType(v: Option<string>): seq<string> {
    Filter(BlockTypeNames, HasPrefix(Prefix(v)))
  }

  /** Property completion offers exactly the candidates whose lower-cased form starts with the lower-cased input. */
  lemma PropertyCompletionMembers(v: Option<string>, x: string)
    ensures x in CompleteProperty(v) <==> x in PropertyNames && StartsWith(Lower(x), Lower(Prefix(v)))
  {
    FilterMembers(PropertyNames, HasPrefixIgnoringCase(Prefix(v)), x);
  }

  /** Operator completion offers exactly the operators that start with the input. */
  lemma OperatorCompletionMembers(v: Option<string>, x: string)
    ensures x in CompleteOperator(v) <==> x in OperatorNames && StartsWith(x, Prefix(v))
  {
    FilterMembers(OperatorNames, HasPrefix(Prefix(v)), x);
  }

  /** Block-type completion offers exactly the types that start with the input. */
  lemma BlockTypeCompletionMembers(v: Option<string>, x: string)
    ensures x in CompleteBlockType(v) <==> x in BlockTypeNames && StartsWith(x, Prefix(v))
  {
    FilterMembers(BlockTypeNames, HasPrefix(Prefix(v)), x);
  }

  /** An undefined or empty input is completed to the whole list, in its order. */
  lemma EmptyInputCompletesEverything(v: Option<string>)
    requires v.None? || v == Some("")
    ensures CompleteProperty(v) == PropertyNames
    ensures CompleteOperator(v) == OperatorNames
    ensures CompleteBlockType(v) == BlockTypeNames
  {
    EmptyPropertyInput(v);
    EmptyOperatorInput(v);
    EmptyBlockTypeInput(v);
  }

  lemma EmptyPropertyInput(v: Option<string>)
    requires v.None? || v == Some("")
    ensures CompleteProperty(v) == PropertyNames
  {
    EmptyPrefixKeepsAll(PropertyNames, v);
  }

  lemma EmptyOperatorInput(v: Option<string>)
    requires v.None? || v == Some("")
    ensures CompleteOperator(v) == OperatorNames
  {
    EmptyPrefixKeepsAll(OperatorNames, v);
  }

  lemma EmptyBlockTypeInput(v: Option<string>)
    requires v.None? || v == Some("")
    ensures CompleteBlockType(v) == BlockTypeNames
  {
    EmptyPrefixKeepsAll(BlockTypeNames, v);
  }

  /** An absent or empty input keeps every candidate, with case folding or without. */
  lemma EmptyPrefixKeepsAll(xs: seq<string>, v: Option<string>)
    requires v.None? || v == Some("")
    ensures Filter(xs, HasPrefix(Prefix(v))) == xs
    ensures Filter(xs, HasPrefixIgnoringCase(Prefix(v))) == xs
  {
    assert Prefix(v) == "";
    assert Lower(Prefix(v)) == "";
    FilterAll(xs, HasPrefix(Prefix(v)));
    FilterAll(xs, HasPrefixIgnoringCase(Prefix(v)));
  }

  lemma {:induction false} LowerIdempotent(s: string)
    ensures Lower(Lower(s)) == Lower(s)
  {
    var l := Lower(s);
    assert forall i :: 0 <= i < |s| ==> LowerChar(l[i]) == l[i];
  }

  /** Property completion does not depend on the case of the input. */
  lemma PropertyCompletionIgnoresCase(s: string)
    ensures CompleteProperty(Some(s)) == CompleteProperty(Some(Lower(s)))
  {
    LowerIdempotent(s);
  }

  /** Operator completion is case-sensitive: "EQ" completes to nothing, however "eq" completes to `equals`. */
  lemma OperatorCompletionIsCaseSensitive()
    ensures CompleteOperator(Some("EQ")) == []
    ensures "equals" in CompleteOperator(Some("eq"))
  {
    NoUpperCaseOperator();
    assert StartsWith("equals", Prefix(Some("eq"))) by { assert "equals"[..2] == "eq"; }
    EqualsCompletes(Some("eq"));
  }

  lemma EqualsCompletes(v: Option<string>)
    requires StartsWith("equals", Prefix(v))
    ensures "equals" in CompleteOperator(v)
  {
    OperatorCompletionMembers(v, "equals");
    assert OperatorNames[0] == "equals";
  }

  lemma NoUpperCaseOperator()
    ensures CompleteOperator(Some("EQ")) == []
  {
    forall i | 0 <= i < |OperatorNames|
      ensures !StartsWith(OperatorNames[i], "EQ")
    {
      assert OperatorNames[i][0] != 'E';
    }
    FilterNone(OperatorNames, HasPrefix("EQ"));
  }

  lemma {:induction false} FilterNone(xs: seq<string>, keep: string -> bool)
    requires forall i :: 0 <= i < |xs| ==> !keep(xs[i])
    ensures Filter(xs, keep) == []
  {
    if xs != [] {
      assert !keep(xs[0]);
      FilterNone(xs[1..], keep);
    }
  }

  // The snippets

  /**
   * `notion_build_filter`: `{filter: {property, rich_text: {contains: value || ''}}}`;
   * the chosen operator does not enter the snippet.
   */
  function FilterSnippet(property: string, operator: string, value: Option<string>): Json {
    P.Obj1("filter", JObj([
      Member("property", JStr(property)),
      Member("rich_text", P.Obj1("contains", JStr(value.GetOr(""))))]))
  }

  /**
   * `notion_blocks_snippet`: one block of the given type; a `to_do` body also
   * carries `checked: false`.
   */
  function BlocksSnippet(kind: string, text: string): Json {
    JArr([P.ComputedBlockObject(kind, if kind == "to_do" then P.TodoBody(text, false) else P.RichTextBody(text))])
  }

  /** `notion_create_page_snippet`: `{[title_property || 'Name']: {title: [{text: {content: title}}]}}` */
  function CreatePageSnippet(titleProperty: string, title: string): Json {
    JObj([Member(if titleProperty == "" then "Name" else titleProperty, P.TitleProperty(title))])
  }

  /**
   * The filter snippet's `filter` member is accepted as the `filter`
   * argument of `notion_query_database`, which passes it on unchanged;
   * the operator plays no part.
   */
  lemma FilterSnippetFeedsQuery(property: string, operator: string, value: Option<string>, databaseId: string)
    requires databaseId != ""
    ensures var filter := Get(FilterSnippet(property, operator, value), "filter");
      && filter.Some? && filter.value.JObj?
      && FilterSnippet(property, operator, value) == FilterSnippet(property, "", value)
      && Tools.Parse(Tools.QueryDatabase, JObj([Member("database_id", JStr(databaseId)), Member("filter", filter.value)])) ==
         Tools.Valid(Tools.QueryDatabaseArgs(databaseId, Some(filter.value.members), None, None, None))
  {
    var filter := Get(FilterSnippet(property, operator, value), "filter").value;
    var ms := [Member("database_id", JStr(databaseId)), Member("filter", filter)];
    assert ms[0].key != ms[1].key by { assert |ms[0].key| != |ms[1].key|; }
    LookupPair(ms[0], ms[1]);
    assert Keys(ms) == ["database_id", "filter"];
    assert "sorts" !in Keys(ms) && "start_cursor" !in Keys(ms) && "page_size" !in Keys(ms) by {
      assert |"sorts"| != |"database_id"| && |"sorts"| != |"filter"|;
      assert |"start_cursor"| != |"database_id"| && |"start_cursor"| != |"filter"|;
      assert |"page_size"| != |"database_id"| && |"page_size"| != |"filter"|;
    }
    LookupFound(ms, "sorts");
    LookupFound(ms, "start_cursor");
    LookupFound(ms, "page_size");
  }

  /**
   * The blocks snippet builds the same block as the dedicated append tools:
   * a paragraph, an unchecked to-do, or a heading of the named level.
   */
  lemma BlocksSnippetMatchesTools(text: string, level: P.HeadingLevel)
    ensures BlocksSnippet("paragraph", text) == JArr([P.ParagraphBlock(text)])
    ensures BlocksSnippet("to_do", text) == JArr([P.TodoBlock(text, false)])
    ensures BlocksSnippet(level.Name(), text) == JArr([P.HeadingBlock(level, text)])
  {
    assert "paragraph" != "to_do" by { assert |"paragraph"| != |"to_do"|; }
    assert level.Name() != "to_do" by { assert |level.Name()| != |"to_do"|; }
    assert "paragraph" != "object" && "paragraph" != "type" by { assert |"paragraph"| != |"object"| && |"paragraph"| != |"type"|; }
    assert "to_do" != "object" && "to_do" != "type" by { assert |"to_do"| != |"object"| && "to_do"[1] != "type"[1]; }
    assert level.Name() != "object" && level.Name() != "type" by { assert |level.Name()| != |"object"| && |level.Name()| != |"type"|; }
    P.BlockObjectShape("paragraph", P.RichTextBody(text));
    P.BlockObjectShape("to_do", P.TodoBody(text, false));
    P.BlockObjectShape(level.Name(), P.RichTextBody(text));
    match level
    case H1 =>
    case H2 =>
    case H3 =>
  }

  /**
   * For any block type other than `object` and `type`, the snippet is one
   * block whose content key is the type, holding the text, with
   * `checked: false` only for `to_do`.
   */
  lemma BlocksSnippetAnyKind(kind: string, text: string)
    requires kind != "object" && kind != "type"
    ensures var body := if kind == "to_do" then P.TodoBody(text, false) else P.RichTextBody(text);
      && BlocksSnippet(kind, text) == JArr([P.BlockObject(kind, body)])
      && Get(P.BlockObject(kind, body), "type") == Some(JStr(kind))
      && P.BlockText(P.BlockObject(kind, body)) == Some(JStr(text))
      && (Get(body, "checked").Some? <==> kind == "to_do")
  {
    var body := if kind == "to_do" then P.TodoBody(text, false) else P.RichTextBody(text);
    P.BlockObjectShape(kind, body);
    P.BlockObjectReadBack(kind, body);
    P.SegmentReadBack(text, false);
    if kind == "to_do" {
      P.TodoBlockChecked(text, false);
    } else {
      assert Keys(body.members) == ["rich_text"];
      assert "rich_text" != "checked" by { assert |"rich_text"| != |"checked"|; }
      LookupFound(body.members, "checked");
    }
  }

  /**
   * The type `type` overwrites the `type` member in place: the snippet block
   * then has only `object` and `type`, and `type` holds the body.
   */
  lemma BlocksSnippetTypeKind(text: string)
    ensures BlocksSnippet("type", text) == JArr([JObj([Member("object", JStr("block")), Member("type", P.RichTextBody(text))])])
  {
    var m0 := [Member("object", JStr("block"))];
    assert Keys(m0) == ["object"];
    assert "type" != "to_do" by { assert |"type"| != |"to_do"|; }
    PutNew(m0, "type", JStr("type"));
    var m1 := m0 + [Member("type", JStr("type"))];
    assert "object" != "type" by { assert |"object"| != |"type"|; }
    assert m1[1..] == [Member("type", JStr("type"))];
    var last := [Member("type", JStr("type"))];
    assert Put(last, "type", P.RichTextBody(text)) == [Member("type", P.RichTextBody(text))] by {
      assert last[1..] == [];
    }
    assert Put(m1, "type", P.RichTextBody(text)) == [m1[0]] + Put(m1[1..], "type", P.RichTextBody(text));
    assert P.ComputedBlockObject("type", P.RichTextBody(text)) == JObj([Member("object", JStr("block")), Member("type", P.RichTextBody(text))]);
  }

  /** The create-page snippet holds exactly the properties `notion_create_page` sends for this key and title. */
  lemma CreatePageSnippetMatchesTool(titleProperty: string, title: string)
    ensures var key := if titleProperty == "" then "Name" else titleProperty;
      CreatePageSnippet(titleProperty, title) == JObj(P.PageProperties(key, title, None))
  {
    var key := if titleProperty == "" then "Name" else titleProperty;
    P.PagePropertiesMerge(key, title, None, key);
  }
}
