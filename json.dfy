/**
 * Parsed JSON documents and the compact (non-indented) JSON writer.
 *
 * Parsing text into a `Json` value is not part of this model: every operation
 * takes an already parsed document. The writer emits no whitespace between
 * tokens; how a number is spelled is left to a formatter parameter, of which
 * the model only assumes that it spells every number with number characters.
 */
module Json {

  /** A JSON value. Object members keep their textual order (duplicate keys allowed). */
  datatype Json =
    | JNull
    | JBool(b: bool)
    | JNumber(n: real)
    | JString(s: string)
    | JArray(items: seq<Json>)
    | JObject(members: seq<Member>)

  /** One `"name": value` member of an object. */
  datatype Member = Member(name: string, value: Json)

  /** Characters a written number token may contain. */
  predicate NumberChar(c: char) {
    c in "0123456789+-.eE"
  }

  /** A number token: non-empty, made of number characters only. */
  predicate IsNumberText(t: string) {
    |t| > 0 && forall i :: 0 <= i < |t| ==> NumberChar(t[i])
  }

  /** A number formatter that always writes a number token. */
  ghost predicate NumberFormatter(num: real -> string) {
    forall x :: IsNumberText(num(x))
  }

  /**
   * A character that may be spliced into a single-quoted JavaScript string
   * literal without ending it and that is not whitespace.
   */
  predicate Clean(c: char) {
    c != '\'' && c != '\\' && c != ' ' && c != '\t' && c != '\n' && c != '\r'
  }

  predicate AllClean(s: string) {
    forall i :: 0 <= i < |s| ==> Clean(s[i])
  }

  /** Every string and every member name inside `j` is made of clean characters. */
  predicate Plain(j: Json)
    decreases j
  {
    match j
    case JString(s) => AllClean(s)
    case JArray(items) => forall i :: 0 <= i < |items| ==> Plain(items[i])
    case JObject(members) =>
      forall i :: 0 <= i < |members| ==> AllClean(members[i].name) && Plain(members[i].value)
    case _ => true
  }

  /** Compact JSON text of `j`: no whitespace is inserted between tokens. */
  function Write(j: Json, num: real -> string): string
    decreases j, 1
  {
    match j
    case JNull => "null"
    case JBool(b) => if b then "true" else "false"
    case JNumber(n) => num(n)
    case JString(s) => "\"" + s + "\""
    case JArray(items) => "[" + WriteItems(items, num) + "]"
    case JObject(members) => "{" + WriteMembers(members, num) + "}"
  }

  /** The array elements, separated by bare commas. */
  function WriteItems(items: seq<Json>, num: real -> string): string
    decreases items, 0
  {
    if items == [] then ""
    else if |items| == 1 then Write(items[0], num)
    else Write(items[0], num) + "," + WriteItems(items[1..], num)
  }

  /** The object members as `"name":value`, separated by bare commas. */
  function WriteMembers(members: seq<Member>, num: real -> string): string
    decreases members, 0
  {
    if members == [] then ""
    else
      var m := "\"" + members[0].name + "\":" + Write(members[0].value, num);
      if |members| == 1 then m else m + "," + WriteMembers(members[1..], num)
  }

  lemma CleanConcat(a: string, b: string)
    requires AllClean(a) && AllClean(b)
    ensures AllClean(a + b)
  {
    forall i | 0 <= i < |a + b|
      ensures Clean((a + b)[i])
    {
      if i >= |a| {
        assert (a + b)[i] == b[i - |a|];
      }
    }
  }

  lemma NumberTextIsClean(t: string)
    requires IsNumberText(t)
    ensures AllClean(t)
  {
    forall i | 0 <= i < |t|
      ensures Clean(t[i])
    {
      assert NumberChar(t[i]);
    }
  }

  /**
   * The compact writer never emits a single quote, a backslash or whitespace
   * of its own: every character of its output is clean when the strings in
   * the document are.
   */
  lemma {:induction false} WriteIsClean(j: Json, num: real -> string)
    requires NumberFormatter(num) && Plain(j)
    ensures AllClean(Write(j, num))
    decreases j, 1
  {
    match j
    case JNull =>
    case JBool(b) =>
    case JNumber(n) =>
      NumberTextIsClean(num(n));
    case JString(s) =>
      CleanConcat("\"", s);
      CleanConcat("\"" + s, "\"");
    case JArray(items) =>
      WriteItemsIsClean(items, num);
      CleanConcat("[", WriteItems(items, num));
      CleanConcat("[" + WriteItems(items, num), "]");
    case JObject(members) =>
      WriteMembersIsClean(members, num);
      CleanConcat("{", WriteMembers(members, num));
      CleanConcat("{" + WriteMembers(members, num), "}");
  }

  lemma {:induction false} WriteItemsIsClean(items: seq<Json>, num: real -> string)
    requires NumberFormatter(num)
    requires forall i :: 0 <= i < |items| ==> Plain(items[i])
    ensures AllClean(WriteItems(items, num))
    decreases items, 0
  {
    if items != [] {
      WriteIsClean(items[0], num);
      if |items| > 1 {
        WriteItemsIsClean(items[1..], num);
        CleanConcat(Write(items[0], num), ",");
        CleanConcat(Write(items[0], num) + ",", WriteItems(items[1..], num));
      }
    }
  }

  lemma {:induction false} WriteMembersIsClean(members: seq<Member>, num: real -> string)
    requires NumberFormatter(num)
    requires forall i :: 0 <= i < |members| ==> AllClean(members[i].name) && Plain(members[i].value)
    ensures AllClean(WriteMembers(members, num))
    decreases members, 0
  {
    if members != [] {
      var name := members[0].name;
      var value := Write(members[0].value, num);
      WriteIsClean(members[0].value, num);
      CleanConcat("\"", name);
      CleanConcat("\"" + name, "\":");
      CleanConcat("\"" + name + "\":", value);
      var m := "\"" + name + "\":" + value;
      if |members| > 1 {
        WriteMembersIsClean(members[1..], num);
        CleanConcat(m, ",");
        CleanConcat(m + ",", WriteMembers(members[1..], num));
      }
    }
  }
}
