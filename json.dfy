/** The JSON elements of kotlinx.serialization that ULink.kt reads and builds
    (JsonNull, JsonPrimitive, JsonArray, JsonObject), with the two renderings the
    bridge reads them through: a primitive's `content` and an element's
    `toString()` (its JSON text, strings quoted and escaped). */
module Json {
  import opened Common

  datatype Json =
    | JNull
    | JBool(b: bool)
    | JNumber(literal: string)   // a numeric literal, kept as written
    | JString(text: string)
    | JArray(items: seq<Json>)
    | JObject(members: seq<(string, Json)>)   // in insertion order

  /** JsonNull is a JsonPrimitive in kotlinx.serialization. */
  predicate IsPrimitive(j: Json) {
    j.JNull? || j.JBool? || j.JNumber? || j.JString?
  }

  /** `JsonPrimitive.content`: the unquoted text of a primitive. */
  function Content(j: Json): string
    requires IsPrimitive(j)
  {
    match j
    case JNull => "null"
    case JBool(b) => if b then "true" else "false"
    case JNumber(l) => l
    case JString(s) => s
  }

  function HexDigit(d: nat): char
    requires d < 16
  {
    "0123456789abcdef"[d]
  }

  /** The characters a JSON string literal must escape. */
  predicate NeedsEscape(c: char) {
    c == '"' || c == '\\' || (c as int) < 0x20
  }

  /** How kotlinx.serialization escapes one character inside a string literal. */
  function EscapeChar(c: char): (r: string)
    ensures NeedsEscape(c) ==> |r| >= 2 && r[0] == '\\'
    ensures !NeedsEscape(c) ==> r == [c]
  {
    if c == '"' then "\\\""
    else if c == '\\' then "\\\\"
    else if c == '\t' then "\\t"
    else if c == '\n' then "\\n"
    else if c == '\r' then "\\r"
    else if c as int == 0x08 then "\\b"
    else if c as int == 0x0c then "\\f"
    else if (c as int) < 0x20 then "\\u00" + [HexDigit((c as int) / 16), HexDigit((c as int) % 16)]
    else [c]
  }

  function Escape(s: string): string {
    if s == [] then [] else EscapeChar(s[0]) + Escape(s[1..])
  }

  /** A string literal as `JsonPrimitive.toString()` prints it. */
  function Quote(s: string): string {
    "\"" + Escape(s) + "\""
  }

  /** `JsonElement.toString()`: the element's compact JSON text. */
  function Show(j: Json): string
    decreases j
  {
    match j
    case JNull => "null"
    case JBool(b) => if b then "true" else "false"
    case JNumber(l) => l
    case JString(s) => Quote(s)
    case JArray(items) =>
      "[" + Join(seq(|items|, i requires 0 <= i < |items| => Show(items[i])), ",") + "]"
    case JObject(ms) =>
      "{" + Join(seq(|ms|, i requires 0 <= i < |ms| => ShowMember(ms[i], j)), ",") + "}"
  }

  /** One `"key":value` pair of an object; `parent` is only there for termination. */
  function ShowMember(m: (string, Json), ghost parent: Json): string
    requires m.1 < parent
    decreases parent, 0
  {
    Quote(m.0) + ":" + Show(m.1)
  }

  /** Kotlin's `removeSurrounding("\"")`: drops one leading and one trailing quote
      when both are there and do not overlap. */
  function RemoveSurroundingQuotes(s: string): (r: string)
    ensures |s| >= 2 && s[0] == '"' && s[|s| - 1] == '"' ==> r == s[1..|s| - 1]
    ensures !(|s| >= 2 && s[0] == '"' && s[|s| - 1] == '"') ==> r == s
  {
    if |s| >= 2 && s[0] == '"' && s[|s| - 1] == '"' then s[1..|s| - 1] else s
  }

  /** The text `element.toString().removeSurrounding("\"")` gives. */
  function UnquotedText(j: Json): string {
    RemoveSurroundingQuotes(Show(j))
  }

  lemma {:induction false} EscapeIdentity(s: string)
    requires forall i :: 0 <= i < |s| ==> !NeedsEscape(s[i])
    ensures Escape(s) == s
  {
    if s != [] {
      EscapeIdentity(s[1..]);
    }
  }

  /** An escaped string contains a backslash exactly when some character needed escaping. */
  lemma {:induction false} EscapeShowsBackslash(s: string)
    ensures (exists i :: 0 <= i < |s| && NeedsEscape(s[i])) <==> '\\' in Escape(s)
  {
    if s != [] {
      EscapeShowsBackslash(s[1..]);
      assert forall i :: 1 <= i < |s| ==> s[i] == s[1..][i - 1];
      assert forall i :: 0 <= i < |s| - 1 ==> s[1..][i] == s[i + 1];
      assert Escape(s) == EscapeChar(s[0]) + Escape(s[1..]);
    }
  }

  /** For a JSON string, `toString().removeSurrounding("\"")` is its escaped text:
      the text itself when nothing needed escaping. */
  lemma UnquotedString(s: string)
    ensures UnquotedText(JString(s)) == Escape(s)
    ensures (forall i :: 0 <= i < |s| ==> !NeedsEscape(s[i])) ==> UnquotedText(JString(s)) == s
  {
    var q := Quote(s);
    assert q[0] == '"' && q[|q| - 1] == '"';
    assert q[1..|q| - 1] == Escape(s);
    if forall i :: 0 <= i < |s| ==> !NeedsEscape(s[i]) {
      EscapeIdentity(s);
    }
  }
}
