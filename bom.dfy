/** The bill-of-materials records: the tools a transformation is carried
    out with, decoded from their stored names, and the shape of a
    transformation and of a recipe. */
module Bom {
  import opened RustInts

  datatype Tool = T1 | T2 | T3 | T4 | T5 | T6 | INVALID

  /** The names under which the six real tools are stored. */
  const TOOL_NAMES: set<string> := {"T1", "T2", "T3", "T4", "T5", "T6"}

  /** The derived `Debug` text of a tool: its variant name. */
  function ToolDebugName(t: Tool): (name: string)
    ensures t != INVALID <==> name in TOOL_NAMES
  {
    match t
    case T1 => "T1"
    case T2 => "T2"
    case T3 => "T3"
    case T4 => "T4"
    case T5 => "T5"
    case T6 => "T6"
    case INVALID => "INVALID"
  }

  /** `From<String> for Tools`: an exact, case-sensitive match against the
      six tool names; any other string is `INVALID`. */
  function ToolFromString(value: string): (t: Tool)
    ensures t != INVALID <==> value in TOOL_NAMES
    ensures t != INVALID ==> |value| == 2 && value[0] == 'T' && '1' <= value[1] <= '6'
    ensures t != INVALID ==> ToolDebugName(t) == value
  {
    match value
    case "T1" => T1
    case "T2" => T2
    case "T3" => T3
    case "T4" => T4
    case "T5" => T5
    case "T6" => T6
    case _ => INVALID
  }

  /** Decoding a tool's name gives the tool back, `INVALID` included. */
  lemma ToolNameRoundTrip(t: Tool)
    ensures ToolFromString(ToolDebugName(t)) == t
  {
  }

  /** A string that decodes to a real tool is that tool's name, so two
      strings decode to the same real tool only if they are equal. */
  lemma ToolFromStringInjective(s: string, u: string)
    ensures ToolFromString(s) != INVALID ==> ToolDebugName(ToolFromString(s)) == s
    ensures ToolFromString(s) == ToolFromString(u) != INVALID ==> s == u
  {
  }

  /** Exactly six strings name a real tool. */
  lemma SixToolNames()
    ensures |TOOL_NAMES| == 6
    ensures forall s :: ToolFromString(s) != INVALID <==> s in TOOL_NAMES
  {
  }

  /** Matching is exact: a lower-case or padded name is no tool. */
  lemma ToolMatchingIsExact()
    ensures ToolFromString("t1") == INVALID
    ensures ToolFromString(" T1") == INVALID
    ensures ToolFromString("T1 ") == INVALID
    ensures ToolFromString("T7") == INVALID
  {
  }

  /** One production step: `quantity` units of `fromPiece` turned into one
      unit of `toPiece` with `tool`, at `cost` cents. */
  datatype Transformation = Transformation(
    id: i64,
    fromPiece: i64,
    toPiece: i64,
    tool: Tool,
    quantity: i32,
    cost: i64)

  /** A recipe: the transformations that lead to a piece. */
  datatype Recipe = Recipe(transformations: seq<Transformation>)
}
