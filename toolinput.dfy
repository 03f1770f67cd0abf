/** The reading side of the `|||` tool-input protocol, shared by every tool:
    the input is split on `|||`, and a field is read BY POSITION from one
    segment by deleting every occurrence of the tag the tool expects there
    and trimming what is left. Nothing checks that the tag was present. */
module ToolInput {
  import opened Text

  const Delimiter := "|||"

  /** `tool_input.split("|||")` */
  function Segments(toolInput: string): (parts: seq<string>)
    ensures |parts| >= 1
    ensures Join(parts, Delimiter) == toolInput
  {
    JoinSplit(toolInput, Delimiter);
    Split(toolInput, Delimiter)
  }

  /** `parts[i].replace(tag, "").strip()` */
  function Field(segment: string, tag: string): (value: string)
    requires |tag| > 0
    ensures |value| <= |segment|
  {
    Strip(RemoveAll(segment, tag))
  }

  /** A segment that never mentions the tag is only trimmed. */
  lemma FieldWithoutLabel(segment: string, tag: string)
    requires |tag| > 0 && !Contains(segment, tag)
    ensures Field(segment, tag) == Strip(segment)
  {
    RemoveAllAbsent(segment, tag);
  }

  /** What a field reads as never begins or ends with whitespace. */
  lemma FieldTrimmed(segment: string, tag: string)
    requires |tag| > 0
    ensures var value := Field(segment, tag);
      |value| > 0 ==> !IsSpace(value[0]) && !IsSpace(value[|value| - 1])
  {
    StripShape(RemoveAll(segment, tag));
  }
}
