/**
 * The element message that the echoprint element posts on the bus once it has
 * computed a code: an element message whose structure is named "echoprint" and
 * holds one string field, "code".
 */
module EchoprintMessage {
  import opened Wrappers

  /** A named string field of a message structure. */
  datatype Field = Field(name: string, value: string)

  /** A message structure: a name and its fields, in insertion order. */
  datatype Structure = Structure(name: string, fields: seq<Field>)

  /** An element message carrying a structure. */
  datatype Message = ElementMessage(structure: Structure)

  const StructureName: string := "echoprint"
  const CodeFieldName: string := "code"

  /**
   * The value of the first field called `name`, as a reader of the bus would
   * look it up, or None when the structure has no such field.
   */
  function FieldValue(fields: seq<Field>, name: string): (r: Option<string>)
    ensures r.None? <==> forall i :: 0 <= i < |fields| ==> fields[i].name != name
    ensures r.Some? ==> exists i :: 0 <= i < |fields| && fields[i] == Field(name, r.value)
  {
    if fields == [] then None
    else if fields[0].name == name then Some(fields[0].value)
    else
      var r := FieldValue(fields[1..], name);
      assert forall i :: 1 <= i < |fields| ==> fields[i] == fields[1..][i - 1];
      r
  }

  /** The code a message carries, if any. */
  function CodeOf(m: Message): Option<string>
  {
    if m.structure.name == StructureName then FieldValue(m.structure.fields, CodeFieldName) else None
  }

  /**
   * The message posted for a computed code: a structure named "echoprint"
   * whose only field is "code", holding exactly that code.
   */
  function MessageNew(code: string): (m: Message)
    ensures m.structure.name == StructureName
    ensures |m.structure.fields| == 1 && m.structure.fields[0].name == CodeFieldName
    ensures CodeOf(m) == Some(code)
  {
    ElementMessage(Structure(StructureName, [Field(CodeFieldName, code)]))
  }
}
