/** The record types every component shares: the three field kinds, one
    user-defined field, and the flat string-to-string payload map. */
module Types {
  import opened Wrappers

  /** The kind of a field. The `FieldType` enum gives each kind a string
      tag (see `Tag`), and that tag is what a field carries at run time. */
  datatype FieldType = Text | Number | Select

  /** The run-time string value of each enum member. */
  function Tag(t: FieldType): string {
    match t
    case Text => "Text"
    case Number => "Number"
    case Select => "Select"
  }

  /** Reads a tag back. The type selector only offers the three tags, and
      its `value as FieldType` cast passes any string through unchecked;
      mapping every other string to `None` is this model's own choice. */
  function ParseTag(s: string): Option<FieldType> {
    if s == "Text" then Some(Text)
    else if s == "Number" then Some(Number)
    else if s == "Select" then Some(Select)
    else None
  }

  /** Exactly three tags exist, they are distinct, and parsing inverts them. */
  lemma TagRoundTrip(t: FieldType, s: string)
    ensures ParseTag(Tag(t)) == Some(t)
    ensures ParseTag(s) == Some(t) <==> s == Tag(t)
    ensures ParseTag(s).Some? <==> s == "Text" || s == "Number" || s == "Select"
  {
  }

  /** One field of the form. `value` is a plain string for every kind,
      Select included; `options` and `placeholder` may be absent, and
      nothing ties `options` to the Select kind. */
  datatype FormField = FormField(
    id: string,
    fieldType: FieldType,
    caption: string,  // `FormField.label`; `label` is a reserved word in Dafny
    value: string,
    options: Option<seq<string>>,
    placeholder: Option<string>)

  /** The submitted payload: string keys to string values. */
  type FormData = map<string, string>
}
