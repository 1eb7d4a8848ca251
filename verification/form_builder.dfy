/** The field-collection editor: a draft field being composed in a modal, a
    pending list of options for a Select draft, the option currently being
    typed, and the ordered list of finished fields. Each user action is a
    pure transition from one editor state to the next. */
module FormBuilder {
  import opened Wrappers
  import opened Types
  import Strings

  /** The separator `handleAddField` joins a Select draft's options with. */
  const OptionSeparator: char := ','

  /** The draft is a `Partial<FormField>`: caption, placeholder and value may
      be absent. Every update the editor makes sets the type, so it is kept
      total here. */
  datatype Draft = Draft(
    fieldType: FieldType,
    caption: Option<string>,
    placeholder: Option<string>,
    value: Option<string>)

  /** The editor's state: the field list it extends, the draft, the pending
      options and the pending option text. */
  datatype Builder = Builder(
    fields: seq<FormField>,
    draft: Draft,
    options: seq<string>,
    newOption: string)

  /** A `string | undefined` in a JavaScript condition: true when present
      and non-empty. */
  predicate Truthy(s: Option<string>) {
    s.Some? && s.value != ""
  }

  /** The draft the editor starts with and returns to after each addition. */
  function InitialDraft(): (d: Draft)
    ensures d.fieldType == Text
    ensures d.caption == Some("") && d.placeholder == Some("") && d.value == Some("")
    ensures !Truthy(d.caption) && !Truthy(d.placeholder)
  {
    Draft(Text, Some(""), Some(""), Some(""))
  }

  /** The editor as it first appears over the field list it is given. */
  function Init(fields: seq<FormField>): (b: Builder)
    ensures b.fields == fields
    ensures b.draft == InitialDraft() && b.options == [] && b.newOption == ""
  {
    Builder(fields, InitialDraft(), [], "")
  }

  /** Whether "Add Field" does anything: the draft needs a caption and a
      placeholder. There is no check on the options of a Select draft. */
  predicate CanAddField(d: Draft) {
    Truthy(d.caption) && Truthy(d.placeholder)
  }

  /** The value a new field starts with: the pending options joined with
      "," for a Select, otherwise the empty string. */
  function InitialValue(t: FieldType, options: seq<string>): string {
    if t == Select then Strings.Join(options, OptionSeparator) else ""
  }

  /** "Add Field". When the draft lacks a caption or placeholder nothing
      changes. Otherwise exactly one field is appended after the untouched
      existing ones; it takes its type, caption and placeholder from the
      draft, the given `id`, and no `options` attribute; and the draft,
      the pending options and the pending option text are all reset. */
  function AddField(b: Builder, id: string): (b': Builder)
    ensures !CanAddField(b.draft) ==> b' == b
    ensures CanAddField(b.draft) ==>
      && |b'.fields| == |b.fields| + 1
      && b'.fields[..|b.fields|] == b.fields
      && b'.fields[|b.fields|].id == id
      && b'.fields[|b.fields|].fieldType == b.draft.fieldType
      && Some(b'.fields[|b.fields|].caption) == b.draft.caption
      && b'.fields[|b.fields|].placeholder == b.draft.placeholder
      && b'.fields[|b.fields|].options == None
      && (b.draft.fieldType != Select ==> b'.fields[|b.fields|].value == "")
      && (b.draft.fieldType == Select ==>
            b'.fields[|b.fields|].value == Strings.Join(b.options, OptionSeparator))
    ensures CanAddField(b.draft) ==>
      b'.draft == InitialDraft() && b'.options == [] && b'.newOption == ""
  {
    if !CanAddField(b.draft) then b
    else
      var d := b.draft;
      var field := FormField(id, d.fieldType, d.caption.value,
                             InitialValue(d.fieldType, b.options), None, d.placeholder);
      Init(b.fields + [field])
  }

  /** "Add" on the option input: the pending option joins the end of the
      list when it is non-empty and not already there, and the input is
      cleared; otherwise nothing changes. */
  function AddOption(b: Builder): (b': Builder)
    ensures b'.fields == b.fields && b'.draft == b.draft
    ensures b'.options != b.options <==> b.newOption != "" && b.newOption !in b.options
    ensures b'.options != b.options ==>
      b'.options == b.options + [b.newOption] && b'.newOption == ""
    ensures b'.options == b.options ==> b' == b
  {
    if b.newOption != "" && b.newOption !in b.options then
      b.(options := b.options + [b.newOption], newOption := "")
    else b
  }

  /** The type selector. Only the draft's type changes; switching to any
      kind but Select also discards the pending options. */
  function ChangeType(b: Builder, t: FieldType): (b': Builder)
    ensures b'.draft == b.draft.(fieldType := t)
    ensures b'.fields == b.fields && b'.newOption == b.newOption
    ensures t == Select ==> b'.options == b.options
    ensures t != Select ==> b'.options == []
  {
    var b1 := b.(draft := b.draft.(fieldType := t));
    if t != Select then b1.(options := []) else b1
  }

  /** Typing into the caption input. */
  function ChangeCaption(b: Builder, s: string): (b': Builder)
    ensures b'.draft.caption == Some(s)
    ensures b' == b.(draft := b'.draft) && b'.draft == b.draft.(caption := Some(s))
  {
    b.(draft := b.draft.(caption := Some(s)))
  }

  /** Typing into the placeholder input. */
  function ChangePlaceholder(b: Builder, s: string): (b': Builder)
    ensures b'.draft.placeholder == Some(s)
    ensures b' == b.(draft := b'.draft) && b'.draft == b.draft.(placeholder := Some(s))
  {
    b.(draft := b.draft.(placeholder := Some(s)))
  }

  /** Typing into the option input. */
  function ChangeOption(b: Builder, s: string): (b': Builder)
    ensures b'.newOption == s
    ensures b' == b.(newOption := s)
  {
    b.(newOption := s)
  }

  /** What the user can do in the modal. */
  datatype Action =
    | EditCaption(text: string)
    | EditPlaceholder(text: string)
    | PickType(kind: FieldType)
    | EditOption(text: string)
    | ClickAddOption
    | ClickAddField(newId: string)

  /** One action. The option input and its "Add" button are only shown
      while the draft is a Select, so for any other kind they do nothing. */
  function Step(b: Builder, a: Action): Builder {
    match a
    case EditCaption(s) => ChangeCaption(b, s)
    case EditPlaceholder(s) => ChangePlaceholder(b, s)
    case PickType(t) => ChangeType(b, t)
    case EditOption(s) => if b.draft.fieldType == Select then ChangeOption(b, s) else b
    case ClickAddOption => if b.draft.fieldType == Select then AddOption(b) else b
    case ClickAddField(id) => AddField(b, id)
  }

  /** The state after performing `actions` in order. */
  function Run(b: Builder, actions: seq<Action>): Builder
    decreases |actions|
  {
    if |actions| == 0 then b else Run(Step(b, actions[0]), actions[1..])
  }

  /** The pending options hold no empty string and no repeats. */
  predicate OptionsWellFormed(options: seq<string>) {
    && (forall i :: 0 <= i < |options| ==> options[i] != "")
    && (forall i, j :: 0 <= i < j < |options| ==> options[i] != options[j])
  }

  /** Every action keeps the pending options well formed. */
  lemma StepKeepsOptions(b: Builder, a: Action)
    requires OptionsWellFormed(b.options)
    ensures OptionsWellFormed(Step(b, a).options)
  {
  }

  /** Any sequence of actions keeps the pending options well formed. */
  lemma {:induction false} RunKeepsOptions(b: Builder, actions: seq<Action>)
    requires OptionsWellFormed(b.options)
    ensures OptionsWellFormed(Run(b, actions).options)
    decreases |actions|
  {
    if |actions| > 0 {
      StepKeepsOptions(b, actions[0]);
      RunKeepsOptions(Step(b, actions[0]), actions[1..]);
    }
  }

  /** Pending options exist only for a Select draft. */
  predicate OptionsOnlyForSelect(b: Builder) {
    b.options != [] ==> b.draft.fieldType == Select
  }

  /** Every action keeps pending options tied to a Select draft: leaving
      Select discards them, adding a field resets them, and they can only
      be added while the draft is a Select. */
  lemma StepKeepsOptionsForSelect(b: Builder, a: Action)
    requires OptionsOnlyForSelect(b)
    ensures OptionsOnlyForSelect(Step(b, a))
  {
  }

  /** Any sequence of actions keeps pending options tied to a Select draft. */
  lemma {:induction false} RunKeepsOptionsForSelect(b: Builder, actions: seq<Action>)
    requires OptionsOnlyForSelect(b)
    ensures OptionsOnlyForSelect(Run(b, actions))
    decreases |actions|
  {
    if |actions| > 0 {
      StepKeepsOptionsForSelect(b, actions[0]);
      RunKeepsOptionsForSelect(Step(b, actions[0]), actions[1..]);
    }
  }

  /** From the editor's initial state, every reachable state has pending
      options only while the draft is a Select, and those options hold no
      empty string and no repeats. */
  lemma ReachableOptions(fields: seq<FormField>, actions: seq<Action>)
    ensures OptionsOnlyForSelect(Run(Init(fields), actions))
    ensures OptionsWellFormed(Run(Init(fields), actions).options)
  {
    RunKeepsOptionsForSelect(Init(fields), actions);
    RunKeepsOptions(Init(fields), actions);
  }

  /** What holds of every field the editor itself creates: a caption, a
      present non-empty placeholder, no `options`, and an empty value
      unless it is a Select. */
  predicate EditorMade(f: FormField) {
    && f.caption != ""
    && Truthy(f.placeholder)
    && f.options == None
    && (f.fieldType != Select ==> f.value == "")
  }

  /** Fields only ever grow at the end: the fields present before a run are
      still there, unchanged and in order, and every field appended during
      the run is one the editor made. */
  lemma {:induction false} RunAppendsOnly(b: Builder, actions: seq<Action>)
    ensures |b.fields| <= |Run(b, actions).fields|
    ensures Run(b, actions).fields[..|b.fields|] == b.fields
    ensures forall i :: |b.fields| <= i < |Run(b, actions).fields| ==>
              EditorMade(Run(b, actions).fields[i])
    decreases |actions|
  {
    if |actions| > 0 {
      var b1 := Step(b, actions[0]);
      assert |b.fields| <= |b1.fields| && b1.fields[..|b.fields|] == b.fields;
      assert forall i :: |b.fields| <= i < |b1.fields| ==> EditorMade(b1.fields[i]);
      RunAppendsOnly(b1, actions[1..]);
      var r := Run(b1, actions[1..]);
      assert r == Run(b, actions);
      assert r.fields[..|b1.fields|] == b1.fields;
      assert r.fields[..|b.fields|] == r.fields[..|b1.fields|][..|b.fields|];
      forall i | |b.fields| <= i < |r.fields| ensures EditorMade(r.fields[i]) {
        if i < |b1.fields| {
          assert r.fields[i] == r.fields[..|b1.fields|][i];
        }
      }
    }
  }

  /** A Select added with no options is still added, with value "". While
      the pending options are well formed this is the only way a Select
      gets an empty value. */
  lemma SelectValueEmpty(b: Builder, id: string)
    requires OptionsWellFormed(b.options)
    requires CanAddField(b.draft) && b.draft.fieldType == Select
    ensures |AddField(b, id).fields| == |b.fields| + 1
    ensures AddField(b, id).fields[|b.fields|].value == "" <==> b.options == []
  {
    Strings.JoinEmpty(b.options, OptionSeparator);
    if b.options == [""] {
      assert b.options[0] == "";
    }
  }

  /** When no option contains a comma and there is at least one, the
      options a Select field was built from can be read back off its value. */
  lemma SelectValueRecoversOptions(b: Builder, id: string)
    requires CanAddField(b.draft) && b.draft.fieldType == Select
    requires |b.options| >= 1 && Strings.FreeOf(b.options, OptionSeparator)
    ensures Strings.Split(AddField(b, id).fields[|b.fields|].value, OptionSeparator) == b.options
  {
    Strings.SplitJoin(b.options, OptionSeparator);
  }

  /** The round trip needs comma-free options, and the editor does not
      ensure that: one option "a,b" gives the same Select value as the two
      options "a" and "b". */
  lemma CommaOptionsAmbiguous()
    ensures Strings.Join(["a,b"], OptionSeparator) == Strings.Join(["a", "b"], OptionSeparator)
    ensures ["a,b"] != ["a", "b"]
  {
    assert ["a,b"][0] != ["a", "b"][0];
  }
}
