# Dynamic form builder: a Dafny model of its core logic

The application lets a user compose a list of typed input fields at run time,
describes what a valid submission looks like with declarative schemas, and sends
a recipient email plus a map of inputs to a remote endpoint. This project models
three parts as immutable datatypes and pure transition functions, with
properties proved about them:

- **Field model** (`types.dfy`, module `Types`). Field kinds are `Text`, `Number`
  and `Select`, and each carries the string tag `"Text"`, `"Number"` or `"Select"`.
  A field record has a plain-string `value` for every kind. Its `options` and
  `placeholder` are optional, and nothing ties `options` to the Select kind.
  `FormData` is a map from strings to strings. The `label` attribute of `FormField` is
  called `caption` here, because `label` is a reserved word in Dafny.
- **Field-collection editor** (`form_builder.dfy`, module `FormBuilder`). Its state
  is:
  - a draft field, which is a partial record;
  - the pending options list;
  - the option being typed;
  - the ordered field list.

  The transitions are adding a field, adding an option, changing the type, and
  editing the draft's text inputs. `Run` folds a sequence of user actions. The
  option input and its "Add" button are shown only for a Select draft, so those
  two actions do nothing for any other kind. The select value is built with
  `Strings.Join`. It is checked against an independent `Strings.Split` that
  follows JavaScript's split semantics.
- **Validator** (`validations.dfy`, module `Validations`). The field schema and the
  form schema become predicates over a small JavaScript value type `Js`. The email
  syntax check is a parameter `isEmail`. A separate function lists every
  constraint a value breaks, and lemmas prove that it agrees with the predicates.
  The main result is this: the schema admits only the lowercase tags `"text"`,
  `"email"`, `"number"` and `"select"`, so no field record passes it. A form built
  from field records therefore validates only when it has no fields at all.
- **Submitter** (`form.dfy`, module `Form`). It holds a recipient email, a map of
  named inputs, a busy flag and an error message. The submit handler is split at
  its one suspension point:
  - `BeginSubmit` sets the busy flag, clears the error and issues the send;
  - `Settle` takes a `Delivered` or `Failed` outcome and finishes the submission.

  A `Session` trace adds two gates in front of the handler:
  - the button is disabled while the busy flag is set;
  - the browser refuses to submit an empty email or one it does not take for an
    address, because the email input is `required` and of type `email`. That
    judgement is the parameter `acceptsEmail`.

  It proves that at most one send is ever in flight and that every send goes to
  an email the browser accepted. The handler itself does not check the flag.

`wrappers.dfy` defines the `Option` type used for absent attributes and the
nullable error.

## Model

| member | source | states |
|---|---|---|
| Types.TagRoundTrip | src/services/types.ts:5-9 | there are exactly three tags, "Text", "Number" and "Select"; they are pairwise distinct, and parsing a tag gives back its kind |
| FormBuilder.InitialDraft | src/components/FormBuilder/index.tsx:15-20 | the draft starts as type Text with caption, placeholder and value all "", so it cannot yet be added |
| FormBuilder.Init | src/components/FormBuilder/index.tsx:15-25 | the editor starts over the given field list with the initial draft, no pending options and an empty option input |
| FormBuilder.AddField | src/components/FormBuilder/index.tsx:28-54 | with the caption or placeholder empty or absent, nothing changes at all; otherwise exactly one field is appended after the unchanged earlier fields. The new field gets the given id, the draft's type, caption and placeholder, and no options. Its value is the options joined with "," for a Select (even with zero options) and "" otherwise. The draft, the options and the option input are then reset |
| FormBuilder.AddOption | src/components/FormBuilder/index.tsx:73-78 | the options change if and only if the pending option is non-empty and not yet listed; in that case it is appended and the input is cleared, and otherwise the state is unchanged |
| FormBuilder.ChangeType | src/components/FormBuilder/index.tsx:57-65 | only the draft's type changes; choosing a non-Select kind empties the options, and choosing Select keeps them |
| FormBuilder.ChangeCaption | src/components/FormBuilder/index.tsx:103-105 | typing a caption sets the draft's caption and nothing else |
| FormBuilder.ChangePlaceholder | src/components/FormBuilder/index.tsx:115-117 | typing a placeholder sets the draft's placeholder and nothing else |
| FormBuilder.ChangeOption | src/components/FormBuilder/index.tsx:68-70 | typing an option sets the pending option text and nothing else |
| FormBuilder.StepKeepsOptions | src/components/FormBuilder/index.tsx:57-78 | no user action puts an empty string or a duplicate into the pending options |
| FormBuilder.RunKeepsOptions | src/components/FormBuilder/index.tsx:73-78 | the pending options contain no empty string and no duplicate after any sequence of actions |
| FormBuilder.RunAppendsOnly | src/components/FormBuilder/index.tsx:33-40 | across any sequence of actions, existing fields stay unchanged and in order. Every field added has a caption, a non-empty placeholder and no options, and its value is "" unless it is a Select |
| FormBuilder.StepKeepsOptionsForSelect | src/components/FormBuilder/index.tsx:57-78 | no action leaves pending options behind a non-Select draft: leaving Select clears them, adding a field resets them, and options can be added only while the option input is shown |
| FormBuilder.RunKeepsOptionsForSelect | src/components/FormBuilder/index.tsx:137-169 | after any sequence of actions, pending options exist only while the draft is a Select |
| FormBuilder.ReachableOptions | src/components/FormBuilder/index.tsx:23-78 | in every state reachable from the initial editor, pending options exist only for a Select draft and contain no empty string and no duplicate |
| FormBuilder.SelectValueEmpty | src/components/FormBuilder/index.tsx:36 | a Select with zero options is still added; while the options are well formed, its value is "" exactly when there are no options |
| FormBuilder.SelectValueRecoversOptions | src/components/FormBuilder/index.tsx:36 | splitting a new Select's value on "," gives back its options, provided there is at least one option and none contains a comma |
| FormBuilder.CommaOptionsAmbiguous | src/components/FormBuilder/index.tsx:73-78 | options may contain commas, so the Select value is ambiguous: the single option "a,b" gives the same value as the two options "a" and "b" |
| Strings.Split | src/components/FormBuilder/index.tsx:36 | the reference splitter returns at least one piece, and exactly one piece when the separator does not occur |
| Strings.SplitJoin | src/components/FormBuilder/index.tsx:36 | joining a non-empty list of separator-free strings can be undone by splitting |
| Strings.JoinEmpty | src/components/FormBuilder/index.tsx:36 | a join is "" exactly when the list is empty or is the single string "" |
| Validations.FieldViolationsAgree | src/services/validations.ts:8-20 | a field passes the schema exactly when none of its constraints fails. The constraints are: an object; a string id, which may be empty; a type among the four lowercase tags; a label and a placeholder of at least one character; and an optional value |
| Validations.ValueExamples | src/services/validations.ts:3-19 | a value may be absent, a non-empty string, a number of at least 1, or a list of one or more strings. The empty string, 0.5, 0, the empty list, a list of numbers, null and booleans are all rejected |
| Validations.FormIssuesAgree | src/services/validations.ts:23-26 | a form is valid exactly when it has no issue: the email passes the email check and every field is valid; an empty field list is fine |
| Validations.NoShortCircuit | src/services/validations.ts:23-26 | an invalid field is reported by its index even when the email is also invalid, and the email failure is reported alongside it |
| Validations.TagsNotAdmitted | src/services/validations.ts:10 | none of the three field-kind tags is among the schema's lowercase type tags |
| Validations.EveryFieldRejected | src/services/validations.ts:10 | every field record, whatever its other attributes, fails the field schema on its type |
| Validations.TagIsTheObstacle | src/services/validations.ts:8-20 | if a record's tag were replaced by an admitted one, it would pass exactly when its caption is non-empty, its placeholder is present and non-empty, and its value is non-empty |
| Validations.FormValidOnlyWhenEmpty | src/services/validations.ts:23-26 | a form built from field records is valid exactly when the email passes and the field list is empty |
| Form.Initial | src/components/Form/index.tsx:9-12 | the email starts empty and the inputs are exactly "name" and "message", both ""; the form is not sending and has no error |
| Form.InputChange | src/components/Form/index.tsx:28-33 | editing an input sets that key to the new value; every other key keeps its value and no key is lost |
| Form.EmailChange | src/components/Form/index.tsx:53 | editing the email sets it and changes nothing else |
| Form.BeginSubmit | src/components/Form/index.tsx:14-19 | submitting sets the busy flag and clears the error; the send gets the current email and input map unchanged |
| Form.Settle | src/components/Form/index.tsx:18-25 | after the send resolves, the form is never busy. On failure the error is the single fixed message; on success the error is left as it was. Inputs are untouched |
| Form.SubmitAtomically | src/components/Form/index.tsx:14-26 | after a whole submission, the form is not busy and has an error exactly when the send failed |
| Form.HandlerDoesNotCheckBusy | src/components/Form/index.tsx:14-17 | called while busy, the handler still issues a second, identical send |
| Form.AtMostOneInFlight | src/components/Form/index.tsx:93-99 | with the button disabled while busy, any sequence of events keeps busy meaning exactly one pending send. At most one send is pending and no error shows while busy. Earlier sends are kept |
| Form.SentEmailsAllowed | src/components/Form/index.tsx:49-57 | across any sequence of events, every send issued goes to a non-empty email that the browser accepts |
| Form.ReachableAtMostOneInFlight | src/components/Form/index.tsx:93-99 | from the initial page, every reachable state has at most one send in flight and is busy exactly when one is pending; every send went to a non-empty email the browser accepts |

## Left out

- Rendering, styling, the modal's visibility flag, `alert` and `console` calls are UI side effects with no logic to state.
- The random id generated in `handleAddField` is an ordinary parameter of `AddField`. Ids are not assumed unique, because the code does not make them unique.
- The network call in src/services/formService.ts appears only as the `Delivered`/`Failed` outcome passed to `Settle`. The model does not cover the HTTP request or the rethrown error.
- src/App.tsx is an earlier, superseded copy of the submitter and is not modelled. It differs from the modelled one in these ways:
  - its input map starts as `{}` (App.tsx:8);
  - its busy flag is set on submit and never reset (App.tsx:21);
  - it removes the submit button once busy (App.tsx:92-99);
  - it starts `axios.post` without awaiting it, so its try/catch never sees a failed send (App.tsx:22-35).
- The browser's notion of a valid email address for a `type="email"` input is the parameter `acceptsEmail` of the session. Only its `required` part, the refusal of "", is spelled out.
- The email grammar of the schema library is the parameter `isEmail`. The library's issue messages, issue paths and union error reporting are replaced by the abstract `Violation`/`Issue` sets.
- JavaScript numbers are modelled as reals, so NaN and the infinities are not modelled. String lengths count characters, not UTF-16 code units.
- Asynchronous scheduling is reduced to two steps, `BeginSubmit` and `Settle`. The session trace lets typing happen between them, and sends resolve in the order they were issued.
- The draft's `type` is always present. The draft is a partial record, so `type` could in principle be absent, but every update the editor makes sets it.
- The code does not implement removing a field, updating a field's value, flattening the field list into a label-to-value map, or decoding error paths, so the model does not include them either.
- The code does not require a Select to have at least one option before it is added, so the model has no such guard. `FormBuilder.SelectValueEmpty` shows that such a field is added with the value "".
