/** The declarative validator: a per-field schema and a form schema, read as
    predicates over arbitrary JavaScript values, together with an
    independent account of which constraints a value breaks. The email
    syntax check is a parameter; its exact grammar is the schema library's. */
module Validations {
  import Types

  /** A JavaScript value, as far as the schemas can tell values apart. */
  datatype Js =
    | JsUndefined
    | JsNull
    | JsBool(b: bool)
    | JsNumber(n: real)
    | JsString(s: string)
    | JsArray(items: seq<Js>)
    | JsObject(props: map<string, Js>)

  /** Property access: a missing key reads as `undefined`. */
  function Get(v: Js, key: string): Js
    requires v.JsObject?
  {
    if key in v.props then v.props[key] else JsUndefined
  }

  /** The type tags the field schema admits, all lower case. */
  const TypeTags: set<string> := {"text", "email", "number", "select"}

  /** A string with at least one character. */
  predicate NonEmptyString(v: Js) {
    v.JsString? && |v.s| >= 1
  }

  /** A number no smaller than 1. */
  predicate NumberAtLeastOne(v: Js) {
    v.JsNumber? && v.n >= 1.0
  }

  /** The select-value schema: an array of strings with at least one
      element (the strings themselves may be empty). */
  predicate SelectValueValid(v: Js) {
    v.JsArray? && |v.items| >= 1
    && forall i :: 0 <= i < |v.items| ==> v.items[i].JsString?
  }

  /** A field's value is optional; when present it must be one of the three
      union members. */
  predicate ValueValid(v: Js) {
    v.JsUndefined? || NonEmptyString(v) || NumberAtLeastOne(v) || SelectValueValid(v)
  }

  /** The field schema. Unknown keys, `options` among them, are not looked
      at, and the id may be any string, even the empty one. */
  predicate FieldValid(v: Js) {
    && v.JsObject?
    && Get(v, "id").JsString?
    && Get(v, "type").JsString? && Get(v, "type").s in TypeTags
    && NonEmptyString(Get(v, "label"))
    && NonEmptyString(Get(v, "placeholder"))
    && ValueValid(Get(v, "value"))
  }

  /** The form schema: an email that passes the email check and an array of
      valid fields. An empty array of fields is valid. */
  predicate FormValid(v: Js, isEmail: string -> bool) {
    && v.JsObject?
    && Get(v, "email").JsString? && isEmail(Get(v, "email").s)
    && Get(v, "fields").JsArray?
    && forall i :: 0 <= i < |Get(v, "fields").items| ==> FieldValid(Get(v, "fields").items[i])
  }

  /** Which part of a field a failure is attached to. */
  datatype Violation =
    | NotAnObject
    | BadId
    | BadType
    | BadLabel
    | BadPlaceholder
    | BadValue

  /** Every constraint of the field schema that `v` breaks, each attribute
      checked on its own. */
  function FieldViolations(v: Js): set<Violation> {
    if !v.JsObject? then {NotAnObject}
    else
      var id := Get(v, "id");
      var ty := Get(v, "type");
      (if id.JsString? then {} else {BadId})
      + (if ty.JsString? && ty.s in TypeTags then {} else {BadType})
      + (if NonEmptyString(Get(v, "label")) then {} else {BadLabel})
      + (if NonEmptyString(Get(v, "placeholder")) then {} else {BadPlaceholder})
      + (if ValueValid(Get(v, "value")) then {} else {BadValue})
  }

  /** A form-level failure: the email slot, a malformed form, or a field
      failure addressed by the field's index. */
  datatype Issue =
    | FormNotAnObject
    | EmailInvalid
    | FieldsNotArray
    | FieldIssue(index: nat, violation: Violation)

  /** Every failure of the form schema, across the email and all fields,
      with no short-circuit. */
  function FormIssues(v: Js, isEmail: string -> bool): set<Issue> {
    if !v.JsObject? then {FormNotAnObject}
    else
      var email := Get(v, "email");
      var fields := Get(v, "fields");
      (if email.JsString? && isEmail(email.s) then {} else {EmailInvalid})
      + (if !fields.JsArray? then {FieldsNotArray}
         else set i, c | 0 <= i < |fields.items| && c in FieldViolations(fields.items[i])
                :: FieldIssue(i, c))
  }

  /** A field is valid exactly when it breaks no constraint. */
  lemma FieldViolationsAgree(v: Js)
    ensures FieldValid(v) <==> FieldViolations(v) == {}
  {
    if v.JsObject? && !FieldValid(v) {
      if !Get(v, "id").JsString? {
        assert BadId in FieldViolations(v);
      } else if !(Get(v, "type").JsString? && Get(v, "type").s in TypeTags) {
        assert BadType in FieldViolations(v);
      } else if !NonEmptyString(Get(v, "label")) {
        assert BadLabel in FieldViolations(v);
      } else if !NonEmptyString(Get(v, "placeholder")) {
        assert BadPlaceholder in FieldViolations(v);
      } else {
        assert BadValue in FieldViolations(v);
      }
    }
  }

  /** A form is valid exactly when it has no issue at all. */
  lemma FormIssuesAgree(v: Js, isEmail: string -> bool)
    ensures FormValid(v, isEmail) <==> FormIssues(v, isEmail) == {}
  {
    if v.JsObject? && Get(v, "fields").JsArray? {
      var items := Get(v, "fields").items;
      if FormValid(v, isEmail) {
        forall i, c | 0 <= i < |items| && c in FieldViolations(items[i])
          ensures false
        {
          FieldViolationsAgree(items[i]);
        }
      } else if Get(v, "email").JsString? && isEmail(Get(v, "email").s) {
        var i :| 0 <= i < |items| && !FieldValid(items[i]);
        FieldViolationsAgree(items[i]);
        var c :| c in FieldViolations(items[i]);
        assert FieldIssue(i, c) in FormIssues(v, isEmail);
      }
    }
  }

  /** Validation is eager: a bad email does not hide field failures, and a
      bad field does not hide the email failure. */
  lemma NoShortCircuit(v: Js, isEmail: string -> bool, i: nat)
    requires v.JsObject? && Get(v, "fields").JsArray?
    requires i < |Get(v, "fields").items|
    requires !FieldValid(Get(v, "fields").items[i])
    ensures !(Get(v, "email").JsString? && isEmail(Get(v, "email").s)) ==>
              EmailInvalid in FormIssues(v, isEmail)
    ensures exists c :: FieldIssue(i, c) in FormIssues(v, isEmail)
  {
    var item := Get(v, "fields").items[i];
    FieldViolationsAgree(item);
    var c :| c in FieldViolations(item);
    assert FieldIssue(i, c) in FormIssues(v, isEmail);
  }

  /** The value schema's verdict on typical values: the number rule is
      "at least 1", not "is numeric", and a list is accepted as soon as it
      holds one string, even an empty one. */
  lemma ValueExamples()
    ensures ValueValid(JsUndefined)
    ensures ValueValid(JsString("a")) && !ValueValid(JsString(""))
    ensures ValueValid(JsNumber(1.0)) && !ValueValid(JsNumber(0.5)) && !ValueValid(JsNumber(0.0))
    ensures ValueValid(JsArray([JsString("")])) && !ValueValid(JsArray([]))
    ensures !ValueValid(JsArray([JsNumber(2.0)]))
    ensures !ValueValid(JsNull) && !ValueValid(JsBool(true))
  {
    assert JsArray([JsNumber(2.0)]).items[0] == JsNumber(2.0);
  }

  /** A field record as the JavaScript object it is at run time: absent
      optional attributes are missing keys, and the type is its string tag. */
  function EncodeField(f: Types.FormField): Js {
    var base := map[
      "id" := JsString(f.id),
      "type" := JsString(Types.Tag(f.fieldType)),
      "label" := JsString(f.caption),
      "value" := JsString(f.value)];
    var withOptions :=
      if f.options.Some? then base["options" := JsArray(EncodeStrings(f.options.value))]
      else base;
    JsObject(
      if f.placeholder.Some? then withOptions["placeholder" := JsString(f.placeholder.value)]
      else withOptions)
  }

  function EncodeStrings(xs: seq<string>): (r: seq<Js>)
    ensures |r| == |xs|
    ensures forall i :: 0 <= i < |xs| ==> r[i] == JsString(xs[i])
  {
    seq(|xs|, i requires 0 <= i < |xs| => JsString(xs[i]))
  }

  /** The same object with its type tag replaced. */
  function Retag(v: Js, tag: string): Js
    requires v.JsObject?
  {
    JsObject(v.props["type" := JsString(tag)])
  }

  /** None of the three field-kind tags is one the schema admits. */
  lemma TagsNotAdmitted(t: Types.FieldType)
    ensures Types.Tag(t) !in TypeTags
  {
    var tag := Types.Tag(t);
    assert tag[0] != "text"[0] && tag[0] != "email"[0];
    assert tag[0] != "number"[0] && tag[0] != "select"[0];
  }

  /** No field record passes the field schema: its type tag is capitalised
      and the schema's tags are not, whatever the other attributes hold. */
  lemma EveryFieldRejected(f: Types.FormField)
    ensures BadType in FieldViolations(EncodeField(f))
    ensures !FieldValid(EncodeField(f))
  {
    TagsNotAdmitted(f.fieldType);
    FieldViolationsAgree(EncodeField(f));
  }

  /** With an admitted tag in its place, the type would be the only
      obstacle: the record would then pass exactly when it has a caption, a
      present non-empty placeholder and a non-empty value. */
  lemma TagIsTheObstacle(f: Types.FormField, tag: string)
    requires tag in TypeTags
    ensures FieldValid(Retag(EncodeField(f), tag)) <==>
      f.caption != "" && f.placeholder.Some? && f.placeholder.value != "" && f.value != ""
  {
    var v := Retag(EncodeField(f), tag);
    assert Get(v, "value") == JsString(f.value);
    assert Get(v, "label") == JsString(f.caption);
    assert Get(v, "id") == JsString(f.id);
    if f.placeholder.Some? {
      assert Get(v, "placeholder") == JsString(f.placeholder.value);
    } else {
      assert Get(v, "placeholder") == JsUndefined;
    }
  }

  /** A recipient and a list of field records, as one object. */
  function EncodeForm(email: string, fields: seq<Types.FormField>): Js {
    JsObject(map[
      "email" := JsString(email),
      "fields" := JsArray(seq(|fields|, i requires 0 <= i < |fields| => EncodeField(fields[i])))])
  }

  /** Consequently a form built from field records validates exactly when
      its email passes and it has no fields at all. */
  lemma FormValidOnlyWhenEmpty(email: string, fields: seq<Types.FormField>, isEmail: string -> bool)
    ensures FormValid(EncodeForm(email, fields), isEmail) <==> isEmail(email) && fields == []
  {
    var v := EncodeForm(email, fields);
    if |fields| > 0 {
      assert Get(v, "fields").items[0] == EncodeField(fields[0]);
      EveryFieldRejected(fields[0]);
    }
  }
}
