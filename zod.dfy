/** The runtime shape checks the services run on request and message bodies:
    a model of JavaScript values and of `z.object({...}).safeParse` for
    objects whose fields are `z.string()`, `z.number()` or `z.enum([...])`.
    A failed parse yields its issues, each with the path of the offending
    field; `.format()` turns those into nested diagnostics, and that
    rendering is kept abstract: the issue list stands for it. */
module Zod {

  /** A JavaScript value. Numbers are modelled as integers. */
  datatype JsValue =
    | JsUndefined
    | JsNull
    | JsBoolean(b: bool)
    | JsNumber(n: int)
    | JsString(s: string)
    | JsArray(items: seq<JsValue>)
    | JsObject(props: map<string, JsValue>)

  /** The type names zod reports as "received". */
  datatype JsType = TUndefined | TNull | TBoolean | TNumber | TString | TArray | TObject

  function TypeOf(v: JsValue): JsType
  {
    match v
    case JsUndefined => TUndefined
    case JsNull => TNull
    case JsBoolean(_) => TBoolean
    case JsNumber(_) => TNumber
    case JsString(_) => TString
    case JsArray(_) => TArray
    case JsObject(_) => TObject
  }

  /** The schema of one object field. */
  datatype FieldSchema = StringField | NumberField | EnumField(options: seq<string>)

  /** The shape passed to `z.object`, fields in declaration order. */
  type Shape = seq<(string, FieldSchema)>

  datatype IssueCode =
    | InvalidType(expected: JsType, received: JsType)
    | InvalidEnumValue(options: seq<string>, receivedValue: string)

  /** One diagnostic: where it is (the field path, [] for the value itself) and what. */
  datatype Issue = Issue(path: seq<string>, code: IssueCode)

  /** What a field schema accepts. */
  predicate Accepts(f: FieldSchema, v: JsValue)
  {
    match f
    case StringField => v.JsString?
    case NumberField => v.JsNumber?
    case EnumField(options) => v.JsString? && v.s in options
  }

  /** Reading a property: a missing key reads as `undefined`. */
  function Property(props: map<string, JsValue>, key: string): JsValue
  {
    if key in props then props[key] else JsUndefined
  }

  /** The issues one field contributes: none exactly when it is accepted, at most one, at its own path. */
  function FieldIssues(key: string, f: FieldSchema, v: JsValue): (issues: seq<Issue>)
    ensures issues == [] <==> Accepts(f, v)
    ensures |issues| <= 1
    ensures forall i :: 0 <= i < |issues| ==> issues[i].path == [key]
  {
    match f
    case StringField =>
      if v.JsString? then [] else [Issue([key], InvalidType(TString, TypeOf(v)))]
    case NumberField =>
      if v.JsNumber? then [] else [Issue([key], InvalidType(TNumber, TypeOf(v)))]
    case EnumField(options) =>
      if !v.JsString? then [Issue([key], InvalidType(TString, TypeOf(v)))]
      else if v.s in options then []
      else [Issue([key], InvalidEnumValue(options, v.s))]
  }

  /** Every field of the shape that the object's properties satisfy. */
  predicate FieldsConform(shape: Shape, props: map<string, JsValue>)
  {
    forall k :: 0 <= k < |shape| ==> Accepts(shape[k].1, Property(props, shape[k].0))
  }

  /** A non-empty shape conforms exactly when its first field and the rest do. */
  lemma FieldsConformUncons(shape: Shape, props: map<string, JsValue>)
    requires shape != []
    ensures FieldsConform(shape, props) <==>
      Accepts(shape[0].1, Property(props, shape[0].0)) && FieldsConform(shape[1..], props)
  {
    if Accepts(shape[0].1, Property(props, shape[0].0)) && FieldsConform(shape[1..], props) {
      forall k | 0 <= k < |shape| ensures Accepts(shape[k].1, Property(props, shape[k].0)) {
        if k > 0 { assert shape[k] == shape[1..][k - 1]; }
      }
    }
    if FieldsConform(shape, props) {
      forall k | 0 <= k < |shape[1..]| ensures Accepts(shape[1..][k].1, Property(props, shape[1..][k].0)) {
        assert shape[1..][k] == shape[k + 1];
      }
    }
  }

  /** The issues of all fields, in declaration order: none exactly when every field conforms,
      at most one per field, each at the path of one of the shape's fields. */
  function ShapeIssues(shape: Shape, props: map<string, JsValue>): (issues: seq<Issue>)
    ensures issues == [] <==> FieldsConform(shape, props)
    ensures |issues| <= |shape|
    ensures forall i :: 0 <= i < |issues| ==> exists k :: 0 <= k < |shape| && issues[i].path == [shape[k].0]
    decreases |shape|
  {
    if shape == [] then []
    else
      var head := FieldIssues(shape[0].0, shape[0].1, Property(props, shape[0].0));
      var tail := ShapeIssues(shape[1..], props);
      FieldsConformUncons(shape, props);
      assert forall i :: 0 <= i < |tail| ==> exists k :: 0 <= k < |shape| && tail[i].path == [shape[k].0] by {
        forall i | 0 <= i < |tail| ensures exists k :: 0 <= k < |shape| && tail[i].path == [shape[k].0] {
          var k :| 0 <= k < |shape[1..]| && tail[i].path == [shape[1..][k].0];
          assert shape[1..][k] == shape[k + 1];
        }
      }
      head + tail
  }

  /** No two fields of the shape share a key. */
  predicate KeysDistinct(shape: Shape)
  {
    forall i, j :: 0 <= i < j < |shape| ==> shape[i].0 != shape[j].0
  }

  /** The issues, in order, whose path is `path`. */
  function IssuesAt(issues: seq<Issue>, path: seq<string>): (r: seq<Issue>)
    ensures |r| <= |issues|
    ensures forall i :: 0 <= i < |r| ==> r[i].path == path && r[i] in issues
  {
    if issues == [] then []
    else (if issues[0].path == path then [issues[0]] else []) + IssuesAt(issues[1..], path)
  }

  lemma {:induction false} IssuesAtAppend(a: seq<Issue>, b: seq<Issue>, path: seq<string>)
    ensures IssuesAt(a + b, path) == IssuesAt(a, path) + IssuesAt(b, path)
  {
    if a != [] {
      assert (a + b)[1..] == a[1..] + b;
      IssuesAtAppend(a[1..], b, path);
    } else {
      assert a + b == b;
    }
  }

  lemma {:induction false} IssuesAtEvery(a: seq<Issue>, path: seq<string>)
    requires forall i :: 0 <= i < |a| ==> a[i].path == path
    ensures IssuesAt(a, path) == a
  {
    if a != [] {
      IssuesAtEvery(a[1..], path);
    }
  }

  lemma IssuesAtNone(a: seq<Issue>, path: seq<string>)
    requires forall i :: 0 <= i < |a| ==> a[i].path != path
    ensures IssuesAt(a, path) == []
  {
  }

  /** The first key of a shape with distinct keys is no later field's path. */
  lemma FirstKeyNotInRest(shape: Shape, props: map<string, JsValue>)
    requires shape != [] && KeysDistinct(shape)
    ensures IssuesAt(ShapeIssues(shape[1..], props), [shape[0].0]) == []
  {
    var rest := shape[1..];
    var tail := ShapeIssues(rest, props);
    forall i | 0 <= i < |tail| ensures tail[i].path != [shape[0].0] {
      var j :| 0 <= j < |rest| && tail[i].path == [rest[j].0];
      assert rest[j] == shape[j + 1];
    }
    IssuesAtNone(tail, [shape[0].0]);
  }

  /** With distinct keys, the issues at field `k`'s path are exactly that
      field's own issues. */
  lemma {:induction false} ShapeIssuesAtField(shape: Shape, props: map<string, JsValue>, k: nat)
    requires KeysDistinct(shape) && k < |shape|
    ensures IssuesAt(ShapeIssues(shape, props), [shape[k].0]) == FieldIssues(shape[k].0, shape[k].1, Property(props, shape[k].0))
    decreases k
  {
    var rest := shape[1..];
    var head := FieldIssues(shape[0].0, shape[0].1, Property(props, shape[0].0));
    var tail := ShapeIssues(rest, props);
    assert ShapeIssues(shape, props) == head + tail;
    IssuesAtAppend(head, tail, [shape[k].0]);
    if k == 0 {
      IssuesAtEvery(head, [shape[0].0]);
      FirstKeyNotInRest(shape, props);
    } else {
      assert rest[k - 1] == shape[k];
      assert shape[0].0 != shape[k].0;
      IssuesAtNone(head, [shape[k].0]);
      ShapeIssuesAtField(rest, props, k - 1);
    }
  }

  /** With distinct keys, the issues at each field's path are exactly that
      field's own issues (so at most one per field), whatever the other fields hold. */
  lemma ShapeIssuesPerField(shape: Shape, props: map<string, JsValue>)
    requires KeysDistinct(shape)
    ensures forall k :: 0 <= k < |shape| ==>
      IssuesAt(ShapeIssues(shape, props), [shape[k].0]) == FieldIssues(shape[k].0, shape[k].1, Property(props, shape[k].0))
  {
    forall k | 0 <= k < |shape|
      ensures IssuesAt(ShapeIssues(shape, props), [shape[k].0]) == FieldIssues(shape[k].0, shape[k].1, Property(props, shape[k].0))
    {
      ShapeIssuesAtField(shape, props, k);
    }
  }

  /** The value is an object and every declared field conforms. */
  predicate Conforms(shape: Shape, v: JsValue)
  {
    v.JsObject? && FieldsConform(shape, v.props)
  }

  /** The issues `z.object(shape).safeParse(v)` reports: a non-object yields one
      issue at the root; an object yields its fields' issues. */
  function ObjectIssues(shape: Shape, v: JsValue): (issues: seq<Issue>)
    ensures issues == [] <==> Conforms(shape, v)
    ensures !v.JsObject? ==> issues == [Issue([], InvalidType(TObject, TypeOf(v)))]
  {
    if v.JsObject? then ShapeIssues(shape, v.props)
    else [Issue([], InvalidType(TObject, TypeOf(v)))]
  }

  /** A string value never satisfies an object schema, whatever its fields. */
  lemma StringNeverConforms(shape: Shape, s: string)
    ensures ObjectIssues(shape, JsString(s)) == [Issue([], InvalidType(TObject, TString))]
    ensures !Conforms(shape, JsString(s))
  {
  }
}
