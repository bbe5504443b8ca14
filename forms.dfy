/** Form state objects as the screens keep them, their change handler, and `FormData`. */
module Forms {
  import opened Wrappers
  import opened Http

  /** A form field: text from an input, or a flag from a checkbox or switch. */
  datatype FieldValue = Text(s: string) | Flag(b: bool)

  /** A form object: its entries in `Object.entries` order. */
  type Form = seq<(string, FieldValue)>

  /** The field names in order. */
  function Names(form: Form): (ns: seq<string>)
    ensures |ns| == |form|
    ensures forall i :: 0 <= i < |form| ==> ns[i] == form[i].0
  {
    seq(|form|, i requires 0 <= i < |form| => form[i].0)
  }

  /** `form[name]` of the first entry with that name. */
  function FieldOf(form: Form, name: string): (v: Option<FieldValue>)
    ensures v.None? <==> name !in Names(form)
    decreases |form|
  {
    if form == [] then None
    else if form[0].0 == name then Some(form[0].1)
    else
      assert Names(form) == [form[0].0] + Names(form[1..]);
      FieldOf(form[1..], name)
  }

  /** The entry at `i` is the one `FieldOf` finds when no earlier entry has its name. */
  lemma {:induction false} FieldOfIndex(form: Form, i: nat)
    requires i < |form|
    requires forall j :: 0 <= j < i ==> form[j].0 != form[i].0
    ensures FieldOf(form, form[i].0) == Some(form[i].1)
    decreases i
  {
    if i > 0 {
      assert form[1..][i - 1] == form[i];
      FieldOfIndex(form[1..], i - 1);
    }
  }

  /** A form without repeated names. */
  predicate NamesDistinct(form: Form)
  {
    forall i, j :: 0 <= i < j < |form| ==> form[i].0 != form[j].0
  }

  /** In a form without repeated names, every entry is found by its name. */
  lemma FieldsByName(form: Form)
    requires NamesDistinct(form)
    ensures forall i :: 0 <= i < |form| ==> FieldOf(form, form[i].0) == Some(form[i].1)
  {
    forall i | 0 <= i < |form|
      ensures FieldOf(form, form[i].0) == Some(form[i].1)
    {
      FieldOfIndex(form, i);
    }
  }

  /** `{ ...form, [name]: v }`: an existing field is overwritten where it stands, a new
      one goes at the end. */
  function SetField(form: Form, name: string, v: FieldValue): Form
    decreases |form|
  {
    if form == [] then [(name, v)]
    else if form[0].0 == name then [(name, v)] + form[1..]
    else [form[0]] + SetField(form[1..], name, v)
  }

  /** The field just set reads back as the new value. */
  lemma {:induction false} SetFieldReads(form: Form, name: string, v: FieldValue)
    ensures FieldOf(SetField(form, name, v), name) == Some(v)
    decreases |form|
  {
    if form != [] && form[0].0 != name {
      SetFieldReads(form[1..], name, v);
    }
  }

  /** Setting a field leaves every other field as it was. */
  lemma {:induction false} SetFieldKeeps(form: Form, name: string, v: FieldValue, n: string)
    requires n != name
    ensures FieldOf(SetField(form, name, v), n) == FieldOf(form, n)
    decreases |form|
  {
    if form != [] && form[0].0 != name && form[0].0 != n {
      SetFieldKeeps(form[1..], name, v, n);
    }
  }

  /** Setting a field that exists keeps the field order. */
  lemma {:induction false} SetFieldNamesExisting(form: Form, name: string, v: FieldValue)
    requires name in Names(form)
    ensures Names(SetField(form, name, v)) == Names(form)
    decreases |form|
  {
    var r := SetField(form, name, v);
    if form[0].0 == name {
      forall i | 0 <= i < |r|
        ensures Names(r)[i] == Names(form)[i]
      {
        if i > 0 {
          assert r[i] == form[i];
        }
      }
    } else {
      var rest := SetField(form[1..], name, v);
      assert Names(form) == [form[0].0] + Names(form[1..]);
      SetFieldNamesExisting(form[1..], name, v);
      assert r == [form[0]] + rest;
      assert Names(r) == [form[0].0] + Names(rest);
    }
  }

  /** Setting a field that does not exist appends its name after the others. */
  lemma {:induction false} SetFieldNamesNew(form: Form, name: string, v: FieldValue)
    requires name !in Names(form)
    ensures Names(SetField(form, name, v)) == Names(form) + [name]
    decreases |form|
  {
    var r := SetField(form, name, v);
    if form == [] {
      assert Names(r) == [name];
    } else {
      var rest := SetField(form[1..], name, v);
      assert Names(form) == [form[0].0] + Names(form[1..]);
      SetFieldNamesNew(form[1..], name, v);
      assert r == [form[0]] + rest;
      assert Names(r) == [form[0].0] + Names(rest);
    }
  }

  /** The parts of an input's change event the handlers read. */
  datatype ChangeEvent = ChangeEvent(name: string, value: string, checked: bool, isCheckbox: bool)

  /** The value a change event writes: `checked` from a checkbox, `value` otherwise. */
  function EventValue(e: ChangeEvent): (v: FieldValue)
    ensures e.isCheckbox ==> v == Flag(e.checked)
    ensures !e.isCheckbox ==> v == Text(e.value)
  {
    if e.isCheckbox then Flag(e.checked) else Text(e.value)
  }

  /** `String(v)`: booleans become `'true'`/`'false'`. */
  function Stringify(v: FieldValue): (s: string)
    ensures v.Text? ==> s == v.s
    ensures v == Flag(true) ==> s == "true"
    ensures v == Flag(false) ==> s == "false"
  {
    match v
    case Text(s) => s
    case Flag(b) => if b then "true" else "false"
  }

  /** The field's value as it goes into a JSON body. */
  function ToJson(v: FieldValue): JsonValue
  {
    match v
    case Text(s) => JStr(s)
    case Flag(b) => JBool(b)
  }

  /** A form object sent as a JSON body, field by field. */
  function JsonBody(form: Form): (b: Body)
    ensures b.Json? && |b.fields| == |form|
    ensures forall i :: 0 <= i < |form| ==> b.fields[i] == (form[i].0, ToJson(form[i].1))
  {
    Json(seq(|form|, i requires 0 <= i < |form| => (form[i].0, ToJson(form[i].1))))
  }

  /** A `FormData` buffer: entries in append order. */
  class FormData {
    var entries: seq<(string, PartValue)>

    constructor()
      ensures entries == []
    {
      entries := [];
    }

    method Append(name: string, value: PartValue)
      modifies this
      ensures entries == old(entries) + [(name, value)]
    {
      entries := entries + [(name, value)];
    }
  }

  /** What a form's `onSuccess`/`onClose` props are called with, in call order. */
  datatype Callback = OnSuccess(message: string) | OnClose
}
