/** `apply_attrs_to_form_widgets` (sitegate/utils.py): the HTML attributes a
    flow's `widget_attrs` argument puts on the widget of every field of a form. */
module Utils {
  import opened Common
  import opened Forms

  /** A `widget_attrs` value: a plain value, or a callable that is called with
      the form field to give the value for that field. */
  datatype AttrValue = Plain(text: string) | PerField(compute: Field -> string)

  /** The value an attribute takes on `field`. */
  function AttrFor(v: AttrValue, field: Field): string
  {
    match v
    case Plain(t) => t
    case PerField(f) => f(field)
  }

  /** The attributes the widget of `field` ends up with: every supplied
      attribute, in order, resolved for that field. */
  function WidgetAttrs(attrs: ODict<AttrValue>, field: Field): (r: ODict<string>)
    ensures Keys(r) == Keys(attrs)
  {
    seq(|attrs|, i requires 0 <= i < |attrs| => (attrs[i].0, AttrFor(attrs[i].1, field)))
  }

  /** Every field of the table, with its widget attributes replaced. */
  function WithWidgetAttrs(fields: ODict<Field>, attrs: ODict<AttrValue>): (r: ODict<Field>)
  {
    seq(|fields|, i requires 0 <= i < |fields| =>
      (fields[i].0, fields[i].1.(attrs := WidgetAttrs(attrs, fields[i].1))))
  }

  /** Django's `Widget.build_attrs(attrs)`: a copy of the (by now resolved) attributes. */
  function BuildAttrs(attrs: ODict<AttrValue>): (r: ODict<string>)
    requires forall i :: 0 <= i < |attrs| ==> attrs[i].1.Plain?
    ensures |r| == |attrs|
    ensures forall i :: 0 <= i < |attrs| ==> r[i] == (attrs[i].0, attrs[i].1.text)
  {
    seq(|attrs|, i requires 0 <= i < |attrs| => (attrs[i].0, attrs[i].1.text))
  }

  /** The inner loop for one field: a copy of `attrs` in which every
      callable entry is replaced, in place, by its value for `field`; the
      keys and their order stay as they were. */
  method ResolveAttrs(attrs: ODict<AttrValue>, field: Field) returns (resolved: ODict<AttrValue>)
    requires DistinctKeys(attrs)
    ensures |resolved| == |attrs|
    ensures forall m :: 0 <= m < |attrs| ==> resolved[m] == (attrs[m].0, Plain(AttrFor(attrs[m].1, field)))
  {
    resolved := attrs;
    var j := 0;
    while j < |attrs|
      invariant 0 <= j <= |attrs| && |resolved| == |attrs|
      invariant Keys(resolved) == Keys(attrs)
      invariant forall m :: 0 <= m < j ==> resolved[m] == (attrs[m].0, Plain(AttrFor(attrs[m].1, field)))
      invariant forall m :: j <= m < |attrs| ==> resolved[m] == attrs[m]
    {
      if attrs[j].1.PerField? {
        assert DistinctKeys(resolved) by {
          assert forall m :: 0 <= m < |attrs| ==> resolved[m].0 == Keys(attrs)[m];
        }
        PutAt(resolved, j, Plain(attrs[j].1.compute(field)));
        resolved := Put(resolved, attrs[j].0, Plain(attrs[j].1.compute(field)));
      }
      j := j + 1;
    }
  }

  /** `apply_attrs_to_form_widgets(form, attrs)` over the form's field table:
      for each field a fresh copy of `attrs` has its callable entries replaced
      by their value for that field, and becomes the widget's attributes. */
  method ApplyAttrsToFormWidgets(fields: ODict<Field>, attrs: ODict<AttrValue>) returns (r: ODict<Field>)
    requires DistinctKeys(attrs)
    ensures r == WithWidgetAttrs(fields, attrs)
  {
    r := [];
    var i := 0;
    while i < |fields|
      invariant 0 <= i <= |fields|
      invariant r == WithWidgetAttrs(fields[..i], attrs)
    {
      var (name, field) := fields[i];
      var resolved := ResolveAttrs(attrs, field);
      assert BuildAttrs(resolved) == WidgetAttrs(attrs, field);
      r := r + [(name, field.(attrs := BuildAttrs(resolved)))];
      assert fields[..i + 1] == fields[..i] + [fields[i]];
      assert WithWidgetAttrs(fields[..i + 1], attrs) == WithWidgetAttrs(fields[..i], attrs) + [r[i]];
      i := i + 1;
    }
    assert fields[..i] == fields;
  }

  /** Every field is visited once: the table keeps its field names in order,
      each widget carries exactly the supplied attribute names, and nothing
      but the widget attributes changes. */
  lemma WithWidgetAttrsShape(fields: ODict<Field>, attrs: ODict<AttrValue>, i: nat)
    requires i < |fields|
    ensures Keys(WithWidgetAttrs(fields, attrs)) == Keys(fields)
    ensures var f := WithWidgetAttrs(fields, attrs)[i].1;
      Keys(f.attrs) == Keys(attrs) && f == fields[i].1.(attrs := f.attrs)
  {
    var r := WithWidgetAttrs(fields, attrs);
    assert forall m :: 0 <= m < |r| ==> Keys(r)[m] == Keys(fields)[m];
  }

  /** On every field, a plain attribute keeps its value and a callable one
      takes its value for that field. */
  lemma {:induction false} WidgetAttrValue(attrs: ODict<AttrValue>, field: Field, k: string)
    ensures Get(attrs, k).None? ==> Get(WidgetAttrs(attrs, field), k).None?
    ensures Get(attrs, k).Some? ==> Get(WidgetAttrs(attrs, field), k) == Some(AttrFor(Get(attrs, k).value, field))
  {
    if |attrs| > 0 && attrs[0].0 != k {
      WidgetAttrValue(attrs[1..], field, k);
      assert WidgetAttrs(attrs, field)[1..] == WidgetAttrs(attrs[1..], field);
    }
  }
}
