/** The list and field updaters of the service form (src/components/ServiceForm.tsx).
    The form state is the page's loosely typed object: top-level entries,
    some of them sections of named fields. Each updater builds a new state;
    a list is addressed by a section and a field, the two being equal for a
    top-level list such as `tags`. */
module ServiceForm {
  import opened Common
  import opened Text

  datatype FormValue =
    | TextValue(text: string)
    | NumberValue(number: real)
    | FlagValue(flag: bool)
    | Items(items: seq<string>)
    | Section(fields: map<string, FormValue>)

  type Form = map<string, FormValue>

  // ---- The list operations ----

  /** `[...list, value.trim()]`, or nothing when the value is blank. */
  function AppendTrimmed(list: seq<string>, value: string): (r: seq<string>)
    ensures |Trim(value)| == 0 ==> r == list
    ensures |Trim(value)| > 0 ==> |r| == |list| + 1 && r[..|list|] == list && r[|list|] == Trim(value)
    ensures |Trim(value)| > 0 ==> Trimmed(r[|list|]) && !AllWhitespace(r[|list|])
  {
    if |Trim(value)| == 0 then list
    else
      TrimIdempotent(value);
      TrimEmptyIffBlank(Trim(value));
      list + [Trim(value)]
  }

  /** `list.filter((_, i) => i !== index)`. */
  function RemoveAt(list: seq<string>, index: int): (r: seq<string>)
    ensures 0 <= index < |list| ==> r == list[..index] + list[index + 1..]
    ensures !(0 <= index < |list|) ==> r == list
  {
    if list == [] then []
    else if index == 0 then list[1..]
    else
      var rest := RemoveAt(list[1..], index - 1);
      assert 0 <= index < |list| ==> list[1..][..index - 1] == list[1..index];
      [list[0]] + rest
  }

  /** `list.includes(value) ? list.filter(item => item !== value) : [...list, value]`. */
  function Toggle(list: seq<string>, value: string): (r: seq<string>)
    ensures value in list ==> value !in r && forall x :: x != value ==> (x in r <==> x in list)
    ensures value !in list ==> r == list + [value]
  {
    if value in list then Filter(list, x => x != value) else list + [value]
  }

  /** Removing drops exactly one element and keeps the others in order. */
  lemma RemoveAtKeepsOrder(list: seq<string>, index: nat)
    requires index < |list|
    ensures |RemoveAt(list, index)| == |list| - 1
    ensures forall i :: 0 <= i < index ==> RemoveAt(list, index)[i] == list[i]
    ensures forall i :: index <= i < |list| - 1 ==> RemoveAt(list, index)[i] == list[i + 1]
  {
  }

  /** Toggling an absent value twice gives the list back. */
  lemma ToggleTwiceRestores(list: seq<string>, value: string)
    requires value !in list
    ensures Toggle(Toggle(list, value), value) == list
  {
    FilterConcat(list, [value], x => x != value);
    FilterAll(list, x => x != value);
  }

  /** Toggling a present value removes every copy of it and keeps the rest in order. */
  lemma TogglePresentKeepsOrder(a: seq<string>, b: seq<string>, value: string)
    requires value in a + b
    ensures Toggle(a + b, value) == Filter(a, x => x != value) + Filter(b, x => x != value)
  {
    FilterConcat(a, b, x => x != value);
  }

  // ---- Addressing the form ----

  /** `{ ...prev[section] }`: a section's fields, none when it is absent. */
  function FieldsOf(form: Form, section: string): map<string, FormValue>
  {
    if section in form && form[section].Section? then form[section].fields else map[]
  }

  /** The list at `section` (top level) or at `section.field`. */
  predicate ListAt(form: Form, section: string, field: string)
  {
    if section == field then section in form && form[section].Items?
    else field in FieldsOf(form, section) && FieldsOf(form, section)[field].Items?
  }

  function ListOf(form: Form, section: string, field: string): seq<string>
    requires ListAt(form, section, field)
  {
    if section == field then form[section].items else FieldsOf(form, section)[field].items
  }

  /** The form with the list at that place replaced. */
  function WithList(form: Form, section: string, field: string, items: seq<string>): (r: Form)
    ensures ListAt(r, section, field) && ListOf(r, section, field) == items
    ensures forall k :: k in form && k != section ==> k in r && r[k] == form[k]
    ensures section != field ==> forall f :: f in FieldsOf(form, section) && f != field ==>
              f in FieldsOf(r, section) && FieldsOf(r, section)[f] == FieldsOf(form, section)[f]
    ensures r.Keys == form.Keys + {section}
  {
    if section == field then form[section := Items(items)]
    else form[section := Section(FieldsOf(form, section)[field := Items(items)])]
  }

  /** A list elsewhere in the form is still a list, and the same one, after
      another list is replaced. */
  lemma WithListKeepsOtherLists(form: Form, section: string, field: string, items: seq<string>,
                                section': string, field': string)
    requires ListAt(form, section', field') && (section', field') != (section, field)
    requires section == field || section' != section || section' != field'
    requires section' == field' || section' != section || section != field
    ensures ListAt(WithList(form, section, field, items), section', field')
    ensures ListOf(WithList(form, section, field, items), section', field') == ListOf(form, section', field')
  {
  }

  // ---- The updaters ----

  /** `handleNestedChange`: one field of one section. */
  function HandleNestedChange(form: Form, section: string, field: string, value: FormValue): (r: Form)
    ensures section in r && r[section].Section? && field in r[section].fields && r[section].fields[field] == value
    ensures forall k :: k in form && k != section ==> k in r && r[k] == form[k]
    ensures forall f :: f in FieldsOf(form, section) && f != field ==>
              f in FieldsOf(r, section) && FieldsOf(r, section)[f] == FieldsOf(form, section)[f]
    ensures r.Keys == form.Keys + {section}
  {
    form[section := Section(FieldsOf(form, section)[field := value])]
  }

  /** `addArrayItem`. The updater runs only for a value that is not blank,
      and then needs a list at that place. */
  function AddArrayItem(form: Form, section: string, field: string, value: string): (r: Form)
    requires |Trim(value)| > 0 ==> ListAt(form, section, field)
    ensures |Trim(value)| == 0 ==> r == form
    ensures |Trim(value)| > 0 ==> ListAt(r, section, field)
                                  && ListOf(r, section, field) == ListOf(form, section, field) + [Trim(value)]
    ensures forall k :: k in form && k != section ==> k in r && r[k] == form[k]
    ensures section != field ==> forall f :: f in FieldsOf(form, section) && f != field ==>
              f in FieldsOf(r, section) && FieldsOf(r, section)[f] == FieldsOf(form, section)[f]
  {
    if |Trim(value)| == 0 then form
    else WithList(form, section, field, AppendTrimmed(ListOf(form, section, field), value))
  }

  /** `removeArrayItem`. */
  function RemoveArrayItem(form: Form, section: string, field: string, index: int): (r: Form)
    requires ListAt(form, section, field)
    ensures ListAt(r, section, field)
    ensures 0 <= index < |ListOf(form, section, field)| ==>
              ListOf(r, section, field) == ListOf(form, section, field)[..index] + ListOf(form, section, field)[index + 1..]
    ensures !(0 <= index < |ListOf(form, section, field)|) ==> ListOf(r, section, field) == ListOf(form, section, field)
    ensures forall k :: k in form && k != section ==> k in r && r[k] == form[k]
    ensures section != field ==> forall f :: f in FieldsOf(form, section) && f != field ==>
              f in FieldsOf(r, section) && FieldsOf(r, section)[f] == FieldsOf(form, section)[f]
  {
    WithList(form, section, field, RemoveAt(ListOf(form, section, field), index))
  }

  /** `toggleArrayItem`: always a field inside a section (the days and times). */
  function ToggleArrayItem(form: Form, section: string, field: string, value: string): (r: Form)
    requires section != field && ListAt(form, section, field)
    ensures ListAt(r, section, field)
    ensures value in ListOf(form, section, field) ==>
              value !in ListOf(r, section, field)
              && forall x :: x != value ==> (x in ListOf(r, section, field) <==> x in ListOf(form, section, field))
    ensures value !in ListOf(form, section, field) ==> ListOf(r, section, field) == ListOf(form, section, field) + [value]
    ensures forall k :: k in form && k != section ==> k in r && r[k] == form[k]
    ensures section != field ==> forall f :: f in FieldsOf(form, section) && f != field ==>
              f in FieldsOf(r, section) && FieldsOf(r, section)[f] == FieldsOf(form, section)[f]
  {
    WithList(form, section, field, Toggle(ListOf(form, section, field), value))
  }

  /** Clicking an unchecked day or time twice gives back the same form
      wherever the section already existed. */
  lemma ToggleArrayItemTwice(form: Form, section: string, field: string, value: string)
    requires section != field && ListAt(form, section, field) && section in form
    requires value !in ListOf(form, section, field)
    ensures ToggleArrayItem(ToggleArrayItem(form, section, field, value), section, field, value) == form
  {
    var list := ListOf(form, section, field);
    ToggleTwiceRestores(list, value);
    var once := ToggleArrayItem(form, section, field, value);
    var twice := ToggleArrayItem(once, section, field, value);
    assert FieldsOf(twice, section) == FieldsOf(form, section);
  }
}
