/**
  The five field sections of a pass (header, primary, secondary, auxiliary
  and back) and the rule the Add*Field methods enforce: a field key may be
  used only once across all five sections.
 */
module FieldSections {
  import opened Wrappers
  import opened Errors
  import opened Json

  /**
    A pass field as the request sees it: its key, and the JSON object its own
    writer emits (the field classes are not part of this model).
   */
  datatype Field = Field(key: string, body: Json)

  datatype Section = Header | Primary | Secondary | Auxiliary | Back

  datatype Sections = Sections(header: seq<Field>, primary: seq<Field>, secondary: seq<Field>, auxiliary: seq<Field>, back: seq<Field>)
  {
    function Get(s: Section): seq<Field> {
      match s
      case Header => header
      case Primary => primary
      case Secondary => secondary
      case Auxiliary => auxiliary
      case Back => back
    }

    /** Every field, section by section, in insertion order within each section. */
    function All(): seq<Field> {
      header + primary + secondary + auxiliary + back
    }
  }

  /** A new request: all five lists empty. */
  const NoSections := Sections([], [], [], [], [])

  predicate HasKey(fields: seq<Field>, key: string) {
    exists i :: 0 <= i < |fields| && fields[i].key == key
  }

  /** EnsureFieldKeyIsUnique's test: some section already holds a field with this key. */
  predicate KeyInUse(ss: Sections, key: string) {
    HasKey(ss.header, key) || HasKey(ss.primary, key) || HasKey(ss.secondary, key)
    || HasKey(ss.auxiliary, key) || HasKey(ss.back, key)
  }

  predicate UniqueKeys(fields: seq<Field>) {
    forall i, j :: 0 <= i < j < |fields| ==> fields[i].key != fields[j].key
  }

  /** No key is used twice, within a section or across sections. */
  predicate Distinct(ss: Sections) {
    UniqueKeys(ss.All())
  }

  /** The request's sections after appending `field` to `section`. */
  function Append(ss: Sections, section: Section, field: Field): Sections {
    match section
    case Header => ss.(header := ss.header + [field])
    case Primary => ss.(primary := ss.primary + [field])
    case Secondary => ss.(secondary := ss.secondary + [field])
    case Auxiliary => ss.(auxiliary := ss.auxiliary + [field])
    case Back => ss.(back := ss.back + [field])
  }

  /** Add*Field: the duplicate-key exception, or the sections with the field appended. */
  function Add(ss: Sections, section: Section, field: Field): Result<Sections, Error> {
    if KeyInUse(ss, field.key) then Err(DuplicateFieldKey(field.key))
    else Ok(Append(ss, section, field))
  }

  /** A sequence of Add*Field calls whose caller catches the exception and carries on. */
  function AddAll(ss: Sections, adds: seq<(Section, Field)>): Sections
    decreases |adds|
  {
    if adds == [] then ss
    else
      var next := Add(ss, adds[0].0, adds[0].1);
      AddAll(if next.Ok? then next.value else ss, adds[1..])
  }

  // ---------------------------------------------------------------------
  // Properties

  lemma HasKeyAppend(a: seq<Field>, b: seq<Field>, key: string)
    ensures HasKey(a + b, key) <==> HasKey(a, key) || HasKey(b, key)
  {
    if HasKey(a + b, key) {
      var i :| 0 <= i < |a + b| && (a + b)[i].key == key;
      if i >= |a| {
        assert b[i - |a|].key == key;
      }
    }
    if HasKey(a, key) {
      var i :| 0 <= i < |a| && a[i].key == key;
      assert (a + b)[i].key == key;
    }
    if HasKey(b, key) {
      var i :| 0 <= i < |b| && b[i].key == key;
      assert (a + b)[|a| + i].key == key;
    }
  }

  /** Checking the five sections one by one is checking the whole pass. */
  lemma KeyInUseAll(ss: Sections, key: string)
    ensures KeyInUse(ss, key) <==> HasKey(ss.All(), key)
  {
    HasKeyAppend(ss.header, ss.primary, key);
    HasKeyAppend(ss.header + ss.primary, ss.secondary, key);
    HasKeyAppend(ss.header + ss.primary + ss.secondary, ss.auxiliary, key);
    HasKeyAppend(ss.header + ss.primary + ss.secondary + ss.auxiliary, ss.back, key);
  }

  lemma UniqueInsert(x: seq<Field>, y: seq<Field>, f: Field)
    requires UniqueKeys(x + y)
    requires !HasKey(x + y, f.key)
    ensures UniqueKeys(x + [f] + y)
  {
    var xy, z := x + y, x + [f] + y;
    forall i, j | 0 <= i < j < |z|
      ensures z[i].key != z[j].key
    {
      var i' := if i < |x| then i else i - 1;
      var j' := if j < |x| then j else j - 1;
      if i == |x| {
        assert z[j] == xy[j'];
      } else if j == |x| {
        assert z[i] == xy[i'];
      } else {
        assert z[i] == xy[i'] && z[j] == xy[j'];
      }
    }
  }

  /** A rejected add throws DuplicateFieldKey with the offending key and changes nothing. */
  lemma AddRejectsUsedKey(ss: Sections, section: Section, field: Field)
    requires HasKey(ss.All(), field.key)
    ensures Add(ss, section, field) == Err(DuplicateFieldKey(field.key))
  {
    KeyInUseAll(ss, field.key);
  }

  /**
    An accepted add puts the field at the end of its own section and leaves
    the other four alone; afterwards the key is in use.
   */
  lemma AddAppendsFreshKey(ss: Sections, section: Section, field: Field)
    requires !HasKey(ss.All(), field.key)
    ensures Add(ss, section, field).Ok?
    ensures Add(ss, section, field).value.Get(section) == ss.Get(section) + [field]
    ensures forall other: Section :: other != section ==> Add(ss, section, field).value.Get(other) == ss.Get(other)
    ensures |Add(ss, section, field).value.All()| == |ss.All()| + 1
    ensures KeyInUse(Add(ss, section, field).value, field.key)
  {
    KeyInUseAll(ss, field.key);
    var ss' := Add(ss, section, field).value;
    assert ss'.Get(section)[|ss.Get(section)|] == field;
  }

  /** Adding never breaks key uniqueness. */
  lemma AddPreservesDistinct(ss: Sections, section: Section, field: Field)
    requires Distinct(ss)
    ensures Add(ss, section, field).Ok? ==> Distinct(Add(ss, section, field).value)
  {
    if !KeyInUse(ss, field.key) {
      KeyInUseAll(ss, field.key);
      var h, p, s, a, b := ss.header, ss.primary, ss.secondary, ss.auxiliary, ss.back;
      var f := [field];
      match section {
        case Header =>
          InsertAt(h, p + s + a + b, field, h + f + p + s + a + b, ss.All());
        case Primary =>
          InsertAt(h + p, s + a + b, field, h + (p + f) + s + a + b, ss.All());
        case Secondary =>
          InsertAt(h + p + s, a + b, field, h + p + (s + f) + a + b, ss.All());
        case Auxiliary =>
          InsertAt(h + p + s + a, b, field, h + p + s + (a + f) + b, ss.All());
        case Back =>
          InsertAt(h + p + s + a + b, [], field, h + p + s + a + (b + f), ss.All());
      }
    }
  }

  /** UniqueInsert, for lists that are `x + y` and `x + [f] + y` once regrouped. */
  lemma InsertAt(x: seq<Field>, y: seq<Field>, f: Field, after: seq<Field>, before: seq<Field>)
    requires before == x + y && after == x + [f] + y
    requires UniqueKeys(before) && !HasKey(before, f.key)
    ensures UniqueKeys(after)
  {
    UniqueInsert(x, y, f);
  }

  /** Whatever Add*Field calls a request goes through, no field key ever appears twice in the pass. */
  lemma {:induction false} AddAllDistinct(ss: Sections, adds: seq<(Section, Field)>)
    requires Distinct(ss)
    ensures Distinct(AddAll(ss, adds))
    decreases |adds|
  {
    if adds != [] {
      AddPreservesDistinct(ss, adds[0].0, adds[0].1);
      var next := Add(ss, adds[0].0, adds[0].1);
      AddAllDistinct(if next.Ok? then next.value else ss, adds[1..]);
    }
  }

  /** In particular, starting from a new request. */
  lemma NewRequestDistinct(adds: seq<(Section, Field)>)
    ensures Distinct(AddAll(NoSections, adds))
  {
    assert NoSections.All() == [];
    AddAllDistinct(NoSections, adds);
  }
}
