/**
  Field descriptors and the ordered field dictionary of an AOT table.

  A table's schema is built from its fields listed in column order and keyed
  by name, with the semantics of a Python dict built from that list: a later
  field with the same name replaces the earlier value but keeps the earlier
  position. The lemmas below show that, when the names are distinct, nothing
  is lost: every listed field is found under its own name, in order.
 */
module Fields {
  import opened Wrappers
  import opened FitsFormat

  /** One column of an AOT table. */
  datatype Field = Field(
    name: string,
    format: Format,
    unit: string,
    mandatory: bool := false,
    unique: bool := false,
    description: Option<string> := None)

  /** Keys in insertion order, and the name-to-field map. */
  datatype FieldDict = FieldDict(keys: seq<string>, entries: map<string, Field>)

  predicate Distinct<T(==)>(s: seq<T>) {
    forall i, j | 0 <= i < j < |s| :: s[i] != s[j]
  }

  /** The names of a list of fields, in order. */
  function Names(fields: seq<Field>): (r: seq<string>)
    ensures |r| == |fields|
    ensures forall i | 0 <= i < |fields| :: r[i] == fields[i].name
  {
    seq(|fields|, i requires 0 <= i < |fields| => fields[i].name)
  }

  /** Each key occurs once, the key list and the map agree, and every field is filed under its own name. */
  ghost predicate Valid(d: FieldDict) {
    && Distinct(d.keys)
    && (forall k :: k in d.entries <==> k in d.keys)
    && (forall k | k in d.entries :: d.entries[k].name == k)
  }

  const Empty := FieldDict([], map[])

  /** `d[f.name] = f`: replaces in place, or appends a new key at the end. */
  function Insert(d: FieldDict, f: Field): (r: FieldDict)
    requires Valid(d)
    ensures Valid(r)
    ensures r.entries == d.entries[f.name := f]
    ensures |r.keys| == |d.keys| + (if f.name in d.entries then 0 else 1)
    ensures r.keys[..|d.keys|] == d.keys
  {
    if f.name in d.entries then FieldDict(d.keys, d.entries[f.name := f])
    else FieldDict(d.keys + [f.name], d.entries[f.name := f])
  }

  /**
    The dictionary built from fields listed in order: a valid dictionary
    whose keys are exactly the listed names. FromFieldsLastWins and
    FromFieldsKeepsOrder say which field each name maps to and where it sits.
   */
  function FromFields(fields: seq<Field>): (r: FieldDict)
    ensures Valid(r)
    ensures forall k :: k in r.entries <==> k in Names(fields)
    decreases |fields|
  {
    if fields == [] then Empty
    else
      var prefix := fields[..|fields| - 1];
      var last := fields[|fields| - 1];
      assert Names(fields) == Names(prefix) + [last.name];
      Insert(FromFields(prefix), last)
  }

  /** A name maps to the last field listed under it. */
  lemma {:induction false} FromFieldsLastWins(fields: seq<Field>, i: nat)
    requires i < |fields|
    requires forall j | i < j < |fields| :: fields[j].name != fields[i].name
    ensures fields[i].name in FromFields(fields).entries
    ensures FromFields(fields).entries[fields[i].name] == fields[i]
  {
    var prefix := fields[..|fields| - 1];
    if i < |fields| - 1 {
      FromFieldsLastWins(prefix, i);
    }
  }

  /** With distinct names, the keys are the names in the order the fields were listed. */
  lemma {:induction false} FromFieldsKeepsOrder(fields: seq<Field>)
    requires Distinct(Names(fields))
    ensures FromFields(fields).keys == Names(fields)
  {
    if fields != [] {
      var prefix := fields[..|fields| - 1];
      var last := fields[|fields| - 1];
      assert Names(fields) == Names(prefix) + [last.name];
      assert Distinct(Names(prefix));
      FromFieldsKeepsOrder(prefix);
      assert last.name !in Names(prefix);
    }
  }

  /** The fields of a dictionary in key order. */
  function Values(d: FieldDict): (r: seq<Field>)
    requires Valid(d)
    ensures |r| == |d.keys|
    ensures forall i | 0 <= i < |r| :: r[i].name == d.keys[i]
  {
    seq(|d.keys|, i requires 0 <= i < |d.keys| => d.entries[d.keys[i]])
  }

  /** Dictionary lookup: a field comes back exactly for a registered name, and it carries that name. */
  function Get(d: FieldDict, name: string): (r: Option<Field>)
    requires Valid(d)
    ensures r.Some? <==> name in d.keys
    ensures r.Some? ==> r.value.name == name
  {
    if name in d.entries then Some(d.entries[name]) else None
  }

  /** With distinct names, reading the dictionary back in key order gives the original list. */
  lemma ValuesRoundTrip(fields: seq<Field>)
    requires Distinct(Names(fields))
    ensures Values(FromFields(fields)) == fields
  {
    var d := FromFields(fields);
    FromFieldsKeepsOrder(fields);
    forall i | 0 <= i < |fields|
      ensures Values(d)[i] == fields[i]
    {
      assert d.keys[i] == fields[i].name;
      assert forall j | i < j < |fields| :: fields[j].name != fields[i].name by {
        forall j | i < j < |fields| ensures fields[j].name != fields[i].name {
          assert Names(fields)[i] != Names(fields)[j];
        }
      }
      FromFieldsLastWins(fields, i);
    }
  }

  /** With distinct names, each listed field is what a lookup of its name returns. */
  lemma GetListed(fields: seq<Field>, i: nat)
    requires Distinct(Names(fields))
    requires i < |fields|
    ensures Get(FromFields(fields), fields[i].name) == Some(fields[i])
  {
    ValuesRoundTrip(fields);
    assert Values(FromFields(fields))[i] == fields[i];
  }
}
