/** Generated rows are Python dictionaries: insertion-ordered maps from a
    column name to a value. A `Record` is that dictionary written out as the
    sequence of its entries in insertion order, and `Put` is the assignment
    `row[name] = value`. */
module Records {

  datatype Option<+T> = None | Some(value: T)

  /** The three kinds of value a row holds: a timestamp (whole seconds),
      a string (chamber and step) and a float (measurements and the label). */
  datatype Value = Time(seconds: int) | Text(text: string) | Num(x: real)

  datatype Field = Field(name: string, value: Value)

  type Record = seq<Field>

  /** The column names of a record, in insertion order. */
  function Keys(d: Record): seq<string>
  {
    seq(|d|, i requires 0 <= i < |d| => d[i].name)
  }

  predicate Distinct(s: seq<string>)
  {
    forall i, j :: 0 <= i < j < |s| ==> s[i] != s[j]
  }

  /** `d[name]`: the value of the (first) entry called `name`, if any. */
  function Lookup(d: Record, name: string): (r: Option<Value>)
    ensures r.None? <==> name !in Keys(d)
  {
    if d == [] then None
    else
      assert Keys(d) == [d[0].name] + Keys(d[1..]);
      if d[0].name == name then Some(d[0].value) else Lookup(d[1..], name)
  }

  /** `d[name] = v`: an existing entry keeps its position and takes the new
      value; a new name is appended at the end. */
  function Put(d: Record, name: string, v: Value): (r: Record)
    ensures Keys(r) == if name in Keys(d) then Keys(d) else Keys(d) + [name]
  {
    if d == [] then [Field(name, v)]
    else
      assert Keys(d) == [d[0].name] + Keys(d[1..]);
      if d[0].name == name then
        assert Keys([Field(name, v)] + d[1..]) == [name] + Keys(d[1..]);
        [Field(name, v)] + d[1..]
      else
        var rest := Put(d[1..], name, v);
        assert Keys([d[0]] + rest) == [d[0].name] + Keys(rest);
        [d[0]] + rest
  }

  /** After `d[name] = v`, looking `name` up gives `v` and every other name
      looks up as before. */
  lemma {:induction false} PutLookup(d: Record, name: string, v: Value, other: string)
    ensures Lookup(Put(d, name, v), name) == Some(v)
    ensures other != name ==> Lookup(Put(d, name, v), other) == Lookup(d, other)
  {
    if d != [] && d[0].name != name {
      PutLookup(d[1..], name, v, other);
      var rest := Put(d[1..], name, v);
      assert ([d[0]] + rest)[1..] == rest;
    }
  }

  /** Assigning a name the record does not hold appends exactly one entry. */
  lemma {:induction false} PutFresh(d: Record, name: string, v: Value)
    requires name !in Keys(d)
    ensures Put(d, name, v) == d + [Field(name, v)]
  {
    if d != [] {
      assert Keys(d) == [d[0].name] + Keys(d[1..]);
      assert d[0].name != name;
      PutFresh(d[1..], name, v);
      assert [d[0]] + (d[1..] + [Field(name, v)]) == d + [Field(name, v)];
    }
  }
}
