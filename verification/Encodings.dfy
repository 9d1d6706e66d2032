/** JSON encodings of update requests: blank fields are left out (`omitempty`), all but the first. */
module Encodings {
  import opened Options
  import opened ReviewLines

  predicate Blank(v: Json) { v == Text("") || v == List([]) }

  function Omit(fields: seq<Field>): seq<Field> {
    if fields == [] then []
    else (if Blank(fields[0].value) then [] else [fields[0]]) + Omit(fields[1..])
  }

  function Kept(fields: seq<Field>): seq<Field>
    requires fields != []
  {
    [fields[0]] + Omit(fields[1..])
  }

  function Texts(ss: seq<string>): (v: Json)
    ensures v.List? && |v.items| == |ss|
  {
    List(seq(|ss|, i requires 0 <= i < |ss| => Text(ss[i])))
  }

  predicate Leaf(v: Json) { v.Text? || (v.List? && forall i | 0 <= i < |v.items| :: v.items[i].Text?) }

  /** Two encodings of the same kind of request: the same names, each once, with leaves of the
      same types. */
  predicate Alike(a: seq<Field>, b: seq<Field>) {
    && |a| == |b| && a != []
    && (forall i | 0 <= i < |a| :: a[i].name == b[i].name && Leaf(a[i].value) && Leaf(b[i].value)
          && (a[i].value.Text? <==> b[i].value.Text?))
    && forall i, j | 0 <= i < j < |a| :: a[i].name != a[j].name
  }

  /** Different lists encode differently, and never as nothing. */
  ghost predicate Injective(encode: Json -> string) {
    forall a: Json, b: Json :: a.List? && b.List? ==> encode(a) != "" && (encode(a) == encode(b) ==> a == b)
  }

  lemma TextsInjective(a: seq<string>, b: seq<string>)
    ensures Texts(a) == Texts(b) <==> a == b
  {
    if Texts(a) == Texts(b) {
      forall i | 0 <= i < |a| ensures a[i] == b[i] { assert Texts(a).items[i] == Texts(b).items[i]; }
    }
  }

  lemma FindCons(fields: seq<Field>, name: string)
    requires fields != []
    ensures Find(Omit(fields), name)
      == if !Blank(fields[0].value) && fields[0].name == name then Some(fields[0].value)
         else Find(Omit(fields[1..]), name)
  {
    if Blank(fields[0].value) {
      assert Omit(fields) == Omit(fields[1..]);
    } else {
      assert Omit(fields)[0] == fields[0] && Omit(fields)[1..] == Omit(fields[1..]);
    }
  }

  lemma {:induction false} FindOmit(fields: seq<Field>, i: nat)
    requires i < |fields| && forall a, b | 0 <= a < b < |fields| :: fields[a].name != fields[b].name
    ensures Find(Omit(fields), fields[i].name) == if Blank(fields[i].value) then None else Some(fields[i].value)
  {
    var tail := fields[1..];
    FindCons(fields, fields[i].name);
    if i == 0 {
      NotThere(tail, fields[0].name);
    } else {
      assert tail[i - 1] == fields[i];
      FindOmit(tail, i - 1);
    }
  }

  lemma {:induction false} NotThere(fields: seq<Field>, name: string)
    requires forall k | 0 <= k < |fields| :: fields[k].name != name
    ensures Find(Omit(fields), name) == None
  {
    if fields != [] {
      NotThere(fields[1..], name);
      FindCons(fields, name);
    }
  }

  lemma FindKept(fields: seq<Field>, i: nat)
    requires i < |fields| && forall a, b | 0 <= a < b < |fields| :: fields[a].name != fields[b].name
    ensures Find(Kept(fields), fields[i].name)
      == if i > 0 && Blank(fields[i].value) then None else Some(fields[i].value)
  {
    assert Kept(fields)[0] == fields[0] && Kept(fields)[1..] == Omit(fields[1..]);
    if i > 0 { FindOmit(fields[1..], i - 1); }
  }

  lemma {:induction false} OmitMembers(fields: seq<Field>)
    ensures forall f :: f in Omit(fields) <==> f in fields && !Blank(f.value)
  {
    if fields != [] {
      OmitMembers(fields[1..]);
      assert fields == [fields[0]] + fields[1..];
    }
  }

  lemma KeptMembers(fields: seq<Field>)
    requires fields != []
    ensures forall f :: f in Kept(fields) <==> f == fields[0] || (f in fields[1..] && !Blank(f.value))
  {
    OmitMembers(fields[1..]);
  }

  lemma LeavesRegular(fields: seq<Field>)
    requires fields != [] && forall i | 0 <= i < |fields| :: Leaf(fields[i].value)
    ensures Regular(Kept(fields))
    ensures forall i | 0 <= i < |Kept(fields)| :: Leaf(Kept(fields)[i].value)
  {
    KeptMembers(fields);
    forall i | 0 <= i < |Kept(fields)| ensures Leaf(Kept(fields)[i].value) {
      var f := Kept(fields)[i];
      assert f in Kept(fields);
      assert f in fields;
    }
  }

  predicate SameWhereGiven(a: seq<Field>, b: seq<Field>)
    requires Alike(a, b)
  {
    forall i | 0 <= i < |a| :: i == 0 || !Blank(a[i].value) ==> a[i].value == b[i].value
  }

  /** Reading leaves of the same type tells them apart. */
  lemma ReadsTell(encode: Json -> string, a: Json, found: Option<Json>, b: Json)
    requires Injective(encode) && Leaf(a) && Leaf(b) && (a.Text? <==> b.Text?) && (a.List? ==> a != List([]))
    requires found == Some(b) || (found == None && Blank(b) && !Blank(a))
    ensures Read(encode, found) == Read(encode, Some(a)) <==> a == b
  {
    if a.List? && b.List? { assert encode(a) != "" && (encode(a) == encode(b) ==> a == b); }
  }

  /** A request agrees with what is there exactly when everything it gives is there. */
  lemma AgreesWhenSame(encode: Json -> string, a: seq<Field>, b: seq<Field>)
    requires Injective(encode) && Alike(a, b) && a[0].value.Text?
    ensures Regular(Kept(a))
    ensures Agrees(encode, Kept(a), Kept(b)) <==> SameWhereGiven(a, b)
  {
    LeavesRegular(a);
    KeptMembers(a);
    forall i | 0 <= i < |a| && (i == 0 || !Blank(a[i].value))
      ensures Read(encode, Find(Kept(b), a[i].name)) == Read(encode, Some(a[i].value)) <==> a[i].value == b[i].value
    {
      FindKept(b, i);
      ReadsTell(encode, a[i].value, Find(Kept(b), b[i].name), b[i].value);
    }
    if Agrees(encode, Kept(a), Kept(b)) {
      forall i | 0 <= i < |a| && (i == 0 || !Blank(a[i].value)) ensures a[i].value == b[i].value {
        assert a[i] in Kept(a) by { if i > 0 { assert a[1..][i - 1] == a[i]; } }
        var k :| 0 <= k < |Kept(a)| && Kept(a)[k] == a[i];
        assert Leaf(Kept(a)[k].value);
      }
    }
    if SameWhereGiven(a, b) {
      forall k | 0 <= k < |Kept(a)|
        ensures Leaf(Kept(a)[k].value)
        ensures Read(encode, Find(Kept(b), Kept(a)[k].name)) == Read(encode, Some(Kept(a)[k].value))
      {
        var f := Kept(a)[k];
        assert f in Kept(a);
        var i :| 0 <= i < |a| && a[i] == f && (i == 0 || !Blank(f.value));
      }
    }
  }
}
