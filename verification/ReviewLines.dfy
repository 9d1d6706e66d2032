/** The review of a request against what is there now (`OperationReviewLines` in
    internal/ads/operation_preview.go, `reviewMatches` in internal/sandbox/operation_readback.go). */
module ReviewLines {
  import opened Options
  import opened Numerals

  /** Decoded JSON. Objects list their fields in the order of their names, each name once. `Plain`
      is any value that is neither text, list nor object, by its encoding. */
  datatype Json = Text(text: string) | Plain(code: string) | List(items: seq<Json>) | Object(fields: seq<Field>)
  datatype Field = Field(name: string, value: Json)

  datatype Line = Line(field: string, before: string, after: string)

  function Find(fields: seq<Field>, name: string): Option<Json> {
    if fields == [] then None
    else if fields[0].name == name then Some(fields[0].value)
    else Find(fields[1..], name)
  }

  predicate OfObjects(items: seq<Json>) { items != [] && forall i | 0 <= i < |items| :: items[i].Object? }

  /** Lists hold objects only, or none at the front. */
  predicate Regular(fields: seq<Field>)
    decreases fields
  {
    forall i | 0 <= i < |fields| :: match fields[i].value
      case Object(inner) => Regular(inner)
      case List(items) => items == [] || !items[0].Object? || (OfObjects(items) && ItemsRegular(items))
      case _ => true
  }

  predicate ItemsRegular(items: seq<Json>)
    decreases items
  {
    forall i | 0 <= i < |items| :: match items[i] case Object(inner) => Regular(inner) case _ => true
  }

  /** How a leaf reads: nothing and empty text alike, text as it is, anything else encoded. */
  function Read(encode: Json -> string, v: Option<Json>): string {
    match v
    case None => ""
    case Some(Text(s)) => s
    case Some(j) => encode(j)
  }

  function Inner(v: Option<Json>): seq<Field> {
    match v case Some(Object(inner)) => inner case _ => []
  }

  function Join(prefix: string, name: string): string { if prefix == "" then name else prefix + "." + name }

  /** One line for every leaf of the request, with what is there now. */
  function Visit(encode: Json -> string, values: seq<Field>, before: seq<Field>, prefix: string): seq<Line>
    requires Regular(values)
    decreases values, 0
  {
    if values == [] then []
    else VisitOne(encode, values[0], before, prefix) + Visit(encode, values[1..], before, prefix)
  }

  function VisitOne(encode: Json -> string, f: Field, before: seq<Field>, prefix: string): seq<Line>
    requires Regular([f])
    decreases f, 1
  {
    var path := Join(prefix, f.name);
    assert [f][0] == f;
    match f.value
    case Object(inner) => Visit(encode, inner, Inner(Find(before, f.name)), path)
    case List(items) =>
      if items != [] && items[0].Object? then VisitItems(encode, items, 0, path)
      else [Line(path, Read(encode, Find(before, f.name)), Read(encode, Some(f.value)))]
    case _ => [Line(path, Read(encode, Find(before, f.name)), Read(encode, Some(f.value)))]
  }

  function VisitItems(encode: Json -> string, items: seq<Json>, i: nat, path: string): seq<Line>
    requires i <= |items| && ItemsRegular(items)
    decreases items, |items| - i
  {
    if i == |items| then []
    else (match items[i] case Object(inner) => Visit(encode, inner, [], path + "[" + Digits(i + 1) + "]") case _ => [])
         + VisitItems(encode, items, i + 1, path)
  }

  predicate Flat(fields: seq<Field>) {
    forall i | 0 <= i < |fields| ::
      !fields[i].value.Object? && (fields[i].value.List? ==>
        fields[i].value.items == [] || !fields[i].value.items[0].Object?)
  }

  /** Of flat requests every field has its line, in order: where it is, what is there, what is asked. */
  lemma {:induction false} FlatLines(encode: Json -> string, values: seq<Field>, before: seq<Field>, prefix: string)
    requires Regular(values) && Flat(values)
    ensures var lines := Visit(encode, values, before, prefix);
      && |lines| == |values|
      && forall i | 0 <= i < |values| :: lines[i] == Line(Join(prefix, values[i].name),
                                                          Read(encode, Find(before, values[i].name)),
                                                          Read(encode, Some(values[i].value)))
  {
    if values != [] {
      assert Flat(values[1..]) && Regular(values[1..]);
      FlatLines(encode, values[1..], before, prefix);
      assert values[0].value == values[..1][0].value;
    }
  }

  /** The lines of an object inside a request carry its name, and compare with the object there. */
  lemma ObjectLines(encode: Json -> string, name: string, inner: seq<Field>, before: seq<Field>, prefix: string)
    requires Regular([Field(name, Object(inner))]) && Regular(inner)
    ensures Visit(encode, [Field(name, Object(inner))], before, prefix)
      == Visit(encode, inner, Inner(Find(before, name)), Join(prefix, name))
  {
    var values := [Field(name, Object(inner))];
    assert values[1..] == [];
  }

  // ----- when a review shows no difference -----

  predicate NoDifference(lines: seq<Line>) { forall i | 0 <= i < |lines| :: lines[i].before == lines[i].after }

  /** Every leaf of the request reads as what is there now; leaves inside lists of objects are
      compared with nothing. */
  predicate Agrees(encode: Json -> string, values: seq<Field>, before: seq<Field>)
    requires Regular(values)
    decreases values
  {
    forall i | 0 <= i < |values| :: match values[i].value
      case Object(inner) => Agrees(encode, inner, Inner(Find(before, values[i].name)))
      case List(items) =>
        if items != [] && items[0].Object? then ItemsAgree(encode, items)
        else Read(encode, Find(before, values[i].name)) == Read(encode, Some(values[i].value))
      case _ => Read(encode, Find(before, values[i].name)) == Read(encode, Some(values[i].value))
  }

  predicate ItemsAgree(encode: Json -> string, items: seq<Json>)
    requires ItemsRegular(items)
    decreases items
  {
    forall i | 0 <= i < |items| :: match items[i] case Object(inner) => Agrees(encode, inner, []) case _ => true
  }

  predicate ItemAgrees(encode: Json -> string, item: Json)
    requires item.Object? ==> Regular(item.fields)
  {
    item.Object? ==> Agrees(encode, item.fields, [])
  }

  predicate AgreeFrom(encode: Json -> string, items: seq<Json>, i: nat)
    requires ItemsRegular(items)
  {
    forall k | i <= k < |items| :: ItemAgrees(encode, items[k])
  }

  lemma NoDifferenceIn(a: seq<Line>, b: seq<Line>)
    ensures NoDifference(a + b) <==> NoDifference(a) && NoDifference(b)
  {
    var all := a + b;
    assert forall i | 0 <= i < |a| :: all[i] == a[i];
    assert forall i | 0 <= i < |b| :: all[|a| + i] == b[i];
    if NoDifference(all) {
      forall i | 0 <= i < |b| ensures b[i].before == b[i].after { assert all[|a| + i].before == all[|a| + i].after; }
    }
  }

  /** A review shows no difference exactly when the request agrees with what is there. */
  lemma {:induction false} VisitAgrees(encode: Json -> string, values: seq<Field>, before: seq<Field>, prefix: string)
    requires Regular(values)
    ensures NoDifference(Visit(encode, values, before, prefix)) <==> Agrees(encode, values, before)
    decreases values, 0
  {
    if values != [] {
      var head, tail := [values[0]], values[1..];
      VisitOneAgrees(encode, values[0], before, prefix);
      VisitAgrees(encode, tail, before, prefix);
      NoDifferenceIn(VisitOne(encode, values[0], before, prefix), Visit(encode, tail, before, prefix));
      AgreesCons(encode, values, before);
    }
  }

  lemma AgreesCons(encode: Json -> string, values: seq<Field>, before: seq<Field>)
    requires Regular(values) && values != []
    ensures Agrees(encode, values, before)
      <==> Agrees(encode, [values[0]], before) && Agrees(encode, values[1..], before)
  {
    assert [values[0]][0] == values[0];
    assert forall i | 0 <= i < |values| - 1 :: values[1..][i] == values[i + 1];
    if Agrees(encode, [values[0]], before) && Agrees(encode, values[1..], before) {
      forall i | 0 <= i < |values| ensures Agrees(encode, [values[i]], before) {
        if i > 0 { AgreesAt(encode, values[1..], before, i - 1); }
      }
      forall i | 0 <= i < |values| ensures [values[i]][0] == values[i] && Agrees(encode, [values[i]], before) {}
    }
  }

  lemma AgreesAt(encode: Json -> string, values: seq<Field>, before: seq<Field>, i: nat)
    requires Regular(values) && i < |values| && Agrees(encode, values, before)
    ensures Regular([values[i]]) && Agrees(encode, [values[i]], before)
  {
    assert [values[i]][0] == values[i];
  }

  lemma {:induction false} VisitOneAgrees(encode: Json -> string, f: Field, before: seq<Field>, prefix: string)
    requires Regular([f])
    ensures NoDifference(VisitOne(encode, f, before, prefix)) <==> Agrees(encode, [f], before)
    decreases f, 1
  {
    assert [f][0] == f;
    var path := Join(prefix, f.name);
    OneLine(Line(path, Read(encode, Find(before, f.name)), Read(encode, Some(f.value))));
    match f.value {
      case Object(inner) => VisitAgrees(encode, inner, Inner(Find(before, f.name)), path);
      case List(items) =>
        if items != [] && items[0].Object? {
          ItemsVisitAgrees(encode, items, 0, path);
          assert AgreeFrom(encode, items, 0) <==> ItemsAgree(encode, items);
        }
      case _ =>
    }
  }

  lemma OneLine(l: Line)
    ensures NoDifference([l]) <==> l.before == l.after
  {
    assert [l][0] == l;
  }

  lemma {:induction false} ItemsVisitAgrees(encode: Json -> string, items: seq<Json>, i: nat, path: string)
    requires i <= |items| && ItemsRegular(items)
    ensures NoDifference(VisitItems(encode, items, i, path)) <==> AgreeFrom(encode, items, i)
    decreases items, |items| - i
  {
    if i < |items| {
      ItemsVisitAgrees(encode, items, i + 1, path);
      var here := match items[i]
        case Object(inner) => Visit(encode, inner, [], path + "[" + Digits(i + 1) + "]")
        case _ => [];
      NoDifferenceIn(here, VisitItems(encode, items, i + 1, path));
      if items[i].Object? { VisitAgrees(encode, items[i].fields, [], path + "[" + Digits(i + 1) + "]"); }
      assert NoDifference(here) <==> ItemAgrees(encode, items[i]);
      assert AgreeFrom(encode, items, i) <==> ItemAgrees(encode, items[i]) && AgreeFrom(encode, items, i + 1);
    }
  }
}
