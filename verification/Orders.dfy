/** Sorting by a strict order, as the source does with `sort.Slice`. */
module Orders {

  /** The order of Go strings. */
  predicate Less(a: string, b: string) {
    b != "" && (a == "" || a[0] < b[0] || (a[0] == b[0] && Less(a[1..], b[1..])))
  }

  /** `a` comes before `b` at their first difference, or ends there. */
  predicate SplitsAt(a: string, b: string, k: nat) {
    k <= |a| && k < |b| && a[..k] == b[..k] && (k == |a| || a[k] < b[k])
  }

  lemma {:induction false} LessSplits(a: string, b: string) returns (k: nat)
    requires Less(a, b)
    ensures SplitsAt(a, b, k)
  {
    k := 0;
    if a != "" && a[0] == b[0] {
      var m := LessSplits(a[1..], b[1..]);
      k := m + 1;
      assert a[..k] == [a[0]] + a[1..][..m] && b[..k] == [b[0]] + b[1..][..m];
    }
  }

  lemma {:induction false} SplitIsLess(a: string, b: string, k: nat)
    requires SplitsAt(a, b, k)
    ensures Less(a, b)
  {
    if k > 0 {
      assert a[0] == a[..k][0] && b[0] == b[..k][0];
      assert a[1..][..k - 1] == a[..k][1..] && b[1..][..k - 1] == b[..k][1..];
      SplitIsLess(a[1..], b[1..], k - 1);
    }
  }

  lemma {:induction false} LessTransitive(a: string, b: string, c: string)
    requires Less(a, b) && Less(b, c)
    ensures Less(a, c)
  {
    if a != "" && a[0] == b[0] == c[0] { LessTransitive(a[1..], b[1..], c[1..]); }
  }

  lemma {:induction false} LessTotal(a: string, b: string)
    ensures Less(a, b) || Less(b, a) || a == b
  {
    if a != "" && b != "" && a[0] == b[0] {
      LessTotal(a[1..], b[1..]);
      if a[1..] == b[1..] { assert a == [a[0]] + a[1..] && b == [b[0]] + b[1..]; }
    }
  }

  lemma {:induction false} LessIrreflexive(a: string)
    ensures !Less(a, a)
  {
    if a != "" { LessIrreflexive(a[1..]); }
  }

  function Insert<T>(before: (T, T) -> bool, s: seq<T>, x: T): (r: seq<T>)
    ensures |r| == |s| + 1
  {
    if s == [] || before(s[|s| - 1], x) then s + [x]
    else Insert(before, s[..|s| - 1], x) + [s[|s| - 1]]
  }

  predicate Sorted<T>(before: (T, T) -> bool, s: seq<T>) {
    forall i, j | 0 <= i < j < |s| :: before(s[i], s[j])
  }

  lemma {:induction false} InsertMembers<T(!new)>(before: (T, T) -> bool, s: seq<T>, x: T)
    ensures forall y :: y in Insert(before, s, x) <==> y in s || y == x
  {
    if s != [] && !before(s[|s| - 1], x) {
      InsertMembers(before, s[..|s| - 1], x);
      assert s == s[..|s| - 1] + [s[|s| - 1]];
    }
  }

  lemma SortedSnoc<T>(before: (T, T) -> bool, s: seq<T>, x: T)
    ensures Sorted(before, s + [x]) <==> Sorted(before, s) && forall i | 0 <= i < |s| :: before(s[i], x)
  {
    var all := s + [x];
    if Sorted(before, all) {
      forall i, j | 0 <= i < j < |s| ensures before(s[i], s[j]) { assert before(all[i], all[j]); }
      forall i | 0 <= i < |s| ensures before(s[i], x) { assert before(all[i], all[|s|]); }
    }
  }

  /** On elements among which the order is total and transitive, inserting keeps a list sorted. */
  lemma {:induction false} InsertSorted<T(!new)>(before: (T, T) -> bool, s: seq<T>, x: T)
    requires Sorted(before, s)
    requires forall y | y in s :: before(y, x) || before(x, y)
    requires forall y, z | y in s && z in s && before(y, z) && before(z, x) :: before(y, x)
    ensures Sorted(before, Insert(before, s, x))
  {
    if s != [] {
      var front, last := s[..|s| - 1], s[|s| - 1];
      assert s == front + [last] && last in s;
      SortedSnoc(before, front, last);
      if before(last, x) {
        forall i | 0 <= i < |s| ensures before(s[i], x) { assert s[i] in s; }
        SortedSnoc(before, s, x);
      } else {
        InsertSorted(before, front, x);
        InsertMembers(before, front, x);
        var r := Insert(before, front, x);
        forall i | 0 <= i < |r| ensures before(r[i], last) { assert r[i] in r; }
        SortedSnoc(before, r, last);
      }
    }
  }
}
