/**
 * `BTreeSet<String>` as the server uses it: a set kept in ascending order,
 * modelled as a strictly ascending sequence. Rust orders `String`s by their
 * UTF-8 bytes, which is the lexicographic order on code points used here.
 */
module StringSet {

  /** `Ord for String`: lexicographic, a proper prefix first. */
  predicate Less(a: string, b: string)
    decreases |a|
  {
    b != [] && (a == [] || a[0] < b[0] || (a[0] == b[0] && Less(a[1..], b[1..])))
  }

  lemma {:induction false} LessIrreflexive(a: string)
    ensures !Less(a, a)
  {
    if a != [] { LessIrreflexive(a[1..]); }
  }

  lemma {:induction false} LessTransitive(a: string, b: string, c: string)
    requires Less(a, b) && Less(b, c)
    ensures Less(a, c)
  {
    if a != [] && a[0] == b[0] && b[0] == c[0] {
      LessTransitive(a[1..], b[1..], c[1..]);
    }
  }

  lemma LessAsymmetric(a: string, b: string)
    ensures !(Less(a, b) && Less(b, a))
  {
    if Less(a, b) && Less(b, a) {
      LessTransitive(a, b, a);
      LessIrreflexive(a);
    }
  }

  lemma {:induction false} LessTotal(a: string, b: string)
    ensures a == b || Less(a, b) || Less(b, a)
  {
    if a != [] && b != [] && a[0] == b[0] {
      LessTotal(a[1..], b[1..]);
      assert a == [a[0]] + a[1..] && b == [b[0]] + b[1..];
    }
  }

  predicate StrictlySorted(s: seq<string>) {
    forall i, j :: 0 <= i < j < |s| ==> Less(s[i], s[j])
  }

  function Elements(s: seq<string>): set<string> {
    set x | x in s
  }

  lemma ElementsEmpty(s: seq<string>)
    ensures Elements(s) == {} <==> s == []
  {
    if s != [] {
      assert s[0] in Elements(s);
    }
  }

  lemma {:induction false} TailElements(s: seq<string>)
    requires StrictlySorted(s) && s != []
    ensures Elements(s[1..]) == Elements(s) - {s[0]}
  {
    forall j | 1 <= j < |s| ensures s[j] != s[0] {
      LessIrreflexive(s[0]);
    }
    assert s == [s[0]] + s[1..];
  }

  /** Every element of a sorted sequence is above anything below its head. */
  lemma BelowAll(x: string, s: seq<string>)
    requires StrictlySorted(s) && s != [] && Less(x, s[0])
    ensures forall y :: y in s ==> Less(x, y)
  {
    forall y | y in s ensures Less(x, y) {
      var j :| 0 <= j < |s| && s[j] == y;
      if j > 0 { LessTransitive(x, s[0], s[j]); }
    }
  }

  /** The head of a sorted sequence is below the rest and below anything above it. */
  lemma HeadBelowRest(s: seq<string>, x: string)
    requires StrictlySorted(s) && s != [] && Less(s[0], x)
    ensures forall y :: y in Elements(s[1..]) + {x} ==> Less(s[0], y)
  {
    forall y | y in Elements(s[1..]) ensures Less(s[0], y) {
      var j :| 0 <= j < |s| - 1 && s[1..][j] == y;
      assert s[j + 1] == y;
    }
  }

  /** Putting something below every element in front keeps a sequence strictly ascending. */
  lemma PrependBelow(x: string, s: seq<string>)
    requires StrictlySorted(s)
    requires forall y :: y in s ==> Less(x, y)
    ensures StrictlySorted([x] + s)
  {
    var r := [x] + s;
    forall i, j | 0 <= i < j < |r| ensures Less(r[i], r[j]) {
      assert r[j] == s[j - 1];
      if i > 0 { assert r[i] == s[i - 1]; }
    }
  }

  /** The elements of a sequence with one more in front. */
  lemma ConsElements(x: string, s: seq<string>)
    ensures Elements([x] + s) == {x} + Elements(s)
  {
  }

  /** `BTreeSet::insert`: adds `x` in its place; a present `x` changes nothing. */
  function Insert(s: seq<string>, x: string): (r: seq<string>)
    requires StrictlySorted(s)
    ensures StrictlySorted(r)
    ensures Elements(r) == Elements(s) + {x}
  {
    if s == [] then [x]
    else if x == s[0] then
      assert s[0] in Elements(s);
      s
    else if Less(x, s[0]) then
      BelowAll(x, s);
      PrependBelow(x, s);
      [x] + s
    else
      LessTotal(x, s[0]);
      var tail := Insert(s[1..], x);
      HeadBelowRest(s, x);
      assert forall y :: y in tail ==> y in Elements(tail);
      PrependBelow(s[0], tail);
      ConsElements(s[0], s[1..]);
      ConsElements(s[0], tail);
      assert s == [s[0]] + s[1..];
      [s[0]] + tail
  }

  /**
   * A strictly ascending sequence is determined by its elements: the order
   * of a resolved target list does not depend on how it was built.
   */
  lemma {:induction false} SortedUnique(a: seq<string>, b: seq<string>)
    requires StrictlySorted(a) && StrictlySorted(b)
    requires Elements(a) == Elements(b)
    ensures a == b
  {
    assert a != [] ==> a[0] in Elements(b);
    assert b != [] ==> b[0] in Elements(a);
    if a != [] {
      var k :| 0 <= k < |b| && b[k] == a[0];
      var m :| 0 <= m < |a| && a[m] == b[0];
      assert k > 0 ==> Less(b[0], a[0]);
      assert m > 0 ==> Less(a[0], b[0]);
      LessAsymmetric(a[0], b[0]);
      LessIrreflexive(a[0]);
      assert a[0] == b[0];
      TailElements(a);
      TailElements(b);
      SortedUnique(a[1..], b[1..]);
      assert a == [a[0]] + a[1..] && b == [b[0]] + b[1..];
    }
  }

  lemma {:induction false} SortedListExists(s: set<string>)
    decreases |s|
    ensures exists l :: StrictlySorted(l) && Elements(l) == s
  {
    if s == {} {
      assert StrictlySorted([]) && Elements([]) == {};
    } else {
      var x :| x in s;
      SortedListExists(s - {x});
      var l :| StrictlySorted(l) && Elements(l) == s - {x};
      var l2 := Insert(l, x);
      assert Elements(l2) == s;
    }
  }

  /** The iteration order of a `BTreeSet<String>` that holds `s`: its elements, ascending. */
  ghost function SortedList(s: set<string>): (l: seq<string>)
    ensures StrictlySorted(l) && Elements(l) == s
  {
    SortedListExists(s);
    var l :| StrictlySorted(l) && Elements(l) == s;
    l
  }
}
