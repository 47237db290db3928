/** The two numpy calls ozinfo2yaml.py makes on the sensor list: `np.unique`, which
    sorts and de-duplicates, and `np.where(array == name)`, which lists the positions
    holding a name. numpy orders strings by code point, a shorter prefix first. */
module NumPy {

  /** Code-point lexicographic order on strings. */
  predicate Less(a: string, b: string) {
    if a == [] then b != []
    else b != [] && (a[0] < b[0] || (a[0] == b[0] && Less(a[1..], b[1..])))
  }

  lemma {:induction false} LessIrreflexive(a: string)
    ensures !Less(a, a)
  {
    if a != [] {
      LessIrreflexive(a[1..]);
    }
  }

  lemma {:induction false} LessTransitive(a: string, b: string, c: string)
    requires Less(a, b) && Less(b, c)
    ensures Less(a, c)
  {
    if a != [] && a[0] == b[0] && b[0] == c[0] {
      LessTransitive(a[1..], b[1..], c[1..]);
    }
  }

  /** Two different strings are ordered one way and not the other. */
  lemma {:induction false} LessTotal(a: string, b: string)
    requires a != b
    ensures Less(a, b) != Less(b, a)
  {
    if a != [] && b != [] && a[0] == b[0] {
      assert a == [a[0]] + a[1..] && b == [b[0]] + b[1..];
      LessTotal(a[1..], b[1..]);
    }
  }

  /** Every later element is greater: sorted and free of duplicates. */
  predicate StrictlySorted(r: seq<string>) {
    forall i, j :: 0 <= i < j < |r| ==> Less(r[i], r[j])
  }

  /** `x` added to a strictly sorted list at its place, unless it is there already. */
  function Insert(x: string, r: seq<string>): (r': seq<string>)
    requires StrictlySorted(r)
    ensures StrictlySorted(r')
    ensures forall y :: y in r' <==> y == x || y in r
    ensures r' != []
    ensures r != [] ==> r'[0] == x || r'[0] == r[0]
  {
    if r == [] then [x]
    else if x == r[0] then r
    else if Less(x, r[0]) then
      assert forall j :: 0 < j < |r| ==> Less(x, r[j]) by {
        forall j | 0 < j < |r| {
          LessTransitive(x, r[0], r[j]);
        }
      }
      [x] + r
    else
      LessTotal(x, r[0]);
      var tail := Insert(x, r[1..]);
      assert forall y :: y in tail ==> Less(r[0], y);
      [r[0]] + tail
  }

  /** `np.unique(names)`: the distinct names, in increasing order. */
  function Unique(names: seq<string>): (r: seq<string>)
    ensures StrictlySorted(r)
    ensures forall y :: y in r <==> y in names
  {
    if names == [] then []
    else
      var init := names[..|names| - 1];
      assert names == init + [names[|names| - 1]];
      Insert(names[|names| - 1], Unique(init))
  }

  lemma HeadIsMember(s: seq<string>)
    requires s != []
    ensures s[0] in s
  {
  }

  /** A strictly sorted list is determined by its elements: whatever builds one from
      `names`, as numpy does, builds `Unique(names)`. */
  lemma {:induction false} SortedListsWithSameElements(a: seq<string>, b: seq<string>)
    requires StrictlySorted(a) && StrictlySorted(b)
    requires forall y :: y in a <==> y in b
    ensures a == b
  {
    if a == [] || b == [] {
      if a != [] {
        HeadIsMember(a);
        assert false;
      } else if b != [] {
        HeadIsMember(b);
        assert false;
      }
    } else {
      if a[0] != b[0] {
        assert a[0] in a && b[0] in b;
        var k :| 0 <= k < |b| && b[k] == a[0];
        var m :| 0 <= m < |a| && a[m] == b[0];
        assert k != 0 && m != 0;
        assert Less(b[0], b[k]) && Less(a[0], a[m]);
        LessTotal(a[0], b[0]);
        assert false;
      }
      forall y
        ensures y in a[1..] <==> y in b[1..]
      {
        if y in a[1..] {
          var i :| 1 <= i < |a| && a[i] == y;
          LessIrreflexive(a[0]);
          assert y != a[0];
          assert y in b;
        }
        if y in b[1..] {
          var i :| 1 <= i < |b| && b[i] == y;
          LessIrreflexive(b[0]);
          assert y != b[0];
          assert y in a;
        }
      }
      SortedListsWithSameElements(a[1..], b[1..]);
      assert a == [a[0]] + a[1..] && b == [b[0]] + b[1..];
    }
  }

  /** `np.where(np.array(names) == name)[0]`: the positions holding `name`, ascending. */
  function Where(names: seq<string>, name: string): (idx: seq<nat>)
    ensures forall k :: 0 <= k < |idx| ==> idx[k] < |names| && names[idx[k]] == name
    ensures forall i :: 0 <= i < |names| && names[i] == name ==> i in idx
    ensures forall k, m :: 0 <= k < m < |idx| ==> idx[k] < idx[m]
  {
    if names == [] then []
    else
      var n := |names| - 1;
      var before := Where(names[..n], name);
      if names[n] == name then before + [n] else before
  }
}
