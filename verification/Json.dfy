/** JSON values as the hook planners decode them: numbers keep their literal,
    objects are unordered. */
module Json {
  datatype Json =
    | Null
    | Bool(b: bool)
    | Num(literal: string)
    | Str(s: string)
    | Arr(items: seq<Json>)
    | Obj(members: map<string, Json>)

  predicate IsScalar(v: Json) {
    !v.Arr? && !v.Obj?
  }

  // ---------------------------------------------------------------------
  // Byte-wise order of strings
  // ---------------------------------------------------------------------

  predicate Less(a: string, b: string) {
    if b == [] then false
    else if a == [] then true
    else a[0] < b[0] || (a[0] == b[0] && Less(a[1..], b[1..]))
  }

  lemma {:induction false} LessTotal(a: string, b: string)
    ensures Less(a, b) || a == b || Less(b, a)
    ensures !(Less(a, b) && Less(b, a)) && !Less(a, a)
  {
    if a != [] && b != [] && a[0] == b[0] {
      LessTotal(a[1..], b[1..]);
      assert a == [a[0]] + a[1..] && b == [b[0]] + b[1..];
    }
    if a != [] {
      LessTotal(a[1..], a[1..]);
    }
  }

  lemma {:induction false} LessTrans(a: string, b: string, c: string)
    requires Less(a, b) && Less(b, c)
    ensures Less(a, c)
  {
    if a != [] && a[0] == b[0] && b[0] == c[0] {
      LessTrans(a[1..], b[1..], c[1..]);
    }
  }

  predicate IsLeast(k: string, s: set<string>) {
    k in s && forall j :: j in s && j != k ==> Less(k, j)
  }

  lemma {:induction false} LeastExists(s: set<string>)
    requires s != {}
    ensures exists k :: IsLeast(k, s)
    decreases |s|
  {
    var x :| x in s;
    if s == {x} {
      assert IsLeast(x, s);
    } else {
      LeastExists(s - {x});
      var k :| IsLeast(k, s - {x});
      LessTotal(x, k);
      if Less(x, k) {
        forall j | j in s && j != x ensures Less(x, j) {
          if j != k {
            LessTrans(x, k, j);
          }
        }
        assert IsLeast(x, s);
      } else {
        assert IsLeast(k, s);
      }
    }
  }

  /** sort.Strings of the members of a set. */
  ghost function Sorted(s: set<string>): (r: seq<string>)
    decreases |s|
  {
    if s == {} then []
    else
      LeastExists(s);
      var k :| IsLeast(k, s);
      [k] + Sorted(s - {k})
  }

  lemma {:induction false} SortedIs(s: set<string>)
    ensures forall k :: k in Sorted(s) <==> k in s
    ensures Ascending(Sorted(s))
    decreases |s|
  {
    if s != {} {
      LeastExists(s);
      var k := Sorted(s)[0];
      assert IsLeast(k, s);
      SortedIs(s - {k});
    }
  }

  predicate Ascending(r: seq<string>) {
    forall i, j :: 0 <= i < j < |r| ==> Less(r[i], r[j])
  }

  lemma LeastIsUnique(k: string, j: string, s: set<string>)
    requires IsLeast(k, s) && IsLeast(j, s)
    ensures k == j
  {
    LessTotal(k, j);
  }

  method SortStrings(s: set<string>) returns (r: seq<string>)
    ensures r == Sorted(s)
  {
    r := [];
    var left := s;
    while left != {}
      invariant r + Sorted(left) == Sorted(s)
      decreases |left|
    {
      LeastExists(left);
      var k :| IsLeast(k, left);
      LeastIsUnique(k, Sorted(left)[0], left);
      assert Sorted(left) == [k] + Sorted(left - {k});
      r, left := r + [k], left - {k};
    }
  }

  predicate Distinct(keys: seq<string>) {
    forall i, j :: 0 <= i < j < |keys| ==> keys[i] != keys[j]
  }

  lemma AscendingIsDistinct(r: seq<string>)
    requires Ascending(r)
    ensures Distinct(r)
  {
    forall i, j | 0 <= i < j < |r| ensures r[i] != r[j] {
      LessTotal(r[i], r[i]);
    }
  }
}
