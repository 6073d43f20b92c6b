/** Ascending iteration over the string keys of a storage map: the least key of
    a finite set, and all keys in ascending order. */
module Keys {
  import opened Text

  ghost predicate IsLeast(m: string, s: set<string>)
  {
    m in s && forall t | t in s :: LexLe(m, t)
  }

  /** Every non-empty finite set of strings has a least element. */
  lemma {:induction false} LeastExists(s: set<string>)
    requires s != {}
    ensures exists m :: IsLeast(m, s)
    decreases |s|
  {
    var x :| x in s;
    if s == {x} {
      LexLeRefl(x);
      assert IsLeast(x, s);
    } else {
      LeastExists(s - {x});
      var r :| IsLeast(r, s - {x});
      LexLeTotal(x, r);
      if LexLe(x, r) {
        forall t | t in s ensures LexLe(x, t) {
          if t == x { LexLeRefl(x); } else { LexLeTrans(x, r, t); }
        }
        assert IsLeast(x, s);
      } else {
        assert IsLeast(r, s);
      }
    }
  }

  /** There is only one least element. */
  lemma LeastUnique(m1: string, m2: string, s: set<string>)
    requires IsLeast(m1, s) && IsLeast(m2, s)
    ensures m1 == m2
  {
    LexLeAntisym(m1, m2);
  }

  /** A single key is its own least key. */
  lemma LeastOfOne(x: string, m: string)
    requires IsLeast(m, {x})
    ensures m == x
  {
  }

  /** The first key in ascending order. */
  ghost function Least(s: set<string>): (m: string)
    requires s != {}
    ensures IsLeast(m, s)
  {
    LeastExists(s);
    var m :| IsLeast(m, s); m
  }

  /** The keys of `s` in strictly ascending order. */
  ghost function Ascending(s: set<string>): (r: seq<string>)
    ensures |r| == |s|
    ensures forall i | 0 <= i < |r| :: r[i] in s
    ensures forall t | t in s :: t in r
    ensures forall i, j | 0 <= i < j < |r| :: LexLt(r[i], r[j])
    decreases |s|
  {
    if s == {} then []
    else
      var m := Least(s);
      var rest := Ascending(s - {m});
      assert forall j | 0 <= j < |rest| :: LexLt(m, rest[j]);
      [m] + rest
  }

  /** A key that `Ascending` lists within its first `n` places comes before
      every key it lists later: taking a prefix takes the smallest keys. */
  lemma AscendingPrefixIsSmallest(s: set<string>, n: nat, t: string)
    requires n <= |s| && t in s && t !in Ascending(s)[..n]
    ensures forall i | 0 <= i < n :: LexLt(Ascending(s)[i], t)
  {
    var r := Ascending(s);
    var j :| 0 <= j < |r| && r[j] == t;
    assert n <= j;
  }
}
