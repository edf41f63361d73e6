/** Lexicographic order on strings and the ascending list of a set of keys. */
module Ordering {
  predicate Less(a: string, b: string) {
    b != "" && (a == "" || a[0] < b[0] || (a[0] == b[0] && Less(a[1..], b[1..])))
  }

  lemma {:induction false} LessTotal(a: string, b: string)
    ensures Less(a, b) || Less(b, a) || a == b
    ensures !(Less(a, b) && Less(b, a)) && (Less(a, b) ==> a != b)
  {
    if a != "" && b != "" {
      LessTotal(a[1..], b[1..]);
      assert a == [a[0]] + a[1..] && b == [b[0]] + b[1..];
    }
  }

  lemma {:induction false} LessTransitive(a: string, b: string, c: string)
    requires Less(a, b) && Less(b, c)
    ensures Less(a, c)
  {
    if a != "" && a[0] == b[0] == c[0] {
      LessTransitive(a[1..], b[1..], c[1..]);
    }
  }

  ghost predicate IsLeast(m: string, keys: set<string>) {
    m in keys && forall x :: x in keys && x != m ==> Less(m, x)
  }

  lemma {:induction false} LeastExists(keys: set<string>)
    requires keys != {}
    ensures exists m :: IsLeast(m, keys)
  {
    var x :| x in keys;
    var rest := keys - {x};
    if rest == {} {
      assert keys == {x};
      assert IsLeast(x, keys);
    } else {
      LeastExists(rest);
      var m :| IsLeast(m, rest);
      LessTotal(x, m);
      if Less(x, m) {
        forall y | y in keys && y != x ensures Less(x, y) {
          if y != m {
            LessTransitive(x, m, y);
          }
        }
        assert IsLeast(x, keys);
      } else {
        assert IsLeast(m, keys);
      }
    }
  }

  lemma LeastUnique(a: string, b: string, keys: set<string>)
    requires IsLeast(a, keys) && IsLeast(b, keys)
    ensures a == b
  {
    LessTotal(a, b);
  }

  ghost function Least(keys: set<string>): (m: string)
    requires keys != {}
    ensures IsLeast(m, keys)
  {
    LeastExists(keys);
    var m :| IsLeast(m, keys);
    m
  }

  ghost function SortedKeys(keys: set<string>): seq<string> {
    if keys == {} then [] else
    var m := Least(keys);
    [m] + SortedKeys(keys - {m})
  }

  lemma {:induction false} SortedKeysMembers(keys: set<string>)
    ensures forall x :: x in SortedKeys(keys) <==> x in keys
  {
    if keys != {} {
      SortedKeysMembers(keys - {Least(keys)});
    }
  }

  method FindLeast(keys: set<string>) returns (m: string)
    requires keys != {}
    ensures m == Least(keys)
  {
    m :| m in keys;
    var rest := keys - {m};
    while rest != {}
      invariant m in keys && rest <= keys && m !in rest
      invariant forall x :: x in keys && x !in rest && x != m ==> Less(m, x)
      decreases rest
    {
      var y :| y in rest;
      rest := rest - {y};
      if Less(y, m) {
        forall x | x in keys && x !in rest && x != y ensures Less(y, x) {
          if x != m {
            LessTransitive(y, m, x);
          }
        }
        m := y;
      } else {
        LessTotal(m, y);
      }
    }
    LeastUnique(m, Least(keys), keys);
  }

  method SortKeys(keys: set<string>) returns (sorted: seq<string>)
    ensures sorted == SortedKeys(keys)
  {
    sorted := [];
    var rest := keys;
    while rest != {}
      invariant sorted + SortedKeys(rest) == SortedKeys(keys)
      decreases rest
    {
      var m := FindLeast(rest);
      assert SortedKeys(rest) == [m] + SortedKeys(rest - {m});
      sorted, rest := sorted + [m], rest - {m};
    }
  }
}
