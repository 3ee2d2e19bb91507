/** Sort keys, and the stable sort that registry and policies order providers with. */
module Ordering {
  /** A tuple key: compared component by component, the string by code point. */
  datatype Key = Key(major: real, minor: int, id: string)

  predicate StringLe(a: string, b: string) {
    a == [] || (b != [] && (a[0] < b[0] || (a[0] == b[0] && StringLe(a[1..], b[1..]))))
  }

  predicate KeyLe(a: Key, b: Key) {
    || a.major < b.major
    || (a.major == b.major && (a.minor < b.minor || (a.minor == b.minor && StringLe(a.id, b.id))))
  }

  /** Strings are ordered by their first difference, a proper prefix before what it begins. */
  lemma {:induction false} StringLeIff(a: string, b: string)
    ensures StringLe(a, b) <==> a <= b || exists k: nat :: k < |a| && k < |b| && a[..k] == b[..k] && a[k] < b[k]
  {
    if a != [] && b != [] {
      assert a == [a[0]] + a[1..] && b == [b[0]] + b[1..];
      forall k: nat | 0 < k < |a| && k < |b| && a[..k] == b[..k] ensures a[0] == b[0] {
        assert a[..k][0] == a[0] && b[..k][0] == b[0];
      }
      if a[0] == b[0] {
        StringLeIff(a[1..], b[1..]);
        if k: nat :| k < |a[1..]| && k < |b[1..]| && a[1..][..k] == b[1..][..k] && a[1..][k] < b[1..][k] {
          assert a[..k + 1] == [a[0]] + a[1..][..k] && b[..k + 1] == [b[0]] + b[1..][..k];
          assert a[k + 1] < b[k + 1];
        }
        if k: nat :| k < |a| && k < |b| && a[..k] == b[..k] && a[k] < b[k] {
          assert k > 0;
          assert a[1..][..k - 1] == a[..k][1..] && b[1..][..k - 1] == b[..k][1..];
          assert a[1..][k - 1] < b[1..][k - 1];
        }
      } else if a[0] < b[0] {
        assert a[..0] == b[..0] && a[0] < b[0];
      }
    }
  }

  lemma {:induction false} StringLeTotal(a: string, b: string)
    ensures StringLe(a, b) || StringLe(b, a)
  {
    if a != [] && b != [] && a[0] == b[0] {
      StringLeTotal(a[1..], b[1..]);
    }
  }

  lemma {:induction false} StringLeAntisymmetric(a: string, b: string)
    requires StringLe(a, b) && StringLe(b, a)
    ensures a == b
  {
    if a != [] {
      StringLeAntisymmetric(a[1..], b[1..]);
      assert a == [a[0]] + a[1..] && b == [b[0]] + b[1..];
    }
  }

  lemma {:induction false} StringLeTransitive(a: string, b: string, c: string)
    requires StringLe(a, b) && StringLe(b, c)
    ensures StringLe(a, c)
  {
    if a != [] && a[0] == b[0] && b[0] == c[0] {
      StringLeTransitive(a[1..], b[1..], c[1..]);
    }
  }

  lemma KeyLeTotal(a: Key, b: Key)
    ensures KeyLe(a, b) || KeyLe(b, a)
  {
    StringLeTotal(a.id, b.id);
  }

  lemma KeyLeAntisymmetric(a: Key, b: Key)
    requires KeyLe(a, b) && KeyLe(b, a)
    ensures a == b
  {
    if a.major == b.major && a.minor == b.minor {
      StringLeAntisymmetric(a.id, b.id);
    }
  }

  lemma KeyLeTransitive(a: Key, b: Key, c: Key)
    requires KeyLe(a, b) && KeyLe(b, c)
    ensures KeyLe(a, c)
  {
    if a.major == b.major == c.major && a.minor == b.minor == c.minor {
      StringLeTransitive(a.id, b.id, c.id);
    }
  }

  predicate KeyLess(a: Key, b: Key) {
    KeyLe(a, b) && a != b
  }

  ghost predicate StrictlySorted<T(!new)>(s: seq<T>, key: T -> Key) {
    forall i, j :: 0 <= i < j < |s| ==> KeyLess(key(s[i]), key(s[j]))
  }

  /** Insertion before the first element that is not smaller, so that equals keep their order. */
  function Insert<T(!new)>(x: T, s: seq<T>, key: T -> Key): (r: seq<T>)
    ensures multiset(r) == multiset{x} + multiset(s)
    ensures |r| == |s| + 1
  {
    if s == [] || KeyLe(key(x), key(s[0])) then [x] + s
    else
      assert s == [s[0]] + s[1..];
      [s[0]] + Insert(x, s[1..], key)
  }

  function SortBy<T(!new)>(s: seq<T>, key: T -> Key): (r: seq<T>)
    ensures multiset(r) == multiset(s)
    ensures |r| == |s|
  {
    if s == [] then []
    else
      assert s == [s[0]] + s[1..];
      Insert(s[0], SortBy(s[1..], key), key)
  }

  lemma SortMembers<T(!new)>(s: seq<T>, key: T -> Key)
    ensures forall x :: x in SortBy(s, key) <==> x in s
  {
    forall x ensures x in SortBy(s, key) <==> x in s {
      assert x in multiset(SortBy(s, key)) <==> x in multiset(s);
    }
  }

  lemma {:induction false} InsertStrict<T(!new)>(x: T, s: seq<T>, key: T -> Key)
    requires StrictlySorted(s, key)
    requires forall y :: y in s ==> key(y) != key(x)
    ensures StrictlySorted(Insert(x, s, key), key)
  {
    var r := Insert(x, s, key);
    if s == [] {
    } else if KeyLe(key(x), key(s[0])) {
      forall j | 0 <= j < |s| ensures KeyLess(key(x), key(s[j])) {
        assert s[j] in s;
        KeyLeTransitive(key(x), key(s[0]), key(s[j])) by {
          if j == 0 { StringLeTotal(key(s[0]).id, key(s[0]).id); }
        }
      }
    } else {
      KeyLeTotal(key(x), key(s[0]));
      forall y | y in s[1..] ensures key(y) != key(x) {
        assert y in s;
      }
      InsertStrict(x, s[1..], key);
      var rest := Insert(x, s[1..], key);
      forall j | 0 <= j < |rest| ensures KeyLess(key(s[0]), key(rest[j])) {
        assert rest[j] in multiset(rest);
        if rest[j] != x {
          assert rest[j] in multiset(s[1..]);
          var k :| 0 <= k < |s[1..]| && s[1..][k] == rest[j];
          assert KeyLess(key(s[0]), key(s[k + 1]));
        } else {
          assert s[0] in s;
        }
      }
    }
  }

  /** Elements with distinct keys come out in strictly increasing key order. */
  lemma {:induction false} SortStrict<T(!new)>(s: seq<T>, key: T -> Key)
    requires forall i, j :: 0 <= i < j < |s| ==> key(s[i]) != key(s[j])
    ensures StrictlySorted(SortBy(s, key), key)
  {
    if s != [] {
      forall i, j | 0 <= i < j < |s[1..]| ensures key(s[1..][i]) != key(s[1..][j]) {
        assert key(s[i + 1]) != key(s[j + 1]);
      }
      SortStrict(s[1..], key);
      SortMembers(s[1..], key);
      forall y | y in SortBy(s[1..], key) ensures key(y) != key(s[0]) {
        var k :| 0 <= k < |s[1..]| && s[1..][k] == y;
        assert key(s[0]) != key(s[k + 1]);
      }
      InsertStrict(s[0], SortBy(s[1..], key), key);
    }
  }

  /** A strictly sorted sequence is determined by its elements. */
  lemma {:induction false} StrictUnique<T(!new)>(a: seq<T>, b: seq<T>, key: T -> Key)
    requires StrictlySorted(a, key) && StrictlySorted(b, key)
    requires forall x :: x in a <==> x in b
    ensures a == b
  {
    if a == [] {
      NoMembers(b);
    } else {
      assert a[0] in a && a[0] in b;
      assert b[0] in b && b[0] in a;
      if a[0] != b[0] {
        var i :| 0 <= i < |b| && b[i] == a[0];
        var j :| 0 <= j < |a| && a[j] == b[0];
        assert KeyLess(key(b[0]), key(b[i])) && KeyLess(key(a[0]), key(a[j]));
        KeyLeAntisymmetric(key(a[0]), key(b[0]));
      }
      forall x ensures x in a[1..] <==> x in b[1..] {
        TailMembers(a, key, x);
        TailMembers(b, key, x);
      }
      StrictUnique(a[1..], b[1..], key);
      assert a == [a[0]] + a[1..] && b == [b[0]] + b[1..];
    }
  }

  lemma TailMembers<T(!new)>(s: seq<T>, key: T -> Key, x: T)
    requires StrictlySorted(s, key) && s != []
    ensures x in s[1..] <==> x in s && x != s[0]
  {
    assert s == [s[0]] + s[1..];
    if x in s[1..] {
      var k :| 0 <= k < |s[1..]| && s[1..][k] == x;
      assert KeyLess(key(s[0]), key(s[k + 1]));
    }
  }

  lemma NoMembers<T>(s: seq<T>)
    ensures s == [] || exists x :: x in s
  {
    if s != [] {
      assert s[0] in s;
    }
  }

  /** Sorting two listings of the same elements by distinct keys gives the same sequence. */
  lemma SortOrderIndependent<T(!new)>(a: seq<T>, b: seq<T>, key: T -> Key)
    requires forall x :: x in a <==> x in b
    requires forall i, j :: 0 <= i < j < |a| ==> key(a[i]) != key(a[j])
    requires forall i, j :: 0 <= i < j < |b| ==> key(b[i]) != key(b[j])
    ensures SortBy(a, key) == SortBy(b, key)
  {
    SortStrict(a, key);
    SortStrict(b, key);
    SortMembers(a, key);
    SortMembers(b, key);
    StrictUnique(SortBy(a, key), SortBy(b, key), key);
  }

  /** An already sorted sequence is left alone, and only such a sequence is. */
  lemma SortFixesExactlySorted<T(!new)>(s: seq<T>, key: T -> Key)
    requires forall i, j :: 0 <= i < j < |s| ==> key(s[i]) != key(s[j])
    ensures SortBy(s, key) == s <==> StrictlySorted(s, key)
  {
    SortStrict(s, key);
    if StrictlySorted(s, key) {
      SortMembers(s, key);
      StrictUnique(SortBy(s, key), s, key);
    }
  }
}
