/** Shared vocabulary of the model: optional values, service outcomes, the
    ordering Java's String.compareTo induces, sorted key lists and joining. */
module Common {

  /** A Java reference that may be null, or a JavaScript value that may be undefined. */
  datatype Option<T> = None | Some(value: T)

  /** The outcome of a service call: a value, or the code of the AppException
      (or the name of the Java exception) that the call throws. */
  datatype Result<T> = Ok(value: T) | Err(code: string)

  /** The outcome of a service call that returns nothing. */
  datatype Outcome = Done | Fail(code: string)

  /** `a.compareTo(b) < 0` for Java strings: lexicographic order on characters,
      a proper prefix coming first. */
  predicate StrLt(a: string, b: string)
  {
    if |a| == 0 then |b| > 0
    else if |b| == 0 then false
    else if a[0] != b[0] then a[0] < b[0]
    else StrLt(a[1..], b[1..])
  }

  lemma {:induction false} StrLtIrreflexive(a: string)
    ensures !StrLt(a, a)
  {
    if |a| > 0 { StrLtIrreflexive(a[1..]); }
  }

  lemma {:induction false} StrLtTransitive(a: string, b: string, c: string)
    requires StrLt(a, b) && StrLt(b, c)
    ensures StrLt(a, c)
  {
    if |a| > 0 && |b| > 0 && |c| > 0 && a[0] == b[0] && b[0] == c[0] {
      StrLtTransitive(a[1..], b[1..], c[1..]);
    }
  }

  lemma {:induction false} StrLtTotal(a: string, b: string)
    requires a != b
    ensures StrLt(a, b) || StrLt(b, a)
  {
    if |a| > 0 && |b| > 0 && a[0] == b[0] {
      assert a == [a[0]] + a[1..] && b == [b[0]] + b[1..];
      StrLtTotal(a[1..], b[1..]);
    }
  }

  lemma StrLtAsymmetric(a: string, b: string)
    requires StrLt(a, b)
    ensures !StrLt(b, a)
  {
    if StrLt(b, a) {
      StrLtTransitive(a, b, a);
      StrLtIrreflexive(a);
    }
  }

  /** Strictly ascending in Java string order (so without repetitions). */
  ghost predicate StrictlySorted(s: seq<string>)
  {
    forall i, j :: 0 <= i < j < |s| ==> StrLt(s[i], s[j])
  }

  /** `m` is the least element of `ks` in Java string order. */
  ghost predicate IsLeast(m: string, ks: set<string>)
  {
    m in ks && forall k :: k in ks && k != m ==> StrLt(m, k)
  }

  /** Every non-empty finite set of strings has a least element. */
  lemma {:induction false} LeastExists(ks: set<string>)
    requires ks != {}
    ensures exists m :: IsLeast(m, ks)
    decreases |ks|
  {
    var x :| x in ks;
    if ks == {x} {
      assert IsLeast(x, ks);
    } else {
      var rest := ks - {x};
      LeastExists(rest);
      var m :| IsLeast(m, rest);
      if StrLt(m, x) {
        forall k | k in ks && k != m ensures StrLt(m, k) {
          if k != x { assert k in rest; }
        }
        assert IsLeast(m, ks);
      } else {
        StrLtTotal(m, x);
        forall k | k in ks && k != x ensures StrLt(x, k) {
          if k != m { assert k in rest; StrLtTransitive(x, m, k); }
        }
        assert IsLeast(x, ks);
      }
    }
  }

  /** The keys of a map as `Collections.sort` leaves them: the unique strictly
      ascending enumeration of the set. */
  ghost function SortedKeys(ks: set<string>): (r: seq<string>)
    ensures StrictlySorted(r)
    ensures forall k :: k in r <==> k in ks
    ensures |r| == |ks|
    decreases |ks|
  {
    if ks == {} then []
    else
      LeastExists(ks);
      var m :| IsLeast(m, ks);
      var rest := SortedKeys(ks - {m});
      assert forall j :: 0 <= j < |rest| ==> rest[j] in ks - {m};
      [m] + rest
  }

  /** Two strictly sorted sequences with the same elements are equal. */
  lemma {:induction false} SortedUnique(s: seq<string>, t: seq<string>)
    requires StrictlySorted(s) && StrictlySorted(t)
    requires forall k :: k in s <==> k in t
    ensures s == t
  {
    if s == [] {
      assert forall i | 0 <= i < |t| :: t[i] in t;
    } else {
      assert s[0] in t;
      if s[0] != t[0] {
        assert s[0] in t && t[0] in s;
        var i :| 0 <= i < |t| && t[i] == s[0];
        var j :| 0 <= j < |s| && s[j] == t[0];
        assert StrLt(t[0], s[0]) by { assert i != 0; }
        assert StrLt(s[0], t[0]) by { assert j != 0; }
        StrLtAsymmetric(s[0], t[0]);
      }
      forall k ensures k in s[1..] <==> k in t[1..] {
        if k in s[1..] {
          var i :| 1 <= i < |s| && s[i] == k;
          assert StrLt(s[0], k);
          if k == t[0] { StrLtIrreflexive(k); }
          assert k in t;
        }
        if k in t[1..] {
          var i :| 1 <= i < |t| && t[i] == k;
          assert StrLt(t[0], k);
          if k == s[0] { StrLtIrreflexive(k); }
          assert k in s;
        }
      }
      SortedUnique(s[1..], t[1..]);
      assert s == [s[0]] + s[1..] && t == [t[0]] + t[1..];
    }
  }

  /** Inserts a new string at its place in a strictly sorted sequence. */
  function Insert(s: seq<string>, k: string): (r: seq<string>)
    requires k !in s
    ensures forall x :: x in r <==> x in s || x == k
    ensures |r| == |s| + 1
    ensures StrictlySorted(s) ==> StrictlySorted(r)
  {
    if s == [] then [k]
    else if StrLt(k, s[0]) then
      var r := [k] + s;
      assert StrictlySorted(s) ==> StrictlySorted(r) by {
        if StrictlySorted(s) {
          forall i, j | 0 <= i < j < |r| ensures StrLt(r[i], r[j]) {
            if i == 0 && j > 1 { StrLtTransitive(k, s[0], s[j - 1]); }
          }
        }
      }
      r
    else
      var tail := Insert(s[1..], k);
      var r := [s[0]] + tail;
      assert StrictlySorted(s) ==> StrictlySorted(r) by {
        if StrictlySorted(s) {
          assert StrictlySorted(s[1..]);
          StrLtTotal(k, s[0]);
          forall j | 0 < j < |r| ensures StrLt(s[0], r[j]) {
            assert r[j] in s[1..] || r[j] == k;
            if r[j] != k {
              var i :| 0 <= i < |s[1..]| && s[1..][i] == r[j];
              assert s[i + 1] == r[j];
            }
          }
        }
      }
      r
  }

  /** The model of `Collections.sort(new ArrayList<>(m.keySet()))`. */
  method SortKeys(ks: set<string>) returns (r: seq<string>)
    ensures r == SortedKeys(ks)
  {
    r := [];
    var rest := ks;
    while rest != {}
      invariant StrictlySorted(r)
      invariant forall k :: k in r || k in rest <==> k in ks
      invariant forall k :: k in r ==> k !in rest
      decreases |rest|
    {
      var k :| k in rest;
      r := Insert(r, k);
      rest := rest - {k};
    }
    SortedUnique(r, SortedKeys(ks));
  }

  /** `String.join(sep, parts)`. */
  function Join(parts: seq<string>, sep: string): string
  {
    if |parts| == 0 then ""
    else if |parts| == 1 then parts[0]
    else parts[0] + sep + Join(parts[1..], sep)
  }

  /** Appending one more part to a join adds one separator and the part. */
  lemma {:induction false} JoinSnoc(parts: seq<string>, p: string, sep: string)
    requires |parts| > 0
    ensures Join(parts + [p], sep) == Join(parts, sep) + sep + p
  {
    if |parts| == 1 {
      assert (parts + [p])[1..] == [p];
    } else {
      assert (parts + [p])[1..] == parts[1..] + [p];
      JoinSnoc(parts[1..], p, sep);
    }
  }

  /** A join contains a character only if a part or the separator does. */
  lemma {:induction false} JoinChars(parts: seq<string>, sep: string, c: char)
    requires c !in sep
    requires forall i :: 0 <= i < |parts| ==> c !in parts[i]
    ensures c !in Join(parts, sep)
  {
    if |parts| > 1 { JoinChars(parts[1..], sep, c); }
  }

  /** The number of occurrences of `c` in `s`. */
  function Count(s: string, c: char): nat
  {
    if s == [] then 0 else (if s[0] == c then 1 else 0) + Count(s[1..], c)
  }

  lemma {:induction false} CountAppend(s: string, t: string, c: char)
    ensures Count(s + t, c) == Count(s, c) + Count(t, c)
  {
    if s == [] {
      assert s + t == t;
    } else {
      assert (s + t)[1..] == s[1..] + t;
      CountAppend(s[1..], t, c);
    }
  }

  lemma {:induction false} CountAbsent(s: string, c: char)
    requires c !in s
    ensures Count(s, c) == 0
  {
    if s != [] { CountAbsent(s[1..], c); }
  }

  /** With parts free of the one-character separator, the join holds exactly
      one separator fewer than there are parts: the parts can be read back. */
  lemma {:induction false} JoinSeparatorCount(parts: seq<string>, c: char)
    requires |parts| > 0
    requires forall i :: 0 <= i < |parts| ==> c !in parts[i]
    ensures Count(Join(parts, [c]), c) == |parts| - 1
  {
    if |parts| == 1 {
      CountAbsent(parts[0], c);
    } else {
      JoinSeparatorCount(parts[1..], c);
      CountAbsent(parts[0], c);
      CountAppend(parts[0] + [c], Join(parts[1..], [c]), c);
      CountAppend(parts[0], [c], c);
      assert Count([c], c) == 1;
    }
  }

  /** Multiplying by a positive number keeps strict order. */
  lemma MulLess(a: int, b: int, n: int)
    requires n >= 1 && a * n < b * n
    ensures a < b
  {
    assert (b - a) * n > 0;
  }

  /** Multiplying by a positive number keeps the order. */
  lemma MulMono(a: int, b: int, n: int)
    requires n >= 1 && a <= b
    ensures a * n <= b * n
  {
    assert (b - a) * n >= 0;
  }

  /** Euclidean division is unique: a quotient and remainder in range are
      the ones `/` and `%` give. */
  lemma DivModUnique(a: int, n: int, q: int, r: int)
    requires n > 0 && a == q * n + r && 0 <= r < n
    ensures a % n == r && a / n == q
  {
    var p := a / n;
    assert a == p * n + a % n;
    MulLess(q, p + 1, n);
    MulLess(p, q + 1, n);
  }
}
