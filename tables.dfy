/** Generic folds over the store's tables.

    A table keyed by an integer primary key is a `map<int, T>`.  Queries
    that return "all rows" see them in ascending key order (`Rows`), and
    aggregate queries (`SUM(...)`) are folds of a per-row amount over those
    rows (`Sum`).  A new row receives the key one above the largest key in
    use, as an integer primary key does when the table gives no key. */
module Tables {

  /** Sum of `f` over `s`, adding the last element last (the order in which
      a loop accumulating `total += f(x)` adds them). */
  function Sum<T>(s: seq<T>, f: T -> real): real
  {
    if |s| == 0 then 0.0 else Sum(s[..|s| - 1], f) + f(s[|s| - 1])
  }

  lemma {:induction false} SumAppend<T>(a: seq<T>, b: seq<T>, f: T -> real)
    ensures Sum(a + b, f) == Sum(a, f) + Sum(b, f)
  {
    if |b| == 0 {
      assert a + b == a;
    } else {
      assert (a + b)[..|a + b| - 1] == a + b[..|b| - 1];
      SumAppend(a, b[..|b| - 1], f);
    }
  }

  lemma SumSingleton<T>(x: T, f: T -> real)
    ensures Sum([x], f) == f(x)
  {
    assert [x][..0] == [];
  }

  /** Changing one element changes the sum by the difference of its amounts. */
  lemma {:induction false} SumUpdate<T>(s: seq<T>, i: nat, v: T, f: T -> real)
    requires i < |s|
    ensures Sum(s[i := v], f) == Sum(s, f) - f(s[i]) + f(v)
  {
    var n := |s|;
    if i == n - 1 {
      assert s[i := v][..n - 1] == s[..n - 1];
    } else {
      assert s[i := v][..n - 1] == s[..n - 1][i := v];
      SumUpdate(s[..n - 1], i, v, f);
    }
  }

  /** Summing a pointwise sum of amounts is adding the two sums. */
  lemma {:induction false} SumAdd<T>(s: seq<T>, f: T -> real, g: T -> real, h: T -> real)
    requires forall i :: 0 <= i < |s| ==> h(s[i]) == f(s[i]) + g(s[i])
    ensures Sum(s, h) == Sum(s, f) + Sum(s, g)
  {
    if |s| > 0 {
      SumAdd(s[..|s| - 1], f, g, h);
    }
  }

  /** A prefix of a sequence extended by one element, as loops see it. */
  lemma PrefixStep<T>(s: seq<T>, i: nat)
    requires i < |s|
    ensures s[..i + 1][..i] == s[..i] && s[..i + 1][i] == s[i]
  {
  }

  predicate StrictlyIncreasing(s: seq<int>)
  {
    forall i, j :: 0 <= i < j < |s| ==> s[i] < s[j]
  }

  /** Some element of a non-empty set. */
  lemma Pick(s: set<int>) returns (e: int)
    requires s != {}
    ensures e in s
  {
    if forall x: int :: x !in s {
      assert false;
    }
    var x :| x in s;
    e := x;
  }

  /** Every non-empty set of keys has a least element. */
  lemma {:induction false} LeastOf(s: set<int>) returns (m: int)
    requires s != {}
    ensures m in s && forall y :: y in s ==> m <= y
  {
    var e := Pick(s);
    if s == {e} {
      m := e;
    } else {
      var rest := s - {e};
      assert e !in rest && rest + {e} == s;
      var least := LeastOf(rest);
      m := if e < least then e else least;
    }
  }

  lemma HasMinimum(s: set<int>)
    requires s != {}
    ensures exists m :: m in s && forall y :: y in s ==> m <= y
  {
    var m := LeastOf(s);
  }

  function MinKey(s: set<int>): (m: int)
    requires s != {}
    ensures m in s && forall y :: y in s ==> m <= y
  {
    HasMinimum(s);
    var m :| m in s && forall y :: y in s ==> m <= y;
    m
  }

  /** The keys of a table in ascending order (see `SortedKeysSpec`). */
  function SortedKeys(s: set<int>): seq<int>
    decreases |s|
  {
    if s == {} then []
    else
      var m := MinKey(s);
      [m] + SortedKeys(s - {m})
  }

  /** `SortedKeys` lists every key of the set exactly once, ascending. */
  lemma {:induction false} SortedKeysSpec(s: set<int>)
    ensures |SortedKeys(s)| == |s|
    ensures forall k :: k in SortedKeys(s) <==> k in s
    ensures StrictlyIncreasing(SortedKeys(s))
    decreases |s|
  {
    if s != {} {
      var m := MinKey(s);
      var tail := SortedKeys(s - {m});
      SortedKeysSpec(s - {m});
      assert SortedKeys(s) == [m] + tail;
      forall i, j | 0 <= i < j < |[m] + tail| ensures ([m] + tail)[i] < ([m] + tail)[j] {
        if i == 0 {
          assert tail[j - 1] in s - {m};
        }
      }
    }
  }

  lemma MinKeyAddMax(s: set<int>, k: int)
    requires s != {}
    requires forall y :: y in s ==> y < k
    ensures MinKey(s + {k}) == MinKey(s)
  {
    var least := MinKey(s + {k});
    assert MinKey(s) in s + {k};
    assert least == k || least in s;
  }

  lemma {:induction false} SortedKeysAddMax(s: set<int>, k: int)
    requires forall y :: y in s ==> y < k
    ensures SortedKeys(s + {k}) == SortedKeys(s) + [k]
    decreases |s|
  {
    if s == {} {
      assert s + {k} == {k};
      assert MinKey({k}) == k;
      assert {k} - {k} == {};
    } else {
      var m := MinKey(s);
      MinKeyAddMax(s, k);
      var rest := s - {m};
      assert (s + {k}) - {m} == rest + {k};
      SortedKeysAddMax(rest, k);
      calc {
        SortedKeys(s + {k});
        [m] + SortedKeys(rest + {k});
        [m] + (SortedKeys(rest) + [k]);
        ([m] + SortedKeys(rest)) + [k];
        SortedKeys(s) + [k];
      }
    }
  }

  /** Sum of `f` over the rows stored under the keys `ks`, in that order. */
  function KeySum<T>(ks: seq<int>, m: map<int, T>, f: T -> real): real
    requires forall i :: 0 <= i < |ks| ==> ks[i] in m
  {
    if |ks| == 0 then 0.0 else KeySum(ks[..|ks| - 1], m, f) + f(m[ks[|ks| - 1]])
  }

  /** SUM of `f` over all rows of a table, in ascending key order. */
  function MapSum<T>(m: map<int, T>, f: T -> real): real
  {
    SortedKeysSpec(m.Keys);
    KeySum(SortedKeys(m.Keys), m, f)
  }

  /** Rows under keys that `ks` does not list do not contribute. */
  lemma {:induction false} KeySumOther<T>(ks: seq<int>, m: map<int, T>, k: int, v: T, f: T -> real)
    requires forall i :: 0 <= i < |ks| ==> ks[i] in m
    requires k !in ks
    ensures KeySum(ks, m[k := v], f) == KeySum(ks, m, f)
  {
    if |ks| > 0 {
      KeySumOther(ks[..|ks| - 1], m, k, v, f);
    }
  }

  /** A row listed exactly once contributes its amount exactly once. */
  lemma {:induction false} KeySumUpdate<T>(ks: seq<int>, m: map<int, T>, k: int, v: T, f: T -> real)
    requires forall i :: 0 <= i < |ks| ==> ks[i] in m
    requires StrictlyIncreasing(ks) && k in ks && k in m
    ensures KeySum(ks, m[k := v], f) == KeySum(ks, m, f) - f(m[k]) + f(v)
  {
    var n := |ks|;
    var init := ks[..n - 1];
    if ks[n - 1] == k {
      assert k !in init by {
        forall i | 0 <= i < |init| ensures init[i] != k { assert ks[i] < ks[n - 1]; }
      }
      KeySumOther(init, m, k, v, f);
    } else {
      assert k in init by {
        var i :| 0 <= i < n && ks[i] == k;
        assert i < n - 1 && init[i] == k;
      }
      KeySumUpdate(init, m, k, v, f);
    }
  }

  /** Inserting a row under a key above every key in use adds its amount. */
  lemma KeySumSnoc<T>(ks: seq<int>, m: map<int, T>, k: int, f: T -> real)
    requires forall i :: 0 <= i < |ks| ==> ks[i] in m
    requires k in m
    ensures KeySum(ks + [k], m, f) == KeySum(ks, m, f) + f(m[k])
  {
    assert (ks + [k])[..|ks|] == ks;
  }

  /** Listing one more key, above the listed ones and holding a new row,
      adds that row's amount. */
  lemma KeySumInsertMax<T>(ks: seq<int>, m: map<int, T>, k: int, v: T, f: T -> real)
    requires forall i :: 0 <= i < |ks| ==> ks[i] in m
    requires k !in ks
    ensures KeySum(ks + [k], m[k := v], f) == KeySum(ks, m, f) + f(v)
  {
    KeySumOther(ks, m, k, v, f);
    KeySumSnoc(ks, m[k := v], k, f);
  }

  lemma MapSumInsertMax<T>(m: map<int, T>, k: int, v: T, f: T -> real)
    requires forall j :: j in m ==> j < k
    ensures MapSum(m[k := v], f) == MapSum(m, f) + f(v)
  {
    var ks := SortedKeys(m.Keys);
    SortedKeysSpec(m.Keys);
    assert m[k := v].Keys == m.Keys + {k};
    SortedKeysAddMax(m.Keys, k);
    KeySumInsertMax(ks, m, k, v, f);
  }

  /** Replacing the row under an existing key changes the sum by the
      difference of the two rows' amounts. */
  lemma MapSumUpdate<T>(m: map<int, T>, k: int, v: T, f: T -> real)
    requires k in m
    ensures MapSum(m[k := v], f) == MapSum(m, f) - f(m[k]) + f(v)
  {
    assert m[k := v].Keys == m.Keys;
    SortedKeysSpec(m.Keys);
    KeySumUpdate(SortedKeys(m.Keys), m, k, v, f);
  }

  /** The key the next inserted row receives: one above the largest key in
      use, or 1 for an empty table. */
  function NextId<T>(m: map<int, T>): (r: int)
    ensures r !in m
    ensures forall k :: k in m ==> k < r
    ensures m == map[] ==> r == 1
    ensures m != map[] ==> r - 1 in m
  {
    var ks := SortedKeys(m.Keys);
    SortedKeysSpec(m.Keys);
    if |ks| == 0 then
      assert m.Keys == {};
      1
    else
      assert forall k :: k in m ==> k <= ks[|ks| - 1] by {
        forall k | k in m ensures k <= ks[|ks| - 1] {
          var i :| 0 <= i < |ks| && ks[i] == k;
          assert i == |ks| - 1 || ks[i] < ks[|ks| - 1];
        }
      }
      ks[|ks| - 1] + 1
  }

  lemma {:induction false} KeySumAdd<T>(ks: seq<int>, m: map<int, T>, f: T -> real, g: T -> real, h: T -> real)
    requires forall i :: 0 <= i < |ks| ==> ks[i] in m
    requires forall k :: k in m ==> h(m[k]) == f(m[k]) + g(m[k])
    ensures KeySum(ks, m, h) == KeySum(ks, m, f) + KeySum(ks, m, g)
  {
    if |ks| > 0 {
      KeySumAdd(ks[..|ks| - 1], m, f, g, h);
    }
  }

  /** SUM of a pointwise sum of amounts is the sum of the two SUMs. */
  lemma MapSumAdd<T>(m: map<int, T>, f: T -> real, g: T -> real, h: T -> real)
    requires forall k :: k in m ==> h(m[k]) == f(m[k]) + g(m[k])
    ensures MapSum(m, h) == MapSum(m, f) + MapSum(m, g)
  {
    SortedKeysSpec(m.Keys);
    KeySumAdd(SortedKeys(m.Keys), m, f, g, h);
  }

  lemma {:induction false} KeySumZero<T>(ks: seq<int>, m: map<int, T>, f: T -> real)
    requires forall i :: 0 <= i < |ks| ==> ks[i] in m
    requires forall k :: k in m ==> f(m[k]) == 0.0
    ensures KeySum(ks, m, f) == 0.0
  {
    if |ks| > 0 {
      KeySumZero(ks[..|ks| - 1], m, f);
    }
  }

  /** A SUM over rows that all contribute nothing is zero. */
  lemma MapSumZero<T>(m: map<int, T>, f: T -> real)
    requires forall k :: k in m ==> f(m[k]) == 0.0
    ensures MapSum(m, f) == 0.0
  {
    SortedKeysSpec(m.Keys);
    KeySumZero(SortedKeys(m.Keys), m, f);
  }
}
