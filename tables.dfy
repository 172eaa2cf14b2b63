/** Ordered string-keyed tables: the model of the insertion-ordered Python
    dictionaries (category -> amount, category -> percentage, category -> rate)
    that the analytics code builds, reads with `.get(key, default)` and sums. */
module Tables {

  datatype Entry = Entry(key: string, value: real)

  type Table = seq<Entry>

  function Keys(t: Table): (ks: seq<string>)
    ensures |ks| == |t|
    ensures forall i :: 0 <= i < |t| ==> ks[i] == t[i].key
  {
    seq(|t|, i requires 0 <= i < |t| => t[i].key)
  }

  predicate HasKey(t: Table, k: string)
  {
    exists i :: 0 <= i < |t| && t[i].key == k
  }

  /** Every key occurs at most once, as in a dictionary. */
  predicate DistinctKeys(t: Table)
  {
    forall i, j :: 0 <= i < j < |t| ==> t[i].key != t[j].key
  }

  /** `d.get(k, default)`: the value stored under the first occurrence of `k`, or `default`. */
  function Get(t: Table, k: string, default: real): real
  {
    if t == [] then default
    else if t[0].key == k then t[0].value
    else Get(t[1..], k, default)
  }

  /** Looking up a key the table does not hold gives the default. */
  lemma {:induction false} GetAbsent(t: Table, k: string, default: real)
    requires !HasKey(t, k)
    ensures Get(t, k, default) == default
  {
    if t != [] {
      forall i | 0 <= i < |t[1..]| ensures t[1..][i].key != k {
        assert t[1..][i] == t[i + 1];
      }
      GetAbsent(t[1..], k, default);
    }
  }

  /** In a table with distinct keys, looking up the key of entry `i` gives its value. */
  lemma {:induction false} GetAt(t: Table, i: nat, default: real)
    requires DistinctKeys(t) && i < |t|
    ensures HasKey(t, t[i].key) && Get(t, t[i].key, default) == t[i].value
  {
    if i > 0 {
      assert t[1..][i - 1] == t[i];
      GetAt(t[1..], i - 1, default);
    }
  }

  /** The position of `k`, when present. */
  function IndexOf(t: Table, k: string): (i: nat)
    requires HasKey(t, k)
    ensures i < |t| && t[i].key == k
    ensures forall j :: 0 <= j < i ==> t[j].key != k
  {
    if t[0].key == k then 0
    else
      assert HasKey(t[1..], k) by {
        var j :| 0 <= j < |t| && t[j].key == k;
        assert t[1..][j - 1].key == k;
      }
      1 + IndexOf(t[1..], k)
  }

  /** `sum(d.values())`, added up from the first entry to the last. */
  function Sum(t: Table): real
  {
    if t == [] then 0.0 else Sum(t[..|t| - 1]) + t[|t| - 1].value
  }

  /** `d[k] = d.get(k, 0) + v`: adds `v` to the entry of `k`, appending a new entry when `k` is new. */
  function Accumulate(t: Table, k: string, v: real): Table
  {
    if HasKey(t, k) then
      var i := IndexOf(t, k);
      t[i := Entry(k, t[i].value + v)]
    else t + [Entry(k, v)]
  }

  /** Adding up a prefix one entry further adds that entry. */
  lemma SumPrefixStep(t: Table, k: nat)
    requires k < |t|
    ensures Sum(t[..k + 1]) == Sum(t[..k]) + t[k].value
  {
    assert t[..k + 1][..k] == t[..k];
  }

  lemma {:induction false} SumAppend(t: Table, e: Entry)
    ensures Sum(t + [e]) == Sum(t) + e.value
  {
    assert (t + [e])[..|t|] == t;
  }

  /** Replacing one entry changes the sum by the difference of the two values. */
  lemma {:induction false} SumUpdate(t: Table, i: nat, e: Entry)
    requires i < |t|
    ensures Sum(t[i := e]) == Sum(t) - t[i].value + e.value
    decreases |t|
  {
    var n := |t| - 1;
    if i < n {
      assert t[i := e][..n] == t[..n][i := e];
      SumUpdate(t[..n], i, e);
    } else {
      assert t[i := e][..n] == t[..n];
    }
  }

  lemma {:induction false} AccumulateSum(t: Table, k: string, v: real)
    ensures Sum(Accumulate(t, k, v)) == Sum(t) + v
  {
    if HasKey(t, k) {
      var i := IndexOf(t, k);
      SumUpdate(t, i, Entry(k, t[i].value + v));
    } else {
      SumAppend(t, Entry(k, v));
    }
  }

  /** Accumulating keeps the keys distinct, adds exactly `k`, and changes only the value of `k`. */
  lemma AccumulateEntries(t: Table, k: string, v: real)
    requires DistinctKeys(t)
    ensures DistinctKeys(Accumulate(t, k, v))
    ensures forall c :: HasKey(Accumulate(t, k, v), c) <==> HasKey(t, c) || c == k
    ensures forall c :: Get(Accumulate(t, k, v), c, 0.0) == Get(t, c, 0.0) + (if c == k then v else 0.0)
  {
    var r := Accumulate(t, k, v);
    if HasKey(t, k) {
      var i := IndexOf(t, k);
      assert r == t[i := Entry(k, t[i].value + v)];
      assert forall j :: 0 <= j < |r| ==> r[j].key == t[j].key;
      forall c ensures HasKey(r, c) <==> HasKey(t, c) {
        if HasKey(t, c) {
          var j := IndexOf(t, c);
          assert r[j].key == c;
        }
        if HasKey(r, c) {
          var j :| 0 <= j < |r| && r[j].key == c;
          assert t[j].key == c;
        }
      }
      forall c ensures Get(r, c, 0.0) == Get(t, c, 0.0) + (if c == k then v else 0.0) {
        if HasKey(t, c) {
          var j := IndexOf(t, c);
          GetAt(t, j, 0.0);
          GetAt(r, j, 0.0);
        } else {
          GetAbsent(r, c, 0.0);
          GetAbsent(t, c, 0.0);
        }
      }
    } else {
      assert r == t + [Entry(k, v)];
      forall c ensures HasKey(r, c) <==> HasKey(t, c) || c == k {
        if HasKey(t, c) {
          var j := IndexOf(t, c);
          assert r[j] == t[j];
        }
        if c == k {
          assert r[|t|].key == c;
        }
        if HasKey(r, c) {
          var j :| 0 <= j < |r| && r[j].key == c;
          if j < |t| {
            assert t[j].key == c;
          }
        }
      }
      forall c ensures Get(r, c, 0.0) == Get(t, c, 0.0) + (if c == k then v else 0.0) {
        if HasKey(t, c) {
          var j := IndexOf(t, c);
          assert r[j] == t[j];
          GetAt(t, j, 0.0);
          GetAt(r, j, 0.0);
        } else if c == k {
          GetAt(r, |t|, 0.0);
          GetAbsent(t, c, 0.0);
        } else {
          GetAbsent(r, c, 0.0);
          GetAbsent(t, c, 0.0);
        }
      }
    }
  }
}
