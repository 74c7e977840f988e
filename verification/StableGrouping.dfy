/** Grouping rows by a key in order of first appearance, as dictionaries with order lists do. */
module StableGrouping {
  import opened Sequences

  function Keys<R, K>(rows: seq<R>, key: R -> K): (ks: seq<K>)
    ensures |ks| == |rows| && forall i :: 0 <= i < |rows| ==> ks[i] == key(rows[i])
  {
    seq(|rows|, i requires 0 <= i < |rows| => key(rows[i]))
  }

  /** The distinct keys, in order of first appearance. */
  function Firsts<K(==)>(ks: seq<K>): seq<K> {
    if ks == [] then []
    else
      var n := |ks| - 1;
      var before := Firsts(ks[..n]);
      if ks[n] in before then before else before + [ks[n]]
  }

  /** The rows with one key, in order. */
  function Pick<R, K(==)>(rows: seq<R>, key: R -> K, k: K): seq<R> {
    if rows == [] then []
    else
      var n := |rows| - 1;
      Pick(rows[..n], key, k) + if key(rows[n]) == k then [rows[n]] else []
  }

  /** The groups of the keys in `order`, one after the other. */
  function Gather<R, K(==)>(rows: seq<R>, key: R -> K, order: seq<K>): seq<R> {
    if order == [] then []
    else Gather(rows, key, order[..|order| - 1]) + Pick(rows, key, order[|order| - 1])
  }

  lemma {:induction false} PickMore<R, K>(rows: seq<R>, key: R -> K, r: R, k: K)
    ensures Pick(rows + [r], key, k) == Pick(rows, key, k) + if key(r) == k then [r] else []
  {
    assert (rows + [r])[..|rows|] == rows;
  }

  lemma {:induction false} KeysMore<R, K>(rows: seq<R>, key: R -> K, r: R)
    ensures Keys(rows + [r], key) == Keys(rows, key) + [key(r)]
  {
  }

  lemma {:induction false} FirstsMember<K>(ks: seq<K>, k: K)
    ensures k in Firsts(ks) <==> k in ks
  {
    if ks != [] {
      var n := |ks| - 1;
      FirstsMember(ks[..n], k);
      assert ks == ks[..n] + [ks[n]];
    }
  }

  /** Each key comes once. */
  lemma {:induction false} FirstsDistinct<K>(ks: seq<K>)
    ensures Distinct(Firsts(ks))
  {
    if ks != [] { FirstsDistinct(ks[..|ks| - 1]); }
  }

  lemma {:induction false} PickMember<R, K>(rows: seq<R>, key: R -> K, k: K, r: R)
    ensures r in Pick(rows, key, k) <==> r in rows && key(r) == k
  {
    if rows != [] {
      var n := |rows| - 1;
      PickMember(rows[..n], key, k, r);
      assert rows == rows[..n] + [rows[n]];
    }
  }

  /** `sub` is what is left of `rows` when some rows are dropped. */
  predicate Subsequence<R(==)>(sub: seq<R>, rows: seq<R>) {
    sub == [] || (rows != [] &&
      (Subsequence(sub, rows[..|rows| - 1])
       || (sub[|sub| - 1] == rows[|rows| - 1] && Subsequence(sub[..|sub| - 1], rows[..|rows| - 1]))))
  }

  lemma {:induction false} PickInOrder<R, K>(rows: seq<R>, key: R -> K, k: K)
    ensures Subsequence(Pick(rows, key, k), rows)
  {
    if rows != [] {
      var n := |rows| - 1;
      PickInOrder(rows[..n], key, k);
      var before := Pick(rows[..n], key, k);
      if key(rows[n]) == k { assert (before + [rows[n]])[..|before|] == before; }
      else { assert before + [] == before; }
    }
  }

  lemma {:induction false} PickNone<R, K>(rows: seq<R>, key: R -> K, k: K)
    requires k !in Keys(rows, key)
    ensures Pick(rows, key, k) == []
  {
    if rows != [] {
      var n := |rows| - 1;
      assert Keys(rows, key)[n] == key(rows[n]);
      assert forall x <- Keys(rows[..n], key) :: x in Keys(rows, key) by {
        assert Keys(rows[..n], key) == Keys(rows, key)[..n];
      }
      PickNone(rows[..n], key, k);
    }
  }

  // ------------------------------------------------------------ nothing is lost

  /** A new row joins the group of its key and leaves the others alone. */
  lemma {:induction false} GatherOther<R, K>(rows: seq<R>, key: R -> K, r: R, order: seq<K>)
    requires key(r) !in order
    ensures Gather(rows + [r], key, order) == Gather(rows, key, order)
  {
    if order != [] {
      var n := |order| - 1;
      assert order[n] in order && forall k <- order[..n] :: k in order;
      GatherOther(rows, key, r, order[..n]);
      PickMore(rows, key, r, order[n]);
      assert Pick(rows, key, order[n]) + [] == Pick(rows, key, order[n]);
    }
  }

  lemma {:induction false} GatherAdds<R, K>(rows: seq<R>, key: R -> K, r: R, order: seq<K>)
    requires Distinct(order) && key(r) in order
    ensures multiset(Gather(rows + [r], key, order)) == multiset(Gather(rows, key, order)) + multiset{r}
  {
    var n := |order| - 1;
    var k := order[n];
    var g, h := Gather(rows, key, order[..n]), Gather(rows + [r], key, order[..n]);
    var x := Pick(rows, key, k);
    PickMore(rows, key, r, k);
    if key(r) == k {
      GatherOther(rows, key, r, order[..n]);
      Assoc(g, x, [r]);
    } else {
      GatherAdds(rows, key, r, order[..n]);
      assert x + [] == x;
    }
  }

  /** A row with a new key forms the last group. */
  lemma {:induction false} GatherNewKey<R, K>(before: seq<R>, key: R -> K, r: R)
    requires key(r) !in Keys(before, key)
    ensures
      var order := Firsts(Keys(before, key));
      Gather(before + [r], key, order + [key(r)]) == Gather(before, key, order) + [r]
  {
    var order := Firsts(Keys(before, key));
    FirstsMember(Keys(before, key), key(r));
    GatherOther(before, key, r, order);
    PickMore(before, key, r, key(r));
    PickNone(before, key, key(r));
    assert [] + [r] == [r];
  }

  /** Grouping keeps every row exactly as often as it came. */
  lemma {:induction false} GatherKeeps<R, K>(rows: seq<R>, key: R -> K)
    ensures multiset(Gather(rows, key, Firsts(Keys(rows, key)))) == multiset(rows)
  {
    if rows != [] {
      var n := |rows| - 1;
      var before, r := rows[..n], rows[n];
      var ks := Keys(before, key);
      assert rows == before + [r];
      GatherKeeps(before, key);
      GatherStep(before, key, r);
    }
  }

  lemma {:induction false} GatherStep<R, K>(before: seq<R>, key: R -> K, r: R)
    ensures multiset(Gather(before + [r], key, Firsts(Keys(before + [r], key))))
         == multiset(Gather(before, key, Firsts(Keys(before, key)))) + multiset{r}
  {
    var ks := Keys(before, key);
    KeysMore(before, key, r);
    FirstsMember(ks, key(r));
    FirstsDistinct(ks);
    if key(r) in ks {
      GatherAdds(before, key, r, Firsts(ks));
    } else {
      GatherNewKey(before, key, r);
    }
  }

  // ------------------------------------------------------- contiguous groups

  /** Rows with equal keys stand together. */
  predicate Contiguous<K(==)>(ks: seq<K>) {
    forall a, b, c :: 0 <= a < b < c < |ks| && ks[a] == ks[c] ==> ks[b] == ks[a]
  }

  lemma {:induction false} LastStarted<K>(ks: seq<K>)
    requires ks != [] && Contiguous(ks)
    ensures Firsts(ks) != [] && Firsts(ks)[|Firsts(ks)| - 1] == ks[|ks| - 1]
  {
    var n := |ks| - 1;
    FirstsMember(ks[..n], ks[n]);
    if ks[n] in Firsts(ks[..n]) {
      var a :| 0 <= a < n && ks[..n][a] == ks[n];
      assert ks[n - 1] == ks[n];
      LastStarted(ks[..n]);
    }
  }

  /** Rows that came grouped come back in the order they came. */
  lemma {:induction false} GatherContiguous<R, K>(rows: seq<R>, key: R -> K)
    requires Contiguous(Keys(rows, key))
    ensures Gather(rows, key, Firsts(Keys(rows, key))) == rows
  {
    if rows != [] {
      var n := |rows| - 1;
      var before, r := rows[..n], rows[n];
      var ks := Keys(before, key);
      assert rows == before + [r];
      KeysMore(before, key, r);
      ContiguousPrefix(ks, key(r));
      GatherContiguous(before, key);
      FirstsMember(ks, key(r));
      if key(r) in ks { GatherLast(before, key, r); } else { GatherNewKey(before, key, r); }
      assert Keys(rows, key) == ks + [key(r)];
    }
  }

  lemma {:induction false} ContiguousPrefix<K>(ks: seq<K>, k: K)
    requires Contiguous(ks + [k])
    ensures Contiguous(ks)
  {
    var all := ks + [k];
    assert forall i :: 0 <= i < |ks| ==> all[i] == ks[i];
  }

  lemma {:induction false} GatherLastMore<R, K>(before: seq<R>, key: R -> K, r: R, order: seq<K>)
    requires order != [] && order[|order| - 1] == key(r) && key(r) !in order[..|order| - 1]
    ensures Gather(before + [r], key, order) == Gather(before, key, order) + [r]
  {
    var m := |order| - 1;
    GatherOther(before, key, r, order[..m]);
    PickMore(before, key, r, key(r));
    GatherLastKey(before, key, order, key(r));
    GatherLastKey(before + [r], key, order, key(r));
    Assoc(Gather(before, key, order[..m]), Pick(before, key, key(r)), [r]);
  }

  lemma {:induction false} GatherLastKey<R, K>(rows: seq<R>, key: R -> K, order: seq<K>, k: K)
    requires order != [] && k == order[|order| - 1]
    ensures Gather(rows, key, order) == Gather(rows, key, order[..|order| - 1]) + Pick(rows, key, k)
  {
  }

  /** A key that comes again, with nothing else in between, is the last one listed. */
  lemma {:induction false} LastAgain<K>(ks: seq<K>, k: K)
    requires k in ks && Contiguous(ks + [k])
    ensures Contiguous(ks)
    ensures var order := Firsts(ks);
      order != [] && order[|order| - 1] == k && k !in order[..|order| - 1]
  {
    var a :| 0 <= a < |ks| && ks[a] == k;
    var all := ks + [k];
    assert all[a] == all[|ks|] && (a < |ks| - 1 ==> all[|ks| - 1] == all[a]);
    ContiguousPrefix(ks, k);
    LastStarted(ks);
    FirstsDistinct(ks);
  }

  lemma {:induction false} GatherLast<R, K>(before: seq<R>, key: R -> K, r: R)
    requires key(r) in Keys(before, key) && Contiguous(Keys(before, key) + [key(r)])
    requires Gather(before, key, Firsts(Keys(before, key))) == before
    ensures Gather(before + [r], key, Firsts(Keys(before, key))) == before + [r]
  {
    var order := Firsts(Keys(before, key));
    LastAgain(Keys(before, key), key(r));
    GatherLastMore(before, key, r, order);
  }
}
