/** How the guardrail's scans run over concatenated text: a stretch without the
    sought keyword is passed over. */
module Scanning {
  import opened Text
  import opened Guardrail

  predicate Without(ts: seq<Token>, keywords: set<string>) { forall t <- ts :: !Stops(t, keywords) }

  lemma {:induction false} WithoutTail(ts: seq<Token>, keywords: set<string>)
    requires ts != [] && Without(ts, keywords)
    ensures !Stops(ts[0], keywords) && Without(ts[1..], keywords)
  {
    assert ts[0] in ts;
    assert forall t <- ts[1..] :: t in ts;
  }

  lemma {:induction false} CountKwConcat(a: seq<Token>, b: seq<Token>, kw: string)
    ensures CountKw(a + b, kw) == CountKw(a, kw) + CountKw(b, kw)
  {
    if a == [] { assert a + b == b; }
    else { CountKwConcat(a[1..], b, kw); assert (a + b)[1..] == a[1..] + b; }
  }

  lemma {:induction false} CountKwZero(a: seq<Token>, kw: string)
    requires Without(a, {kw})
    ensures CountKw(a, kw) == 0
  {
    if a != [] {
      WithoutTail(a, {kw});
      CountKwZero(a[1..], kw);
    }
  }

  lemma {:induction false} CountPairSkips(a: seq<Token>, b: seq<Token>, first: string, second: string)
    requires Without(a, {first})
    ensures CountPair(a + b, first, second) == CountPair(b, first, second)
  {
    if a == [] { assert a + b == b; }
    else {
      WithoutTail(a, {first});
      CountPairSkips(a[1..], b, first, second);
      assert (a + b)[1..] == a[1..] + b;
    }
  }

  lemma {:induction false} CountPairNone(a: seq<Token>, first: string, second: string)
    requires Without(a, {first})
    ensures CountPair(a, first, second) == 0
  {
    CountPairSkips(a, [], first, second);
    assert a + [] == a;
  }

  lemma {:induction false} AfterSkips(a: seq<Token>, b: seq<Token>, kw: string)
    requires Without(a, {kw})
    ensures After(a + b, kw) == After(b, kw)
  {
    if a == [] { assert a + b == b; }
    else {
      WithoutTail(a, {kw});
      AfterSkips(a[1..], b, kw);
      assert (a + b)[1..] == a[1..] + b;
    }
  }

  lemma {:induction false} AfterNone(a: seq<Token>, kw: string)
    requires Without(a, {kw})
    ensures After(a, kw).None?
  {
    AfterSkips(a, [], kw);
    assert a + [] == a;
  }

  lemma {:induction false} AfterPairSkips(a: seq<Token>, b: seq<Token>, first: string, second: string)
    requires Without(a, {first})
    ensures AfterPair(a + b, first, second) == AfterPair(b, first, second)
  {
    if a == [] { assert a + b == b; }
    else {
      WithoutTail(a, {first});
      AfterPairSkips(a[1..], b, first, second);
      assert (a + b)[1..] == a[1..] + b;
    }
  }

  lemma {:induction false} UpToSkips(a: seq<Token>, b: seq<Token>, stops: set<string>)
    requires Without(a, stops)
    ensures UpTo(a + b, stops) == a + UpTo(b, stops)
  {
    if a == [] { assert a + b == b; }
    else {
      WithoutTail(a, stops);
      UpToSkips(a[1..], b, stops);
      assert (a + b)[1..] == a[1..] + b;
    }
  }

  /** The search moves over positions where nothing is found. */
  lemma {:induction false} FindSkips<T>(at: seq<Found<T>>, i: nat, j: nat)
    requires i <= j <= |at|
    requires forall k :: i <= k < j ==> at[k].Nothing?
    ensures FindAll(at, i) == FindAll(at, j)
    decreases j - i
  {
    if i < j { FindSkips(at, i + 1, j); }
  }

  /** A first match in front of more matches. */
  lemma {:induction false} FindJoin<T>(at: seq<Found<T>>, i: nat, a: seq<Match<T>>, n: nat, b: seq<Match<T>>, e: nat)
    requires FindAll(at, i) == a + FindAll(at, n)
    requires FindAll(at, n) == b + FindAll(at, e)
    ensures FindAll(at, i) == (a + b) + FindAll(at, e)
  {
  }

  lemma {:induction false} FindBounds<T>(at: seq<Found<T>>, i: nat)
    requires forall k :: 0 <= k < |at| && at[k].Found? ==> 0 < at[k].len <= |at| - k
    ensures forall m <- FindAll(at, i) :: i <= m.begin < m.end <= |at|
    decreases |at| - i
  {
    if i < |at| {
      match at[i]
      case Nothing => FindBounds(at, i + 1);
      case Found(_, len) => FindBounds(at, i + len);
    }
  }

  /** `part` stands at position `i` of `ts`. */
  predicate At(ts: seq<Token>, i: nat, part: seq<Token>) {
    i + |part| <= |ts| && forall k :: 0 <= k < |part| ==> part[k] == ts[i + k]
  }

  lemma {:induction false} AtSplit(ts: seq<Token>, i: nat, a: seq<Token>, b: seq<Token>)
    requires At(ts, i, a + b)
    ensures At(ts, i, a) && At(ts, i + |a|, b)
  {
    forall k | 0 <= k < |a| ensures a[k] == ts[i + k] { assert (a + b)[k] == a[k]; }
    forall k | 0 <= k < |b| ensures b[k] == ts[i + |a| + k] { assert (a + b)[|a| + k] == b[k]; }
  }

  lemma {:induction false} AtIndex(ts: seq<Token>, i: nat, part: seq<Token>, k: nat)
    requires At(ts, i, part) && k < |part|
    ensures ts[i + k] == part[k]
  {
  }

  lemma {:induction false} AtRest(ts: seq<Token>, i: nat, part: seq<Token>)
    requires At(ts, i, part)
    ensures ts[i..] == part + ts[i + |part|..]
  {
    assert |ts[i..]| == |part + ts[i + |part|..]|;
  }

  lemma {:induction false} RefsAtIndex(ts: seq<Token>, i: nat)
    requires i < |ts|
    ensures RefsAt(ts)[i] == RefAt(ts[i..])
  {
    if i == 0 { assert ts[0..] == ts; }
    else { RefsAtIndex(ts[1..], i - 1); assert ts[1..][i - 1..] == ts[i..]; }
  }

  lemma {:induction false} AliasesAtIndex(ts: seq<Token>, i: nat)
    requires i < |ts|
    ensures AliasesAt(ts)[i] == AliasAt(ts[i..])
  {
    if i == 0 { assert ts[0..] == ts; }
    else { AliasesAtIndex(ts[1..], i - 1); assert ts[1..][i - 1..] == ts[i..]; }
  }

  lemma {:induction false} NoRefs(ts: seq<Token>, i: nat, part: seq<Token>, e: nat)
    requires At(ts, i, part) && e == i + |part| && Without(part, {"FROM", "JOIN"})
    ensures FindAll(RefsAt(ts), i) == FindAll(RefsAt(ts), e)
  {
    forall k | i <= k < e ensures RefsAt(ts)[k].Nothing? {
      RefsAtIndex(ts, k);
      AtIndex(ts, i, part, k - i);
      assert part[k - i] in part;
      assert ts[k..][0] == ts[k];
    }
    FindSkips(RefsAt(ts), i, e);
  }

  lemma {:induction false} NoAliases(ts: seq<Token>, i: nat, part: seq<Token>, e: nat)
    requires At(ts, i, part) && e == i + |part| && Without(part, {"AS"})
    ensures FindAll(AliasesAt(ts), i) == FindAll(AliasesAt(ts), e)
  {
    forall k | i <= k < e ensures AliasesAt(ts)[k].Nothing? {
      AliasesAtIndex(ts, k);
      AtIndex(ts, i, part, k - i);
      assert part[k - i] in part;
      assert ts[k..][0] == ts[k];
    }
    FindSkips(AliasesAt(ts), i, e);
  }

  /** A first ORDER BY key starts two tokens before a BY. */
  lemma {:induction false} FirstKeySkips(a: seq<Token>, b: seq<Token>)
    requires Without(a, {"BY"})
    requires forall k :: 0 <= k < 2 && k < |b| ==> !IsKw(b[k], "BY")
    ensures HasFirstKey(a + b) == HasFirstKey(b)
  {
    if a == [] { assert a + b == b; }
    else {
      var ts := a + b;
      assert forall t <- a[1..] :: t in a;
      FirstKeySkips(a[1..], b);
      assert ts[1..] == a[1..] + b;
      if |ts| > 2 {
        if 2 < |a| { assert ts[2] == a[2] && a[2] in a; } else { assert ts[2] == b[2 - |a|]; }
      }
    }
  }

  lemma {:induction false} FirstKeyNone(a: seq<Token>)
    requires Without(a, {"BY"})
    ensures !HasFirstKey(a)
  {
    FirstKeySkips(a, []);
    assert a + [] == a;
  }
}
