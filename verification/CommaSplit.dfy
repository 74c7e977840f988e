/** Splitting a list at its top-level commas (`_split_top_level_commas`). */
module CommaSplit {
  import opened Text

  /** The pieces of `s`, read at parenthesis depth `depth` with `current` already collected. */
  function SplitFrom(s: string, depth: int, current: string): seq<string> {
    if s == "" then [current]
    else if s[0] == '(' then SplitFrom(s[1..], depth + 1, current + [s[0]])
    else if s[0] == ')' then SplitFrom(s[1..], depth - 1, current + [s[0]])
    else if s[0] == ',' && depth == 0 then [current] + SplitFrom(s[1..], 0, "")
    else SplitFrom(s[1..], depth, current + [s[0]])
  }

  function StripAll(items: seq<string>): (r: seq<string>)
    ensures |r| == |items|
    ensures forall i :: 0 <= i < |items| ==> r[i] == Strip(items[i])
  {
    seq(|items|, i requires 0 <= i < |items| => Strip(items[i]))
  }

  function Split(s: string): seq<string> { StripAll(SplitFrom(s, 0, "")) }

  method SplitRaw(text: string) returns (items: seq<string>)
    ensures items == SplitFrom(text, 0, "")
  {
    items := [];
    var depth := 0;
    var current := "";
    assert text[0..] == text;
    for i := 0 to |text|
      invariant items + SplitFrom(text[i..], depth, current) == SplitFrom(text, 0, "")
    {
      var ch := text[i];
      assert text[i..][1..] == text[i + 1..];
      if ch == '(' {
        depth := depth + 1;
        current := current + [ch];
      } else if ch == ')' {
        depth := depth - 1;
        current := current + [ch];
      } else if ch == ',' && depth == 0 {
        items := items + [current];
        current := "";
      } else {
        current := current + [ch];
      }
    }
    assert text[|text|..] == "";
    items := items + [current];
  }

  method SplitTopLevelCommas(text: string) returns (items: seq<string>)
    ensures items == Split(text)
  {
    var raw := SplitRaw(text);
    items := [];
    for i := 0 to |raw|
      invariant items == StripAll(raw)[..i]
    {
      items := items + [Strip(raw[i])];
    }
  }

  /** The items as a printed list: a comma and the white space `gap` between neighbours. */
  function Join(items: seq<string>, gap: string): string
    requires items != []
  {
    if |items| == 1 then items[0] else items[0] + "," + gap + Join(items[1..], gap)
  }

  /** Before stripping, the pieces joined with commas spell the text again. */
  lemma {:induction false} SplitSpells(s: string, depth: int, current: string)
    ensures SplitFrom(s, depth, current) != []
    ensures Join(SplitFrom(s, depth, current), "") == current + s
    decreases s
  {
    if s != "" {
      assert current + s == current + [s[0]] + s[1..];
      if s[0] == '(' {
        SplitSpells(s[1..], depth + 1, current + [s[0]]);
      } else if s[0] == ')' {
        SplitSpells(s[1..], depth - 1, current + [s[0]]);
      } else if s[0] == ',' && depth == 0 {
        SplitSpells(s[1..], 0, "");
        assert ([current] + SplitFrom(s[1..], 0, ""))[1..] == SplitFrom(s[1..], 0, "");
        assert current + "," + "" + s[1..] == current + s;
      } else {
        SplitSpells(s[1..], depth, current + [s[0]]);
      }
    }
  }

  function Step(c: char): int {
    if c == '(' then 1 else if c == ')' then -1 else 0
  }

  function Net(s: string): int {
    if s == "" then 0 else Step(s[0]) + Net(s[1..])
  }

  /** No comma of `s` stands at depth 0 when reading starts at `depth`. */
  predicate NoTopComma(s: string, depth: int) {
    s != "" ==>
      && (s[0] == ',' ==> depth != 0)
      && NoTopComma(s[1..], depth + Step(s[0]))
  }

  predicate ListItem(s: string) { Trimmed(s) && Net(s) == 0 && NoTopComma(s, 0) }

  lemma {:induction false} SplitAbsorbs(x: string, s: string, depth: int, current: string)
    requires NoTopComma(x, depth)
    ensures SplitFrom(x + s, depth, current) == SplitFrom(s, depth + Net(x), current + x)
    decreases x
  {
    if x == "" {
      assert x + s == s && current + x == current;
    } else {
      assert (x + s)[1..] == x[1..] + s;
      assert current + x == current + [x[0]] + x[1..];
      SplitAbsorbs(x[1..], s, depth + Step(x[0]), current + [x[0]]);
    }
  }

  lemma {:induction false} Indented(gap: string, x: string)
    requires forall c <- gap :: IsSpace(c)
    requires ListItem(x)
    ensures Strip(gap + x) == x && NoTopComma(gap + x, 0) && Net(gap + x) == 0
  {
    if gap == "" {
      assert gap + x == x;
      StripTrims(x);
    } else {
      assert (gap + x)[1..] == gap[1..] + x;
      assert gap[0] in gap;
      assert forall c <- gap[1..] :: c in gap;
      Indented(gap[1..], x);
    }
  }

  lemma {:induction false} SplitIndented(items: seq<string>, lead: string, gap: string)
    requires items != []
    requires forall x <- items :: ListItem(x)
    requires forall c <- lead + gap :: IsSpace(c)
    ensures Split(lead + Join(items, gap)) == items
  {
    var x := items[0];
    assert forall c <- lead :: c in lead + gap;
    assert forall c <- gap :: c in gap + gap && c in lead + gap;
    Indented(lead, x);
    assert "" + (lead + x) == lead + x;
    if |items| == 1 {
      assert (lead + x) + "" == lead + x;
      SplitAbsorbs(lead + x, "", 0, "");
    } else {
      var tail := gap + Join(items[1..], gap);
      assert lead + Join(items, gap) == (lead + x) + ("," + tail);
      SplitAbsorbs(lead + x, "," + tail, 0, "");
      assert ("," + tail)[1..] == tail;
      SplitIndented(items[1..], gap, gap);
    }
  }

  /** Splitting a printed list returns exactly the items that were joined. */
  lemma {:induction false} SplitRoundTrip(items: seq<string>, gap: string)
    requires items != []
    requires forall x <- items :: ListItem(x)
    requires forall c <- gap :: IsSpace(c)
    ensures Split(Join(items, gap)) == items
  {
    assert "" + gap == gap;
    SplitIndented(items, "", gap);
    assert "" + Join(items, gap) == Join(items, gap);
  }
}
