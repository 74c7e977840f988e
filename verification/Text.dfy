/** Characters, words and tokens: the level at which the guardrail's regular
    expressions look at SQL text. A maximal run of identifier characters is one
    word, a maximal run of white space is one gap, and every other character
    stands alone, so a pattern anchored at word boundaries is a test on whole
    word tokens. Input is taken to be ASCII. */
module Text {
  import opened Sequences

  datatype Option<+T> = None | Some(value: T) {
    function GetOr(default: T): T { if Some? then value else default }
  }

  predicate IsSpace(c: char) {
    c == ' ' || '\t' <= c <= '\r' || '\U{1C}' <= c <= '\U{1F}'
  }

  predicate IsDigit(c: char) { '0' <= c <= '9' }

  predicate IsIdentStart(c: char) { 'a' <= c <= 'z' || 'A' <= c <= 'Z' || c == '_' }

  predicate IsWordChar(c: char) { IsIdentStart(c) || IsDigit(c) }

  function Up(c: char): char {
    if 'a' <= c <= 'z' then (c as int - 32) as char else c
  }

  function Upper(s: string): (u: string)
    ensures |u| == |s|
    ensures forall i :: 0 <= i < |s| ==> u[i] == Up(s[i])
  {
    seq(|s|, i requires 0 <= i < |s| => Up(s[i]))
  }

  function LStrip(s: string): string {
    if s != "" && IsSpace(s[0]) then LStrip(s[1..]) else s
  }

  function RStrip(s: string): string {
    if s != "" && IsSpace(s[|s| - 1]) then RStrip(s[..|s| - 1]) else s
  }

  function Strip(s: string): string { RStrip(LStrip(s)) }

  predicate Trimmed(s: string) {
    s != "" ==> !IsSpace(s[0]) && !IsSpace(s[|s| - 1])
  }

  lemma {:induction false} LStripStarts(s: string)
    ensures LStrip(s) != "" ==> !IsSpace(LStrip(s)[0])
  {
    if s != "" && IsSpace(s[0]) { LStripStarts(s[1..]); }
  }

  lemma {:induction false} RStripEnds(s: string)
    ensures RStrip(s) <= s
    ensures RStrip(s) != "" ==> !IsSpace(RStrip(s)[|RStrip(s)| - 1])
  {
    if s != "" && IsSpace(s[|s| - 1]) { RStripEnds(s[..|s| - 1]); }
  }

  /** Stripping leaves a trimmed text, and a trimmed text is left alone. */
  lemma {:induction false} StripTrims(s: string)
    ensures Trimmed(Strip(s))
    ensures Trimmed(s) ==> Strip(s) == s
  {
    LStripStarts(s);
    RStripEnds(LStrip(s));
  }

  // ---------------------------------------------------------------- tokens

  datatype Token = Word(text: string) | Gap(text: string) | Punct(c: char)

  const SP := Gap(" ")

  function Raw(t: Token): string {
    match t
    case Word(w) => w
    case Gap(w) => w
    case Punct(c) => [c]
  }

  function Unlex(ts: seq<Token>): string {
    if ts == [] then "" else Raw(ts[0]) + Unlex(ts[1..])
  }

  /** Puts one character in front of an already split text. */
  function Push(c: char, ts: seq<Token>): seq<Token> {
    if IsWordChar(c) then
      if ts != [] && ts[0].Word? then [Word([c] + ts[0].text)] + ts[1..] else [Word([c])] + ts
    else if IsSpace(c) then
      if ts != [] && ts[0].Gap? then [Gap([c] + ts[0].text)] + ts[1..] else [Gap([c])] + ts
    else [Punct(c)] + ts
  }

  function Lex(s: string): seq<Token> {
    if s == "" then [] else Push(s[0], Lex(s[1..]))
  }

  predicate TokenOk(t: Token) {
    match t
    case Word(w) => w != "" && forall c <- w :: IsWordChar(c)
    case Gap(w) => w != "" && forall c <- w :: IsSpace(c)
    case Punct(c) => !IsWordChar(c) && !IsSpace(c)
  }

  predicate Mergeable(a: Token, b: Token) { (a.Word? && b.Word?) || (a.Gap? && b.Gap?) }

  /** A token sequence that is the splitting of its own text. */
  predicate Separated(ts: seq<Token>) {
    && (forall i :: 0 <= i < |ts| ==> TokenOk(ts[i]))
    && (forall i :: 0 <= i < |ts| - 1 ==> !Mergeable(ts[i], ts[i + 1]))
  }

  lemma {:induction false} UnlexConcat(a: seq<Token>, b: seq<Token>)
    ensures Unlex(a + b) == Unlex(a) + Unlex(b)
  {
    if a == [] {
      assert a + b == b;
    } else {
      UnlexConcat(a[1..], b);
      Uncons(a, b);
      Assoc(Raw(a[0]), Unlex(a[1..]), Unlex(b));
    }
  }

  lemma {:induction false} UnlexOne(t: Token)
    ensures Unlex([t]) == Raw(t)
  {
    assert [t][1..] == [];
    assert Raw(t) + "" == Raw(t);
  }

  lemma {:induction false} RawVisible(t: Token)
    requires TokenOk(t) && !t.Gap?
    ensures Raw(t) != "" && !IsSpace(Raw(t)[0]) && !IsSpace(Raw(t)[|Raw(t)| - 1])
  {
    if t.Word? { assert t.text[0] in t.text && t.text[|t.text| - 1] in t.text; }
  }

  lemma {:induction false} UnlexLast(ts: seq<Token>)
    requires ts != []
    ensures Unlex(ts) == Unlex(ts[..|ts| - 1]) + Raw(ts[|ts| - 1])
  {
    var last := ts[|ts| - 1];
    UnlexConcat(ts[..|ts| - 1], [last]);
    assert ts == ts[..|ts| - 1] + [last];
    UnlexOne(last);
  }

  lemma {:induction false} SeparatedConcat(a: seq<Token>, b: seq<Token>)
    requires Separated(a) && Separated(b)
    requires a != [] && b != [] ==> !Mergeable(a[|a| - 1], b[0])
    ensures Separated(a + b)
  {
    var ts := a + b;
    forall i | 0 <= i < |ts| - 1 ensures !Mergeable(ts[i], ts[i + 1]) {
      if i < |a| - 1 { assert ts[i] == a[i] && ts[i + 1] == a[i + 1]; }
      else if i >= |a| { assert ts[i] == b[i - |a|] && ts[i + 1] == b[i + 1 - |a|]; }
    }
  }

  lemma {:induction false} SeparatedSlice(ts: seq<Token>, i: nat, j: nat)
    requires Separated(ts) && i <= j <= |ts|
    ensures Separated(ts[i..j])
  {
    var s := ts[i..j];
    forall k | 0 <= k < |s| - 1 ensures !Mergeable(s[k], s[k + 1]) {
      assert s[k] == ts[i + k] && s[k + 1] == ts[i + k + 1];
    }
  }

  lemma {:induction false} PushSeparates(c: char, ts: seq<Token>)
    requires Separated(ts)
    ensures Separated(Push(c, ts))
  {
    var r := Push(c, ts);
    if |r| == |ts| {
      SeparatedSlice(ts, 1, |ts|);
      assert ts[1..|ts|] == ts[1..];
      if |ts| > 1 { assert !Mergeable(ts[0], ts[1]); }
      SeparatedConcat([r[0]], ts[1..]);
    } else {
      SeparatedConcat([r[0]], ts);
    }
  }

  lemma {:induction false} PushSpells(c: char, ts: seq<Token>)
    ensures Unlex(Push(c, ts)) == [c] + Unlex(ts)
  {
    var r := Push(c, ts);
    if |r| == |ts| {
      assert r[1..] == ts[1..];
      Assoc([c], Raw(ts[0]), Unlex(ts[1..]));
    } else {
      assert r[1..] == ts;
    }
  }

  /** Splitting loses nothing: the tokens spell the text and are fully split. */
  lemma {:induction false} LexSpells(s: string)
    ensures Separated(Lex(s))
    ensures Unlex(Lex(s)) == s
  {
    if s != "" {
      LexSpells(s[1..]);
      PushSeparates(s[0], Lex(s[1..]));
      PushSpells(s[0], Lex(s[1..]));
      assert [s[0]] + s[1..] == s;
    }
  }

  /** A character put in front of a run of its own kind. */
  lemma {:induction false} PushRun(c: char, run: Token, ts: seq<Token>)
    requires (run.Word? && IsWordChar(c)) || (run.Gap? && IsSpace(c))
    ensures Push(c, [run] + ts) == [if run.Word? then Word([c] + run.text) else Gap([c] + run.text)] + ts
  {
    assert ([run] + ts)[1..] == ts;
  }

  lemma {:induction false} LexCons(c: char, s: string)
    ensures Lex([c] + s) == Push(c, Lex(s))
  {
    assert ([c] + s)[1..] == s;
  }

  /** A run without its first character. */
  lemma {:induction false} Shorter(run: Token) returns (shorter: Token)
    requires TokenOk(run) && !run.Punct? && |run.text| > 1
    ensures shorter == (if run.Word? then Word(run.text[1..]) else Gap(run.text[1..])) && TokenOk(shorter)
    ensures run.Word? ==> IsWordChar(run.text[0])
    ensures run.Gap? ==> IsSpace(run.text[0])
  {
    shorter := if run.Word? then Word(run.text[1..]) else Gap(run.text[1..]);
    assert run.text[0] in run.text;
    assert forall c <- run.text[1..] :: c in run.text;
  }

  lemma {:induction false} LexOne(run: Token, rest: string)
    requires TokenOk(run) && |Raw(run)| == 1
    requires Lex(rest) == [] || !Mergeable(run, Lex(rest)[0])
    ensures Lex(Raw(run) + rest) == [run] + Lex(rest)
  {
    var c := Raw(run)[0];
    assert c in Raw(run) && Raw(run) == [c];
    LexCons(c, rest);
  }

  lemma {:induction false} LexRun(run: Token, rest: string)
    requires TokenOk(run)
    requires Lex(rest) == [] || !Mergeable(run, Lex(rest)[0])
    ensures Lex(Raw(run) + rest) == [run] + Lex(rest)
    decreases |Raw(run)|
  {
    if |Raw(run)| == 1 {
      LexOne(run, rest);
    } else {
      var shorter := Shorter(run);
      LexRun(shorter, rest);
      LexCons(run.text[0], shorter.text + rest);
      PushRun(run.text[0], shorter, Lex(rest));
      RunSpelled(run.text, rest);
    }
  }

  lemma {:induction false} RunSpelled(text: string, rest: string)
    requires text != ""
    ensures [text[0]] + text[1..] == text
    ensures [text[0]] + (text[1..] + rest) == text + rest
  {
  }

  /** A fully split token sequence is recovered from its text. */
  lemma {:induction false} LexUnlex(ts: seq<Token>)
    requires Separated(ts)
    ensures Lex(Unlex(ts)) == ts
  {
    if ts != [] {
      SeparatedSlice(ts, 1, |ts|);
      LexUnlex(ts[1..]);
      if |ts| > 1 { assert !Mergeable(ts[0], ts[1]); }
      LexRun(ts[0], Unlex(ts[1..]));
    }
  }

  // ------------------------------------------------------- normalised text

  predicate Dropped(c: char) { c == '[' || c == ']' || IsSpace(c) }

  function Normal(c: char): string { if Dropped(c) then "" else [Up(c)] }

  /** Brackets and white space removed, letters raised to upper case. */
  function Normalize(s: string): string {
    if s == "" then "" else Normal(s[0]) + Normalize(s[1..])
  }

  lemma {:induction false} NormalizeConcat(a: string, b: string)
    ensures Normalize(a + b) == Normalize(a) + Normalize(b)
  {
    if a == "" {
      assert a + b == b;
    } else {
      NormalizeConcat(a[1..], b);
      Uncons(a, b);
      Assoc(Normal(a[0]), Normalize(a[1..]), Normalize(b));
    }
  }

  lemma {:induction false} NormalizeKeeps(s: string)
    requires forall c <- s :: !Dropped(c)
    ensures Normalize(s) == Upper(s)
  {
    if s != "" {
      assert s[0] in s;
      assert forall c <- s[1..] :: c in s;
      NormalizeKeeps(s[1..]);
    }
  }

  lemma {:induction false} NormalizeDrops(s: string)
    requires forall c <- s :: Dropped(c)
    ensures Normalize(s) == ""
  {
    if s != "" {
      assert s[0] in s;
      assert forall c <- s[1..] :: c in s;
      NormalizeDrops(s[1..]);
    }
  }

  lemma {:induction false} NormalizeLStrip(s: string)
    ensures Normalize(LStrip(s)) == Normalize(s)
  {
    if s != "" && IsSpace(s[0]) { NormalizeLStrip(s[1..]); }
  }

  lemma {:induction false} NormalizeRStrip(s: string)
    ensures Normalize(RStrip(s)) == Normalize(s)
  {
    if s != "" && IsSpace(s[|s| - 1]) {
      NormalizeRStrip(s[..|s| - 1]);
      NormalizeConcat(s[..|s| - 1], [s[|s| - 1]]);
      assert s[..|s| - 1] + [s[|s| - 1]] == s;
    }
  }

  lemma {:induction false} NormalizeStrip(s: string)
    ensures Normalize(Strip(s)) == Normalize(s)
  {
    NormalizeLStrip(s);
    NormalizeRStrip(LStrip(s));
  }

  function NormToken(t: Token): string {
    match t
    case Word(w) => Upper(w)
    case Gap(_) => ""
    case Punct(c) => if c == '[' || c == ']' then "" else [Up(c)]
  }

  function NormTokens(ts: seq<Token>): string {
    if ts == [] then "" else NormToken(ts[0]) + NormTokens(ts[1..])
  }

  lemma {:induction false} NormTokensConcat(a: seq<Token>, b: seq<Token>)
    ensures NormTokens(a + b) == NormTokens(a) + NormTokens(b)
  {
    if a == [] {
      assert a + b == b;
    } else {
      NormTokensConcat(a[1..], b);
      Uncons(a, b);
      Assoc(NormToken(a[0]), NormTokens(a[1..]), NormTokens(b));
    }
  }

  /** Normalising a text is normalising its tokens one by one. */
  lemma {:induction false} NormalizeUnlex(ts: seq<Token>)
    requires forall t <- ts :: TokenOk(t)
    ensures Normalize(Unlex(ts)) == NormTokens(ts)
  {
    if ts != [] {
      assert ts[0] in ts;
      assert forall t <- ts[1..] :: t in ts;
      NormalizeUnlex(ts[1..]);
      NormalizeConcat(Raw(ts[0]), Unlex(ts[1..]));
      match ts[0]
      case Word(w) => NormalizeKeeps(w);
      case Gap(w) => NormalizeDrops(w);
      case Punct(c) => assert [c][1..] == "";
    }
  }

  // --------------------------------------------------------------- decimals

  function Decimal(n: nat): string {
    if n < 10 then [('0' as int + n) as char]
    else Decimal(n / 10) + [('0' as int + n % 10) as char]
  }

  function ParseDecimal(s: string): nat
    requires forall c <- s :: IsDigit(c)
  {
    if s == "" then 0
    else
      assert forall c <- s[..|s| - 1] :: c in s;
      assert s[|s| - 1] in s && IsDigit(s[|s| - 1]);
      ParseDecimal(s[..|s| - 1]) * 10 + (s[|s| - 1] as int - '0' as int)
  }

  /** Printed numbers are digit strings that read back as themselves. */
  lemma {:induction false} DecimalReads(n: nat)
    ensures Decimal(n) != "" && forall c <- Decimal(n) :: IsDigit(c)
    ensures ParseDecimal(Decimal(n)) == n
  {
    if n < 10 {
      assert Decimal(n)[..0] == "";
    } else {
      DecimalReads(n / 10);
      var d := Decimal(n);
      assert d[..|d| - 1] == Decimal(n / 10);
    }
  }
}
