/** Taking the SQL out of the model's reply (`sql_generator.py`). */
module SqlGenerator {
  import opened Text

  /** The lines of a text; there is always at least one. */
  function Lines(s: string): (ls: seq<string>)
    ensures ls != []
  {
    if s == "" then [""]
    else if s[0] == '\n' then [""] + Lines(s[1..])
    else
      var rest := Lines(s[1..]);
      [[s[0]] + rest[0]] + rest[1..]
  }

  function JoinLines(ls: seq<string>): string {
    if ls == [] then "" else if |ls| == 1 then ls[0] else ls[0] + "\n" + JoinLines(ls[1..])
  }

  predicate Fence(s: string) { "```" <= s }

  /** The reply without an enclosing code fence. */
  function Extracted(reply: string): string {
    var stripped := Strip(reply);
    if !Fence(stripped) then stripped
    else
      var ls := Lines(stripped)[1..];
      Strip(JoinLines(if ls != [] && Fence(Strip(ls[|ls| - 1])) then ls[..|ls| - 1] else ls))
  }

  method ExtractSql(reply: string) returns (sql: string)
    ensures sql == Extracted(reply)
  {
    sql := Strip(reply);
    if Fence(sql) {
      var lines := Lines(sql);
      lines := lines[1..];
      if lines != [] && Fence(Strip(lines[|lines| - 1])) {
        lines := lines[..|lines| - 1];
      }
      sql := Strip(JoinLines(lines));
    }
  }

  /** Joining the lines of a text gives the text back. */
  lemma {:induction false} LinesJoin(s: string)
    ensures JoinLines(Lines(s)) == s
  {
    if s != "" {
      LinesJoin(s[1..]);
      var rest := Lines(s[1..]);
      if s[0] == '\n' {
        assert ([""] + rest)[1..] == rest;
        assert "" + "\n" + JoinLines(rest) == s;
      } else {
        var ls := [[s[0]] + rest[0]] + rest[1..];
        assert ls[1..] == rest[1..];
        if |rest| > 1 { assert [s[0]] + rest[0] + "\n" + JoinLines(rest[1..]) == [s[0]] + JoinLines(rest); }
        assert [s[0]] + s[1..] == s;
      }
    }
  }

  lemma {:induction false} LinesBreak(a: string, b: string)
    ensures Lines(a + "\n" + b) == Lines(a) + Lines(b)
  {
    var s := a + "\n" + b;
    if a == "" {
      assert s[1..] == b;
    } else {
      assert s[1..] == a[1..] + "\n" + b;
      LinesBreak(a[1..], b);
    }
  }

  lemma {:induction false} OneLine(s: string)
    requires '\n' !in s
    ensures Lines(s) == [s]
  {
    if s != "" {
      assert s[0] in s && forall c <- s[1..] :: c in s;
      OneLine(s[1..]);
      assert [s[0]] + s[1..] == s;
    }
  }

  /** However the body reads, the fence around it is what is taken off. */
  lemma {:induction false} FenceRemoved(language: string, body: string)
    requires '\n' !in language
    ensures Extracted("```" + language + "\n" + body + "\n" + "```") == Strip(body)
  {
    var opening, rest := "```" + language, body + "\n" + "```";
    var text := opening + "\n" + rest;
    assert text == "```" + language + "\n" + body + "\n" + "```";
    assert text[0] == '`' && text[|text| - 1] == '`';
    StripTrims(text);
    assert "```" <= text;
    OneLine(opening);
    OneLine("```");
    LinesBreak(opening, rest);
    LinesBreak(body, "```");
    assert Lines(text)[1..] == Lines(body) + ["```"];
    assert (Lines(body) + ["```"])[..|Lines(body)|] == Lines(body);
    StripTrims("```");
    LinesJoin(body);
  }

  /** A reply without a fence is only stripped. */
  lemma {:induction false} BareReply(reply: string)
    requires !Fence(Strip(reply))
    ensures Extracted(reply) == Strip(reply) && Trimmed(Extracted(reply))
  {
    StripTrims(reply);
  }
}
