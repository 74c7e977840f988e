/** The SQL guardrail (`app/services/sql_guardrail.py`): which SQL texts may be
    handed to the MCP server. Rejection messages are not modelled. */
module Guardrail {
  import opened Text
  import CommaSplit

  datatype Verdict = Accepted(sql: string) | Rejected

  const MAXIMUM_RETURNED_ROWS := 100

  const FORBIDDEN_KEYWORDS := {
    "WITH", "INSERT", "UPDATE", "DELETE", "MERGE", "EXEC", "EXECUTE", "DROP", "ALTER",
    "CREATE", "TRUNCATE", "GRANT", "REVOKE", "INTO", "UNION", "EXCEPT", "INTERSECT"
  }

  const RESERVED_WORDS := {
    "SELECT", "FROM", "JOIN", "INNER", "LEFT", "ON", "WHERE", "GROUP", "BY", "HAVING",
    "ORDER", "ASC", "DESC", "TOP", "AS", "AND", "OR", "NOT", "IN", "IS", "NULL", "SUM",
    "COUNT", "AVG", "MIN", "MAX"
  }

  const ALLOWED_TABLES := {"PRODUCT", "PRODUCTINVENTORY"}
  const ALLOWED_SCHEMA := "PRODUCTION"
  const ALLOWED_SOURCE_COLUMNS := {"PRODUCTID", "NAME", "SAFETYSTOCKLEVEL", "QUANTITY"}
  const ALLOWED_OUTPUT_ALIASES := {"ProductID", "Name", "CurrentInventory", "SafetyStockLevel"}
  const GROUP_BY_COLUMNS := {"PRODUCTID", "NAME", "SAFETYSTOCKLEVEL"}
  const CLAUSE_BOUNDARIES := {"INNER", "LEFT", "JOIN", "GROUP", "HAVING", "ORDER"}

  // ------------------------------------------------------ pattern matching

  predicate IsKw(t: Token, keyword: string) { t.Word? && Upper(t.text) == keyword }

  predicate Stops(t: Token, stops: set<string>) { t.Word? && Upper(t.text) in stops }

  predicate IsIdent(t: Token) { t.Word? && t.text != "" && IsIdentStart(t.text[0]) }

  function SkipGap(ts: seq<Token>): (r: seq<Token>)
    ensures |r| <= |ts|
  {
    if ts != [] && ts[0].Gap? then ts[1..] else ts
  }

  function SkipPunct(ts: seq<Token>, c: char): (r: seq<Token>)
    ensures |r| <= |ts|
  {
    if ts != [] && ts[0] == Punct(c) then ts[1..] else ts
  }

  /** What a pattern captured at the front of a token sequence, and what follows the match. */
  datatype Hit = Miss | Hit(text: string, rest: seq<Token>)

  /** An identifier, in brackets or not. */
  function IdentAt(ts: seq<Token>): (h: Hit)
    ensures h.Hit? ==> |h.rest| < |ts|
  {
    var t := SkipPunct(ts, '[');
    if t != [] && IsIdent(t[0]) then Hit(t[0].text, SkipPunct(t[1..], ']')) else Miss
  }

  /** The text after the qualifier `Production.`, or all of it when that is absent. */
  function SkipSchema(ts: seq<Token>): (r: seq<Token>)
    ensures |r| <= |ts|
  {
    var h := IdentAt(ts);
    if h.Hit? && Upper(h.text) == ALLOWED_SCHEMA && h.rest != [] && h.rest[0] == Punct('.')
    then h.rest[1..] else ts
  }

  /** `AS name` at the front. */
  function AsAt(ts: seq<Token>): (h: Hit)
    ensures h.Hit? ==> |h.rest| < |ts|
  {
    if |ts| >= 2 && IsKw(ts[0], "AS") && ts[1].Gap? then IdentAt(ts[2..]) else Miss
  }

  /** A table name at the front of the text after FROM or JOIN. */
  function TableNameAt(ts: seq<Token>): (h: Hit)
    ensures h.Hit? ==> |h.rest| < |ts|
  {
    var h := IdentAt(SkipSchema(ts));
    if h.Hit? then h else IdentAt(ts)
  }

  /** What a pattern finds at one position: nothing, or a value and the tokens it spans. */
  datatype Found<+T> = Nothing | Found(value: T, len: nat)

  datatype Match<+T> = Match(begin: nat, end: nat, value: T)

  /** Left-to-right matches that do not overlap, from position `pos` on. */
  function FindAll<T>(at: seq<Found<T>>, pos: nat): seq<Match<T>>
    decreases |at| - pos
  {
    if pos >= |at| then []
    else
      match at[pos]
      case Nothing => FindAll(at, pos + 1)
      case Found(value, len) =>
        [Match(pos, pos + len, value)] + FindAll(at, if len == 0 then pos + 1 else pos + len)
  }

  datatype TableRef = TableRef(table: string, alias: Option<string>)

  predicate RefStarts(ts: seq<Token>) { |ts| >= 2 && Stops(ts[0], {"FROM", "JOIN"}) && ts[1].Gap? }

  /** A table reference: the name after FROM or JOIN, and the alias AS gives it. */
  function RefAt(ts: seq<Token>): Found<TableRef> {
    if !RefStarts(ts) then Nothing
    else
      match TableNameAt(ts[2..])
      case Miss => Nothing
      case Hit(table, rest) =>
        var a := if rest != [] && rest[0].Gap? then AsAt(rest[1..]) else Miss;
        match a
        case Miss => Found(TableRef(Upper(table), None), |ts| - |rest|)
        case Hit(alias, after) => Found(TableRef(Upper(table), Some(Upper(alias))), |ts| - |after|)
  }

  /** What the pattern finds at each position of the text. */
  function RefsAt(ts: seq<Token>): (at: seq<Found<TableRef>>)
    ensures |at| == |ts|
  {
    if ts == [] then [] else [RefAt(ts)] + RefsAt(ts[1..])
  }

  function Refs(ts: seq<Token>): seq<Match<TableRef>> { FindAll(RefsAt(ts), 0) }

  /** A use of `AS name`. */
  function AliasAt(ts: seq<Token>): Found<string> {
    match AsAt(ts)
    case Miss => Nothing
    case Hit(text, rest) => Found(text, |ts| - |rest|)
  }

  function AliasesAt(ts: seq<Token>): (at: seq<Found<string>>)
    ensures |at| == |ts|
  {
    if ts == [] then [] else [AliasAt(ts)] + AliasesAt(ts[1..])
  }

  function AsUses(ts: seq<Token>): seq<Match<string>> { FindAll(AliasesAt(ts), 0) }

  predicate Within(pos: nat, refs: seq<Match<TableRef>>) {
    exists r <- refs :: r.begin <= pos < r.end
  }

  function CountKw(ts: seq<Token>, keyword: string): nat {
    if ts == [] then 0 else (if IsKw(ts[0], keyword) then 1 else 0) + CountKw(ts[1..], keyword)
  }

  predicate PairAt(ts: seq<Token>, first: string, second: string) {
    |ts| >= 3 && IsKw(ts[0], first) && ts[1].Gap? && IsKw(ts[2], second)
  }

  function CountPair(ts: seq<Token>, first: string, second: string): nat {
    if ts == [] then 0
    else (if PairAt(ts, first, second) then 1 else 0) + CountPair(ts[1..], first, second)
  }

  datatype Top = Top(n: nat, rest: seq<Token>)

  function LeadingDigits(w: string): (d: string)
    ensures d <= w
    ensures forall c <- d :: IsDigit(c)
  {
    if w != "" && IsDigit(w[0]) then [w[0]] + LeadingDigits(w[1..]) else ""
  }

  /** The row count that starts `word`, with the rest of the text after an optional `)`. */
  function TopCount(word: string, after: seq<Token>): Option<Top> {
    var d := LeadingDigits(word);
    if d == "" then None
    else if d == word then Some(Top(ParseDecimal(d), SkipPunct(SkipGap(after), ')')))
    else Some(Top(ParseDecimal(d), [Word(word[|d|..])] + after))
  }

  /** `SELECT TOP (n)` at the start of the text. */
  function TopAt(ts: seq<Token>): Option<Top> {
    var t := SkipGap(ts);
    if |t| >= 3 && IsKw(t[0], "SELECT") && t[1].Gap? && t[2].Word? then
      if Upper(t[2].text) == "TOP" then
        var u := SkipGap(SkipPunct(SkipGap(t[3..]), '('));
        if u != [] && u[0].Word? then TopCount(u[0].text, u[1..]) else None
      else if |t[2].text| > 3 && Upper(t[2].text[..3]) == "TOP" then
        TopCount(t[2].text[3..], t[3..])
      else None
    else None
  }

  /** The text after the first occurrence of a keyword. */
  function After(ts: seq<Token>, keyword: string): Option<seq<Token>> {
    if ts == [] then None
    else if IsKw(ts[0], keyword) then Some(ts[1..])
    else After(ts[1..], keyword)
  }

  function AfterPair(ts: seq<Token>, first: string, second: string): Option<seq<Token>> {
    if ts == [] then None
    else if PairAt(ts, first, second) then Some(ts[3..])
    else AfterPair(ts[1..], first, second)
  }

  /** The tokens before the first keyword of `stops`. */
  function UpTo(ts: seq<Token>, stops: set<string>): seq<Token> {
    if ts == [] || Stops(ts[0], stops) then [] else [ts[0]] + UpTo(ts[1..], stops)
  }

  function ClauseText(after: seq<Token>): string { Strip(Unlex(UpTo(after, CLAUSE_BOUNDARIES))) }

  /** `ORDER BY [x.]ProductID ASC`; the word before BY need only end in ORDER. */
  predicate FirstKeyAt(ts: seq<Token>) {
    && |ts| >= 4
    && ts[0].Word? && |ts[0].text| >= 5 && Upper(ts[0].text[|ts[0].text| - 5..]) == "ORDER"
    && ts[1].Gap? && IsKw(ts[2], "BY") && ts[3].Gap?
    && (ProductIdAsc(ts[4..])
        || (var h := IdentAt(ts[4..]);
            h.Hit? && h.rest != [] && h.rest[0] == Punct('.') && ProductIdAsc(h.rest[1..])))
  }

  predicate ProductIdAsc(ts: seq<Token>) {
    var h := IdentAt(ts);
    && h.Hit? && Upper(h.text) == "PRODUCTID"
    && |h.rest| >= 2 && h.rest[0].Gap? && IsKw(h.rest[1], "ASC")
  }

  predicate HasFirstKey(ts: seq<Token>) {
    ts != [] && (FirstKeyAt(ts) || HasFirstKey(ts[1..]))
  }

  /** The identifier inside a word: what is left after its leading digits. */
  function IdentOf(w: string): string { w[|LeadingDigits(w)|..] }

  // ----------------------------------------------------------- SELECT items

  datatype SelectItem = SelectItem(expr: seq<Token>, alias: string)

  /** What follows an AS that ends an item: its alias and nothing else. */
  function ItemAlias(ts: seq<Token>): Option<string> {
    match IdentAt(SkipGap(ts))
    case Miss => None
    case Hit(text, rest) => if SkipGap(rest) == [] then Some(text) else None
  }

  /** Splits `expression AS alias` at the first AS, at or after `at`, that leaves just an alias. */
  function ParseItem(item: seq<Token>, at: nat): Option<SelectItem>
    decreases |item| - at
  {
    if at >= |item| then None
    else if at > 0 && IsKw(item[at], "AS") && ItemAlias(item[at + 1..]).Some?
    then Some(SelectItem(item[..at], ItemAlias(item[at + 1..]).value))
    else ParseItem(item, at + 1)
  }

  // ------------------------------------------------------------------ rules

  /** A trailing semicolon and outer white space removed. */
  function Clean(sql: string): string {
    var s := Strip(sql);
    if s != "" && s[|s| - 1] == ';' then RStrip(s[..|s| - 1]) else s
  }

  predicate HasAdjacent(s: string, a: char, b: char) {
    exists i :: 0 <= i < |s| - 1 && s[i] == a && s[i + 1] == b
  }

  /** Rules 1 to 3 and 7: no second statement, literal, comment or star. */
  predicate PlainText(s: string) {
    && ';' !in s && '\'' !in s && '*' !in s
    && !HasAdjacent(s, '-', '-') && !HasAdjacent(s, '/', '*')
  }

  predicate StartsWithSelect(ts: seq<Token>) {
    var t := SkipGap(ts);
    t != [] && IsKw(t[0], "SELECT")
  }

  predicate MentionsForbidden(ts: seq<Token>) {
    exists t <- ts :: Stops(t, FORBIDDEN_KEYWORDS)
  }

  /** Rules 4 to 6: one SELECT, at the start, no forbidden keyword, a TOP in range. */
  predicate SingleSelect(ts: seq<Token>) {
    && CountKw(ts, "SELECT") == 1
    && StartsWithSelect(ts)
    && !MentionsForbidden(ts)
    && TopAt(ts).Some?
    && 1 <= TopAt(ts).value.n <= MAXIMUM_RETURNED_ROWS
  }

  /** Rules 8 and 9: approved tables only, each under its own alias, none twice. */
  predicate TablesApproved(refs: seq<Match<TableRef>>) {
    && refs != []
    && (forall r <- refs :: r.value.table in ALLOWED_TABLES && r.value.alias.Some?)
    && (forall i, j :: 0 <= i < j < |refs| ==>
          refs[i].value.table != refs[j].value.table && refs[i].value.alias != refs[j].value.alias)
  }

  /** Rule 10: outside table references AS names one of the four outputs. */
  predicate OutputsApproved(uses: seq<Match<string>>, refs: seq<Match<TableRef>>) {
    forall u <- uses :: Within(u.begin, refs) || u.value in ALLOWED_OUTPUT_ALIASES
  }

  function OutputAliases(uses: seq<Match<string>>, refs: seq<Match<TableRef>>): set<string> {
    set u | u in uses && !Within(u.begin, refs) :: Upper(u.value)
  }

  function TableAliases(refs: seq<Match<TableRef>>): set<string> {
    set r | r in refs && r.value.alias.Some? :: r.value.alias.value
  }

  function AllowedIdentifiers(tableAliases: set<string>, outputAliases: set<string>): set<string> {
    RESERVED_WORDS + ALLOWED_TABLES + {ALLOWED_SCHEMA} + tableAliases + outputAliases
    + ALLOWED_SOURCE_COLUMNS
  }

  /** Rule 11: every identifier of the text is approved. */
  predicate IdentifiersApproved(ts: seq<Token>, allowed: set<string>) {
    forall t <- ts :: t.Word? && IdentOf(t.text) != "" ==> Upper(IdentOf(t.text)) in allowed
  }

  predicate BothTables(refs: seq<Match<TableRef>>) {
    forall table <- ALLOWED_TABLES :: exists r <- refs :: r.value.table == table
  }

  /** The alias of the first reference to a table. */
  function AliasOf(refs: seq<Match<TableRef>>, table: string): string {
    if refs == [] then ""
    else if refs[0].value.table == table then refs[0].value.alias.GetOr("")
    else AliasOf(refs[1..], table)
  }

  predicate JoinApproved(ts: seq<Token>, p: string, i: string) {
    var on := After(ts, "ON");
    on.Some? &&
    Normalize(ClauseText(on.value)) in
      {p + ".PRODUCTID=" + i + ".PRODUCTID", i + ".PRODUCTID=" + p + ".PRODUCTID"}
  }

  /** `ALIAS.COLUMN` in normalised text. */
  function QualifiedColumn(s: string): Option<(string, string)> {
    var ts := Lex(s);
    if |ts| == 3 && IsIdent(ts[0]) && ts[1] == Punct('.') && IsIdent(ts[2])
       && Unlex(ts) == Upper(Unlex(ts))
    then Some((ts[0].text, ts[2].text)) else None
  }

  predicate GroupKeyApproved(item: string, p: string) {
    var k := QualifiedColumn(Normalize(item));
    k.Some? && k.value.0 == p && k.value.1 in GROUP_BY_COLUMNS
  }

  function GroupColumn(item: string): string {
    var k := QualifiedColumn(Normalize(item));
    if k.Some? then k.value.1 else ""
  }

  predicate GroupApproved(items: seq<string>, p: string) {
    && |items| == |GROUP_BY_COLUMNS|
    && (forall x <- items :: GroupKeyApproved(x, p))
    && (forall a, b :: 0 <= a < b < |items| ==> GroupColumn(items[a]) != GroupColumn(items[b]))
  }

  predicate GroupingApproved(ts: seq<Token>, p: string) {
    && CountPair(ts, "GROUP", "BY") == 1
    && GroupApproved(CommaSplit.Split(ClauseText(AfterPair(ts, "GROUP", "BY").GetOr([]))), p)
  }

  predicate HavingApproved(ts: seq<Token>, p: string, i: string) {
    var having := After(ts, "HAVING");
    having.Some? &&
    Normalize(ClauseText(having.value)) == "SUM(" + i + ".QUANTITY)<" + p + ".SAFETYSTOCKLEVEL"
  }

  function ExpectedExpr(alias: string, p: string, i: string): Option<string> {
    if alias == "PRODUCTID" then Some(p + ".PRODUCTID")
    else if alias == "NAME" then Some(p + ".NAME")
    else if alias == "CURRENTINVENTORY" then Some("SUM(" + i + ".QUANTITY)")
    else if alias == "SAFETYSTOCKLEVEL" then Some(p + ".SAFETYSTOCKLEVEL")
    else None
  }

  predicate SelectItemApproved(item: string, p: string, i: string) {
    var parsed := ParseItem(Lex(item), 0);
    && parsed.Some?
    && ExpectedExpr(Upper(parsed.value.alias), p, i)
         == Some(Normalize(Unlex(parsed.value.expr)))
  }

  function ItemKey(item: string): string {
    var parsed := ParseItem(Lex(item), 0);
    if parsed.Some? then Upper(parsed.value.alias) else ""
  }

  predicate SelectListApproved(items: seq<string>, p: string, i: string) {
    && |items| == 4
    && (forall x <- items :: SelectItemApproved(x, p, i))
    && (forall a, b :: 0 <= a < b < |items| ==> ItemKey(items[a]) != ItemKey(items[b]))
  }

  function SelectList(ts: seq<Token>): string
    requires TopAt(ts).Some?
  {
    Strip(Unlex(UpTo(TopAt(ts).value.rest, {"FROM"})))
  }

  /** The fixed-scope checks on the clauses, once the two aliases are known. */
  predicate ClausesApproved(ts: seq<Token>, p: string, i: string)
    requires TopAt(ts).Some?
  {
    && JoinApproved(ts, p, i)
    && GroupingApproved(ts, p)
    && HavingApproved(ts, p, i)
    && SelectListApproved(CommaSplit.Split(SelectList(ts)), p, i)
  }

  predicate Approved(ts: seq<Token>) {
    var refs, uses := Refs(ts), AsUses(ts);
    && SingleSelect(ts)
    && TablesApproved(refs)
    && OutputsApproved(uses, refs)
    && IdentifiersApproved(ts, AllowedIdentifiers(TableAliases(refs), OutputAliases(uses, refs)))
    && CountPair(ts, "ORDER", "BY") > 0
    && HasFirstKey(ts)
    && BothTables(refs)
    && ClausesApproved(ts, AliasOf(refs, "PRODUCT"), AliasOf(refs, "PRODUCTINVENTORY"))
  }

  /** What the guardrail decides; `Validate` computes it. */
  function Decision(sql: string): Verdict {
    var cleaned := Clean(sql);
    if PlainText(cleaned) && Approved(Lex(cleaned)) then Accepted(cleaned) else Rejected
  }
}
