/**
 The rules by which `splitSqlStatements` reads a PostgreSQL script, written as a
 recursive lexer over the remaining text: one `Step` per turn of the source's loop.
 */
module SqlLexer {
  import opened JsText

  datatype Option<+T> = None | Some(value: T)

  /** The lexer's five states; a dollar quote carries the tag that closes it. */
  datatype Mode = Default | SingleQuote | LineComment | BlockComment | DollarQuote(tag: string)

  /** What one turn of the loop does with the text it consumes. */
  datatype Piece =
    | Keep(text: string)  // appended to the current statement
    | Cut                 // a separating semicolon
    | Drop(text: string)  // a psql meta-command line
  {
    function Text(): string {
      match this
      case Keep(t) => t
      case Cut => ";"
      case Drop(t) => t
    }
  }

  datatype Move = Move(piece: Piece, next: Mode)

  /** Length of the longest prefix of word characters. */
  function WordRun(s: string): (n: nat)
    ensures n <= |s|
  {
    if s == "" || !IsWord(s[0]) then 0 else 1 + WordRun(s[1..])
  }

  lemma {:induction false} WordRunIsWord(s: string)
    ensures forall k :: 0 <= k < WordRun(s) ==> IsWord(s[k])
  {
    if s != "" && IsWord(s[0]) {
      WordRunIsWord(s[1..]);
      assert forall k :: 1 <= k < WordRun(s) ==> s[k] == s[1..][k - 1];
    }
  }

  ghost predicate IsTag(t: string) {
    |t| >= 2 && t[0] == '$' && t[|t| - 1] == '$' && forall k :: 0 < k < |t| - 1 ==> IsWord(t[k])
  }

  /** The opening tag of a dollar quote at the head of `s`, as /^(\$[A-Za-z0-9_]*\$)/ finds it. */
  function DollarTag(s: string): (r: Option<string>)
    ensures r.Some? ==> |r.value| >= 2 && r.value <= s
  {
    if s == "" || s[0] != '$' then None
    else
      var n := WordRun(s[1..]);
      if n + 1 < |s| && s[n + 1] == '$' then Some(s[..n + 2]) else None
  }

  lemma DollarTagIsTag(s: string)
    ensures DollarTag(s).Some? ==> IsTag(DollarTag(s).value)
  {
    if DollarTag(s).Some? {
      WordRunIsWord(s[1..]);
      assert forall k :: 1 <= k < WordRun(s[1..]) + 1 ==> s[k] == s[1..][k - 1];
    }
  }

  /** The line at the head of `s`, with its newline when it has one. */
  function HeadLine(s: string): (line: string)
    requires s != ""
    ensures line != "" && line <= s
  {
    if s[0] == '\n' || |s| == 1 then [s[0]] else [s[0]] + HeadLine(s[1..])
  }

  lemma {:induction false} HeadLineShape(s: string)
    requires s != ""
    ensures HeadLine(s)[0] == s[0]
    ensures HeadLine(s) != s ==> HeadLine(s)[|HeadLine(s)| - 1] == '\n'
    ensures forall k :: 0 <= k < |HeadLine(s)| - 1 ==> HeadLine(s)[k] != '\n'
  {
    if s[0] != '\n' && |s| > 1 {
      HeadLineShape(s[1..]);
    }
  }

  /** `s` has a second character and it is `c`. */
  predicate NextIs(s: string, c: char) {
    |s| >= 2 && s[1] == c
  }

  function Step(mode: Mode, bol: bool, s: string): (m: Move)
    requires s != ""
    ensures m.piece.Text() != "" && m.piece.Text() <= s
  {
    match mode
    case Default =>
      if s[0] == '-' && NextIs(s, '-') then Move(Keep([s[0]]), LineComment)
      else if s[0] == '/' && NextIs(s, '*') then Move(Keep([s[0]]), BlockComment)
      else if s[0] == '\'' then Move(Keep([s[0]]), SingleQuote)
      else if DollarTag(s).Some? then Move(Keep(DollarTag(s).value), DollarQuote(DollarTag(s).value))
      else if s[0] == ';' then Move(Cut, Default)
      else if s[0] == '\\' && bol then Move(Drop(HeadLine(s)), Default)
      else Move(Keep([s[0]]), Default)
    case SingleQuote =>
      if s[0] == '\'' && NextIs(s, '\'') then Move(Keep(s[..2]), SingleQuote)
      else if s[0] == '\'' then Move(Keep([s[0]]), Default)
      else Move(Keep([s[0]]), SingleQuote)
    case LineComment =>
      Move(Keep([s[0]]), if s[0] == '\n' then Default else LineComment)
    case BlockComment =>
      if s[0] == '*' && NextIs(s, '/') then Move(Keep(s[..2]), Default)
      else Move(Keep([s[0]]), BlockComment)
    case DollarQuote(tag) =>
      if tag != "" && tag <= s then Move(Keep(tag), Default)
      else Move(Keep([s[0]]), mode)
  }

  /** Whether the character after `u` starts a line, given whether `u` did. */
  predicate BolAfter(bol: bool, u: string) {
    if u == "" then bol else u[|u| - 1] == '\n'
  }

  /** The turns of the loop over the text `s`. */
  function Pieces(mode: Mode, bol: bool, s: string): seq<Piece>
    decreases |s|
  {
    if s == "" then []
    else
      var m := Step(mode, bol, s);
      [m.piece] + Pieces(m.next, BolAfter(bol, m.piece.Text()), s[|m.piece.Text()|..])
  }

  /** Trimmed text becomes a statement unless nothing is left of it. */
  function Flush(cur: string): seq<string> {
    Nonempty(Trim(cur))
  }

  function Nonempty(t: string): seq<string> {
    if t == "" then [] else [t]
  }

  /** The text gathered after `piece`, and the statement that `piece` completes, if any. */
  function Effect(cur: string, piece: Piece): (string, seq<string>) {
    match piece
    case Keep(t) => (cur + t, [])
    case Cut => ("", Flush(cur))
    case Drop(_) => (cur, [])
  }

  /** The statements that a run of pieces completes, `cur` being the text gathered so far. */
  function Statements(cur: string, ps: seq<Piece>): seq<string>
    decreases |ps|
  {
    if ps == [] then Flush(cur)
    else
      var (next, done) := Effect(cur, ps[0]);
      done + Statements(next, ps[1..])
  }

  function Split(sql: string): seq<string> {
    Statements("", Pieces(Default, true, sql))
  }
}
