/** The two loops of `src/utils/sql_splitter.ts`, proved against the recursive lexer. */
module SqlSplitter {
  import opened JsText
  import opened SqlLexer

  predicate AtLineStart(sql: string, i: nat)
    requires i <= |sql|
  {
    BolAfter(true, sql[..i])
  }

  /** `sql.indexOf('\n', i)`, with -1 for "not found". */
  function NewlineFrom(sql: string, i: nat): (r: int)
    requires i <= |sql|
    ensures r == -1 || i <= r < |sql|
    decreases |sql| - i
  {
    if i == |sql| then -1 else if sql[i] == '\n' then i else NewlineFrom(sql, i + 1)
  }

  lemma {:induction false} NewlineEndsHeadLine(sql: string, i: nat)
    requires i < |sql|
    ensures var eol := NewlineFrom(sql, i);
            i + |HeadLine(sql[i..])| == if eol == -1 then |sql| else eol + 1
    decreases |sql| - i
  {
    if sql[i] != '\n' && i + 1 < |sql| {
      assert sql[i..][1..] == sql[i + 1..];
      NewlineEndsHeadLine(sql, i + 1);
    }
  }

  lemma PiecesCons(mode: Mode, bol: bool, s: string, m: Move)
    requires s != "" && m == Step(mode, bol, s)
    ensures Pieces(mode, bol, s) ==
            [m.piece] + Pieces(m.next, BolAfter(bol, m.piece.Text()), s[|m.piece.Text()|..])
  {
  }

  lemma StatementsCons(cur: string, piece: Piece, rest: seq<Piece>)
    ensures Statements(cur, [piece] + rest) == Effect(cur, piece).1 + Statements(Effect(cur, piece).0, rest)
  {
    assert ([piece] + rest)[1..] == rest;
  }

  lemma LineStartAfter(sql: string, i: nat, t: string)
    requires i <= |sql| && t != "" && t <= sql[i..]
    ensures AtLineStart(sql, i + |t|) == BolAfter(AtLineStart(sql, i), t)
    ensures sql[i..][|t|..] == sql[i + |t|..]
  {
    assert sql[..i + |t|] == sql[..i] + t;
  }

  /** The text gathered so far does not open with a semicolon, and outside the default state it holds ink. */
  ghost predicate Guarded(mode: Mode, cur: string) {
    var t := TrimStart(cur);
    if t == "" then mode == Default else t[0] != ';'
  }

  lemma {:induction false} TrimStartAppend(a: string, b: string)
    ensures TrimStart(a + b) == if TrimStart(a) == "" then TrimStart(b) else TrimStart(a) + b
  {
    if a == "" {
      assert a + b == b;
    } else {
      assert (a + b)[1..] == a[1..] + b;
      if IsSpace(a[0]) {
        TrimStartAppend(a[1..], b);
      }
    }
  }

  /** No semicolon opens what the default state keeps, and blanks never leave that state. */
  ghost predicate BlankSafe(mode: Mode, m: Move) {
    if m.piece.Keep? then
      && m.piece.text != ""
      && (mode == Default ==> m.piece.text[0] != ';')
      && (mode == Default && IsSpace(m.piece.text[0]) ==> |m.piece.text| == 1 && m.next == Default)
    else
      mode == m.next == Default
  }

  lemma StepBlankSafe(mode: Mode, bol: bool, s: string)
    requires s != ""
    ensures BlankSafe(mode, Step(mode, bol, s))
  {
    assert Step(mode, bol, s).piece.Text()[0] == s[0];
  }

  lemma GuardedMove(mode: Mode, cur: string, m: Move)
    requires BlankSafe(mode, m) && Guarded(mode, cur)
    ensures Guarded(m.next, Effect(cur, m.piece).0)
  {
    if m.piece.Keep? {
      TrimStartAppend(cur, m.piece.text);
      if TrimStart(cur) == "" && IsSpace(m.piece.text[0]) {
        assert m.piece.text[1..] == "";
      }
    }
  }

  lemma GuardedNeverBareSemicolon(mode: Mode, cur: string)
    requires Guarded(mode, cur)
    ensures Trim(cur) != ";"
  {
    if Trim(cur) != "" {
      assert Trim(cur)[0] == TrimStart(cur)[0];
    }
  }

  /** One turn of the loop: the branch taken for the character at `i`. */
  method Turn(sql: string, i: nat, state: Mode, current: string)
    returns (i': nat, state': Mode, current': string, statements: seq<string>)
    requires i < |sql|
    requires state.DollarQuote? ==> IsTag(state.tag)
    ensures var m := Step(state, AtLineStart(sql, i), sql[i..]);
            && state' == m.next
            && i' == i + |m.piece.Text()| <= |sql|
            && (current', statements) == Effect(current, m.piece)
    ensures state'.DollarQuote? ==> IsTag(state'.tag)
  {
    assert sql[i..][0] == sql[i];
    var ch := sql[i];
    var next := if i + 1 < |sql| then [sql[i + 1]] else "";
    statements := [];
    i', state', current' := i, state, current;
    match state {
      case Default =>
        var tagMatch := DollarTag(sql[i..]);
        DollarTagIsTag(sql[i..]);
        if ch == '-' && next == "-" {
          state' := LineComment;
          current' := current + [ch];
          i' := i + 1;
        } else if ch == '/' && next == "*" {
          state' := BlockComment;
          current' := current + [ch];
          i' := i + 1;
        } else if ch == '\'' {
          state' := SingleQuote;
          current' := current + [ch];
          i' := i + 1;
        } else if ch == '$' && tagMatch.Some? {
          state' := DollarQuote(tagMatch.value);
          current' := current + tagMatch.value;
          i' := i + |tagMatch.value|;
        } else if ch == ';' {
          var stmt := Trim(current);
          if |stmt| > 0 {
            statements := [stmt];
          }
          current' := "";
          i' := i + 1;
        } else if ch == '\\' && (i == 0 || sql[i - 1] == '\n') {
          var eol := NewlineFrom(sql, i);
          NewlineEndsHeadLine(sql, i);
          i' := if eol == -1 then |sql| else eol + 1;
        } else {
          current' := current + [ch];
          i' := i + 1;
        }
      case SingleQuote =>
        current' := current + [ch];
        if ch == '\'' && next == "'" {
          assert sql[i..][..2] == [ch] + next && current' + next == current + ([ch] + next);
          current' := current' + next;
          i' := i + 2;
        } else {
          if ch == '\'' {
            state' := Default;
          }
          i' := i + 1;
        }
      case LineComment =>
        current' := current + [ch];
        if ch == '\n' {
          state' := Default;
        }
        i' := i + 1;
      case BlockComment =>
        current' := current + [ch];
        if ch == '*' && next == "/" {
          assert sql[i..][..2] == [ch] + next && current' + next == current + ([ch] + next);
          current' := current' + next;
          i' := i + 2;
          state' := Default;
        } else {
          i' := i + 1;
        }
      case DollarQuote(dollarTag) =>
        if dollarTag <= sql[i..] {
          current' := current + dollarTag;
          i' := i + |dollarTag|;
          state' := Default;
        } else {
          current' := current + [ch];
          i' := i + 1;
        }
    }
  }

  /** What the loop keeps true. */
  ghost predicate Reading(sql: string, i: nat, state: Mode, current: string, statements: seq<string>) {
    && i <= |sql|
    && Guarded(state, current)
    && statements + Statements(current, Pieces(state, AtLineStart(sql, i), sql[i..])) == Split(sql)
  }

  lemma StatementsMove(cur: string, piece: Piece, rest: seq<Piece>, done: seq<string>, whole: seq<string>)
    requires done + Statements(cur, [piece] + rest) == whole
    ensures done + Effect(cur, piece).1 + Statements(Effect(cur, piece).0, rest) == whole
  {
    StatementsCons(cur, piece, rest);
    var (next, out) := Effect(cur, piece);
    assert done + (out + Statements(next, rest)) == done + out + Statements(next, rest);
  }

  lemma TurnKeepsStatements(sql: string, i: nat, state: Mode, current: string, statements: seq<string>,
                            whole: seq<string>, m: Move)
    requires i < |sql| && m == Step(state, AtLineStart(sql, i), sql[i..])
    requires statements + Statements(current, Pieces(state, AtLineStart(sql, i), sql[i..])) == whole
    ensures var j := i + |m.piece.Text()|;
            j <= |sql| &&
            statements + Effect(current, m.piece).1
            + Statements(Effect(current, m.piece).0, Pieces(m.next, AtLineStart(sql, j), sql[j..])) == whole
  {
    var t := m.piece.Text();
    PiecesCons(state, AtLineStart(sql, i), sql[i..], m);
    LineStartAfter(sql, i, t);
    StatementsMove(current, m.piece, Pieces(m.next, AtLineStart(sql, i + |t|), sql[i + |t|..]), statements, whole);
  }

  lemma TurnKeepsReading(sql: string, i: nat, state: Mode, current: string, statements: seq<string>, m: Move)
    requires i < |sql| && Reading(sql, i, state, current, statements)
    requires m == Step(state, AtLineStart(sql, i), sql[i..])
    ensures Reading(sql, i + |m.piece.Text()|, m.next, Effect(current, m.piece).0,
                    statements + Effect(current, m.piece).1)
  {
    TurnKeepsStatements(sql, i, state, current, statements, Split(sql), m);
    StepBlankSafe(state, AtLineStart(sql, i), sql[i..]);
    GuardedMove(state, current, m);
  }

  lemma ReadingEnds(sql: string, state: Mode, current: string, statements: seq<string>)
    requires Reading(sql, |sql|, state, current, statements)
    ensures statements + Flush(current) == Split(sql)
    ensures Trim(current) != ";"
  {
    assert sql[|sql|..] == "";
    GuardedNeverBareSemicolon(state, current);
  }

  lemma ReadingStarts(sql: string)
    ensures Reading(sql, 0, Default, "", [])
  {
    assert sql[0..] == sql;
  }

  /** The state-machine splitter. It returns what the recursive lexer says, for every text. */
  method SplitSqlStatements(sql: string) returns (statements: seq<string>)
    ensures statements == Split(sql)
  {
    statements := [];
    var current := "";
    var i := 0;
    var state := Default;
    ReadingStarts(sql);
    while i < |sql|
      invariant state.DollarQuote? ==> IsTag(state.tag)
      invariant Reading(sql, i, state, current, statements)
    {
      TurnKeepsReading(sql, i, state, current, statements, Step(state, AtLineStart(sql, i), sql[i..]));
      var completed;
      i, state, current, completed := Turn(sql, i, state, current);
      statements := statements + completed;
    }
    ReadingEnds(sql, state, current, statements);
    var trailing := Trim(current);
    if |trailing| > 0 && trailing != ";" {
      statements := statements + [trailing];
    }
  }
}
