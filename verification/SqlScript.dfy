/** What a script means, without the lexer: a grammar of chunks, and the statements that a reading of chunks gives. */
module SqlScript {
  import opened JsText
  import opened SqlLexer
  import opened SqlReading
  import opened SqlLiterals

  /**
   Plain text; a literal or comment that is closed; one that the script ends in; a semicolon that separates; a psql
   line.
   */
  datatype Chunk = Plain(text: string) | Closed(text: string) | Open(text: string) | Semicolon | Meta(text: string)
  {
    function Text(): string {
      if Semicolon? then ";" else text
    }
  }

  function TextOf(cs: seq<Chunk>): string
    decreases |cs|
  {
    if cs == [] then "" else cs[0].Text() + TextOf(cs[1..])
  }

  /** What opens a literal or a comment. */
  ghost predicate Opens(s: string) {
    || "'" <= s || "--" <= s || "/*" <= s
    || exists tag :: IsTag(tag) && tag <= s
  }

  predicate AtLineStart(bol: bool, t: string, k: nat)
    requires k < |t|
  {
    if k == 0 then bol else t[k - 1] == '\n'
  }

  /** Nothing in `t`, with `w` behind it, opens a literal, separates, or starts a line with a backslash. */
  ghost predicate IsPlain(bol: bool, t: string, w: string) {
    forall k :: 0 <= k < |t| ==> !Opens((t + w)[k..]) && t[k] != ';' && (t[k] == '\\' ==> !AtLineStart(bol, t, k))
  }

  ghost predicate Absent(body: string, mark: string) {
    forall k :: 0 <= k <= |body| ==> !(mark <= body[k..])
  }

  /** A literal or comment without its end. */
  ghost predicate Unclosed(t: string) {
    || (exists body :: t == "'" + Doubled(body))
    || (exists body :: t == "-" + ("-" + body) && '\n' !in body)
    || (exists body :: t == "/" + body && "*" <= body && Absent(body, "*/"))
    || (exists tag, body :: IsTag(tag) && t == tag + body && Absent(body, tag))
  }

  /** A whole line, with its newline unless the script ends in it. */
  predicate IsLine(t: string, w: string) {
    && t != "" && (forall k :: 0 <= k < |t| - 1 ==> t[k] != '\n')
    && (t[|t| - 1] == '\n' || w == "")
  }

  ghost predicate Fits(c: Chunk, bol: bool, w: string) {
    match c
    case Plain(t) => IsPlain(bol, t, w)
    case Closed(t) => Region(t, w)
    case Open(t) => Unclosed(t) && w == ""
    case Semicolon => true
    case Meta(t) => bol && "\\" <= t && IsLine(t, w)
  }

  /** A reading of a script: each chunk is what it says, with the others behind it. */
  ghost predicate Reading(bol: bool, cs: seq<Chunk>)
    decreases |cs|
  {
    cs == [] || (Fits(cs[0], bol, TextOf(cs[1..])) && Reading(BolAfter(bol, cs[0].Text()), cs[1..]))
  }

  /** The statements of a reading: what stands between its semicolons, trimmed, if anything is left. */
  function Said(cur: string, cs: seq<Chunk>): seq<string>
    decreases |cs|
  {
    if cs == [] then Flush(cur)
    else
      match cs[0]
      case Plain(t) => Said(cur + t, cs[1..])
      case Closed(t) => Said(cur + t, cs[1..])
      case Open(t) => Said(cur + t, cs[1..])
      case Semicolon => Flush(cur) + Said("", cs[1..])
      case Meta(_) => Said(cur, cs[1..])
  }

  lemma TagOpens(s: string)
    requires s != ""
    ensures DollarTag(s).Some? <==> exists tag :: IsTag(tag) && tag <= s
  {
    DollarTagIsTag(s);
    if tag :| IsTag(tag) && tag <= s {
      assert s == tag + s[|tag|..];
      StepOpensDollar(tag, true, s[|tag|..]);
      assert DollarTag(s).Some?;
    }
  }

  lemma PairOpens(s: string, a: char, b: char)
    requires s != ""
    ensures [a, b] <= s <==> s[0] == a && NextIs(s, b)
  {
    if |s| >= 2 {
      assert s[..2] == [s[0], s[1]];
    }
  }

  /** The default state is left exactly at an opener. */
  lemma LeavesAtOpeners(bol: bool, s: string)
    requires s != ""
    ensures Step(Default, bol, s).next != Default <==> Opens(s)
  {
    TagOpens(s);
    PairOpens(s, '-', '-');
    PairOpens(s, '/', '*');
    assert "'" <= s <==> s[0] == '\'';
    assert ['-', '-'] == "--" && ['/', '*'] == "/*";
  }

  lemma StepPlain(bol: bool, s: string)
    requires s != "" && !Opens(s) && s[0] != ';' && (s[0] == '\\' ==> !bol)
    ensures Step(Default, bol, s) == Move(Keep([s[0]]), Default)
  {
    LeavesAtOpeners(bol, s);
  }

  lemma PlainTail(bol: bool, t: string, w: string)
    requires t != "" && IsPlain(bol, t, w)
    ensures IsPlain(BolAfter(bol, [t[0]]), t[1..], w)
    ensures !Opens([t[0]] + (t[1..] + w)) && t[0] != ';' && (t[0] == '\\' ==> !bol)
  {
    assert (t + w)[0..] == [t[0]] + (t[1..] + w);
    assert !Opens((t + w)[0..]);
    forall k | 0 <= k < |t| - 1
      ensures !Opens((t[1..] + w)[k..]) && t[1..][k] != ';'
      ensures t[1..][k] == '\\' ==> !AtLineStart(BolAfter(bol, [t[0]]), t[1..], k) {
      assert (t[1..] + w)[k..] == (t + w)[k + 1..];
      assert !Opens((t + w)[k + 1..]) && t[k + 1] != ';';
    }
  }

  /** Plain text is kept, and leaves the lexer where it was. */
  lemma {:induction false} PlainEaten(bol: bool, t: string, w: string)
    requires IsPlain(bol, t, w)
    ensures Eat(Default, bol, t, w) == Some(Default)
    decreases |t|
  {
    if t != "" {
      PlainTail(bol, t, w);
      assert t == [t[0]] + t[1..];
      StepPlain(bol, [t[0]] + (t[1..] + w));
      EatOne(Default, bol, [t[0]], t[1..], w, Default);
      PlainEaten(BolAfter(bol, [t[0]]), t[1..], w);
    }
  }

  lemma {:induction false} OpenQuoteEaten(bol: bool, body: string)
    ensures Eat(SingleQuote, bol, Doubled(body), "").Some?
    decreases |body|
  {
    if body != "" {
      var t := if body[0] == '\'' then "''" else [body[0]];
      StepInQuote(bol, if body[0] == '\'' then 'x' else body[0], Doubled(body[1..]) + "");
      EatOne(SingleQuote, bol, t, Doubled(body[1..]), "", SingleQuote);
      OpenQuoteEaten(BolAfter(bol, t), body[1..]);
    }
  }

  lemma {:induction false} OpenLineEaten(bol: bool, body: string)
    requires '\n' !in body
    ensures Eat(LineComment, bol, body, "").Some?
    decreases |body|
  {
    if body != "" {
      assert body == [body[0]] + body[1..];
      StepInLineComment(bol, body[0], body[1..] + "");
      EatOne(LineComment, bol, [body[0]], body[1..], "", LineComment);
      OpenLineEaten(BolAfter(bol, [body[0]]), body[1..]);
    }
  }

  lemma AbsentTail(body: string, mark: string)
    requires body != "" && Absent(body, mark)
    ensures Absent(body[1..], mark) && !(mark <= [body[0]] + (body[1..] + ""))
  {
    assert body[0..] == [body[0]] + (body[1..] + "");
    forall k | 0 <= k <= |body| - 1 ensures !(mark <= body[1..][k..]) {
      assert body[1..][k..] == body[k + 1..];
    }
  }

  lemma {:induction false} OpenBlockEaten(bol: bool, body: string)
    requires Absent(body, "*/")
    ensures Eat(BlockComment, bol, body, "").Some?
    decreases |body|
  {
    if body != "" {
      AbsentTail(body, "*/");
      assert body == [body[0]] + body[1..];
      StepInBlock(bol, [body[0]] + (body[1..] + ""));
      EatOne(BlockComment, bol, [body[0]], body[1..], "", BlockComment);
      OpenBlockEaten(BolAfter(bol, [body[0]]), body[1..]);
    }
  }

  lemma StepInBlock(bol: bool, s: string)
    requires s != "" && !("*/" <= s)
    ensures Step(BlockComment, bol, s) == Move(Keep([s[0]]), BlockComment)
  {
    if |s| >= 2 {
      StepInBlockComment(bol, s);
    }
  }

  lemma {:induction false} OpenDollarEaten(tag: string, bol: bool, body: string)
    requires IsTag(tag) && Absent(body, tag)
    ensures Eat(DollarQuote(tag), bol, body, "").Some?
    decreases |body|
  {
    if body != "" {
      AbsentTail(body, tag);
      assert body == [body[0]] + body[1..];
      StepInDollarQuote(tag, bol, [body[0]] + (body[1..] + ""));
      EatOne(DollarQuote(tag), bol, [body[0]], body[1..], "", DollarQuote(tag));
      OpenDollarEaten(tag, BolAfter(bol, [body[0]]), body[1..]);
    }
  }

  /** What the script ends in is kept to its end. */
  lemma UnclosedEaten(bol: bool, t: string)
    requires Unclosed(t)
    ensures Eat(Default, bol, t, "").Some?
  {
    if body :| t == "'" + Doubled(body) {
      StepOpens(bol, Doubled(body) + "");
      EatOne(Default, bol, "'", Doubled(body), "", SingleQuote);
      OpenQuoteEaten(false, body);
    } else if body :| t == "-" + ("-" + body) && '\n' !in body {
      assert "-" + ("-" + body) + "" == "-" + ("-" + body);
      StepOpens(bol, body);
      EatOne(Default, bol, "-", "-" + body, "", LineComment);
      OpenLineEaten(false, "-" + body);
    } else if body :| t == "/" + body && "*" <= body && Absent(body, "*/") {
      assert body == "*" + body[1..];
      StepOpens(bol, body[1..]);
      assert "/" + (body + "") == "/" + ("*" + body[1..]);
      EatOne(Default, bol, "/", body, "", BlockComment);
      OpenBlockEaten(false, body);
    } else {
      var tag, body :| IsTag(tag) && t == tag + body && Absent(body, tag);
      StepOpensDollar(tag, bol, body + "");
      EatOne(Default, bol, tag, body, "", DollarQuote(tag));
      OpenDollarEaten(tag, BolAfter(bol, tag), body);
    }
  }

  lemma KeptAhead(cur: string, bol: bool, t: string, w: string, next: Mode)
    requires Eat(Default, bol, t, w) == Some(next)
    ensures Statements(cur, Pieces(Default, bol, t + w)) == Statements(cur + t, Pieces(next, BolAfter(bol, t), w))
  {
    var ks := EatPieces(Default, bol, t, w);
    KeptStatements(cur, ks, Pieces(next, BolAfter(bol, t), w));
  }

  lemma SemicolonAhead(cur: string, bol: bool, w: string)
    ensures Statements(cur, Pieces(Default, bol, ";" + w)) == Flush(cur) + Statements("", Pieces(Default, false, w))
  {
    assert (";" + w)[0] == ';' && (";" + w)[1..] == w;
    PiecesHead(Default, bol, ";" + w, Move(Cut, Default));
    var rest := Pieces(Default, false, w);
    assert ([Cut] + rest)[1..] == rest;
  }

  lemma {:induction false} HeadLineIs(t: string, w: string)
    requires IsLine(t, w)
    ensures HeadLine(t + w) == t
    decreases |t|
  {
    assert (t + w)[0] == t[0] && (t + w)[1..] == t[1..] + w;
    if |t| > 1 {
      HeadLineIs(t[1..], w);
      assert [t[0]] + t[1..] == t;
    }
  }

  lemma MetaAhead(cur: string, t: string, w: string)
    requires "\\" <= t && IsLine(t, w)
    ensures Statements(cur, Pieces(Default, true, t + w)) == Statements(cur, Pieces(Default, BolAfter(true, t), w))
  {
    HeadLineIs(t, w);
    assert (t + w)[0] == '\\' && (t + w)[|t|..] == w;
    PiecesHead(Default, true, t + w, Move(Drop(t), Default));
    var rest := Pieces(Default, BolAfter(true, t), w);
    assert ([Drop(t)] + rest)[1..] == rest;
  }

  /** The lexer returns what a reading says. */
  lemma {:induction false} ReadingIsSaid(cur: string, bol: bool, cs: seq<Chunk>)
    requires Reading(bol, cs)
    ensures Statements(cur, Pieces(Default, bol, TextOf(cs))) == Said(cur, cs)
    decreases |cs|
  {
    if cs != [] {
      var w, bol' := TextOf(cs[1..]), BolAfter(bol, cs[0].Text());
      match cs[0] {
        case Plain(t) =>
          PlainEaten(bol, t, w);
          KeptAhead(cur, bol, t, w, Default);
          ReadingIsSaid(cur + t, bol', cs[1..]);
        case Closed(t) =>
          RegionKept(cur, bol, t, w);
          ReadingIsSaid(cur + t, bol', cs[1..]);
        case Open(t) =>
          UnclosedEaten(bol, t);
          KeptAhead(cur, bol, t, w, Eat(Default, bol, t, w).value);
          ReadingIsSaid(cur + t, bol', cs[1..]);
        case Semicolon =>
          SemicolonAhead(cur, bol, w);
          ReadingIsSaid("", bol', cs[1..]);
        case Meta(t) =>
          MetaAhead(cur, t, w);
          ReadingIsSaid(cur, bol', cs[1..]);
      }
    }
  }

  lemma {:induction false} FindQuote(s: string) returns (body: string, closed: bool, rest: string)
    ensures s == Doubled(body) + (if closed then "'" + rest else "")
    ensures if closed then rest == "" || rest[0] != '\'' else rest == ""
    decreases |s|
  {
    if s == "" {
      body, closed, rest := "", false, "";
    } else if s[0] == '\'' && !NextIs(s, '\'') {
      body, closed, rest := "", true, s[1..];
    } else {
      var t := if s[0] == '\'' then s[..2] else [s[0]];
      body, closed, rest := FindQuote(s[|t|..]);
      assert ([s[0]] + body)[1..] == body;
      assert s == t + s[|t|..];
      Regroup(t, Doubled(body), if closed then "'" + rest else "");
      body := [s[0]] + body;
    }
  }

  lemma FindMark(s: string, mark: string) returns (k: nat, found: bool)
    requires mark != ""
    ensures if found then k + |mark| <= |s| && mark <= s[k..] && (forall j :: 0 <= j < k ==> !(mark <= s[j..]))
            else Absent(s, mark)
  {
    k, found := 0, false;
    while k < |s|
      invariant k <= |s| && forall j :: 0 <= j < k ==> !(mark <= s[j..])
    {
      if mark <= s[k..] {
        found := true;
        return;
      }
      k := k + 1;
    }
  }

  lemma FoundFirst(s: string, k: nat, mark: string)
    requires k + |mark| <= |s| && mark <= s[k..] && forall j :: 0 <= j < k ==> !(mark <= s[j..])
    ensures FirstAtEnd(s[..k], mark) && s == s[..k] + mark + s[k + |mark|..]
  {
    assert s[k..] == mark + s[k + |mark|..];
    forall j | 0 <= j < k ensures !(mark <= (s[..k] + mark)[j..]) {
      assert s[j..] == (s[..k] + mark)[j..] + s[k + |mark|..];
    }
  }

  /** The chunk that a script begins with, and the rest. */
  lemma FirstChunk(bol: bool, s: string) returns (c: Chunk, rest: string)
    requires s != ""
    ensures Fits(c, bol, rest) && c.Text() != "" && s == c.Text() + rest
  {
    if Opens(s) {
      c, rest := FirstLiteral(s);
    } else if s[0] == ';' {
      c, rest := Semicolon, s[1..];
    } else if s[0] == '\\' && bol {
      c, rest := FirstLine(s);
    } else {
      c, rest := Plain([s[0]]), s[1..];
      assert [s[0]] + s[1..] == s && s[0..] == s;
    }
  }

  lemma FirstLine(s: string) returns (c: Chunk, rest: string)
    requires "\\" <= s
    ensures Fits(c, true, rest) && c.Text() != "" && s == c.Text() + rest
  {
    var k, found := FindMark(s, "\n");
    forall j | 0 <= j < |s| && s[j] == '\n' ensures "\n" <= s[j..] {
    }
    var n := if found then k + 1 else |s|;
    assert found ==> s[k] == '\n';
    c, rest := Meta(s[..n]), s[n..];
  }

  lemma FirstLiteral(s: string) returns (c: Chunk, rest: string)
    requires Opens(s)
    ensures (c.Closed? && Region(c.text, rest)) || (c.Open? && Unclosed(c.text) && rest == "")
    ensures c.Text() != "" && s == c.Text() + rest
  {
    if "'" <= s {
      c, rest := FirstQuoted(s);
    } else if "--" <= s {
      c, rest := FirstLineComment(s);
    } else if "/*" <= s {
      c, rest := FirstBlockComment(s);
    } else {
      var tag :| IsTag(tag) && tag <= s;
      c, rest := FirstDollarQuoted(s, tag);
    }
  }

  lemma FirstQuoted(s: string) returns (c: Chunk, rest: string)
    requires "'" <= s
    ensures (c.Closed? && Region(c.text, rest)) || (c.Open? && Unclosed(c.text) && rest == "")
    ensures c.Text() != "" && s == c.Text() + rest
  {
    var body, closed, after := FindQuote(s[1..]);
    rest := after;
    c := if closed then Closed("'" + (Doubled(body) + "'")) else Open("'" + Doubled(body));
    assert s == "'" + s[1..];
  }

  lemma FirstLineComment(s: string) returns (c: Chunk, rest: string)
    requires "--" <= s
    ensures (c.Closed? && Region(c.text, rest)) || (c.Open? && Unclosed(c.text) && rest == "")
    ensures c.Text() != "" && s == c.Text() + rest
  {
    var u := s[2..];
    var k, found := FindMark(u, "\n");
    forall j | 0 <= j < |u| && u[j] == '\n' ensures "\n" <= u[j..] {
    }
    assert s == "-" + ("-" + u);
    if found {
      FoundFirst(u, k, "\n");
      c, rest := Closed("-" + ("-" + u[..k] + "\n")), u[k + 1..];
      assert '\n' !in u[..k];
    } else {
      c, rest := Open("-" + ("-" + u)), "";
    }
  }

  lemma FirstBlockComment(s: string) returns (c: Chunk, rest: string)
    requires "/*" <= s
    ensures (c.Closed? && Region(c.text, rest)) || (c.Open? && Unclosed(c.text) && rest == "")
    ensures c.Text() != "" && s == c.Text() + rest
  {
    var u := s[1..];
    var k, found := FindMark(u, "*/");
    assert s == "/" + u && u[0] == '*';
    if found {
      FoundFirst(u, k, "*/");
      c, rest := Closed("/" + (u[..k] + "*/")), u[k + 2..];
      assert c.text[1] == s[1];
    } else {
      c, rest := Open("/" + u), "";
    }
  }

  lemma FirstDollarQuoted(s: string, tag: string) returns (c: Chunk, rest: string)
    requires IsTag(tag) && tag <= s
    ensures (c.Closed? && Region(c.text, rest)) || (c.Open? && Unclosed(c.text) && rest == "")
    ensures c.Text() != "" && s == c.Text() + rest
  {
    var u := s[|tag|..];
    var k, found := FindMark(u, tag);
    assert s == tag + u;
    if found {
      FoundFirst(u, k, tag);
      c, rest := Closed(tag + (u[..k] + tag)), u[k + |tag|..];
    } else {
      c, rest := Open(tag + u), "";
    }
  }

  /** Every text has a reading. */
  lemma {:induction false} EveryTextReads(bol: bool, s: string) returns (cs: seq<Chunk>)
    ensures Reading(bol, cs) && TextOf(cs) == s
    decreases |s|
  {
    if s == "" {
      cs := [];
    } else {
      var c, rest := FirstChunk(bol, s);
      cs := EveryTextReads(BolAfter(bol, c.Text()), rest);
      assert ([c] + cs)[1..] == cs;
      cs := [c] + cs;
    }
  }

  /** A script written as chunks, the start of the script being the start of a line. */
  ghost predicate Reads(sql: string, cs: seq<Chunk>) {
    Reading(true, cs) && TextOf(cs) == sql
  }

  /**
   What the splitter returns, for every script: the script has a reading, and for each of its readings the result is
   what stands between the semicolons outside literals, comments and psql lines, trimmed, if anything is left.
   */
  lemma SplitIsSaid(sql: string)
    ensures exists cs :: Reads(sql, cs)
    ensures forall cs :: Reads(sql, cs) ==> Split(sql) == Said("", cs)
  {
    var cs := EveryTextReads(true, sql);
    assert Reads(sql, cs);
    forall cs | Reads(sql, cs) ensures Split(sql) == Said("", cs) {
      ReadingIsSaid("", true, cs);
    }
  }
}
