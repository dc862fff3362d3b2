/** Splitting the joined statements again gives the statements back, exactly when none opens with a backslash. */
module SqlRoundTrip {
  import opened JsText
  import opened SqlLexer
  import opened SqlReading

  const SEPARATOR := "\n;\n"

  /** Where the lexer stands after a whole statement that is read on its own. */
  function EndMode(s: string): Option<Mode> {
    Eat(Default, true, s, "")
  }

  /** A trimmed statement that the lexer keeps whole, unless a backslash opens it. */
  ghost predicate Settled(s: string) {
    Inked(s) && (s[0] != '\\' ==> EndMode(s).Some?)
  }

  /** A settled statement after which a newline always returns to the default state. */
  ghost predicate Closed(s: string) {
    Settled(s) && (s[0] != '\\' ==> EndMode(s).value in {Default, LineComment})
  }

  ghost predicate AllSettled(ss: seq<string>) {
    && (forall k :: 0 <= k < |ss| ==> Settled(ss[k]))
    && (forall k :: 0 <= k < |ss| - 1 ==> Closed(ss[k]))
  }

  lemma StepBlank(mode: Mode, bol: bool, c: char, w: string)
    requires IsSpace(c) && ModeOk(mode)
    ensures var m := Step(mode, bol, [c] + w);
            m.piece == Keep([c]) && (mode != LineComment ==> m.next == mode)
  {
    assert ([c] + w)[0] == c;
    if mode.DollarQuote? {
      TagHasNoBlank(mode.tag);
    }
  }

  /** Blanks leave no state but the line comment. */
  lemma {:induction false} EatBlanks(mode: Mode, bol: bool, blanks: string, w: string)
    requires AllSpace(blanks) && ModeOk(mode) && mode != LineComment
    ensures Eat(mode, bol, blanks, w) == Some(mode)
    decreases |blanks|
  {
    if blanks != "" {
      assert blanks + w == [blanks[0]] + (blanks[1..] + w);
      StepBlank(mode, bol, blanks[0], blanks[1..] + w);
      EatCons(mode, bol, blanks, w, Step(mode, bol, blanks + w));
      EatBlanks(mode, BolAfter(bol, [blanks[0]]), blanks[1..], w);
    }
  }

  /** Leading blanks and the start of the line do not matter to text that no backslash opens. */
  lemma EatAfterBlanks(bol: bool, lead: string, x: string, w: string)
    requires AllSpace(lead) && x != "" && x[0] != '\\'
    ensures Eat(Default, bol, lead + x, w) == Eat(Default, true, x, w)
  {
    EatBlanks(Default, bol, lead, x + w);
    EatSplit(Default, bol, lead, x, w);
    EatAnyStart(Default, BolAfter(bol, lead), true, x, w);
  }

  /** Dropping trailing blanks keeps the text readable, and a cut leaves it closed. */
  lemma EatWithoutTrail(body: string, trail: string, w: string)
    requires AllSpace(trail) && Benign(w)
    requires Eat(Default, true, body + trail, w).Some?
    ensures EndMode(body).Some?
    ensures Eat(Default, true, body + trail, w).value == Default ==> EndMode(body).value in {Default, LineComment}
  {
    if trail == "" {
      assert body + trail == body;
      EatBenign(Default, true, body, w);
    } else {
      EatPrefix(Default, true, body, trail, w);
      EatBenign(Default, true, body, trail + w);
      EatModeOk(Default, true, body, trail + w);
      EatSplit(Default, true, body, trail, w);
      var m := EndMode(body).value;
      if m != LineComment {
        EatBlanks(m, BolAfter(true, body), trail, w);
      }
    }
  }

  lemma BodySettles(bol: bool, lead: string, body: string, trail: string, w: string)
    requires AllSpace(lead) && AllSpace(trail) && Benign(w)
    requires body != "" && body[0] != '\\'
    requires Eat(Default, bol, lead + (body + trail), w).Some?
    ensures EndMode(body).Some?
    ensures Eat(Default, bol, lead + (body + trail), w).value == Default ==>
              EndMode(body).value in {Default, LineComment}
  {
    assert (body + trail)[0] == body[0];
    EatAfterBlanks(bol, lead, body + trail, w);
    EatWithoutTrail(body, trail, w);
  }

  lemma PartsSettle(bol: bool, lead: string, body: string, trail: string, w: string)
    requires AllSpace(lead) && AllSpace(trail) && Benign(w)
    requires body == "" || Inked(body)
    requires Eat(Default, bol, lead + (body + trail), w).Some?
    ensures AllSettled(Nonempty(body))
    ensures Eat(Default, bol, lead + (body + trail), w).value == Default && body != "" ==> Closed(body)
  {
    if body != "" && body[0] != '\\' {
      BodySettles(bol, lead, body, trail, w);
    }
  }

  /** What `Flush` makes of readable text is settled; after a cut it is closed. */
  lemma FlushSettles(bol: bool, cur: string, w: string)
    requires Benign(w) && Eat(Default, bol, cur, w).Some?
    ensures AllSettled(Flush(cur))
    ensures Eat(Default, bol, cur, w).value == Default && Trim(cur) != "" ==> Closed(Trim(cur))
  {
    var lead, trail := TrimParts(cur);
    Regroup(lead, Trim(cur), trail);
    PartsSettle(bol, lead, Trim(cur), trail, w);
  }

  lemma AllSettledAppend(a: seq<string>, b: seq<string>)
    requires forall k :: 0 <= k < |a| ==> Closed(a[k])
    requires AllSettled(b)
    ensures AllSettled(a + b)
  {
  }

  lemma EatOnePiece(mode: Mode, bol: bool, s: string, m: Move)
    requires s != "" && m == Step(mode, bol, s) && m.piece.Keep?
    ensures s == m.piece.text + s[|m.piece.text|..]
    ensures Eat(mode, bol, m.piece.text, s[|m.piece.text|..]) == Some(m.next)
  {
    var t := m.piece.text;
    assert s == t + s[|t|..];
    EatCons(mode, bol, t, s[|t|..], m);
    assert t[|t|..] == "";
  }

  lemma CutAndDropHeads(mode: Mode, bol: bool, s: string, m: Move)
    requires s != "" && m == Step(mode, bol, s)
    ensures m.piece.Cut? ==> mode == m.next == Default && s[0] == ';'
    ensures m.piece.Drop? ==> mode == m.next == Default && bol && s[0] == '\\' && m.piece.text[0] == '\\'
    ensures m.piece.Drop? && s[|m.piece.text|..] != "" ==> BolAfter(bol, m.piece.text)
  {
    HeadLineShape(s);
    if m.piece.Drop? && m.piece.text == s {
      assert s[|s|..] == "";
    }
  }

  lemma StatementsHead(cur: string, p: Piece, rest: seq<Piece>)
    ensures Statements(cur, [p] + rest) == Effect(cur, p).1 + Statements(Effect(cur, p).0, rest)
  {
    assert ([p] + rest)[1..] == rest;
  }

  lemma StatementsTurn(cur: string, mode: Mode, bol: bool, s: string, m: Move)
    requires s != "" && m == Step(mode, bol, s)
    ensures var rest := Pieces(m.next, BolAfter(bol, m.piece.Text()), s[|m.piece.Text()|..]);
            Statements(cur, Pieces(mode, bol, s)) ==
            if m.piece.Keep? then Statements(cur + m.piece.text, rest)
            else if m.piece.Cut? then Flush(cur) + Statements("", rest)
            else Statements(cur, rest)
  {
    var rest := Pieces(m.next, BolAfter(bol, m.piece.Text()), s[|m.piece.Text()|..]);
    PiecesHead(mode, bol, s, m);
    StatementsHead(cur, m.piece, rest);
    NothingInFront(Statements(Effect(cur, m.piece).0, rest), "");
  }

  /** Text gathered across a dropped line is read as if the line had not been there. */
  lemma EatAcrossDrop(b0: bool, cur: string, s: string, rest: string) returns (b1: bool)
    requires Eat(Default, b0, cur, s) == Some(Default)
    requires BolAfter(b0, cur)
    ensures Eat(Default, b1, cur, rest) == Some(Default)
    ensures BolAfter(b1, cur)
  {
    b1 := b0;
    if cur == "" {
      b1 := true;
    } else {
      EatLine(Default, b0, cur, s, rest);
    }
  }

  /** Every statement of every script is settled, and all but the last are closed. */
  lemma {:induction false} SplitSettles(mode: Mode, bol: bool, b0: bool, cur: string, s: string)
    requires Eat(Default, b0, cur, s) == Some(mode) && ModeOk(mode)
    requires s != "" ==> bol == BolAfter(b0, cur)
    ensures AllSettled(Statements(cur, Pieces(mode, bol, s)))
    decreases |s|
  {
    if s == "" {
      FlushSettles(b0, cur, s);
    } else {
      var m := Step(mode, bol, s);
      var t := m.piece.Text();
      var rest := s[|t|..];
      StatementsTurn(cur, mode, bol, s, m);
      if m.piece.Keep? {
        KeepExtends(mode, bol, b0, cur, s, m);
        SplitSettles(m.next, BolAfter(bol, t), b0, cur + t, rest);
      } else if m.piece.Cut? {
        CutCloses(mode, bol, b0, cur, s, m);
        SplitSettles(Default, false, false, "", rest);
        AllSettledAppend(Flush(cur), Statements("", Pieces(Default, false, rest)));
      } else {
        var b1 := DropExtends(mode, bol, b0, cur, s, m);
        SplitSettles(Default, BolAfter(bol, t), b1, cur, rest);
      }
    }
  }

  lemma CutCloses(mode: Mode, bol: bool, b0: bool, cur: string, s: string, m: Move)
    requires s != "" && m == Step(mode, bol, s) && m.piece.Cut?
    requires Eat(Default, b0, cur, s) == Some(mode)
    ensures m.next == Default
    ensures forall k :: 0 <= k < |Flush(cur)| ==> Closed(Flush(cur)[k])
  {
    CutAndDropHeads(mode, bol, s, m);
    FlushSettles(b0, cur, s);
  }

  lemma DropExtends(mode: Mode, bol: bool, b0: bool, cur: string, s: string, m: Move) returns (b1: bool)
    requires s != "" && m == Step(mode, bol, s) && m.piece.Drop?
    requires Eat(Default, b0, cur, s) == Some(mode) && bol == BolAfter(b0, cur)
    ensures m.next == Default
    ensures var rest := s[|m.piece.text|..];
            Eat(Default, b1, cur, rest) == Some(Default) &&
            (rest != "" ==> BolAfter(bol, m.piece.text) == BolAfter(b1, cur))
  {
    CutAndDropHeads(mode, bol, s, m);
    b1 := EatAcrossDrop(b0, cur, s, s[|m.piece.text|..]);
  }

  lemma KeepExtends(mode: Mode, bol: bool, b0: bool, cur: string, s: string, m: Move)
    requires s != "" && m == Step(mode, bol, s) && m.piece.Keep?
    requires Eat(Default, b0, cur, s) == Some(mode) && bol == BolAfter(b0, cur) && ModeOk(mode)
    ensures ModeOk(m.next)
    ensures var t := m.piece.text;
            Eat(Default, b0, cur + t, s[|t|..]) == Some(m.next) && BolAfter(bol, t) == BolAfter(b0, cur + t)
  {
    var t := m.piece.text;
    StepModeOk(mode, bol, s);
    EatOnePiece(mode, bol, s, m);
    EatSplit(Default, b0, cur, t, s[|t|..]);
    BolAfterAppend(b0, cur, t);
  }

  lemma BolAfterAppend(bol: bool, cur: string, t: string)
    requires t != ""
    ensures BolAfter(bol, cur + t) == BolAfter(BolAfter(bol, cur), t)
  {
  }

  lemma SplitIsSettled(sql: string)
    ensures AllSettled(Split(sql))
  {
    SplitSettles(Default, true, true, "", sql);
  }

  /** `s` opens with the backslash that makes the lexer drop its first line. */
  predicate Meta(s: string) {
    s != "" && s[0] == '\\'
  }

  lemma MetaDropped(w: string)
    requires Meta(w)
    ensures Pieces(Default, true, w) != [] && Pieces(Default, true, w)[0].Drop?
  {
    PiecesHead(Default, true, w, Step(Default, true, w));
  }

  lemma NewlinePieces(mode: Mode, bol: bool, w: string)
    requires mode in {Default, LineComment}
    ensures Pieces(mode, bol, "\n" + w) == [Keep("\n")] + Pieces(Default, true, w)
  {
    StepNewline(mode, bol, w);
    OneCharPiece(mode, bol, '\n', w, Move(Keep("\n"), Default));
  }

  lemma SemicolonPieces(w: string)
    ensures Pieces(Default, true, ";" + w) == [Cut] + Pieces(Default, false, w)
  {
    StepSemicolon(true, w);
    OneCharPiece(Default, true, ';', w, Move(Cut, Default));
  }

  /** The separator in front of `j` is read as a kept newline, a cut and a kept newline. */
  lemma SeparatorPieces(mode: Mode, bol: bool, j: string)
    requires mode in {Default, LineComment}
    ensures Pieces(mode, bol, SEPARATOR + j) == [Keep("\n"), Cut, Keep("\n")] + Pieces(Default, true, j)
  {
    SeparatorChars(j);
    NewlinePieces(mode, bol, ";" + ("\n" + j));
    SemicolonPieces("\n" + j);
    NewlinePieces(Default, false, j);
    ThreeInFront(Keep("\n"), Cut, Keep("\n"), Pieces(Default, true, j));
  }

  lemma SeparatorChars(j: string)
    ensures SEPARATOR + j == "\n" + (";" + ("\n" + j))
  {
  }

  lemma StepSemicolon(bol: bool, w: string)
    ensures Step(Default, bol, ";" + w) == Move(Cut, Default)
  {
    assert (";" + w)[0] == ';';
  }

  lemma OneCharPiece(mode: Mode, bol: bool, c: char, w: string, m: Move)
    requires m == Step(mode, bol, [c] + w) && m.piece.Text() == [c]
    ensures Pieces(mode, bol, [c] + w) == [m.piece] + Pieces(m.next, c == '\n', w)
  {
    assert ([c] + w)[1..] == w;
    PiecesHead(mode, bol, [c] + w, m);
  }

  lemma ThreeInFront<T>(a: T, b: T, c: T, rest: seq<T>)
    ensures [a] + ([b] + ([c] + rest)) == [a, b, c] + rest
  {
  }

  /** A closed statement in front of the separator is kept whole, cut off, and reading starts afresh. */
  lemma RunHead(s: string, j: string) returns (ks: seq<Piece>)
    requires Closed(s) && !Meta(s)
    ensures AllKeep(ks) && Texts(ks) == s
    ensures Pieces(Default, true, s + (SEPARATOR + j)) ==
            ks + ([Keep("\n"), Cut, Keep("\n")] + Pieces(Default, true, j))
  {
    assert (SEPARATOR + j)[0] == '\n';
    EatBenign(Default, true, s, SEPARATOR + j);
    ks := EatPieces(Default, true, s, SEPARATOR + j);
    SeparatorPieces(EndMode(s).value, BolAfter(true, s), j);
  }

  lemma RunLast(s: string) returns (ks: seq<Piece>)
    requires Settled(s) && !Meta(s)
    ensures AllKeep(ks) && Texts(ks) == s
    ensures Pieces(Default, true, s) == ks
  {
    ks := EatPieces(Default, true, s, "");
    assert s + "" == s;
    assert ks + [] == ks;
  }

  lemma FlushBody(pre: string, s: string, post: string)
    requires AllSpace(pre) && AllSpace(post) && Inked(s)
    ensures Flush(pre + s + post) == [s]
  {
    TrimUnique(pre, s, post);
  }

  /** How the statements of a joined script come back one by one. */
  lemma HeadComesBack(pre: string, s: string, ks: seq<Piece>, ps: seq<Piece>)
    requires AllSpace(pre) && Inked(s)
    requires AllKeep(ks) && Texts(ks) == s
    ensures Statements(pre, ks + ([Keep("\n"), Cut, Keep("\n")] + ps)) == [s] + Statements("\n", ps)
  {
    ThreeInFront(Keep("\n"), Cut, Keep("\n"), ps);
    KeptStatements(pre, ks, [Keep("\n"), Cut, Keep("\n")] + ps);
    StatementsHead(pre + s, Keep("\n"), [Cut] + ([Keep("\n")] + ps));
    StatementsHead(pre + s + "\n", Cut, [Keep("\n")] + ps);
    StatementsHead("", Keep("\n"), ps);
    FlushBody(pre, s, "\n");
    NothingInFront(Statements("\n", ps), "\n");
  }

  lemma NothingInFront<T>(rest: seq<T>, s: string)
    ensures [] + rest == rest && "" + s == s
  {
  }

  lemma JoinHead(ss: seq<string>)
    requires |ss| >= 2
    ensures Join(ss, SEPARATOR) == ss[0] + (SEPARATOR + Join(ss[1..], SEPARATOR))
  {
  }

  lemma AllSettledTail(ss: seq<string>)
    requires ss != [] && AllSettled(ss)
    ensures AllSettled(ss[1..])
  {
    forall k | 0 <= k < |ss| - 2 ensures Closed(ss[1..][k]) {
      assert ss[1..][k] == ss[k + 1];
    }
  }

  /** Settled statements that no backslash opens survive joining and splitting. */
  lemma {:induction false} JoinedComesBack(pre: string, ss: seq<string>)
    requires ss != [] && AllSettled(ss) && AllSpace(pre)
    requires forall k :: 0 <= k < |ss| ==> !Meta(ss[k])
    ensures Statements(pre, Pieces(Default, true, Join(ss, SEPARATOR))) == ss
    decreases |ss|
  {
    if |ss| == 1 {
      var ks := RunLast(ss[0]);
      assert ks + [] == ks;
      KeptStatements(pre, ks, []);
      assert pre + ss[0] + "" == pre + ss[0];
      FlushBody(pre, ss[0], "");
    } else {
      var j := Join(ss[1..], SEPARATOR);
      JoinHead(ss);
      var ks := RunHead(ss[0], j);
      HeadComesBack(pre, ss[0], ks, Pieces(Default, true, j));
      AllSettledTail(ss);
      JoinedComesBack("\n", ss[1..]);
    }
  }

  /** Number of characters that are not white space. */
  function Ink(s: string): nat {
    if s == "" then 0 else (if IsSpace(s[0]) then 0 else 1) + Ink(s[1..])
  }

  function InkOf(ss: seq<string>): nat {
    if ss == [] then 0 else Ink(ss[0]) + InkOf(ss[1..])
  }

  function Cuts(ps: seq<Piece>): nat {
    if ps == [] then 0 else (if ps[0].Cut? then 1 else 0) + Cuts(ps[1..])
  }

  function DroppedInk(ps: seq<Piece>): nat {
    if ps == [] then 0 else (if ps[0].Drop? then Ink(ps[0].text) else 0) + DroppedInk(ps[1..])
  }

  lemma {:induction false} InkAppend(a: string, b: string)
    ensures Ink(a + b) == Ink(a) + Ink(b)
  {
    if a == "" {
      assert a + b == b;
    } else {
      assert (a + b)[1..] == a[1..] + b;
      InkAppend(a[1..], b);
    }
  }

  lemma {:induction false} InkBlank(s: string)
    requires AllSpace(s)
    ensures Ink(s) == 0
  {
    if s != "" {
      InkBlank(s[1..]);
    }
  }

  lemma InkFlush(cur: string)
    ensures InkOf(Flush(cur)) == Ink(cur)
  {
    var lead, trail := TrimParts(cur);
    InkBetween(lead, Trim(cur), trail);
  }

  lemma InkBetween(lead: string, body: string, trail: string)
    requires AllSpace(lead) && AllSpace(trail)
    ensures Ink(lead + body + trail) == Ink(body) == InkOf(Nonempty(body))
  {
    InkAppend(lead + body, trail);
    InkAppend(lead, body);
    InkBlank(lead);
    InkBlank(trail);
  }

  lemma InkOfAppend(a: seq<string>, b: seq<string>)
    requires |a| <= 1
    ensures InkOf(a + b) == InkOf(a) + InkOf(b)
  {
    if a == [] {
      assert a + b == b;
    } else {
      assert (a + b)[1..] == b;
    }
  }

  /** Ink is conserved: what the pieces hold is kept, cut (one semicolon each) or dropped. */
  lemma {:induction false} InkConserved(cur: string, ps: seq<Piece>)
    ensures InkOf(Statements(cur, ps)) + Cuts(ps) + DroppedInk(ps) == Ink(cur) + Ink(Texts(ps))
    ensures |Statements(cur, ps)| <= Cuts(ps) + 1
    decreases |ps|
  {
    if ps == [] {
      InkFlush(cur);
    } else {
      InkAppend(ps[0].Text(), Texts(ps[1..]));
      InkConserved(Effect(cur, ps[0]).0, ps[1..]);
      InkOfAppend(Effect(cur, ps[0]).1, Statements(Effect(cur, ps[0]).0, ps[1..]));
      match ps[0] {
        case Keep(t) => InkAppend(cur, t);
        case Cut => InkFlush(cur);
        case Drop(_) =>
      }
    }
  }

  lemma {:induction false} InkOfJoined(ss: seq<string>)
    requires ss != []
    ensures Ink(Join(ss, SEPARATOR)) == InkOf(ss) + |ss| - 1
    decreases |ss|
  {
    if |ss| > 1 {
      JoinHead(ss);
      InkAppend(ss[0], SEPARATOR + Join(ss[1..], SEPARATOR));
      InkAppend(SEPARATOR, Join(ss[1..], SEPARATOR));
      InkOfSeparator();
      InkOfJoined(ss[1..]);
    }
  }

  lemma InkOfSeparator()
    ensures Ink(SEPARATOR) == 1
  {
    assert SEPARATOR[1..] == ";\n";
    assert ";\n"[1..] == "\n";
    assert "\n"[1..] == "";
  }

  lemma {:induction false} DroppedInkAppend(ks: seq<Piece>, ps: seq<Piece>)
    ensures DroppedInk(ks + ps) == DroppedInk(ks) + DroppedInk(ps)
    decreases |ks|
  {
    if ks == [] {
      assert ks + ps == ps;
    } else {
      assert (ks + ps)[1..] == ks[1..] + ps;
      DroppedInkAppend(ks[1..], ps);
    }
  }

  /** A joined script with a meta statement in it loses that statement's first line. */
  lemma {:induction false} MetaLosesInk(ss: seq<string>)
    requires ss != [] && AllSettled(ss)
    requires exists k :: 0 <= k < |ss| && Meta(ss[k])
    ensures DroppedInk(Pieces(Default, true, Join(ss, SEPARATOR))) > 0
    decreases |ss|
  {
    var joined := Join(ss, SEPARATOR);
    if Meta(ss[0]) {
      assert joined[0] == '\\';
      var m := Step(Default, true, joined);
      CutAndDropHeads(Default, true, joined, m);
      PiecesHead(Default, true, joined, m);
      MetaDropped(joined);
    } else {
      var j := Join(ss[1..], SEPARATOR);
      JoinHead(ss);
      var ks := RunHead(ss[0], j);
      DroppedInkAppend(ks, [Keep("\n"), Cut, Keep("\n")] + Pieces(Default, true, j));
      DroppedInkAppend([Keep("\n"), Cut, Keep("\n")], Pieces(Default, true, j));
      AllSettledTail(ss);
      var k :| 0 <= k < |ss| && Meta(ss[k]);
      assert Meta(ss[1..][k - 1]);
      MetaLosesInk(ss[1..]);
    }
  }

  /** Settled statements survive joining and splitting exactly when no backslash opens one of them. */
  lemma JoinedComesBackExactly(ss: seq<string>)
    requires ss != [] && AllSettled(ss)
    ensures Split(Join(ss, SEPARATOR)) == ss <==> forall k :: 0 <= k < |ss| ==> !Meta(ss[k])
  {
    if forall k :: 0 <= k < |ss| ==> !Meta(ss[k]) {
      JoinedComesBack("", ss);
    } else {
      var ps := Pieces(Default, true, Join(ss, SEPARATOR));
      MetaLosesInk(ss);
      InkConserved("", ps);
      PiecesCover(Default, true, Join(ss, SEPARATOR));
      InkOfJoined(ss);
    }
  }

  /**
   The round trip of every script: joining what the splitter returned and splitting
   again gives the same statements if and only if none of them opens with a backslash.
   */
  lemma SplitJoinSplit(sql: string)
    ensures Split(Join(Split(sql), SEPARATOR)) == Split(sql) <==>
            forall k :: 0 <= k < |Split(sql)| ==> !Meta(Split(sql)[k])
  {
    SplitIsSettled(sql);
    if Split(sql) != [] {
      JoinedComesBackExactly(Split(sql));
    }
  }

  /** Splitting one returned statement again gives just that statement, unless a backslash opens it. */
  lemma ResplitOne(sql: string, k: nat)
    requires k < |Split(sql)|
    ensures Split(Split(sql)[k]) == [Split(sql)[k]] <==> !Meta(Split(sql)[k])
  {
    SplitIsSettled(sql);
    JoinedComesBackExactly([Split(sql)[k]]);
  }
}
