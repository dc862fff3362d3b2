/** What the splitter never cuts: string literals, comments and dollar-quoted bodies, whatever they hold. */
module SqlLiterals {
  import opened JsText
  import opened SqlLexer
  import opened SqlReading

  /** The state and line-start flag in front of each piece. */
  function Stands(mode: Mode, bol: bool, s: string): (r: seq<(Mode, bool)>)
    ensures |r| == |Pieces(mode, bol, s)|
    decreases |s|
  {
    if s == "" then []
    else
      var m := Step(mode, bol, s);
      [(mode, bol)] + Stands(m.next, BolAfter(bol, m.piece.Text()), s[|m.piece.Text()|..])
  }

  lemma StandsHead(mode: Mode, bol: bool, s: string, m: Move)
    requires s != "" && m == Step(mode, bol, s)
    ensures Stands(mode, bol, s) ==
            [(mode, bol)] + Stands(m.next, BolAfter(bol, m.piece.Text()), s[|m.piece.Text()|..])
  {
  }

  /** A piece is a cut or a dropped line exactly when its first character and its surroundings say so. */
  ghost predicate Justified(p: Piece, state: Mode, lineStart: bool) {
    && p.Text() != ""
    && (p.Cut? <==> state == Default && p.Text()[0] == ';')
    && (p.Drop? <==> state == Default && p.Text()[0] == '\\' && lineStart)
  }

  /**
   The script is cut exactly at the semicolons read in the default state, and a line is
   dropped exactly where a backslash starts it in the default state.
   */
  lemma {:induction false} CutsExactly(mode: Mode, bol: bool, s: string)
    ensures forall k :: 0 <= k < |Pieces(mode, bol, s)| ==>
              Justified(Pieces(mode, bol, s)[k], Stands(mode, bol, s)[k].0, Stands(mode, bol, s)[k].1)
    decreases |s|
  {
    if s != "" {
      var m := Step(mode, bol, s);
      HeadExactly(mode, bol, s, m);
      PiecesHead(mode, bol, s, m);
      StandsHead(mode, bol, s, m);
      CutsExactly(m.next, BolAfter(bol, m.piece.Text()), s[|m.piece.Text()|..]);
      JustifiedCons(m.piece, mode, bol,
                    Pieces(m.next, BolAfter(bol, m.piece.Text()), s[|m.piece.Text()|..]),
                    Stands(m.next, BolAfter(bol, m.piece.Text()), s[|m.piece.Text()|..]));
    }
  }

  lemma JustifiedCons(p: Piece, mode: Mode, bol: bool, ps: seq<Piece>, st: seq<(Mode, bool)>)
    requires |ps| == |st| && Justified(p, mode, bol)
    requires forall k :: 0 <= k < |ps| ==> Justified(ps[k], st[k].0, st[k].1)
    ensures forall k :: 0 <= k < |ps| + 1 ==>
              Justified(([p] + ps)[k], ([(mode, bol)] + st)[k].0, ([(mode, bol)] + st)[k].1)
  {
  }

  lemma HeadExactly(mode: Mode, bol: bool, s: string, m: Move)
    requires s != "" && m == Step(mode, bol, s)
    ensures Justified(m.piece, mode, bol)
  {
    assert m.piece.Text()[0] == s[0];
  }

  /** A string value written as SQL writes it: every quote doubled. */
  function Doubled(body: string): string {
    if body == "" then "" else (if body[0] == '\'' then "''" else [body[0]]) + Doubled(body[1..])
  }

  lemma EatOne(mode: Mode, bol: bool, t: string, u: string, w: string, next: Mode)
    requires t != "" && Step(mode, bol, t + (u + w)) == Move(Keep(t), next)
    ensures Eat(mode, bol, t + u, w) == Eat(next, BolAfter(bol, t), u, w)
  {
    Regroup(t, u, w);
    EatCons(mode, bol, t + u, w, Move(Keep(t), next));
    assert (t + u)[|t|..] == u;
  }

  lemma StepInQuote(bol: bool, c: char, w: string)
    requires c != '\''
    ensures Step(SingleQuote, bol, [c] + w) == Move(Keep([c]), SingleQuote)
    ensures Step(SingleQuote, bol, "''" + w) == Move(Keep("''"), SingleQuote)
    ensures w == "" || w[0] != '\'' ==> Step(SingleQuote, bol, "'" + w) == Move(Keep("'"), Default)
  {
    assert ([c] + w)[0] == c;
    assert ("''" + w)[..2] == "''";
    assert ("'" + w)[0] == '\'';
    assert |w| > 0 ==> ("'" + w)[1] == w[0];
  }

  lemma {:induction false} EatQuoted(bol: bool, body: string, w: string)
    requires w == "" || w[0] != '\''
    ensures Eat(SingleQuote, bol, Doubled(body) + "'", w) == Some(Default)
    decreases |body|
  {
    if body == "" {
      assert Doubled(body) + "'" == "'" + "";
      assert "'" + ("" + w) == "'" + w;
      StepInQuote(bol, 'x', w);
      EatOne(SingleQuote, bol, "'", "", w, Default);
    } else {
      var t := if body[0] == '\'' then "''" else [body[0]];
      var u := Doubled(body[1..]) + "'";
      Regroup(t, Doubled(body[1..]), "'");
      StepInQuote(bol, if body[0] == '\'' then 'x' else body[0], u + w);
      EatOne(SingleQuote, bol, t, u, w, SingleQuote);
      EatQuoted(BolAfter(bol, t), body[1..], w);
    }
  }

  lemma StepInLineComment(bol: bool, c: char, w: string)
    ensures Step(LineComment, bol, [c] + w) == Move(Keep([c]), if c == '\n' then Default else LineComment)
  {
    assert ([c] + w)[0] == c;
  }

  lemma {:induction false} EatLineComment(bol: bool, body: string, w: string)
    requires '\n' !in body
    ensures Eat(LineComment, bol, body + "\n", w) == Some(Default)
    decreases |body|
  {
    if body == "" {
      assert body + "\n" == "\n" + "";
      StepInLineComment(bol, '\n', "" + w);
      EatOne(LineComment, bol, "\n", "", w, Default);
    } else {
      var u := body[1..] + "\n";
      assert body + "\n" == [body[0]] + u;
      StepInLineComment(bol, body[0], u + w);
      EatOne(LineComment, bol, [body[0]], u, w, LineComment);
      EatLineComment(BolAfter(bol, [body[0]]), body[1..], w);
    }
  }

  /** `mark` first occurs in `body + mark` behind `body`. */
  ghost predicate FirstAtEnd(body: string, mark: string) {
    forall k :: 0 <= k < |body| ==> !(mark <= (body + mark)[k..])
  }

  lemma FirstAtEndTail(body: string, mark: string)
    requires body != "" && FirstAtEnd(body, mark)
    ensures FirstAtEnd(body[1..], mark)
    ensures !(mark <= body + mark)
  {
    forall k | 0 <= k < |body| - 1 ensures !(mark <= (body[1..] + mark)[k..]) {
      assert (body[1..] + mark)[k..] == (body + mark)[k + 1..];
    }
    assert (body + mark)[0..] == body + mark;
  }

  lemma PrefixOfLonger(mark: string, a: string, w: string)
    requires |mark| <= |a|
    ensures mark <= a + w <==> mark <= a
  {
    assert (a + w)[..|mark|] == a[..|mark|];
  }

  lemma StepInBlockComment(bol: bool, s: string)
    requires |s| >= 2
    ensures "*/" <= s ==> Step(BlockComment, bol, s) == Move(Keep("*/"), Default)
    ensures !("*/" <= s) ==> Step(BlockComment, bol, s) == Move(Keep([s[0]]), BlockComment)
  {
    if s[0] == '*' && s[1] == '/' {
      assert s[..2] == "*/";
    }
  }

  lemma {:induction false} EatBlockComment(bol: bool, body: string, w: string)
    requires FirstAtEnd(body, "*/")
    ensures Eat(BlockComment, bol, body + "*/", w) == Some(Default)
    decreases |body|
  {
    if body == "" {
      assert body + "*/" == "*/" + "";
      StepInBlockComment(bol, "*/" + ("" + w));
      EatOne(BlockComment, bol, "*/", "", w, Default);
    } else {
      var u := body[1..] + "*/";
      assert body + "*/" == [body[0]] + u;
      Regroup([body[0]], u, w);
      FirstAtEndTail(body, "*/");
      PrefixOfLonger("*/", body + "*/", w);
      StepInBlockComment(bol, [body[0]] + (u + w));
      EatOne(BlockComment, bol, [body[0]], u, w, BlockComment);
      EatBlockComment(BolAfter(bol, [body[0]]), body[1..], w);
    }
  }

  lemma StepInDollarQuote(tag: string, bol: bool, s: string)
    requires IsTag(tag) && s != ""
    ensures tag <= s ==> Step(DollarQuote(tag), bol, s) == Move(Keep(tag), Default)
    ensures !(tag <= s) ==> Step(DollarQuote(tag), bol, s) == Move(Keep([s[0]]), DollarQuote(tag))
  {
  }

  lemma {:induction false} EatDollarQuoted(tag: string, bol: bool, body: string, w: string)
    requires IsTag(tag) && FirstAtEnd(body, tag)
    ensures Eat(DollarQuote(tag), bol, body + tag, w) == Some(Default)
    decreases |body|
  {
    if body == "" {
      assert body + tag == tag + "";
      StepInDollarQuote(tag, bol, tag + ("" + w));
      EatOne(DollarQuote(tag), bol, tag, "", w, Default);
    } else {
      var u := body[1..] + tag;
      assert body + tag == [body[0]] + u;
      Regroup([body[0]], u, w);
      FirstAtEndTail(body, tag);
      PrefixOfLonger(tag, body + tag, w);
      StepInDollarQuote(tag, bol, [body[0]] + (u + w));
      EatOne(DollarQuote(tag), bol, [body[0]], u, w, DollarQuote(tag));
      EatDollarQuoted(tag, BolAfter(bol, [body[0]]), body[1..], w);
    }
  }

  lemma {:induction false} WordRunOf(word: string, w: string)
    requires forall k :: 0 <= k < |word| ==> IsWord(word[k])
    requires w != "" && !IsWord(w[0])
    ensures WordRun(word + w) == |word|
  {
    if word == "" {
      assert word + w == w;
    } else {
      assert (word + w)[1..] == word[1..] + w;
      WordRunOf(word[1..], w);
    }
  }

  lemma StepOpensDollar(tag: string, bol: bool, w: string)
    requires IsTag(tag)
    ensures Step(Default, bol, tag + w) == Move(Keep(tag), DollarQuote(tag))
  {
    var s := tag + w;
    var word := tag[1..|tag| - 1];
    assert s[1..] == word + ("$" + w);
    WordRunOf(word, "$" + w);
    assert s[..|tag|] == tag;
    assert s[|tag| - 1] == '$';
    assert DollarTag(s) == Some(tag);
  }

  lemma StepOpens(bol: bool, w: string)
    ensures Step(Default, bol, "'" + w) == Move(Keep("'"), SingleQuote)
    ensures Step(Default, bol, "-" + ("-" + w)) == Move(Keep("-"), LineComment)
    ensures Step(Default, bol, "/" + ("*" + w)) == Move(Keep("/"), BlockComment)
  {
    assert ("'" + w)[0] == '\'';
    assert ("-" + ("-" + w))[..2] == "--";
    assert ("/" + ("*" + w))[..2] == "/*";
  }

  /** A region of the script that the splitter must not look into, given the text behind it. */
  ghost predicate Region(lit: string, w: string) {
    || (exists body :: lit == "'" + (Doubled(body) + "'") && (w == "" || w[0] != '\''))
    || (exists body :: lit == "-" + ("-" + body + "\n") && '\n' !in body)
    || (exists body :: lit == "/" + (body + "*/") && lit[1] == '*' && FirstAtEnd(body, "*/"))
    || (exists tag, body :: IsTag(tag) && FirstAtEnd(body, tag) && lit == tag + (body + tag))
  }

  /** The lexer reads a region whole and is back in the default state behind it. */
  lemma RegionEaten(bol: bool, lit: string, w: string)
    requires Region(lit, w)
    ensures Eat(Default, bol, lit, w) == Some(Default)
  {
    if body :| lit == "'" + (Doubled(body) + "'") && (w == "" || w[0] != '\'') {
      StepOpens(bol, Doubled(body) + "'" + w);
      EatOne(Default, bol, "'", Doubled(body) + "'", w, SingleQuote);
      EatQuoted(false, body, w);
    } else if body :| lit == "-" + ("-" + body + "\n") && '\n' !in body {
      var u := "-" + body + "\n";
      Regroup("-", body + "\n", w);
      Regroup("-", body, "\n");
      StepOpens(bol, body + "\n" + w);
      EatOne(Default, bol, "-", u, w, LineComment);
      EatLineComment(false, "-" + body, w);
    } else if body :| lit == "/" + (body + "*/") && lit[1] == '*' && FirstAtEnd(body, "*/") {
      var u := body + "*/";
      assert u == "*" + u[1..];
      Regroup("*", u[1..], w);
      StepOpens(bol, u[1..] + w);
      EatOne(Default, bol, "/", u, w, BlockComment);
      EatBlockComment(false, body, w);
    } else {
      var tag, body :| IsTag(tag) && FirstAtEnd(body, tag) && lit == tag + (body + tag);
      StepOpensDollar(tag, bol, body + tag + w);
      EatOne(Default, bol, tag, body + tag, w, DollarQuote(tag));
      EatDollarQuoted(tag, BolAfter(bol, tag), body, w);
    }
  }

  /** So a region, semicolons and all, becomes part of the statement it stands in. */
  lemma RegionKept(cur: string, bol: bool, lit: string, w: string)
    requires Region(lit, w)
    ensures Statements(cur, Pieces(Default, bol, lit + w)) ==
            Statements(cur + lit, Pieces(Default, BolAfter(bol, lit), w))
  {
    RegionEaten(bol, lit, w);
    var ks := EatPieces(Default, bol, lit, w);
    KeptStatements(cur, ks, Pieces(Default, BolAfter(bol, lit), w));
  }
}
