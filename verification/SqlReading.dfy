/** How the lexer reads a stretch of text that it keeps whole. */
module SqlReading {
  import opened JsText
  import opened SqlLexer

  function Texts(ps: seq<Piece>): string {
    if ps == [] then "" else ps[0].Text() + Texts(ps[1..])
  }

  ghost predicate AllKeep(ps: seq<Piece>) {
    forall k :: 0 <= k < |ps| ==> ps[k].Keep?
  }

  lemma TextsCons(p: Piece, ps: seq<Piece>)
    ensures Texts([p] + ps) == p.Text() + Texts(ps)
  {
    assert ([p] + ps)[1..] == ps;
  }

  /** Nothing is lost and nothing is invented: the pieces put back together are the script. */
  lemma {:induction false} PiecesCover(mode: Mode, bol: bool, s: string)
    ensures Texts(Pieces(mode, bol, s)) == s
    decreases |s|
  {
    if s != "" {
      var m := Step(mode, bol, s);
      var t := m.piece.Text();
      PiecesCover(m.next, BolAfter(bol, t), s[|t|..]);
      TextsCons(m.piece, Pieces(m.next, BolAfter(bol, t), s[|t|..]));
    }
  }

  ghost predicate ModeOk(mode: Mode) {
    mode.DollarQuote? ==> IsTag(mode.tag)
  }

  lemma StepModeOk(mode: Mode, bol: bool, s: string)
    requires s != "" && ModeOk(mode)
    ensures ModeOk(Step(mode, bol, s).next)
  {
    DollarTagIsTag(s);
  }

  /** A kept piece is a single character or a delimiter free of blanks. */
  lemma StepWide(mode: Mode, bol: bool, s: string)
    requires s != "" && ModeOk(mode)
    requires Step(mode, bol, s).piece.Keep?
    ensures var t := Step(mode, bol, s).piece.text;
            |t| == 1 || forall k :: 0 <= k < |t| ==> !IsSpace(t[k])
  {
    var t := Step(mode, bol, s).piece.text;
    if mode.DollarQuote? {
      TagHasNoBlank(mode.tag);
    } else if mode.Default? {
      DollarTagIsTag(s);
      assert |t| == 1 || DollarTag(s) == Some(t);
      TagHasNoBlank(t);
    } else {
      assert |t| > 1 ==> |t| == 2 && t[0] == s[0] && t[1] == s[1];
    }
  }

  lemma TagHasNoBlank(t: string)
    ensures IsTag(t) ==> forall k :: 0 <= k < |t| ==> !IsSpace(t[k]) && t[k] != ';' && t[k] != '\n'
  {
  }

  /** Text that no delimiter of the lexer can reach into. */
  predicate Benign(w: string) {
    w == "" || w[0] == ';' || IsSpace(w[0])
  }

  lemma {:induction false} WordRunBenign(u: string, w: string)
    requires Benign(w)
    ensures WordRun(u + w) == WordRun(u)
  {
    if u == "" {
      assert u + w == w;
      assert w == "" || !IsWord(w[0]);
    } else {
      assert (u + w)[1..] == u[1..] + w;
      if IsWord(u[0]) {
        WordRunBenign(u[1..], w);
      }
    }
  }

  lemma DollarTagBenign(u: string, w: string)
    requires u != "" && Benign(w)
    ensures DollarTag(u + w) == DollarTag(u)
  {
    if u[0] == '$' {
      assert (u + w)[1..] == u[1..] + w;
      WordRunBenign(u[1..], w);
      var n := WordRun(u[1..]);
      if n + 1 < |u| {
        assert (u + w)[..n + 2] == u[..n + 2];
      }
    }
  }

  lemma PrefixReaches(tag: string, u: string, w: string)
    requires tag <= u + w && |tag| > |u|
    ensures w != "" && w[0] in tag
  {
    assert tag[|u|] == w[0];
  }

  lemma TagPrefixBenign(tag: string, u: string, w: string)
    requires IsTag(tag) && u != "" && Benign(w)
    ensures tag <= u + w <==> tag <= u
  {
    TagHasNoBlank(tag);
    if tag <= u + w && |tag| > |u| {
      PrefixReaches(tag, u, w);
    } else if |tag| <= |u| {
      assert (u + w)[..|tag|] == u[..|tag|];
    }
  }

  /** Two moves that differ at most in how much of a meta-command line they skip. */
  ghost predicate SameMove(m1: Move, m2: Move) {
    m1.next == m2.next && (m1.piece == m2.piece || (m1.piece.Drop? && m2.piece.Drop?))
  }

  lemma StepBenign(mode: Mode, bol: bool, u: string, w: string)
    requires u != "" && Benign(w) && ModeOk(mode)
    ensures SameMove(Step(mode, bol, u + w), Step(mode, bol, u))
  {
    assert (u + w)[0] == u[0];
    assert forall c :: c in {'-', '*', '\'', '/'} ==> (NextIs(u + w, c) <==> NextIs(u, c));
    if |u| >= 2 {
      assert (u + w)[..2] == u[..2];
    }
    match mode {
      case DollarQuote(tag) => TagPrefixBenign(tag, u, w);
      case Default => DollarTagBenign(u, w);
      case _ =>
    }
  }

  /** The mode in which the lexer leaves `u` when it keeps all of it and `w` follows; None otherwise. */
  function Eat(mode: Mode, bol: bool, u: string, w: string): Option<Mode>
    decreases |u|
  {
    if u == "" then Some(mode)
    else
      var m := Step(mode, bol, u + w);
      if m.piece.Keep? && |m.piece.text| <= |u| then
        Eat(m.next, BolAfter(bol, m.piece.text), u[|m.piece.text|..], w)
      else None
  }

  lemma EatCons(mode: Mode, bol: bool, u: string, w: string, m: Move)
    requires u != "" && m == Step(mode, bol, u + w)
    requires m.piece.Keep? && |m.piece.text| <= |u|
    ensures Eat(mode, bol, u, w) == Eat(m.next, BolAfter(bol, m.piece.text), u[|m.piece.text|..], w)
  {
  }

  /** The bookkeeping of taking `t` off the front of `a`, with `b` behind it. */
  lemma TakeOff(a: string, b: string, t: string, bol: bool)
    requires t != "" && t <= a + b && |t| <= |a|
    ensures (a + b)[|t|..] == a[|t|..] + b
    ensures a == t + a[|t|..]
    ensures BolAfter(BolAfter(bol, t), a[|t|..]) == BolAfter(bol, a)
  {
    assert t == (a + b)[..|t|] == a[..|t|];
  }

  lemma Regroup(a: string, b: string, w: string)
    ensures (a + b) + w == a + (b + w)
  {
  }

  /** Reading is compositional: after `a`, the lexer goes on with `b`. */
  lemma {:induction false} EatSplit(mode: Mode, bol: bool, a: string, b: string, w: string)
    requires Eat(mode, bol, a, b + w).Some?
    ensures Eat(mode, bol, a + b, w) == Eat(Eat(mode, bol, a, b + w).value, BolAfter(bol, a), b, w)
    decreases |a|
  {
    Regroup(a, b, w);
    if a == "" {
      assert a + b == b;
    } else {
      var m := Step(mode, bol, a + (b + w));
      var t := m.piece.Text();
      EatCons(mode, bol, a, b + w, m);
      EatCons(mode, bol, a + b, w, m);
      TakeOff(a, b + w, t, bol);
      TakeOff(a, b, t, bol);
      EatSplit(m.next, BolAfter(bol, t), a[|t|..], b, w);
    }
  }

  /** No piece straddles a blank, so reading can be cut in front of one. */
  lemma {:induction false} EatPrefix(mode: Mode, bol: bool, a: string, trail: string, w: string)
    requires ModeOk(mode)
    requires trail != "" && IsSpace(trail[0])
    requires Eat(mode, bol, a + trail, w).Some?
    ensures Eat(mode, bol, a, trail + w).Some?
    decreases |a|
  {
    Regroup(a, trail, w);
    if a != "" {
      var m := Step(mode, bol, a + (trail + w));
      var t := m.piece.Text();
      StepWide(mode, bol, a + (trail + w));
      StepModeOk(mode, bol, a + (trail + w));
      NotStraddling(a, trail, w, t);
      EatCons(mode, bol, a + trail, w, m);
      EatCons(mode, bol, a, trail + w, m);
      TakeOff(a, trail, t, bol);
      EatPrefix(m.next, BolAfter(bol, t), a[|t|..], trail, w);
    }
  }

  lemma NotStraddling(a: string, trail: string, w: string, t: string)
    requires a != "" && trail != "" && IsSpace(trail[0])
    requires t <= a + (trail + w)
    requires |t| == 1 || forall k :: 0 <= k < |t| ==> !IsSpace(t[k])
    ensures |t| <= |a|
  {
    if |t| > |a| {
      PrefixReaches(t, a, trail + w);
    }
  }

  /** Benign followers are all alike. */
  lemma {:induction false} EatBenign(mode: Mode, bol: bool, u: string, w: string)
    requires ModeOk(mode) && Benign(w)
    ensures Eat(mode, bol, u, w) == Eat(mode, bol, u, "")
    decreases |u|
  {
    assert u + "" == u;
    if u != "" {
      var m := Step(mode, bol, u);
      StepBenign(mode, bol, u, w);
      StepModeOk(mode, bol, u);
      if m.piece.Keep? {
        EatBenign(m.next, BolAfter(bol, m.piece.text), u[|m.piece.text|..], w);
      }
    }
  }

  /** Text that ends its line is read alike whatever follows. */
  lemma EatLine(mode: Mode, bol: bool, u: string, w1: string, w2: string)
    requires ModeOk(mode)
    requires u != "" && u[|u| - 1] == '\n'
    requires Eat(mode, bol, u, w1).Some?
    ensures Eat(mode, bol, u, w2) == Eat(mode, bol, u, w1)
  {
    assert u == u[..|u| - 1] + "\n";
    EatThenNewline(mode, bol, u[..|u| - 1], w1, w2);
  }

  lemma EatThenNewline(mode: Mode, bol: bool, a: string, w1: string, w2: string)
    requires ModeOk(mode)
    requires Eat(mode, bol, a + "\n", w1).Some?
    ensures Eat(mode, bol, a + "\n", w2) == Eat(mode, bol, a + "\n", w1)
  {
    EatPrefix(mode, bol, a, "\n", w1);
    EatBenign(mode, bol, a, "\n" + w1);
    EatBenign(mode, bol, a, "\n" + w2);
    EatModeOk(mode, bol, a, "\n" + w1);
    EatSplit(mode, bol, a, "\n", w1);
    EatSplit(mode, bol, a, "\n", w2);
    NewlineAlone(Eat(mode, bol, a, "\n" + w1).value, BolAfter(bol, a), w1, w2);
  }

  /** A newline is read alone, and leaves a line comment. */
  lemma NewlineAlone(mode: Mode, bol: bool, w1: string, w2: string)
    requires ModeOk(mode)
    ensures Eat(mode, bol, "\n", w1) == Eat(mode, bol, "\n", w2)
    ensures mode in {Default, LineComment} ==> Eat(mode, bol, "\n", w1) == Some(Default)
  {
    StepNewline(mode, bol, w1);
    StepNewline(mode, bol, w2);
    EatCons(mode, bol, "\n", w1, Step(mode, bol, "\n" + w1));
    EatCons(mode, bol, "\n", w2, Step(mode, bol, "\n" + w2));
    assert "\n"[1..] == "";
  }

  lemma StepNewline(mode: Mode, bol: bool, w: string)
    requires ModeOk(mode)
    ensures Step(mode, bol, "\n" + w) == Move(Keep("\n"), if mode == LineComment then Default else mode)
  {
    assert ("\n" + w)[0] == '\n';
  }

  lemma EatModeOk(mode: Mode, bol: bool, u: string, w: string)
    requires ModeOk(mode) && Eat(mode, bol, u, w).Some?
    ensures ModeOk(Eat(mode, bol, u, w).value)
    decreases |u|
  {
    if u != "" {
      StepModeOk(mode, bol, u + w);
      var m := Step(mode, bol, u + w);
      EatModeOk(m.next, BolAfter(bol, m.piece.text), u[|m.piece.text|..], w);
    }
  }

  /** Only a leading backslash cares about the start of the line. */
  lemma EatAnyStart(mode: Mode, bol1: bool, bol2: bool, u: string, w: string)
    requires u != "" && u[0] != '\\'
    ensures Eat(mode, bol1, u, w) == Eat(mode, bol2, u, w)
  {
    assert (u + w)[0] == u[0];
    assert Step(mode, bol1, u + w) == Step(mode, bol2, u + w);
  }

  /** What is kept whole becomes a run of kept pieces in front of the rest. */
  lemma {:induction false} EatPieces(mode: Mode, bol: bool, u: string, w: string) returns (ks: seq<Piece>)
    requires Eat(mode, bol, u, w).Some?
    ensures AllKeep(ks) && Texts(ks) == u
    ensures Pieces(mode, bol, u + w) == ks + Pieces(Eat(mode, bol, u, w).value, BolAfter(bol, u), w)
    decreases |u|
  {
    if u == "" {
      ks := [];
      assert u + w == w;
    } else {
      var m := Step(mode, bol, u + w);
      var t := m.piece.Text();
      EatCons(mode, bol, u, w, m);
      TakeOff(u, w, t, bol);
      var rest := EatPieces(m.next, BolAfter(bol, t), u[|t|..], w);
      ks := [m.piece] + rest;
      PiecesHead(mode, bol, u + w, m);
      KeepFirst(m.piece, rest, u, Pieces(Eat(mode, bol, u, w).value, BolAfter(bol, u), w));
    }
  }

  lemma KeepFirst(p: Piece, rest: seq<Piece>, u: string, ps: seq<Piece>)
    requires p.Keep? && AllKeep(rest) && p.text <= u && Texts(rest) == u[|p.text|..]
    ensures AllKeep([p] + rest) && Texts([p] + rest) == u
    ensures [p] + (rest + ps) == [p] + rest + ps
  {
    assert ([p] + rest)[1..] == rest;
  }

  lemma PiecesHead(mode: Mode, bol: bool, s: string, m: Move)
    requires s != "" && m == Step(mode, bol, s)
    ensures Pieces(mode, bol, s) ==
            [m.piece] + Pieces(m.next, BolAfter(bol, m.piece.Text()), s[|m.piece.Text()|..])
  {
  }

  lemma {:induction false} KeptStatements(cur: string, ks: seq<Piece>, ps: seq<Piece>)
    requires AllKeep(ks)
    ensures Statements(cur, ks + ps) == Statements(cur + Texts(ks), ps)
    decreases |ks|
  {
    if ks == [] {
      assert ks + ps == ps;
      assert cur + Texts(ks) == cur;
    } else {
      assert (ks + ps)[1..] == ks[1..] + ps;
      assert cur + Texts(ks) == (cur + ks[0].text) + Texts(ks[1..]);
      KeptStatements(cur + ks[0].text, ks[1..], ps);
    }
  }
}
