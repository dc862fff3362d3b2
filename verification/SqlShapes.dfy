/** The lines and statements that the importer treats apart, written out as its patterns read. */
module SqlShapes {
  import opened JsText
  import opened SqlLexer
  import opened SqlTagged
  import opened SqlImport

  const LOWER := "abcdefghijklmnopqrstuvwxyz"
  const UPPER := "ABCDEFGHIJKLMNOPQRSTUVWXYZ"

  /** White space and line terminators of ECMAScript. */
  lemma Blanks(c: char)
    ensures IsSpace(c) <==>
            c in {
              '\t', '\n', '\U{000B}', '\U{000C}', '\r', ' ', '\U{00A0}', '\U{1680}', '\U{2000}', '\U{2001}',
              '\U{2002}', '\U{2003}', '\U{2004}', '\U{2005}', '\U{2006}', '\U{2007}', '\U{2008}', '\U{2009}',
              '\U{200A}', '\U{2028}', '\U{2029}', '\U{202F}', '\U{205F}', '\U{3000}', '\U{FEFF}'}
  {
  }

  /** [A-Za-z0-9_] */
  lemma WordCharacters(c: char)
    ensures IsWord(c) <==>
            c in {
              'A', 'B', 'C', 'D', 'E', 'F', 'G', 'H', 'I', 'J', 'K', 'L', 'M', 'N', 'O', 'P', 'Q', 'R', 'S',
              'T', 'U', 'V', 'W', 'X', 'Y', 'Z', 'a', 'b', 'c', 'd', 'e', 'f', 'g', 'h', 'i', 'j', 'k', 'l',
              'm', 'n', 'o', 'p', 'q', 'r', 's', 't', 'u', 'v', 'w', 'x', 'y', 'z', '0', '1', '2', '3', '4',
              '5', '6', '7', '8', '9', '_'}
  {
  }

  /** A dot of the patterns matches anything but the four line terminators. */
  lemma OneLine(s: string)
    ensures OnOneLine(s) <==> '\n' !in s && '\r' !in s && '\U{2028}' !in s && '\U{2029}' !in s
  {
  }

  /** ASCII letter case, and nothing else. */
  lemma LetterCase(k: nat)
    requires k < 26
    ensures Lower(UPPER[k]) == LOWER[k]
  {
  }

  lemma OtherCharacters(c: char)
    requires c < 'A' || 'Z' < c
    ensures Lower(c) == c
  {
  }

  /** A dollar tag is any word between two dollar signs, the empty one included. */
  lemma TagShape(word: string)
    ensures IsTag("$" + word + "$") <==> forall k :: 0 <= k < |word| ==> IsWord(word[k])
  {
    var t := "$" + word + "$";
    assert forall k :: 0 <= k < |word| ==> t[k + 1] == word[k];
    assert forall k :: 0 < k < |t| - 1 ==> t[k] == word[k - 1];
  }

  /** `s` is the word, letter case aside. */
  predicate Spells(s: string, word: string) {
    |s| == |word| && StartsWith(s, word)
  }

  /** \s+ */
  predicate Gap(s: string) {
    s != "" && AllSpace(s)
  }

  lemma SpellsAhead(x: string, word: string, rest: string)
    requires Spells(x, word)
    ensures StartsWith(x + rest, word) && (x + rest)[|word|..] == rest
  {
  }

  lemma SpelledHead(s: string, word: string)
    requires StartsWith(s, word)
    ensures Spells(s[..|word|], word) && s == s[..|word|] + s[|word|..]
  {
  }

  /** Blanks in front of something that does not begin with one. */
  lemma Trimmed(lead: string, rest: string)
    requires AllSpace(lead) && rest != "" && !IsSpace(rest[0])
    ensures TrimStart(lead + rest) == rest
  {
    TrimStartPrefix(lead, rest);
  }

  lemma Untrimmed(s: string) returns (lead: string)
    ensures s == lead + TrimStart(s) && AllSpace(lead)
  {
    lead := TrimStartParts(s);
  }

  /** The parts of a line that opens a COPY block. */
  datatype CopyLine = CopyLine(
    lead: string, copy: string, gap: string, what: string, blank: char, from: string, gap2: string, stdin: string,
    rest: string)
  {
    function Source(): string {
      from + (gap2 + (stdin + rest))
    }

    function Tail(): string {
      copy + (gap + (what + ([blank] + Source())))
    }

    function Text(): string {
      lead + Tail()
    }

    predicate Ok() {
      && AllSpace(lead) && Spells(copy, "copy") && Gap(gap) && what != "" && OnOneLine(what) && IsSpace(blank)
      && Spells(from, "from") && Gap(gap2) && Spells(stdin, "stdin") && (rest == "" || !IsWord(rest[0]))
    }
  }

  lemma StdinShape(gap2: string, stdin: string, rest: string)
    requires Gap(gap2) && Spells(stdin, "stdin") && (rest == "" || !IsWord(rest[0]))
    ensures StdinFollows(gap2 + (stdin + rest))
  {
    SpellsAhead(stdin, "stdin", rest);
    assert (stdin + rest)[0] == stdin[0];
    Trimmed(gap2, stdin + rest);
  }

  lemma StdinParts(s: string) returns (gap2: string, stdin: string, rest: string)
    requires StdinFollows(s)
    ensures s == gap2 + (stdin + rest) && Gap(gap2) && Spells(stdin, "stdin") && (rest == "" || !IsWord(rest[0]))
  {
    var u := TrimStart(s);
    gap2 := Untrimmed(s);
    SpelledHead(u, "stdin");
    stdin, rest := u[..5], u[5..];
  }

  /** Where the parts stand. */
  lemma CopyParts(copy: string, gap: string, what: string, blank: char, source: string)
    requires |copy| == 4
    ensures var s := copy + (gap + (what + ([blank] + source)));
            var a, j := 4 + |gap|, 4 + |gap| + |what|;
            && j < |s| && s[..4] == copy && s[4..a] == gap && s[a..j] == what && s[j] == blank && s[j + 1..] == source
  {
  }

  /** The pattern behind the leading blanks. */
  predicate CopiesFromStdin(s: string) {
    && StartsWith(s, "copy")
    && exists a, j :: 5 <= a < j < |s|
                      && AllSpace(s[4..a]) && OnOneLine(s[a..j]) && IsSpace(s[j])
                      && StartsWith(s[j + 1..], "from") && StdinFollows(s[j + 5..])
  }

  lemma SourceOfParts(c: CopyLine)
    requires c.Ok()
    ensures StartsWith(c.Source(), "from") && StdinFollows(c.Source()[4..])
  {
    SpellsAhead(c.from, "from", c.gap2 + (c.stdin + c.rest));
    StdinShape(c.gap2, c.stdin, c.rest);
  }

  lemma CopiesAt(s: string, a: nat, j: nat, source: string)
    requires 5 <= a < j < |s| && Spells(s[..4], "copy") && AllSpace(s[4..a]) && OnOneLine(s[a..j]) && IsSpace(s[j])
    requires source == s[j + 1..] && StartsWith(source, "from") && StdinFollows(source[4..])
    ensures CopiesFromStdin(s)
  {
    assert source[4..] == s[j + 5..];
    assert StartsWith(s, "copy");
  }

  lemma TailOfParts(copy: string, gap: string, what: string, blank: char, source: string)
    requires Spells(copy, "copy") && Gap(gap) && what != "" && OnOneLine(what) && IsSpace(blank)
    requires StartsWith(source, "from") && StdinFollows(source[4..])
    ensures CopiesFromStdin(copy + (gap + (what + ([blank] + source))))
  {
    var s := copy + (gap + (what + ([blank] + source)));
    CopyParts(copy, gap, what, blank, source);
    CopiesAt(s, 4 + |gap|, 4 + |gap| + |what|, source);
  }

  lemma HeaderOfTail(lead: string, tail: string)
    requires AllSpace(lead) && CopiesFromStdin(tail) && tail != "" && !IsSpace(tail[0])
    ensures IsCopyHeader(lead + tail)
  {
    Trimmed(lead, tail);
    assert CopiesFromStdin(TrimStart(lead + tail));
  }

  lemma SpelledIsInk(copy: string, rest: string)
    requires Spells(copy, "copy")
    ensures copy + rest != "" && !IsSpace((copy + rest)[0])
  {
    assert (copy + rest)[0] == copy[0] && Lower(copy[0]) == 'c';
  }

  lemma HeaderOfPieces(lead: string, copy: string, gap: string, what: string, blank: char, source: string)
    requires AllSpace(lead) && Spells(copy, "copy") && Gap(gap) && what != "" && OnOneLine(what) && IsSpace(blank)
    requires StartsWith(source, "from") && StdinFollows(source[4..])
    ensures IsCopyHeader(lead + (copy + (gap + (what + ([blank] + source)))))
  {
    TailOfParts(copy, gap, what, blank, source);
    SpelledIsInk(copy, gap + (what + ([blank] + source)));
    HeaderOfTail(lead, copy + (gap + (what + ([blank] + source))));
  }

  lemma HeaderOfParts(c: CopyLine)
    requires c.Ok()
    ensures IsCopyHeader(c.Text())
  {
    SourceOfParts(c);
    HeaderOfPieces(c.lead, c.copy, c.gap, c.what, c.blank, c.Source());
  }

  lemma Rejoin(s: string, a: nat, j: nat)
    requires 4 <= a <= j < |s|
    ensures s == s[..4] + (s[4..a] + (s[a..j] + ([s[j]] + s[j + 1..])))
  {
  }

  lemma PartsOfTail(s: string) returns (copy: string, gap: string, what: string, blank: char, source: string)
    requires CopiesFromStdin(s)
    ensures Spells(copy, "copy") && Gap(gap) && what != "" && OnOneLine(what) && IsSpace(blank)
    ensures StartsWith(source, "from") && StdinFollows(source[4..])
    ensures s == copy + (gap + (what + ([blank] + source)))
  {
    var a, j :| 5 <= a < j < |s| && AllSpace(s[4..a]) && OnOneLine(s[a..j]) && IsSpace(s[j])
                && StartsWith(s[j + 1..], "from") && StdinFollows(s[j + 5..]);
    SpelledHead(s, "copy");
    copy, gap, what, blank, source := s[..4], s[4..a], s[a..j], s[j], s[j + 1..];
    assert source[4..] == s[j + 5..];
    Rejoin(s, a, j);
  }

  lemma PartsOfSource(source: string) returns (from: string, gap2: string, stdin: string, rest: string)
    requires StartsWith(source, "from") && StdinFollows(source[4..])
    ensures Spells(from, "from") && Gap(gap2) && Spells(stdin, "stdin") && (rest == "" || !IsWord(rest[0]))
    ensures source == from + (gap2 + (stdin + rest))
  {
    SpelledHead(source, "from");
    from := source[..4];
    gap2, stdin, rest := StdinParts(source[4..]);
  }

  lemma PartsOfHeader(line: string) returns (c: CopyLine)
    requires IsCopyHeader(line)
    ensures c.Ok() && c.Text() == line
  {
    var lead := Untrimmed(line);
    assert CopiesFromStdin(TrimStart(line));
    var copy, gap, what, blank, source := PartsOfTail(TrimStart(line));
    var from, gap2, stdin, rest := PartsOfSource(source);
    c := CopyLine(lead, copy, gap, what, blank, from, gap2, stdin, rest);
  }

  /** A line opens a COPY block exactly when it reads as the pattern says, letter case aside. */
  lemma HeaderShape(line: string)
    ensures IsCopyHeader(line) <==> exists c: CopyLine :: c.Ok() && c.Text() == line
  {
    if IsCopyHeader(line) {
      var c := PartsOfHeader(line);
    }
    if c: CopyLine :| c.Ok() && c.Text() == line {
      HeaderOfParts(c);
    }
  }

  /** The token of a COPY line: one closing semicolon goes, and the blanks on both sides. */
  lemma HeaderText(line: string, trail: string)
    requires AllSpace(trail)
    ensures CopyStatement(line + ";" + trail) == Trim(line)
    ensures line == "" || (!IsSpace(line[|line| - 1]) && line[|line| - 1] != ';') ==>
              CopyStatement(line + trail) == Trim(line + trail)
  {
    TrimEndSuffix(line + ";", trail);
    assert (line + ";")[..|line|] == line;
    if line == "" || !IsSpace(line[|line| - 1]) {
      TrimEndSuffix(line, trail);
    }
  }

  /** A statement that the importer skips, after the blanks in front of it. */
  datatype Skip =
    | SetPath(verb: string, gap: string, path: string, rest: string)
    | Configure(verb: string, gap: string, call: string, gap1: string, gap2: string, path: string, rest: string)
    | Meta(letter: char, rest: string)
  {
    function Text(): string {
      match this
      case SetPath(verb, gap, path, rest) => verb + (gap + (path + rest))
      case Configure(verb, gap, call, gap1, gap2, path, rest) =>
        verb + (gap + (call + (gap1 + ("(" + (gap2 + (path + rest))))))
      case Meta(letter, rest) => "\\" + ([letter] + rest)
    }

    predicate Ok() {
      match this
      case SetPath(verb, gap, path, _) => Spells(verb, "set") && Gap(gap) && Spells(path, "search_path")
      case Configure(verb, gap, call, gap1, gap2, path, _) =>
        && Spells(verb, "select") && Gap(gap) && Spells(call, "pg_catalog.set_config") && AllSpace(gap1)
        && AllSpace(gap2) && Spells(path, "'search_path'")
      case Meta(letter, _) => 'a' <= letter <= 'z' || 'A' <= letter <= 'Z'
    }
  }

  lemma PartsOfSetPath(s: string) returns (k: Skip)
    requires SetsSearchPath(s)
    ensures k.SetPath? && k.Ok() && k.Text() == s
  {
    SpelledHead(s, "set");
    var gap := Untrimmed(s[3..]);
    var u := TrimStart(s[3..]);
    SpelledHead(u, "search_path");
    k := SetPath(s[..3], gap, u[..11], u[11..]);
  }

  lemma SetPathOfParts(k: Skip)
    requires k.SetPath? && k.Ok()
    ensures SetsSearchPath(k.Text())
  {
    SpellsAhead(k.verb, "set", k.gap + (k.path + k.rest));
    SpellsAhead(k.path, "search_path", k.rest);
    assert (k.path + k.rest)[0] == k.path[0];
    Trimmed(k.gap, k.path + k.rest);
  }

  lemma ArgumentParts(v: string) returns (gap2: string, path: string, rest: string)
    requires v != "" && v[0] == '(' && StartsWith(TrimStart(v[1..]), "'search_path'")
    ensures v == "(" + (gap2 + (path + rest)) && AllSpace(gap2) && Spells(path, "'search_path'")
  {
    var u := TrimStart(v[1..]);
    gap2 := Untrimmed(v[1..]);
    SpelledHead(u, "'search_path'");
    path, rest := u[..13], u[13..];
  }

  lemma ArgumentOfParts(gap2: string, path: string, rest: string)
    requires AllSpace(gap2) && Spells(path, "'search_path'")
    ensures var v := "(" + (gap2 + (path + rest)); v[0] == '(' && StartsWith(TrimStart(v[1..]), "'search_path'")
  {
    SpellsAhead(path, "'search_path'", rest);
    assert (path + rest)[0] == path[0];
    Trimmed(gap2, path + rest);
    assert ("(" + (gap2 + (path + rest)))[1..] == gap2 + (path + rest);
  }

  lemma ConfigureOfParts(k: Skip)
    requires k.Configure? && k.Ok()
    ensures ConfiguresSearchPath(k.Text())
  {
    var v := "(" + (k.gap2 + (k.path + k.rest));
    ArgumentOfParts(k.gap2, k.path, k.rest);
    SpellsAhead(k.verb, "select", k.gap + (k.call + (k.gap1 + v)));
    SpellsAhead(k.call, "pg_catalog.set_config", k.gap1 + v);
    assert (k.call + (k.gap1 + v))[0] == k.call[0];
    Trimmed(k.gap, k.call + (k.gap1 + v));
    Trimmed(k.gap1, v);
  }

  lemma PartsOfConfigure(s: string) returns (k: Skip)
    requires ConfiguresSearchPath(s)
    ensures k.Configure? && k.Ok() && k.Text() == s
  {
    SpelledHead(s, "select");
    var gap := Untrimmed(s[6..]);
    var u := TrimStart(s[6..]);
    SpelledHead(u, "pg_catalog.set_config");
    var gap1 := Untrimmed(u[21..]);
    var v := TrimStart(u[21..]);
    var gap2, path, rest := ArgumentParts(v);
    k := Configure(s[..6], gap, u[..21], gap1, gap2, path, rest);
  }

  /** A statement is skipped exactly when, after blanks, it has one of the three shapes. */
  lemma SkipShape(stmt: string)
    ensures ShouldSkip(stmt) <==>
            exists lead: string, k: Skip :: AllSpace(lead) && k.Ok() && lead + k.Text() == stmt
  {
    if ShouldSkip(stmt) {
      var lead, k := PartsOfSkip(stmt);
    }
    if lead: string, k: Skip :| AllSpace(lead) && k.Ok() && lead + k.Text() == stmt {
      SkipOfParts(lead, k);
    }
  }

  lemma PartsOfSkip(stmt: string) returns (lead: string, k: Skip)
    requires ShouldSkip(stmt)
    ensures AllSpace(lead) && k.Ok() && lead + k.Text() == stmt
  {
    lead := Untrimmed(stmt);
    k := PartsOfTrimmed(TrimStart(stmt));
  }

  lemma PartsOfTrimmed(s: string) returns (k: Skip)
    requires SetsSearchPath(s) || ConfiguresSearchPath(s) || IsMetaCommand(s)
    ensures k.Ok() && k.Text() == s
  {
    if IsMetaCommand(s) {
      k := PartsOfMeta(s);
    } else if SetsSearchPath(s) {
      k := PartsOfSetPath(s);
    } else {
      k := PartsOfConfigure(s);
    }
  }

  lemma PartsOfMeta(s: string) returns (k: Skip)
    requires IsMetaCommand(s)
    ensures k.Meta? && k.Ok() && k.Text() == s
  {
    k := Meta(s[1], s[2..]);
  }

  lemma SkipOfParts(lead: string, k: Skip)
    requires AllSpace(lead) && k.Ok()
    ensures ShouldSkip(lead + k.Text())
  {
    TrimmedOfParts(k);
    SkipStartsInk(k);
    Trimmed(lead, k.Text());
  }

  lemma TrimmedOfParts(k: Skip)
    requires k.Ok()
    ensures SetsSearchPath(k.Text()) || ConfiguresSearchPath(k.Text()) || IsMetaCommand(k.Text())
  {
    match k {
      case SetPath(_, _, _, _) => SetPathOfParts(k);
      case Configure(_, _, _, _, _, _, _) => ConfigureOfParts(k);
      case Meta(_, _) =>
    }
  }

  lemma SkipStartsInk(k: Skip)
    requires k.Ok()
    ensures k.Text() != "" && !IsSpace(k.Text()[0])
  {
    match k
    case SetPath(verb, _, _, _) => assert k.Text()[0] == verb[0];
    case Configure(verb, _, _, _, _, _, _) => assert k.Text()[0] == verb[0];
    case Meta(_, _) => assert k.Text()[0] == '\\';
  }

  /** The rows of a COPY block run up to the first line that is just a backslash and a dot, or to the end. */
  lemma RowsEndAtTheMark(rows: seq<string>, rest: seq<string>)
    requires "\\." !in rows
    ensures DataRows(rows + (["\\."] + rest)) == rows && DataRows(rows) == rows
  {
    DataRowsUnique(rows, ["\\."] + rest);
    DataRowsUnique(rows, []);
    assert rows + [] == rows;
  }

  /** What one token does to the account: a COPY block nothing, a skipped statement a count, a failure a note. */
  lemma TokenCounts<Db>(skip: string -> bool, exec: (Db, string) -> Outcome<Db>, a: Account<Db>, t: Token)
    ensures t.Copy? ==> Next(skip, exec, a, t) == a
    ensures t.Sql? && skip(t.text) ==> Next(skip, exec, a, t) == Account(a.db, a.executed, a.skipped + 1, a.errors)
    ensures t.Sql? && !skip(t.text) && exec(a.db, t.text).Done? ==>
              Next(skip, exec, a, t) == Account(exec(a.db, t.text).db, a.executed + 1, a.skipped, a.errors)
  {
  }

  /** The note has the message and the statement, cut off after 200 characters. */
  lemma FailureIsNoted<Db>(skip: string -> bool, exec: (Db, string) -> Outcome<Db>, a: Account<Db>, text: string)
    requires !skip(text) && exec(a.db, text).Failed?
    ensures exists start: string ::
              && start <= text && (start == text || |start| == 200) && |start| <= 200
              && Next(skip, exec, a, Sql(text)) ==
                 Account(a.db, a.executed, a.skipped, a.errors + [ImportError(start, exec(a.db, text).message)])
  {
    var start := Slice(text, 200);
    assert start <= text;
    assert Next(skip, exec, a, Sql(text)) ==
           Account(a.db, a.executed, a.skipped, a.errors + [ImportError(start, exec(a.db, text).message)]);
  }

  /** The counts of a dump start at nothing and grow token by token. */
  lemma DumpCounts(skip: string -> bool, ts: seq<Token>, t: Token)
    ensures CopyBlocks([]) == CopyRows([]) == Skippable(skip, []) == 0
    ensures CopyBlocks(ts + [t]) == CopyBlocks(ts) + if t.Copy? then 1 else 0
    ensures CopyRows(ts + [t]) == CopyRows(ts) + if t.Copy? then |t.rows| else 0
    ensures Skippable(skip, ts + [t]) == Skippable(skip, ts) + if t.Sql? && skip(t.text) then 1 else 0
  {
    CountsSnoc(skip, ts, t);
  }
}
