/** The line splitter that sets `COPY ... FROM stdin` blocks apart from the SQL around them. */
module SqlTagged {
  import opened JsText
  import opened SqlLexer
  import SqlSplitter

  datatype Token = Sql(text: string) | Copy(header: string, rows: seq<string>)

  function Lower(c: char): char {
    if 'A' <= c <= 'Z' then (c as int + 32) as char else c
  }

  /** `s` starts with `word`, letter case aside; `word` is given in lower case. */
  predicate StartsWith(s: string, word: string) {
    |word| <= |s| && forall k :: 0 <= k < |word| ==> Lower(s[k]) == word[k]
  }

  /** What `.` matches in a regular expression. */
  predicate OnOneLine(s: string) {
    forall k :: 0 <= k < |s| ==> s[k] !in {'\n', '\r', '\U{2028}', '\U{2029}'}
  }

  /** The part of the pattern behind FROM: `\s+stdin\b`. */
  predicate StdinFollows(s: string) {
    var u := TrimStart(s);
    |u| < |s| && StartsWith(u, "stdin") && (|u| == 5 || !IsWord(u[5]))
  }

  /** /^\s*COPY\s+.+\sFROM\s+stdin\b/i */
  predicate IsCopyHeader(line: string) {
    var s := TrimStart(line);
    && StartsWith(s, "copy")
    && exists a, j :: 5 <= a < j < |s|
                      && AllSpace(s[4..a]) && OnOneLine(s[a..j]) && IsSpace(s[j])
                      && StartsWith(s[j + 1..], "from") && StdinFollows(s[j + 5..])
  }

  /** `line.replace(/;\s*$/, '').trim()` */
  function CopyStatement(line: string): string {
    var t := TrimEnd(line);
    if t != "" && t[|t| - 1] == ';' then Trim(t[..|t| - 1]) else Trim(line)
  }

  function FlatMap<A, B>(f: A -> seq<B>, xs: seq<A>): seq<B> {
    if xs == [] then [] else f(xs[0]) + FlatMap(f, xs[1..])
  }

  lemma {:induction false} FlatMapAppend<A, B>(f: A -> seq<B>, a: seq<A>, b: seq<A>)
    ensures FlatMap(f, a + b) == FlatMap(f, a) + FlatMap(f, b)
    decreases |a|
  {
    if a == [] {
      assert a + b == b;
    } else {
      assert (a + b)[1..] == a[1..] + b;
      FlatMapAppend(f, a[1..], b);
    }
  }

  lemma FlatMapOne<A, B>(f: A -> seq<B>, x: A)
    ensures FlatMap(f, [x]) == f(x)
  {
    assert [x][1..] == [];
  }

  const TERMINATOR := "\\."

  /** A run of lines and the role it plays. */
  datatype Block = SqlLines(lines: seq<string>) | CopyBlock(header: string, rows: seq<string>, terminated: bool)

  function LinesOf(b: Block): seq<string> {
    match b
    case SqlLines(ls) => ls
    case CopyBlock(h, rs, t) => [h] + rs + if t then [TERMINATOR] else []
  }

  function TokensOf(b: Block): seq<Token> {
    match b
    case SqlLines(ls) => SqlTokens(Split(Join(ls, "\n")))
    case CopyBlock(h, rs, _) => [Copy(CopyStatement(h), rs)]
  }

  function SqlTokens(statements: seq<string>): (r: seq<Token>)
    ensures |r| == |statements|
    ensures forall k :: 0 <= k < |r| ==> r[k] == Sql(statements[k])
  {
    if statements == [] then [] else [Sql(statements[0])] + SqlTokens(statements[1..])
  }

  /** The data rows in front of the terminator. */
  function DataRows(lines: seq<string>): (rows: seq<string>)
    ensures |rows| <= |lines| && rows == lines[..|rows|]
    ensures TERMINATOR !in rows
    ensures |rows| < |lines| ==> lines[|rows|] == TERMINATOR
  {
    if lines == [] || lines[0] == TERMINATOR then [] else [lines[0]] + DataRows(lines[1..])
  }

  function SqlBlock(buffer: seq<string>): seq<Block> {
    if buffer == [] then [] else [SqlLines(buffer)]
  }

  /**
   The blocks of the remaining lines, `isHeader` telling which lines open a COPY block and `buffer` holding the SQL
   lines gathered so far.
   */
  function Blocks(isHeader: string -> bool, buffer: seq<string>, lines: seq<string>): seq<Block>
    decreases |lines|
  {
    if lines == [] then SqlBlock(buffer)
    else if isHeader(lines[0]) then
      var rows := DataRows(lines[1..]);
      var terminated := |rows| < |lines| - 1;
      SqlBlock(buffer) + [CopyBlock(lines[0], rows, terminated)]
      + Blocks(isHeader, [], if terminated then lines[|rows| + 2..] else [])
    else Blocks(isHeader, buffer + [lines[0]], lines[1..])
  }

  function AllLines(blocks: seq<Block>): seq<string> {
    FlatMap(LinesOf, blocks)
  }

  function Tagged(sql: string): seq<Token> {
    FlatMap(TokensOf, Blocks(IsCopyHeader, [], SplitLines(sql)))
  }

  /**
   Every line plays one role: blocks of SQL hold no COPY header and never touch one another;
   a COPY block opens with a header, holds no terminator among its rows, and lacks its
   terminator only at the end of the script.
   */
  ghost predicate Proper(isHeader: string -> bool, blocks: seq<Block>) {
    forall k :: 0 <= k < |blocks| ==> ProperAt(isHeader, blocks, k)
  }

  ghost predicate ProperAt(isHeader: string -> bool, blocks: seq<Block>, k: nat)
    requires k < |blocks|
  {
    match blocks[k]
    case SqlLines(ls) =>
      && ls != []
      && (forall i :: 0 <= i < |ls| ==> !isHeader(ls[i]))
      && (k + 1 < |blocks| ==> blocks[k + 1].CopyBlock?)
    case CopyBlock(h, rs, t) => isHeader(h) && TERMINATOR !in rs && (!t ==> k + 1 == |blocks|)
  }

  lemma ProperTail(isHeader: string -> bool, blocks: seq<Block>)
    requires blocks != [] && Proper(isHeader, blocks)
    ensures Proper(isHeader, blocks[1..])
  {
    forall k | 0 <= k < |blocks| - 1 ensures ProperAt(isHeader, blocks[1..], k) {
      assert ProperAt(isHeader, blocks, k + 1);
    }
  }

  lemma ProperCons(isHeader: string -> bool, b: Block, blocks: seq<Block>)
    requires Proper(isHeader, blocks) && ProperAt(isHeader, [b] + blocks, 0)
    ensures Proper(isHeader, [b] + blocks)
  {
    forall k | 0 <= k < |blocks| + 1 ensures ProperAt(isHeader, [b] + blocks, k) {
      if k > 0 {
        assert ProperAt(isHeader, blocks, k - 1);
      }
    }
  }

  lemma CopyLines(lines: seq<string>)
    requires lines != []
    ensures var rows := DataRows(lines[1..]);
            var terminated := |rows| < |lines| - 1;
            LinesOf(CopyBlock(lines[0], rows, terminated)) + (if terminated then lines[|rows| + 2..] else []) == lines
  {
    var rows := DataRows(lines[1..]);
    assert lines == [lines[0]] + lines[1..];
  }

  lemma ProperPrepend(isHeader: string -> bool, buffer: seq<string>, copy: Block, blocks: seq<Block>)
    requires forall i :: 0 <= i < |buffer| ==> !isHeader(buffer[i])
    requires copy.CopyBlock? && isHeader(copy.header) && TERMINATOR !in copy.rows
    requires Proper(isHeader, blocks) && (!copy.terminated ==> blocks == [])
    ensures Proper(isHeader, SqlBlock(buffer) + [copy] + blocks)
  {
    var tail := [copy] + blocks;
    ProperCons(isHeader, copy, blocks);
    if buffer == [] {
      assert SqlBlock(buffer) + [copy] + blocks == tail;
    } else {
      assert SqlBlock(buffer) + [copy] + blocks == [SqlLines(buffer)] + tail;
      ProperCons(isHeader, SqlLines(buffer), tail);
    }
  }

  lemma LinesPrepend(buffer: seq<string>, copy: Block, blocks: seq<Block>)
    ensures AllLines(SqlBlock(buffer) + [copy] + blocks) == buffer + (LinesOf(copy) + AllLines(blocks))
  {
    FlatMapAppend(LinesOf, SqlBlock(buffer) + [copy], blocks);
    FlatMapAppend(LinesOf, SqlBlock(buffer), [copy]);
    FlatMapOne(LinesOf, copy);
    FlatMapOne(LinesOf, SqlLines(buffer));
  }

  /** The blocks partition the lines, in order, each line in its proper role. */
  lemma {:induction false} BlocksPartition(isHeader: string -> bool, buffer: seq<string>, lines: seq<string>)
    requires forall i :: 0 <= i < |buffer| ==> !isHeader(buffer[i])
    ensures AllLines(Blocks(isHeader, buffer, lines)) == buffer + lines
    ensures Proper(isHeader, Blocks(isHeader, buffer, lines))
    decreases |lines|
  {
    if lines == [] {
      assert buffer + lines == buffer;
      FlatMapOne(LinesOf, SqlLines(buffer));
    } else if isHeader(lines[0]) {
      var rows := DataRows(lines[1..]);
      var terminated := |rows| < |lines| - 1;
      var rest := if terminated then lines[|rows| + 2..] else [];
      BlocksPartition(isHeader, [], rest);
      CopyLines(lines);
      assert [] + rest == rest;
      ProperPrepend(isHeader, buffer, CopyBlock(lines[0], rows, terminated), Blocks(isHeader, [], rest));
      LinesPrepend(buffer, CopyBlock(lines[0], rows, terminated), Blocks(isHeader, [], rest));
    } else {
      assert buffer + lines == buffer + [lines[0]] + lines[1..];
      BlocksPartition(isHeader, buffer + [lines[0]], lines[1..]);
    }
  }

  lemma {:induction false} DataRowsUnique(rows: seq<string>, rest: seq<string>)
    requires TERMINATOR !in rows
    requires rest == [] || rest[0] == TERMINATOR
    ensures DataRows(rows + rest) == rows
  {
    if rows == [] {
      assert rows + rest == rest;
    } else {
      assert (rows + rest)[1..] == rows[1..] + rest;
      DataRowsUnique(rows[1..], rest);
    }
  }

  lemma {:induction false} BlocksOfSql(isHeader: string -> bool, buffer: seq<string>, sql: seq<string>,
                                       rest: seq<string>)
    requires forall i :: 0 <= i < |sql| ==> !isHeader(sql[i])
    ensures Blocks(isHeader, buffer, sql + rest) == Blocks(isHeader, buffer + sql, rest)
    decreases |sql|
  {
    if sql == [] {
      assert sql + rest == rest && buffer + sql == buffer;
    } else {
      assert (sql + rest)[1..] == sql[1..] + rest;
      assert buffer + sql == (buffer + [sql[0]]) + sql[1..];
      BlocksOfSql(isHeader, buffer + [sql[0]], sql[1..], rest);
    }
  }

  lemma BlocksOfCopy(isHeader: string -> bool, buffer: seq<string>, b: Block, rest: seq<string>)
    requires b.CopyBlock? && isHeader(b.header) && TERMINATOR !in b.rows
    requires !b.terminated ==> rest == []
    ensures Blocks(isHeader, buffer, LinesOf(b) + rest) == SqlBlock(buffer) + [b] + Blocks(isHeader, [], rest)
  {
    var lines := LinesOf(b) + rest;
    var tail := (if b.terminated then [TERMINATOR] else []) + rest;
    assert lines[1..] == b.rows + tail;
    DataRowsUnique(b.rows, tail);
    if b.terminated {
      assert lines[|b.rows| + 2..] == rest;
    }
  }

  /** There is no other way to give the lines proper roles. */
  lemma {:induction false} BlocksUnique(isHeader: string -> bool, blocks: seq<Block>)
    requires Proper(isHeader, blocks)
    ensures Blocks(isHeader, [], AllLines(blocks)) == blocks
    decreases |blocks|
  {
    if blocks != [] {
      assert ProperAt(isHeader, blocks, 0);
      ProperTail(isHeader, blocks);
      BlocksUnique(isHeader, blocks[1..]);
      match blocks[0] {
        case CopyBlock(_, _, _) =>
          BlocksOfCopy(isHeader, [], blocks[0], AllLines(blocks[1..]));
        case SqlLines(ls) =>
          BlocksOfSql(isHeader, [], ls, AllLines(blocks[1..]));
          assert [] + ls == ls;
          if |blocks| > 1 {
            assert ProperAt(isHeader, blocks, 1);
            ProperTail(isHeader, blocks[1..]);
            BlocksOfCopy(isHeader, ls, blocks[1], AllLines(blocks[2..]));
            BlocksOfCopy(isHeader, [], blocks[1], AllLines(blocks[2..]));
            assert blocks[1..][1..] == blocks[2..];
          }
      }
    }
  }

  lemma OnlySql<T>(isHeader: string -> bool, f: Block -> seq<T>, lines: seq<string>)
    requires lines != [] && forall i :: 0 <= i < |lines| ==> !isHeader(lines[i])
    ensures FlatMap(f, Blocks(isHeader, [], lines)) == f(SqlLines(lines))
  {
    BlocksOfSql(isHeader, [], lines, []);
    assert lines + [] == lines && [] + lines == lines;
    FlatMapOne(f, SqlLines(lines));
  }

  /** Without a COPY header the tagged form is the plain splitter. */
  lemma TaggedWithoutCopy(sql: string)
    requires forall i :: 0 <= i < |SplitLines(sql)| ==> !IsCopyHeader(SplitLines(sql)[i])
    ensures Tagged(sql) == SqlTokens(Split(sql))
  {
    OnlySql(IsCopyHeader, TokensOf, SplitLines(sql));
  }

  lemma AtPlainLine<T>(isHeader: string -> bool, f: Block -> seq<T>, buffer: seq<string>, lines: seq<string>, i: nat)
    requires i < |lines| && !isHeader(lines[i])
    ensures FlatMap(f, Blocks(isHeader, buffer, lines[i..])) ==
            FlatMap(f, Blocks(isHeader, buffer + [lines[i]], lines[i + 1..]))
  {
    assert lines[i..][1..] == lines[i + 1..];
  }

  lemma AtHeaderLine<T>(isHeader: string -> bool, f: Block -> seq<T>, buffer: seq<string>, lines: seq<string>, i: nat)
    requires i < |lines| && isHeader(lines[i])
    ensures var rows := DataRows(lines[i + 1..]);
            var terminated := i + 1 + |rows| < |lines|;
            var next := if terminated then i + 2 + |rows| else |lines|;
            FlatMap(f, Blocks(isHeader, buffer, lines[i..])) ==
            FlatMap(f, SqlBlock(buffer)) + f(CopyBlock(lines[i], rows, terminated))
            + FlatMap(f, Blocks(isHeader, [], lines[next..]))
  {
    var rows := DataRows(lines[i + 1..]);
    var terminated := i + 1 + |rows| < |lines|;
    var next := if terminated then i + 2 + |rows| else |lines|;
    BlocksAtHeader(isHeader, buffer, lines, i);
    FlatMapThree(f, SqlBlock(buffer), CopyBlock(lines[i], rows, terminated), Blocks(isHeader, [], lines[next..]));
  }

  lemma BlocksAtHeader(isHeader: string -> bool, buffer: seq<string>, lines: seq<string>, i: nat)
    requires i < |lines| && isHeader(lines[i])
    ensures var rows := DataRows(lines[i + 1..]);
            var terminated := i + 1 + |rows| < |lines|;
            var next := if terminated then i + 2 + |rows| else |lines|;
            Blocks(isHeader, buffer, lines[i..]) ==
            SqlBlock(buffer) + [CopyBlock(lines[i], rows, terminated)] + Blocks(isHeader, [], lines[next..])
  {
    var here, after := lines[i..], lines[i + 1..];
    var n := |DataRows(after)|;
    var terminated := i + 1 + n < |lines|;
    TailOfSlice(lines, i, n);
    BlocksOfHeader(isHeader, buffer, here, after, lines[if terminated then i + 2 + n else |lines|..]);
  }

  lemma TailOfSlice<T>(lines: seq<T>, i: nat, n: nat)
    requires i < |lines| && n <= |lines| - i - 1
    ensures lines[i..][1..] == lines[i + 1..]
    ensures (if i + 1 + n < |lines| then lines[i..][n + 2..] else []) ==
            lines[if i + 1 + n < |lines| then i + 2 + n else |lines|..]
  {
  }

  lemma BlocksOfHeader(isHeader: string -> bool, buffer: seq<string>, here: seq<string>, after: seq<string>,
                       rest: seq<string>)
    requires here != [] && isHeader(here[0]) && after == here[1..]
    requires rest == if |DataRows(after)| < |here| - 1 then here[|DataRows(after)| + 2..] else []
    ensures Blocks(isHeader, buffer, here) ==
            SqlBlock(buffer) + [CopyBlock(here[0], DataRows(after), |DataRows(after)| < |here| - 1)]
            + Blocks(isHeader, [], rest)
  {
  }

  lemma FlatMapThree<A, B>(f: A -> seq<B>, a: seq<A>, b: A, c: seq<A>)
    ensures FlatMap(f, a + [b] + c) == FlatMap(f, a) + f(b) + FlatMap(f, c)
  {
    FlatMapAppend(f, a + [b], c);
    FlatMapAppend(f, a, [b]);
    FlatMapOne(f, b);
  }

  /** `flushBuffer`: the gathered lines, split into statements. */
  method FlushBuffer(buffer: seq<string>) returns (tokens: seq<Token>)
    ensures tokens == FlatMap(TokensOf, SqlBlock(buffer))
  {
    if |buffer| == 0 {
      return [];
    }
    FlatMapOne(TokensOf, SqlLines(buffer));
    var statements := SqlSplitter.SplitSqlStatements(Join(buffer, "\n"));
    tokens := [];
    for k := 0 to |statements|
      invariant tokens == SqlTokens(statements)[..k]
    {
      tokens := tokens + [Sql(statements[k])];
    }
  }

  /** The inner loop: the data rows from line `start` on, and the line behind the terminator. */
  method ReadRows(lines: seq<string>, start: nat) returns (rows: seq<string>, i: nat)
    requires start <= |lines|
    ensures rows == DataRows(lines[start..])
    ensures i == if start + |rows| < |lines| then start + |rows| + 1 else |lines|
  {
    rows := [];
    i := start;
    ghost var all := DataRows(lines[start..]);
    while i < |lines|
      invariant start <= i <= |lines| && |rows| == i - start
      invariant rows + DataRows(lines[i..]) == all
    {
      var rowLine := lines[i];
      assert lines[i..][0] == rowLine && lines[i..][1..] == lines[i + 1..];
      if rowLine == TERMINATOR {
        assert rows == all;
        i := i + 1;
        return;
      }
      assert rows + ([rowLine] + DataRows(lines[i + 1..])) == rows + [rowLine] + DataRows(lines[i + 1..]);
      rows := rows + [rowLine];
      i := i + 1;
    }
  }

  /** What the loop keeps true: what the blocks so far gave, and what those to come will give. */
  ghost predicate Tagging<T>(isHeader: string -> bool, f: Block -> seq<T>, whole: seq<T>,
                             buffer: seq<string>, rest: seq<string>, done: seq<T>)
  {
    done + FlatMap(f, Blocks(isHeader, buffer, rest)) == whole
  }

  lemma TaggingPlain<T>(isHeader: string -> bool, f: Block -> seq<T>, whole: seq<T>,
                        buffer: seq<string>, lines: seq<string>, i: nat, done: seq<T>)
    requires i < |lines| && !isHeader(lines[i]) && Tagging(isHeader, f, whole, buffer, lines[i..], done)
    ensures Tagging(isHeader, f, whole, buffer + [lines[i]], lines[i + 1..], done)
  {
    AtPlainLine(isHeader, f, buffer, lines, i);
  }

  lemma TaggingHeader<T>(isHeader: string -> bool, f: Block -> seq<T>, whole: seq<T>,
                         buffer: seq<string>, lines: seq<string>, i: nat, done: seq<T>, rows: seq<string>, next: nat)
    requires i < |lines| && isHeader(lines[i]) && Tagging(isHeader, f, whole, buffer, lines[i..], done)
    requires rows == DataRows(lines[i + 1..])
    requires next == if i + 1 + |rows| < |lines| then i + 2 + |rows| else |lines|
    ensures Tagging(isHeader, f, whole, [], lines[next..],
                    done + (FlatMap(f, SqlBlock(buffer)) + f(CopyBlock(lines[i], rows, i + 1 + |rows| < |lines|))))
  {
    AtHeaderLine(isHeader, f, buffer, lines, i);
    Regroup4(done, FlatMap(f, SqlBlock(buffer)), f(CopyBlock(lines[i], rows, i + 1 + |rows| < |lines|)),
             FlatMap(f, Blocks(isHeader, [], lines[next..])));
  }

  lemma Regroup4<T>(a: seq<T>, b: seq<T>, c: seq<T>, d: seq<T>)
    ensures a + (b + c + d) == a + (b + c) + d
  {
  }

  /** The branch of the loop for a COPY header: flush, read the block, emit its token. */
  method CopyTurn(lines: seq<string>, i: nat, buffer: seq<string>)
    returns (tokens: seq<Token>, i': nat, rows: seq<string>)
    requires i < |lines|
    ensures rows == DataRows(lines[i + 1..])
    ensures i' == if i + 1 + |rows| < |lines| then i + 2 + |rows| else |lines|
    ensures tokens == FlatMap(TokensOf, SqlBlock(buffer))
                      + TokensOf(CopyBlock(lines[i], rows, i + 1 + |rows| < |lines|))
  {
    tokens := FlushBuffer(buffer);
    var header := CopyStatement(lines[i]);
    rows, i' := ReadRows(lines, i + 1);
    tokens := tokens + [Copy(header, rows)];
  }

  lemma TaggingEnds<T>(isHeader: string -> bool, f: Block -> seq<T>, whole: seq<T>,
                       buffer: seq<string>, rest: seq<string>, done: seq<T>)
    requires rest == [] && Tagging(isHeader, f, whole, buffer, rest, done)
    ensures done + FlatMap(f, SqlBlock(buffer)) == whole
  {
  }

  /** The loop over the lines. */
  method TagLines(lines: seq<string>, ghost whole: seq<Token>) returns (tokens: seq<Token>)
    requires Tagging(IsCopyHeader, TokensOf, whole, [], lines, [])
    ensures tokens == whole
  {
    tokens := [];
    var buffer := [];
    var i := 0;
    assert lines[0..] == lines;
    while i < |lines|
      invariant i <= |lines|
      invariant Tagging(IsCopyHeader, TokensOf, whole, buffer, lines[i..], tokens)
    {
      var line := lines[i];
      if IsCopyHeader(line) {
        var more, next, rows := CopyTurn(lines, i, buffer);
        TaggingHeader(IsCopyHeader, TokensOf, whole, buffer, lines, i, tokens, rows, next);
        buffer := [];
        tokens := tokens + more;
        i := next;
      } else {
        TaggingPlain(IsCopyHeader, TokensOf, whole, buffer, lines, i, tokens);
        buffer := buffer + [line];
        i := i + 1;
      }
    }
    TaggingEnds(IsCopyHeader, TokensOf, whole, buffer, lines[i..], tokens);
    var flushed := FlushBuffer(buffer);
    tokens := tokens + flushed;
  }

  /** The tagged splitter returns the tokens of the one proper reading of the lines. */
  method SplitSqlStatementsTagged(sql: string) returns (tokens: seq<Token>)
    ensures tokens == Tagged(sql)
  {
    var lines := SplitLines(sql);
    assert [] + Tagged(sql) == Tagged(sql);
    tokens := TagLines(lines, Tagged(sql));
  }
}
