/** The few JavaScript string operations the repository relies on. */
module JsText {

  /** White space and line terminators as `String.prototype.trim` and `\s` see them. */
  predicate IsSpace(c: char) {
    || '\t' <= c <= '\r'
    || c == ' '
    || c == '\U{00A0}'
    || c == '\U{1680}'
    || '\U{2000}' <= c <= '\U{200A}'
    || c == '\U{2028}'
    || c == '\U{2029}'
    || c == '\U{202F}'
    || c == '\U{205F}'
    || c == '\U{3000}'
    || c == '\U{FEFF}'
  }

  /** The character class [A-Za-z0-9_]. */
  predicate IsWord(c: char) {
    'A' <= c <= 'Z' || 'a' <= c <= 'z' || '0' <= c <= '9' || c == '_'
  }

  predicate AllSpace(s: string) {
    forall k :: 0 <= k < |s| ==> IsSpace(s[k])
  }

  function TrimStart(s: string): (r: string)
    ensures |r| <= |s| && r == s[|s| - |r|..]
    ensures r == "" || !IsSpace(r[0])
    ensures AllSpace(s[..|s| - |r|])
  {
    if s == "" || !IsSpace(s[0]) then s
    else
      var r := TrimStart(s[1..]);
      assert s[..|s| - |r|] == [s[0]] + s[1..][..|s| - 1 - |r|];
      r
  }

  function TrimEnd(s: string): (r: string)
    ensures |r| <= |s| && r == s[..|r|]
    ensures r == "" || !IsSpace(r[|r| - 1])
    ensures AllSpace(s[|r|..])
  {
    if s == "" || !IsSpace(s[|s| - 1]) then s
    else
      var r := TrimEnd(s[..|s| - 1]);
      assert s[|r|..] == s[..|s| - 1][|r|..] + [s[|s| - 1]];
      r
  }

  function Trim(s: string): string {
    TrimEnd(TrimStart(s))
  }

  /** `s` is already trimmed and holds something. */
  ghost predicate Inked(s: string) {
    s != "" && !IsSpace(s[0]) && !IsSpace(s[|s| - 1])
  }

  /** What `Trim` removes is white space on either side, and nothing more can be removed. */
  lemma TrimParts(s: string) returns (lead: string, trail: string)
    ensures s == lead + Trim(s) + trail
    ensures AllSpace(lead) && AllSpace(trail)
    ensures Trim(s) == "" || Inked(Trim(s))
  {
    lead := TrimStartParts(s);
    trail := TrimEndParts(TrimStart(s));
    Reassociate(s, lead, TrimStart(s), Trim(s), trail);
  }

  lemma Reassociate(s: string, lead: string, r: string, mid: string, trail: string)
    requires s == lead + r && r == mid + trail
    ensures s == lead + mid + trail
  {
  }

  lemma TrimStartParts(s: string) returns (lead: string)
    ensures s == lead + TrimStart(s)
    ensures AllSpace(lead)
  {
    lead := s[..|s| - |TrimStart(s)|];
  }

  lemma TrimEndParts(r: string) returns (trail: string)
    requires r == "" || !IsSpace(r[0])
    ensures r == TrimEnd(r) + trail
    ensures AllSpace(trail)
    ensures TrimEnd(r) == "" || Inked(TrimEnd(r))
  {
    var e := TrimEnd(r);
    trail := r[|e|..];
    if e != "" {
      assert e[0] == r[0];
    }
  }

  lemma {:induction false} TrimStartPrefix(lead: string, rest: string)
    requires AllSpace(lead)
    requires rest == "" || !IsSpace(rest[0])
    ensures TrimStart(lead + rest) == rest
  {
    if lead == "" {
      assert lead + rest == rest;
    } else {
      assert (lead + rest)[1..] == lead[1..] + rest;
      TrimStartPrefix(lead[1..], rest);
    }
  }

  lemma {:induction false} TrimEndSuffix(rest: string, trail: string)
    requires AllSpace(trail)
    requires rest == "" || !IsSpace(rest[|rest| - 1])
    ensures TrimEnd(rest + trail) == rest
  {
    if trail == "" {
      assert rest + trail == rest;
    } else {
      var n := |trail| - 1;
      assert (rest + trail)[..|rest + trail| - 1] == rest + trail[..n];
      TrimEndSuffix(rest, trail[..n]);
    }
  }

  /** The trimmed text is determined by its surroundings. */
  lemma TrimUnique(lead: string, body: string, trail: string)
    requires AllSpace(lead) && AllSpace(trail)
    requires Inked(body)
    ensures Trim(lead + body + trail) == body
  {
    assert lead + body + trail == lead + (body + trail);
    TrimStartPrefix(lead, body + trail);
    TrimEndSuffix(body, trail);
  }

  /** `Array.prototype.join`. */
  function Join(parts: seq<string>, sep: string): string {
    if parts == [] then ""
    else if |parts| == 1 then parts[0]
    else parts[0] + sep + Join(parts[1..], sep)
  }

  /** `text.split('\n')`: at least one line, none holding a newline. */
  function SplitLines(text: string): (lines: seq<string>)
    ensures lines != []
    ensures forall k :: 0 <= k < |lines| ==> '\n' !in lines[k]
    ensures Join(lines, "\n") == text
  {
    if text == "" then [""]
    else
      var rest := SplitLines(text[1..]);
      if text[0] == '\n' then
        assert text == "" + "\n" + text[1..];
        assert ([""] + rest)[1..] == rest;
        [""] + rest
      else
        var r := [[text[0]] + rest[0]] + rest[1..];
        assert r[1..] == rest[1..];
        assert text == [text[0]] + text[1..];
        if |rest| == 1 then r
        else
          assert Join(r, "\n") == [text[0]] + rest[0] + "\n" + Join(rest[1..], "\n");
          assert Join(rest, "\n") == rest[0] + "\n" + Join(rest[1..], "\n");
          r
  }
}
