/** Lines and white space, as cmd/readmegen/main.go uses them. */
module Text {

  // ------------------------------------------------------------ lines

  /** strings.Split at line feeds: one line more than there are line feeds. */
  function Split(s: string): (lines: seq<string>)
    ensures |lines| >= 1
  {
    if s == [] then [""]
    else if s[0] == '\n' then [""] + Split(s[1..])
    else var rest := Split(s[1..]); [[s[0]] + rest[0]] + rest[1..]
  }

  /** strings.Join with line feeds. */
  function Join(lines: seq<string>): string {
    if lines == [] then ""
    else if |lines| == 1 then lines[0]
    else lines[0] + "\n" + Join(lines[1..])
  }

  predicate Plain(line: string) {
    '\n' !in line && '\r' !in line
  }

  predicate PlainLines(lines: seq<string>) {
    forall k | 0 <= k < |lines| :: Plain(lines[k])
  }

  lemma {:induction false} JoinSplit(s: string)
    ensures Join(Split(s)) == s
    decreases |s|
  {
    if s != [] {
      JoinSplit(s[1..]);
      var rest := Split(s[1..]);
      assert s == [s[0]] + s[1..];
      if s[0] == '\n' {
        assert Split(s)[1..] == rest;
      } else {
        assert Split(s)[1..] == rest[1..];
        JoinFirst(s[0], rest);
      }
    }
  }

  lemma JoinFirst(c: char, lines: seq<string>)
    requires lines != []
    ensures Join([[c] + lines[0]] + lines[1..]) == [c] + Join(lines)
  {
    var more := [[c] + lines[0]] + lines[1..];
    if |lines| > 1 {
      assert more[1..] == lines[1..];
      assert ([c] + lines[0]) + "\n" + Join(lines[1..]) == [c] + (lines[0] + "\n" + Join(lines[1..]));
    }
  }

  lemma {:induction false} SplitPlain(s: string)
    requires '\r' !in s
    ensures PlainLines(Split(s))
    decreases |s|
  {
    if s != [] {
      SplitPlain(s[1..]);
    }
  }

  lemma {:induction false} SplitLine(line: string, rest: string)
    requires '\n' !in line
    ensures Split(line + "\n" + rest) == [line] + Split(rest)
    ensures Split(line) == [line]
    decreases |line|
  {
    if line == [] {
      assert (line + "\n" + rest)[1..] == rest;
    } else {
      SplitLine(line[1..], rest);
      assert (line + "\n" + rest)[1..] == line[1..] + "\n" + rest;
      assert [line[0]] + line[1..] == line;
    }
  }

  lemma {:induction false} SplitJoin(lines: seq<string>)
    requires lines != [] && PlainLines(lines)
    ensures Split(Join(lines)) == lines
    decreases |lines|
  {
    assert Plain(lines[0]);
    if |lines| == 1 {
      SplitLine(lines[0], "");
    } else {
      var rest := lines[1..];
      SplitJoin(rest);
      JoinedFirst(lines[0], rest);
      assert [lines[0]] + rest == lines;
    }
  }

  lemma JoinedFirst(line: string, rest: seq<string>)
    requires '\n' !in line && rest != []
    ensures Split(Join([line] + rest)) == [line] + Split(Join(rest))
  {
    assert ([line] + rest)[1..] == rest;
    SplitLine(line, Join(rest));
  }

  lemma {:induction false} JoinChars(lines: seq<string>)
    requires PlainLines(lines)
    ensures '\r' !in Join(lines)
    ensures '\n' in Join(lines) <==> |lines| >= 2
    decreases |lines|
  {
    if |lines| >= 2 {
      JoinChars(lines[1..]);
      assert Plain(lines[0]);
      assert '\n' in "\n";
    } else if |lines| == 1 {
      assert Plain(lines[0]);
    }
  }

  // ------------------------------------------------------------ line endings

  /** strings.ReplaceAll of "\r\n" by "\n". */
  function JoinPairs(s: string): string {
    if s == [] then []
    else if |s| >= 2 && s[0] == '\r' && s[1] == '\n' then ['\n'] + JoinPairs(s[2..])
    else [s[0]] + JoinPairs(s[1..])
  }

  function Without(s: string, c: char): string {
    if s == [] then [] else (if s[0] == c then [] else [s[0]]) + Without(s[1..], c)
  }

  /** toLF. */
  function ToLF(s: string): string {
    Without(JoinPairs(s), '\r')
  }

  /** strings.ReplaceAll of "\n" by "\r\n". */
  function ToCRLF(s: string): string {
    if s == [] then [] else (if s[0] == '\n' then "\r\n" else [s[0]]) + ToCRLF(s[1..])
  }

  predicate HasCRLF(s: string) {
    exists i :: 0 <= i < |s| - 1 && s[i] == '\r' && s[i + 1] == '\n'
  }

  lemma {:induction false} WithoutNone(s: string, c: char)
    ensures c !in Without(s, c)
    ensures c !in s ==> Without(s, c) == s
    decreases |s|
  {
    if s != [] {
      WithoutNone(s[1..], c);
      assert s == [s[0]] + s[1..];
    }
  }

  /** toLF drops the carriage returns and nothing else. */
  lemma {:induction false} ToLFDrops(s: string)
    ensures ToLF(s) == Without(s, '\r')
    decreases |s|
  {
    if s != [] {
      if |s| >= 2 && s[0] == '\r' && s[1] == '\n' {
        ToLFDrops(s[2..]);
        assert JoinPairs(s) == ['\n'] + JoinPairs(s[2..]);
        assert (['\n'] + JoinPairs(s[2..]))[1..] == JoinPairs(s[2..]);
        assert s[1..][1..] == s[2..];
      } else {
        ToLFDrops(s[1..]);
        assert ([s[0]] + JoinPairs(s[1..]))[1..] == JoinPairs(s[1..]);
      }
    }
  }

  lemma {:induction false} CRLFRoundTrip(s: string)
    requires '\r' !in s
    ensures ToLF(ToCRLF(s)) == s
    ensures HasCRLF(ToCRLF(s)) <==> '\n' in s
    decreases |s|
  {
    ToLFDrops(ToCRLF(s));
    CRLFDrops(s);
    PairsCome(s);
  }

  lemma {:induction false} CRLFDrops(s: string)
    requires '\r' !in s
    ensures Without(ToCRLF(s), '\r') == s
    decreases |s|
  {
    if s != [] {
      assert s == [s[0]] + s[1..];
      CRLFDrops(s[1..]);
      FirstDropped(s[0], ToCRLF(s[1..]));
    }
  }

  lemma FirstDropped(x: char, rest: string)
    requires x != '\r'
    ensures Without((if x == '\n' then "\r\n" else [x]) + rest, '\r') == [x] + Without(rest, '\r')
  {
    WithoutOne(x, rest, '\r');
    if x == '\n' {
      WithoutOne('\r', [x] + rest, '\r');
      assert "\r\n" + rest == ['\r'] + ([x] + rest);
    }
  }

  lemma WithoutOne(x: char, s: string, c: char)
    ensures Without([x] + s, c) == (if x == c then [] else [x]) + Without(s, c)
  {
    assert ([x] + s)[1..] == s;
  }

  lemma {:induction false} PairsCome(s: string)
    requires '\r' !in s
    ensures HasCRLF(ToCRLF(s)) <==> '\n' in s
    decreases |s|
  {
    if s != [] {
      PairsCome(s[1..]);
      var t, rest := ToCRLF(s), ToCRLF(s[1..]);
      if s[0] == '\n' {
        assert t[0] == '\r' && t[1] == '\n';
      } else {
        assert t == [s[0]] + rest && s[0] != '\r';
        if HasCRLF(rest) {
          var i :| 0 <= i < |rest| - 1 && rest[i] == '\r' && rest[i + 1] == '\n';
          assert t[i + 1] == '\r' && t[i + 1 + 1] == '\n';
        }
        if HasCRLF(t) {
          var i :| 0 <= i < |t| - 1 && t[i] == '\r' && t[i + 1] == '\n';
          assert i > 0 && rest[i - 1] == '\r' && rest[i - 1 + 1] == '\n';
        }
      }
    }
  }

  // ------------------------------------------------------------ white space

  /** What strings.TrimSpace trims: the white space characters of Unicode. */
  predicate IsSpace(c: char) {
    || '\t' <= c <= '\r' || c == ' '
    || c == '\U{85}' || c == '\U{A0}' || c == '\U{1680}' || '\U{2000}' <= c <= '\U{200A}'
    || c == '\U{2028}' || c == '\U{2029}' || c == '\U{202F}' || c == '\U{205F}' || c == '\U{3000}'
  }

  function TrimLeft(s: string): string {
    if s != [] && IsSpace(s[0]) then TrimLeft(s[1..]) else s
  }

  function TrimRight(s: string): string {
    if s != [] && IsSpace(s[|s| - 1]) then TrimRight(s[..|s| - 1]) else s
  }

  function Trim(s: string): string {
    TrimRight(TrimLeft(s))
  }

  /** A string that neither begins nor ends with white space. */
  predicate Tight(s: string) {
    s == [] || (!IsSpace(s[0]) && !IsSpace(s[|s| - 1]))
  }

  lemma {:induction false} TrimTight(s: string)
    ensures Tight(Trim(s))
    ensures Tight(s) ==> Trim(s) == s
  {
    LeftTight(s);
    RightTight(TrimLeft(s));
  }

  lemma {:induction false} LeftTight(s: string)
    ensures TrimLeft(s) == [] || !IsSpace(TrimLeft(s)[0])
    decreases |s|
  {
    if s != [] && IsSpace(s[0]) {
      LeftTight(s[1..]);
    }
  }

  lemma {:induction false} RightTight(s: string)
    requires s == [] || !IsSpace(s[0])
    ensures Tight(TrimRight(s))
    decreases |s|
  {
    if s != [] && IsSpace(s[|s| - 1]) {
      RightTight(s[..|s| - 1]);
    }
  }

  /** Trimming keeps plain text plain. */
  lemma {:induction false} TrimPlain(s: string)
    requires Plain(s)
    ensures Plain(Trim(s))
  {
    LeftPart(s);
    RightPart(TrimLeft(s));
  }

  lemma {:induction false} LeftPart(s: string)
    ensures forall c | c in TrimLeft(s) :: c in s
    decreases |s|
  {
    if s != [] && IsSpace(s[0]) {
      LeftPart(s[1..]);
    }
  }

  lemma {:induction false} RightPart(s: string)
    ensures forall c | c in TrimRight(s) :: c in s
    decreases |s|
  {
    if s != [] && IsSpace(s[|s| - 1]) {
      RightPart(s[..|s| - 1]);
    }
  }
}
