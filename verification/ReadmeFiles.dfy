/** What is trimmed from a region, which go blocks are refused, and what becomes of a file. */
module ReadmeFiles {
  import opened Prelude
  import opened Text
  import opened ReadmeGen
  import opened ReadmeBlocks
  import opened ReadmeLaws
  import opened ReadmeMarkers

  // ------------------------------------------------------------ trimming

  lemma {:induction false} LeftCut(s: string) returns (a: nat)
    ensures a <= |s| && TrimLeft(s) == s[a..] && (forall k | 0 <= k < a :: IsSpace(s[k]))
    decreases |s|
  {
    if s != [] && IsSpace(s[0]) {
      var b := LeftCut(s[1..]);
      a := b + 1;
      assert forall k | 1 <= k < a :: s[k] == s[1..][k - 1];
    } else {
      a := 0;
    }
  }

  lemma {:induction false} RightCut(s: string) returns (b: nat)
    ensures b <= |s| && TrimRight(s) == s[..b] && (forall k | b <= k < |s| :: IsSpace(s[k]))
    decreases |s|
  {
    if s != [] && IsSpace(s[|s| - 1]) {
      b := RightCut(s[..|s| - 1]);
      assert forall k | b <= k < |s| - 1 :: s[k] == s[..|s| - 1][k];
    } else {
      b := |s|;
    }
  }

  /** A line is blank exactly if it is nothing but white space. */
  lemma BlankIff(line: string)
    ensures Blank(line) <==> forall c | c in line :: IsSpace(c)
  {
    var a := LeftCut(line);
    var b := RightCut(TrimLeft(line));
    TrimTight(line);
    if Trim(line) == "" {
      assert forall k | 0 <= k < |line| :: IsSpace(line[k]) by {
        assert forall k | a <= k < |line| :: line[k] == line[a..][k - a];
      }
    } else {
      assert Trim(line)[0] == line[a];
    }
  }

  lemma {:induction false} StartCut(lines: Lines) returns (a: nat)
    ensures a <= |lines| && TrimBlankStart(lines) == lines[a..] && (forall k | 0 <= k < a :: Blank(lines[k]))
    ensures a < |lines| ==> !Blank(lines[a])
    decreases |lines|
  {
    if lines != [] && Blank(lines[0]) {
      var b := StartCut(lines[1..]);
      a := b + 1;
      assert forall k | 1 <= k < |lines| :: lines[k] == lines[1..][k - 1];
    } else {
      a := 0;
    }
  }

  lemma {:induction false} EndCut(lines: Lines) returns (b: nat)
    ensures b <= |lines| && TrimBlankEnd(lines) == lines[..b] && (forall k | b <= k < |lines| :: Blank(lines[k]))
    ensures b > 0 ==> !Blank(lines[b - 1])
    decreases |lines|
  {
    if lines != [] && Blank(lines[|lines| - 1]) {
      b := EndCut(lines[..|lines| - 1]);
      assert forall k | 0 <= k < |lines| - 1 :: lines[k] == lines[..|lines| - 1][k];
    } else {
      b := |lines|;
    }
  }

  /** What is kept of a region is one stretch of its lines: only blank lines are dropped, only
      at the ends, and all of those. */
  lemma TrimmedRegion(lines: Lines) returns (a: nat, b: nat)
    ensures a <= b <= |lines| && TrimBlank(lines) == lines[a..b]
    ensures forall k | 0 <= k < a || b <= k < |lines| :: Blank(lines[k])
    ensures a < b ==> !Blank(lines[a]) && !Blank(lines[b - 1])
  {
    a := StartCut(lines);
    var c := EndCut(lines[a..]);
    b := a + c;
    assert forall k | a <= k < |lines| :: lines[k] == lines[a..][k - a];
    assert lines[a..][..c] == lines[a..b];
  }

  // ------------------------------------------------------------ go blocks

  predicate GoFence(line: string) {
    Trim(line) == "```go"
  }

  /** Neither blank nor the opening of a go block. */
  predicate Counts(line: string) {
    !Blank(line) && !GoFence(line)
  }

  /** Line j is the last one before line i that counts. */
  ghost predicate Precedes(lines: Lines, j: nat, i: nat) {
    j < i <= |lines| && Counts(lines[j]) && forall k | j < k < i :: !Counts(lines[k])
  }

  lemma {:induction false} BeforeIs(lines: Lines, i: nat) returns (j: int)
    requires i <= |lines|
    ensures -1 <= j < i
    ensures j == -1 ==> Before(lines, i) == "" && forall k | 0 <= k < i :: !Counts(lines[k])
    ensures j >= 0 ==> Precedes(lines, j, i) && Before(lines, i) == Trim(lines[j])
    decreases i
  {
    if i == 0 {
      j := -1;
    } else if Counts(lines[i - 1]) {
      j := i - 1;
    } else {
      j := BeforeIs(lines, i - 1);
    }
  }

  /** A README is refused exactly if it has a go block that no begin marker precedes. */
  lemma ManagedIff(lines: Lines)
    ensures Managed(README, lines) <==>
              forall i | 0 <= i < |lines| && GoFence(lines[i]) ::
                exists j: nat :: Precedes(lines, j, i) && ReadBegin(lines[j]).Some?
  {
    forall i | 0 <= i < |lines| && GoFence(lines[i])
      ensures README.begins(Before(lines, i)).Some? <==> exists j: nat :: Precedes(lines, j, i) && ReadBegin(lines[j]).Some?
    {
      MarkedBefore(lines, i);
    }
  }

  lemma MarkedBefore(lines: Lines, i: nat)
    requires i <= |lines|
    ensures README.begins(Before(lines, i)).Some? <==> exists j: nat :: Precedes(lines, j, i) && ReadBegin(lines[j]).Some?
  {
    var j := BeforeIs(lines, i);
    if j < 0 {
      TrimTight("");
    } else {
      TrimTight(lines[j]);
      TrimTight(Trim(lines[j]));
      forall l: nat | Precedes(lines, l, i) ensures l == j {
      }
    }
  }

  // ------------------------------------------------------------ files

  /** Carriage returns and line feeds come in pairs only. */
  predicate Paired(s: string) {
    || s == []
    || (|s| >= 2 && s[0] == '\r' && s[1] == '\n' && Paired(s[2..]))
    || (s[0] != '\r' && s[0] != '\n' && Paired(s[1..]))
  }

  /** The line ends of a text are all of one kind. */
  predicate Uniform(s: string) {
    '\r' !in s || Paired(s)
  }

  lemma PairedRestored(s: string)
    requires Paired(s)
    ensures ToCRLF(ToLF(s)) == s
  {
    ToLFDrops(s);
    DroppedRestored(s);
  }

  lemma {:induction false} DroppedRestored(s: string)
    requires Paired(s)
    ensures ToCRLF(Without(s, '\r')) == s
    decreases |s|
  {
    if s != [] {
      if s[0] == '\r' {
        var rest := s[2..];
        DroppedRestored(rest);
        PairSplits(s);
        RestoredOne('\n', Without(rest, '\r'));
      } else {
        DroppedRestored(s[1..]);
        RestoredOne(s[0], Without(s[1..], '\r'));
        assert s == [s[0]] + s[1..];
      }
    }
  }

  lemma PairSplits(s: string)
    requires |s| >= 2 && s[0] == '\r' && s[1] == '\n'
    ensures s == "\r\n" + s[2..] && Without(s, '\r') == ['\n'] + Without(s[2..], '\r')
  {
    assert s == ['\r'] + (['\n'] + s[2..]);
    WithoutOne('\r', ['\n'] + s[2..], '\r');
    WithoutOne('\n', s[2..], '\r');
  }

  lemma RestoredOne(x: char, t: string)
    ensures ToCRLF([x] + t) == (if x == '\n' then "\r\n" else [x]) + ToCRLF(t)
  {
    assert ([x] + t)[1..] == t;
  }

  lemma {:induction false} PairedHas(s: string)
    requires Paired(s) && '\r' in s
    ensures HasCRLF(s)
    decreases |s|
  {
    if s[0] != '\r' {
      PairedHas(s[1..]);
      var i :| 0 <= i < |s[1..]| - 1 && s[1..][i] == '\r' && s[1..][i + 1] == '\n';
      assert s[i + 1] == '\r' && s[i + 1 + 1] == '\n';
    }
  }

  lemma {:induction false} CRLFPaired(s: string)
    requires '\r' !in s
    ensures Paired(ToCRLF(s))
    decreases |s|
  {
    if s != [] {
      CRLFPaired(s[1..]);
      assert s[0] != '\r';
      var t := ToCRLF(s);
      if s[0] == '\n' {
        assert t[2..] == ToCRLF(s[1..]);
      } else {
        assert t[1..] == ToCRLF(s[1..]);
      }
    }
  }

  /** A file is up to date exactly if rendering leaves its text as it is and its line endings
      are all of one kind; a file with both kinds is rewritten. */
  lemma UpToDateIff(data: string, regions: Regions)
    requires PlainRegions(regions)
    ensures SyncFile(README, data, regions) == UpToDate
      <==> Render(README, ToLF(data), regions) == Ok(ToLF(data)) && Uniform(data)
  {
    var src := ToLF(data);
    ToLFDrops(data);
    WithoutNone(data, '\r');
    if Render(README, src, regions).Ok? {
      var rendered := Render(README, src, regions).value;
      ReadmeSane();
      ReadmePlain();
      RenderedEndings(README, src, regions);
      EndingsRoundTrip(data, rendered);
      CRLFPaired(rendered);
      if Paired(data) {
        PairedRestored(data);
        if '\r' in data { PairedHas(data); }
      }
    }
  }

  /** Otherwise, unless rendering fails, what is written is the rendering, with every line end
      as the file had them, or as some of them were if it had both. */
  lemma WritesTheRendering(data: string, regions: Regions)
    requires PlainRegions(regions) && SyncFile(README, data, regions) != UpToDate
    ensures match SyncFile(README, data, regions)
            case Stale(text) =>
              && Render(README, ToLF(data), regions) == Ok(ToLF(text))
              && HasCRLF(text) == HasCRLF(data) && Uniform(text)
            case Failed(e) => Render(README, ToLF(data), regions) == Err(e)
  {
    var src := ToLF(data);
    ToLFDrops(data);
    WithoutNone(data, '\r');
    if Render(README, src, regions).Ok? {
      var rendered := Render(README, src, regions).value;
      ReadmeSane();
      ReadmePlain();
      RenderedEndings(README, src, regions);
      EndingsRoundTrip(data, rendered);
      CRLFPaired(rendered);
    }
  }
}
