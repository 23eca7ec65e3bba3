/** Writing a README once is enough, exactly if no region contains an end marker. */
module ReadmeLaws {
  import opened Prelude
  import opened Text
  import opened ReadmeGen
  import opened ReadmeBlocks

  // ------------------------------------------------------------ what is rendered is lines

  /** Regions come from files split into lines, so each of their lines is one line. */
  ghost predicate PlainRegions(regions: Regions) {
    forall name | name in regions :: PlainLines(regions[name])
  }

  lemma {:induction false} StartPlain(lines: Lines)
    requires PlainLines(lines)
    ensures PlainLines(TrimBlankStart(lines))
    decreases |lines|
  {
    if lines != [] && Blank(lines[0]) {
      assert forall k | 0 <= k < |lines[1..]| :: lines[1..][k] == lines[k + 1];
      StartPlain(lines[1..]);
    }
  }

  lemma {:induction false} EndPlain(lines: Lines)
    requires PlainLines(lines)
    ensures PlainLines(TrimBlankEnd(lines))
    decreases |lines|
  {
    if lines != [] && Blank(lines[|lines| - 1]) {
      EndPlain(lines[..|lines| - 1]);
    }
  }

  /** Markers are read from and written as plain text. */
  ghost predicate PlainMarkers(m: Markers) {
    && (forall line | Plain(line) && m.begins(line).Some? :: Plain(m.begins(line).value))
    && (forall name | Plain(name) :: Plain(m.opening(name)) && Plain(m.closing(name)))
  }

  lemma FencesPlain()
    ensures Plain(FENCE_GO) && Plain(FENCE)
  {
  }

  lemma BlockPlain(m: Markers, name: string, body: Lines)
    requires PlainMarkers(m) && Plain(name) && PlainLines(body)
    ensures PlainLines(Block(m, name, body))
  {
    FencesPlain();
  }

  /** Rendered lines are lines; what was used are regions; nothing renders to nothing, and a
      text of two lines stays one of at least two. */
  lemma {:induction false} RenderPlain(m: Markers, lines: Lines, regions: Regions)
    requires PlainMarkers(m) && PlainLines(lines) && PlainRegions(regions) && RenderLines(m, lines, regions).Ok?
    ensures var r := RenderLines(m, lines, regions).value;
            && PlainLines(r.out) && r.used <= regions.Keys
            && (lines != [] ==> r.out != []) && (|lines| >= 2 ==> |r.out| >= 2)
    decreases |lines|
  {
    if lines != [] {
      if m.begins(lines[0]).None? {
        RenderPlain(m, lines[1..], regions);
      } else {
        var name := m.begins(lines[0]).value;
        assert Plain(lines[0]);
        StartPlain(regions[name]);
        EndPlain(TrimBlankStart(regions[name]));
        BlockPlain(m, name, TrimBlank(regions[name]));
        RenderPlain(m, lines[FindEnd(m, lines[1..], name).value + 2..], regions);
      }
    }
  }

  // ------------------------------------------------------------ texts

  ghost predicate Proper(m: Markers) {
    Sane(m) && PlainMarkers(m)
  }

  lemma CleanLines(m: Markers, lines: Lines, regions: Regions)
    requires Proper(m) && CleanRegions(m, regions) && RenderLines(m, lines, regions).Ok?
    ensures var r := RenderLines(m, lines, regions).value;
            RenderLines(m, r.out, regions) == Ok(r) && Outside(m, r.out) == Outside(m, lines)
  {
    LinesFixpoint(m, lines, regions);
  }

  lemma DirtyLines(m: Markers, lines: Lines, regions: Regions, r: Rendered, again: Rendered)
    requires Proper(m) && !CleanRegions(m, regions) && PlainRegions(regions) && lines != [] && PlainLines(lines)
    requires RenderLines(m, lines, regions) == Ok(r) && regions.Keys <= r.used
    requires RenderLines(m, r.out, regions) == Ok(again)
    ensures Join(again.out) != Join(r.out)
  {
    var name :| name in regions && HasEnd(m, TrimBlank(regions[name]));
    assert name in regions.Keys;
    NeverShrinks(m, lines, regions);
    RenderPlain(m, lines, regions);
    RenderPlain(m, r.out, regions);
    SplitJoin(r.out);
    SplitJoin(again.out);
  }

  /** Rendering the rendered text again gives the same text exactly if no region contains a
      line that reads as an end marker. */
  lemma RenderFixpointIff(m: Markers, src: string, regions: Regions)
    requires Proper(m) && PlainRegions(regions) && '\r' !in src && Render(m, src, regions).Ok?
    ensures var text := Render(m, src, regions).value;
            Render(m, text, regions) == Ok(text) <==> CleanRegions(m, regions)
  {
    var lines := Split(src);
    var r := RenderLines(m, lines, regions).value;
    SplitPlain(src);
    RenderPlain(m, lines, regions);
    SplitJoin(r.out);
    if CleanRegions(m, regions) {
      CleanLines(m, lines, regions);
    } else if RenderLines(m, r.out, regions).Ok? {
      DirtyLines(m, lines, regions, r, RenderLines(m, r.out, regions).value);
    }
  }

  /** Lines outside the marked blocks are unchanged. */
  lemma OutsideUnchanged(m: Markers, src: string, regions: Regions)
    requires Proper(m) && PlainRegions(regions) && '\r' !in src && Render(m, src, regions).Ok?
    requires CleanRegions(m, regions)
    ensures Outside(m, Split(Render(m, src, regions).value)) == Outside(m, Split(src))
  {
    var r := RenderLines(m, Split(src), regions).value;
    SplitPlain(src);
    RenderPlain(m, Split(src), regions);
    SplitJoin(r.out);
    CleanLines(m, Split(src), regions);
  }

  lemma RenderedEndings(m: Markers, src: string, regions: Regions)
    requires Proper(m) && PlainRegions(regions) && '\r' !in src && Render(m, src, regions).Ok?
    ensures var text := Render(m, src, regions).value;
            '\r' !in text && ('\n' in src ==> '\n' in text)
  {
    var r := RenderLines(m, Split(src), regions).value;
    JoinSplit(src);
    SplitPlain(src);
    RenderPlain(m, Split(src), regions);
    JoinChars(Split(src));
    JoinChars(r.out);
  }

  // ------------------------------------------------------------ files

  lemma {:induction false} FeedsStay(s: string)
    ensures '\n' in s ==> '\n' in Without(s, '\r')
    decreases |s|
  {
    if s != [] {
      FeedsStay(s[1..]);
      assert s == [s[0]] + s[1..];
      assert '\n' in Without(s[1..], '\r') ==> '\n' in Without(s, '\r');
    }
  }

  /** What toLF makes of a written text is what was rendered, whatever the line endings. */
  lemma EndingsRoundTrip(data: string, rendered: string)
    requires '\r' !in rendered && ('\n' in ToLF(data) ==> '\n' in rendered)
    ensures var text := WithEndings(data, rendered);
            ToLF(text) == rendered && HasCRLF(text) == HasCRLF(data)
  {
    ToLFDrops(data);
    FeedsStay(data);
    if HasCRLF(data) {
      CRLFRoundTrip(rendered);
    } else {
      ToLFDrops(rendered);
      WithoutNone(rendered, '\r');
    }
  }

  /** A check right after a write reports no difference, for files of either line ending (or
      both), exactly if no region contains a line that reads as an end marker. */
  lemma SyncFixpointIff(m: Markers, data: string, regions: Regions)
    requires Proper(m) && PlainRegions(regions) && SyncFile(m, data, regions).Stale?
    ensures var text := SyncFile(m, data, regions).text;
            SyncFile(m, text, regions) == UpToDate <==> CleanRegions(m, regions)
  {
    var src := ToLF(data);
    ToLFDrops(data);
    WithoutNone(data, '\r');
    RenderFixpointIff(m, src, regions);
    RenderedEndings(m, src, regions);
    var rendered := Render(m, src, regions).value;
    var text := WithEndings(data, rendered);
    EndingsRoundTrip(data, rendered);
    if Render(m, rendered, regions).Ok? {
      var again := Render(m, rendered, regions).value;
      RenderedEndings(m, rendered, regions);
      SameEndings(data, text, again, rendered);
    }
  }

  lemma SameEndings(data: string, text: string, a: string, b: string)
    requires '\r' !in a && '\r' !in b && HasCRLF(text) == HasCRLF(data)
    ensures WithEndings(text, a) == WithEndings(data, b) <==> a == b
  {
    CRLFRoundTrip(a);
    CRLFRoundTrip(b);
  }
}
