/** The loops of cmd/readmegen, proved against module ReadmeGen. */
module ReadmeMethods {
  import opened Prelude
  import opened Text
  import opened ReadmeGen

  method SkipBlank(lines: Lines) returns (start: nat)
    ensures start <= |lines| && TrimBlankStart(lines) == lines[start..]
  {
    start := 0;
    assert lines[0..] == lines;
    while start < |lines| && Blank(lines[start])
      invariant 0 <= start <= |lines|
      invariant TrimBlankStart(lines[start..]) == TrimBlankStart(lines)
    {
      assert lines[start..][1..] == lines[start + 1..];
      start := start + 1;
    }
  }

  method SkipBlankBack(lines: Lines, start: nat) returns (end: nat)
    requires start <= |lines|
    ensures start <= end <= |lines| && TrimBlankEnd(lines[start..]) == lines[start..end]
  {
    end := |lines|;
    assert lines[start..end] == lines[start..];
    while end > start && Blank(lines[end - 1])
      invariant start <= end <= |lines|
      invariant TrimBlankEnd(lines[start..end]) == TrimBlankEnd(lines[start..])
    {
      assert lines[start..end][..end - start - 1] == lines[start..end - 1];
      end := end - 1;
    }
  }

  /** trimBlank. */
  method TrimBlankLines(lines: Lines) returns (r: Lines)
    ensures r == TrimBlank(lines)
  {
    var start := SkipBlank(lines);
    var end := SkipBlankBack(lines, start);
    r := lines[start..end];
  }

  /** The inner loop of render, from line `from` on. */
  method SearchEnd(m: Markers, lines: Lines, from: nat, name: string) returns (r: Result<nat>)
    requires from <= |lines|
    ensures r == FindEnd(m, lines[from..], name)
  {
    var j := from;
    while j < |lines|
      invariant from <= j <= |lines|
      invariant FindEnd(m, lines[from..], name) == match FindEnd(m, lines[j..], name)
                                                   case Ok(k) => Ok(j - from + k)
                                                   case Err(e) => Err(e)
    {
      assert lines[j..][1..] == lines[j + 1..];
      var end := m.ends(lines[j]);
      if end.Some? {
        if end.value != name { return Err(WrongEnd(name)); }
        return Ok(j - from);
      }
      j := j + 1;
    }
    r := Err(NotClosed(name));
  }

  /** What has been written so far, in front of the rendering of the rest. */
  function Prepend(out: Lines, used: set<string>, rest: Result<Rendered>): Result<Rendered> {
    match rest
    case Ok(r) => Ok(Rendered(out + r.out, used + r.used))
    case Err(e) => Err(e)
  }

  lemma PrependNone(r: Result<Rendered>, out: Lines, used: set<string>)
    ensures Prepend([], {}, r) == r
    ensures Prepend(out, used, Ok(Rendered([], {}))) == Ok(Rendered(out, used))
  {
    if r.Ok? {
      assert [] + r.value.out == r.value.out && {} + r.value.used == r.value.used;
    }
    assert out + [] == out && used + {} == used;
  }

  lemma PrependLine(m: Markers, lines: Lines, i: nat, regions: Regions, out: Lines, used: set<string>)
    requires i < |lines| && m.begins(lines[i]).None?
    ensures Prepend(out, used, RenderLines(m, lines[i..], regions))
         == Prepend(out + [lines[i]], used, RenderLines(m, lines[i + 1..], regions))
  {
    assert lines[i..][1..] == lines[i + 1..];
    var rest := RenderLines(m, lines[i + 1..], regions);
    if rest.Ok? {
      assert out + ([lines[i]] + rest.value.out) == out + [lines[i]] + rest.value.out;
    }
  }

  lemma PrependBlock(m: Markers, lines: Lines, i: nat, regions: Regions, out: Lines, used: set<string>, k: nat)
    requires i < |lines| && m.begins(lines[i]).Some? && m.begins(lines[i]).value in regions
    requires FindEnd(m, lines[i + 1..], m.begins(lines[i]).value) == Ok(k)
    ensures var name := m.begins(lines[i]).value;
            Prepend(out, used, RenderLines(m, lines[i..], regions))
            == Prepend(out + Block(m, name, TrimBlank(regions[name])), used + {name},
                       RenderLines(m, lines[i + k + 2..], regions))
  {
    var name := m.begins(lines[i]).value;
    assert lines[i..][1..] == lines[i + 1..] && lines[i..][k + 2..] == lines[i + k + 2..];
    var rest := RenderLines(m, lines[i + k + 2..], regions);
    if rest.Ok? {
      var block := Block(m, name, TrimBlank(regions[name]));
      assert out + (block + rest.value.out) == out + block + rest.value.out;
      assert used + ({name} + rest.value.used) == used + {name} + rest.value.used;
    }
  }

  /** Where a line makes the whole rendering fail. */
  lemma FailsAt(m: Markers, lines: Lines, i: nat, regions: Regions)
    requires i < |lines| && m.begins(lines[i]).Some?
    ensures var name := m.begins(lines[i]).value;
            && (name !in regions ==> RenderLines(m, lines[i..], regions) == Err(NoRegion(name)))
            && (name in regions ==>
                  var end := FindEnd(m, lines[i + 1..], name);
                  end.Err? ==> RenderLines(m, lines[i..], regions) == Err(end.error))
  {
    assert lines[i..][1..] == lines[i + 1..];
  }

  /** The outer loop of render. */
  method RenderLoop(m: Markers, lines: Lines, regions: Regions) returns (r: Result<Rendered>)
    ensures r == RenderLines(m, lines, regions)
  {
    var out: Lines, used: set<string> := [], {};
    var i := 0;
    ghost var whole := RenderLines(m, lines, regions);
    assert lines[0..] == lines;
    PrependNone(whole, out, used);
    while i < |lines|
      invariant 0 <= i <= |lines|
      invariant whole == Prepend(out, used, RenderLines(m, lines[i..], regions))
    {
      var begin := m.begins(lines[i]);
      if begin.None? {
        PrependLine(m, lines, i, regions, out, used);
        out := out + [lines[i]];
        i := i + 1;
        continue;
      }
      var name := begin.value;
      FailsAt(m, lines, i, regions);
      if name !in regions { return Err(NoRegion(name)); }
      var body := TrimBlankLines(regions[name]);
      var end := SearchEnd(m, lines, i + 1, name);
      if end.Err? { return Err(end.error); }
      PrependBlock(m, lines, i, regions, out, used, end.value);
      out := out + Block(m, name, body);
      used := used + {name};
      i := i + end.value + 2;
    }
    assert lines[i..] == [];
    PrependNone(whole, out, used);
    r := Ok(Rendered(out, used));
  }

  /** checkUnmanagedGoBlocks: `prev` is the last line that is neither blank nor a fence. */
  method CheckGoBlocks(m: Markers, lines: Lines) returns (ok: bool)
    ensures ok == Managed(m, lines)
  {
    var prev := "";
    var i := 0;
    while i < |lines|
      invariant 0 <= i <= |lines| && prev == Before(lines, i)
      invariant forall k | 0 <= k < i && Trim(lines[k]) == FENCE_GO :: m.begins(Before(lines, k)).Some?
    {
      var trimmed := Trim(lines[i]);
      if trimmed != FENCE_GO {
        if trimmed != "" {
          prev := trimmed;
        }
      } else if m.begins(prev).None? {
        return false;
      }
      i := i + 1;
    }
    ok := true;
  }

  method RenderText(m: Markers, src: string, regions: Regions) returns (r: Result<string>)
    ensures r == Render(m, src, regions)
  {
    var rendered := RenderLoop(m, Split(src), regions);
    if rendered.Err? { return Err(rendered.error); }
    var text := Join(rendered.value.out);
    var ok := CheckGoBlocks(m, Split(text));
    if !ok { return Err(Unmanaged); }
    var names := regions.Keys;
    while names != {}
      invariant names <= regions.Keys && regions.Keys - names <= rendered.value.used
      decreases names
    {
      var name :| name in names;
      if name !in rendered.value.used { return Err(Unused); }
      names := names - {name};
    }
    r := Ok(text);
  }

  method Sync(data: string, regions: Regions) returns (r: Sync)
    ensures r == SyncFile(README, data, regions)
  {
    var rendered := RenderText(README, ToLF(data), regions);
    if rendered.Err? { return Failed(rendered.error); }
    var text := WithEndings(data, rendered.value);
    r := if text == data then UpToDate else Stale(text);
  }
}
