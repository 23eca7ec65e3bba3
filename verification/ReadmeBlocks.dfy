/** Rendering lines twice, for any markers that are read back as they are written. */
module ReadmeBlocks {
  import opened Prelude
  import opened Text
  import opened ReadmeGen

  /** A marker that is written is read back with its name, and as no other marker; fences are
      not markers; names have no white space around them. */
  ghost predicate Sane(m: Markers) {
    && (forall name | Tight(name) :: m.begins(m.opening(name)) == Some(name) && m.ends(m.closing(name)) == Some(name))
    && (forall line | m.begins(line).Some? :: Tight(m.begins(line).value))
    && (forall line | m.begins(line).Some? :: m.ends(line).None?)
    && m.ends(FENCE_GO) == None && m.ends(FENCE) == None
  }

  // ------------------------------------------------------------ finding the end

  predicate HasEnd(m: Markers, lines: Lines)
    decreases |lines|
  {
    lines != [] && (m.ends(lines[0]).Some? || HasEnd(m, lines[1..]))
  }

  lemma {:induction false} HasEndAppend(m: Markers, a: Lines, b: Lines)
    ensures HasEnd(m, a + b) <==> HasEnd(m, a) || HasEnd(m, b)
    decreases |a|
  {
    if a == [] {
      assert a + b == b;
    } else {
      HasEndAppend(m, a[1..], b);
      assert (a + b)[1..] == a[1..] + b;
    }
  }

  lemma {:induction false} FindEndSkips(m: Markers, pre: Lines, rest: Lines, name: string)
    requires !HasEnd(m, pre)
    ensures FindEnd(m, pre + rest, name) == match FindEnd(m, rest, name)
                                            case Ok(k) => Ok(|pre| + k)
                                            case Err(e) => Err(e)
    decreases |pre|
  {
    if pre == [] {
      assert pre + rest == rest;
    } else {
      assert (pre + rest)[1..] == pre[1..] + rest;
      FindEndSkips(m, pre[1..], rest, name);
    }
  }

  /** An end marker in the first part is what the search stops at. */
  lemma {:induction false} FindEndStops(m: Markers, pre: Lines, rest: Lines, name: string)
    requires HasEnd(m, pre)
    ensures FindEnd(m, pre + rest, name) == FindEnd(m, pre, name)
    decreases |pre|
  {
    assert (pre + rest)[1..] == pre[1..] + rest;
    if m.ends(pre[0]).None? {
      FindEndStops(m, pre[1..], rest, name);
    }
  }

  // ------------------------------------------------------------ the fixpoint

  /** No region that is written contains a line that reads as an end marker. */
  ghost predicate CleanRegions(m: Markers, regions: Regions) {
    forall name | name in regions :: !HasEnd(m, TrimBlank(regions[name]))
  }

  /** What follows the begin marker of a block. */
  function Inner(body: Lines): Lines {
    [FENCE_GO] + body + [FENCE]
  }

  lemma InnerEnd(m: Markers, body: Lines)
    requires Sane(m)
    ensures HasEnd(m, Inner(body)) <==> HasEnd(m, body)
  {
    HasEndAppend(m, [FENCE_GO] + body, [FENCE]);
    HasEndAppend(m, [FENCE_GO], body);
    assert !HasEnd(m, [FENCE_GO][1..]) && !HasEnd(m, [FENCE][1..]);
  }

  lemma BlockSplits(m: Markers, name: string, body: Lines, rest: Lines)
    ensures var s := Block(m, name, body) + rest;
            && s[0] == m.opening(name)
            && s[1..] == Inner(body) + ([m.closing(name)] + rest)
            && s[|body| + 4..] == rest
  {
  }

  /** The end of a block that was written is found where it was written. */
  lemma BlockEnd(m: Markers, name: string, body: Lines, rest: Lines)
    requires Sane(m) && Tight(name) && !HasEnd(m, body)
    ensures FindEnd(m, Inner(body) + ([m.closing(name)] + rest), name) == Ok(|body| + 2)
  {
    InnerEnd(m, body);
    FindEndSkips(m, Inner(body), [m.closing(name)] + rest, name);
  }

  /** A block that was written is written again unchanged. */
  lemma BlockAgain(m: Markers, name: string, rest: Lines, regions: Regions)
    requires Sane(m) && Tight(name) && name in regions && !HasEnd(m, TrimBlank(regions[name]))
    requires RenderLines(m, rest, regions).Ok?
    ensures var block := Block(m, name, TrimBlank(regions[name]));
            var r := RenderLines(m, rest, regions).value;
            RenderLines(m, block + rest, regions) == Ok(Rendered(block + r.out, {name} + r.used))
  {
    BlockSplits(m, name, TrimBlank(regions[name]), rest);
    BlockEnd(m, name, TrimBlank(regions[name]), rest);
  }

  /** Lines outside every marked block, in order. */
  function Outside(m: Markers, lines: Lines): Lines
    decreases |lines|
  {
    if lines == [] then []
    else if m.begins(lines[0]).None? then [lines[0]] + Outside(m, lines[1..])
    else
      match FindEnd(m, lines[1..], m.begins(lines[0]).value)
      case Ok(k) => Outside(m, lines[k + 2..])
      case Err(_) => lines
  }

  lemma BlockOutside(m: Markers, name: string, body: Lines, rest: Lines)
    requires Sane(m) && Tight(name) && !HasEnd(m, body)
    ensures Outside(m, Block(m, name, body) + rest) == Outside(m, rest)
  {
    BlockSplits(m, name, body, rest);
    BlockEnd(m, name, body, rest);
  }

  lemma {:induction false} LinesFixpoint(m: Markers, lines: Lines, regions: Regions)
    requires Sane(m) && CleanRegions(m, regions) && RenderLines(m, lines, regions).Ok?
    ensures var r := RenderLines(m, lines, regions).value;
            && RenderLines(m, r.out, regions) == Ok(r)
            && Outside(m, r.out) == Outside(m, lines)
    decreases |lines|
  {
    if lines != [] {
      if m.begins(lines[0]).None? {
        LinesFixpoint(m, lines[1..], regions);
        assert ([lines[0]] + RenderLines(m, lines[1..], regions).value.out)[1..]
            == RenderLines(m, lines[1..], regions).value.out;
      } else {
        var name := m.begins(lines[0]).value;
        var k := FindEnd(m, lines[1..], name).value;
        LinesFixpoint(m, lines[k + 2..], regions);
        var rest := RenderLines(m, lines[k + 2..], regions).value.out;
        BlockAgain(m, name, rest, regions);
        BlockOutside(m, name, TrimBlank(regions[name]), rest);
      }
    }
  }

  // ------------------------------------------------------------ and its converse

  /** Ends with an end marker. */
  predicate Ended(m: Markers, lines: Lines) {
    lines != [] && m.ends(lines[|lines| - 1]).Some?
  }

  lemma {:induction false} EndedHasEnd(m: Markers, lines: Lines)
    requires Ended(m, lines)
    ensures HasEnd(m, lines)
    decreases |lines|
  {
    if |lines| > 1 {
      EndedHasEnd(m, lines[1..]);
    }
  }

  /** A block begun in a part that ends with an end marker ends in that part. */
  lemma EndsInside(m: Markers, x: Lines, rest: Lines, name: string)
    requires |x| > 1 && Ended(m, x)
    requires FindEnd(m, (x + rest)[1..], name).Ok?
    ensures var k := FindEnd(m, (x + rest)[1..], name).value;
            k + 2 <= |x| && (x + rest)[k + 2..] == x[k + 2..] + rest && (x[k + 2..] == [] || Ended(m, x[k + 2..]))
  {
    assert (x + rest)[1..] == x[1..] + rest;
    EndedHasEnd(m, x[1..]);
    FindEndStops(m, x[1..], rest, name);
  }

  /** So what follows such a part is rendered as it would be alone, and the part does not
      vanish. */
  lemma {:induction false} RenderEnded(m: Markers, x: Lines, rest: Lines, regions: Regions)
    requires Sane(m) && (x == [] || Ended(m, x))
    requires RenderLines(m, x + rest, regions).Ok?
    ensures RenderLines(m, rest, regions).Ok?
    ensures |RenderLines(m, x + rest, regions).value.out| >=
              |RenderLines(m, rest, regions).value.out| + if x == [] then 0 else 1
    decreases |x|
  {
    if x == [] {
      assert x + rest == rest;
    } else if m.begins(x[0]).None? {
      assert (x + rest)[1..] == x[1..] + rest;
      RenderEnded(m, x[1..], rest, regions);
    } else if |x| > 1 {
      var name := m.begins(x[0]).value;
      EndsInside(m, x, rest, name);
      RenderEnded(m, x[FindEnd(m, (x + rest)[1..], name).value + 2..], rest, regions);
    }
  }

  /** The body up to its first end marker, and from behind it on. */
  lemma {:induction false} FirstEnd(m: Markers, body: Lines) returns (k: nat)
    requires HasEnd(m, body)
    ensures k < |body| && m.ends(body[k]).Some? && !HasEnd(m, body[..k])
    decreases |body|
  {
    if m.ends(body[0]).Some? {
      k := 0;
    } else {
      var j := FirstEnd(m, body[1..]);
      k := j + 1;
      assert body[..k][1..] == body[1..][..j];
    }
  }

  /** What is behind the cut. */
  function Tail(m: Markers, name: string, body: Lines, k: nat): Lines
    requires k < |body|
  {
    body[k + 1..] + [FENCE, m.closing(name)]
  }

  lemma CutSplits(m: Markers, name: string, body: Lines, rest: Lines, k: nat)
    requires k < |body|
    ensures var s := Block(m, name, body) + rest;
            && s[1..] == ([FENCE_GO] + body[..k]) + ([body[k]] + (Tail(m, name, body, k) + rest))
            && s[k + 3..] == Tail(m, name, body, k) + rest
  {
    BlockSplits(m, name, body, rest);
    assert body == body[..k] + [body[k]] + body[k + 1..];
  }

  lemma CutEnd(m: Markers, name: string, body: Lines, rest: Lines, k: nat)
    requires Sane(m) && k < |body| && m.ends(body[k]).Some? && !HasEnd(m, body[..k])
    ensures var r := FindEnd(m, ([FENCE_GO] + body[..k]) + ([body[k]] + (Tail(m, name, body, k) + rest)), name);
            r.Ok? ==> r.value == k + 1
  {
    HasEndAppend(m, [FENCE_GO], body[..k]);
    assert !HasEnd(m, [FENCE_GO][1..]);
    FindEndSkips(m, [FENCE_GO] + body[..k], [body[k]] + (Tail(m, name, body, k) + rest), name);
  }

  /** A block whose body has an end marker in it grows or fails: it is cut off there and
      written again, and what was behind the cut is rendered as lines of its own. */
  lemma DirtyBlockGrows(m: Markers, name: string, rest: Lines, regions: Regions)
    requires Sane(m) && Tight(name) && name in regions && HasEnd(m, TrimBlank(regions[name]))
    requires RenderLines(m, Block(m, name, TrimBlank(regions[name])) + rest, regions).Ok?
    ensures RenderLines(m, rest, regions).Ok?
    ensures var block := Block(m, name, TrimBlank(regions[name]));
            |RenderLines(m, block + rest, regions).value.out| > |block| + |RenderLines(m, rest, regions).value.out|
  {
    var body := TrimBlank(regions[name]);
    BlockSplits(m, name, body, rest);
    var k := FirstEnd(m, body);
    CutSplits(m, name, body, rest, k);
    CutEnd(m, name, body, rest, k);
    RenderEnded(m, Tail(m, name, body, k), rest, regions);
  }

  /** One of these regions has an end marker in it. */
  ghost predicate SomeDirty(m: Markers, used: set<string>, regions: Regions) {
    exists name :: name in used && name in regions && HasEnd(m, TrimBlank(regions[name]))
  }

  lemma DirtyEither(m: Markers, name: string, used: set<string>, regions: Regions)
    requires name in regions
    ensures SomeDirty(m, {name} + used, regions) <==> HasEnd(m, TrimBlank(regions[name])) || SomeDirty(m, used, regions)
  {
    if SomeDirty(m, used, regions) {
      var other :| other in used && other in regions && HasEnd(m, TrimBlank(regions[other]));
      assert other in {name} + used;
    }
  }

  /** Rendering what was rendered never shrinks it, and grows it if a region that was used
      has an end marker in it. */
  lemma {:induction false} NeverShrinks(m: Markers, lines: Lines, regions: Regions)
    requires Sane(m) && RenderLines(m, lines, regions).Ok?
    requires RenderLines(m, RenderLines(m, lines, regions).value.out, regions).Ok?
    ensures var r := RenderLines(m, lines, regions).value;
            var again := RenderLines(m, r.out, regions).value;
            && |again.out| >= |r.out|
            && (SomeDirty(m, r.used, regions) ==> |again.out| > |r.out|)
    decreases |lines|
  {
    if lines != [] {
      var r := RenderLines(m, lines, regions).value;
      if m.begins(lines[0]).None? {
        assert r.out[1..] == RenderLines(m, lines[1..], regions).value.out;
        NeverShrinks(m, lines[1..], regions);
      } else {
        var name := m.begins(lines[0]).value;
        var k := FindEnd(m, lines[1..], name).value;
        var rest := RenderLines(m, lines[k + 2..], regions).value.out;
        BlockNeverShrinks(m, name, rest, regions);
        NeverShrinks(m, lines[k + 2..], regions);
        DirtyEither(m, name, RenderLines(m, lines[k + 2..], regions).value.used, regions);
      }
    }
  }

  lemma BlockNeverShrinks(m: Markers, name: string, rest: Lines, regions: Regions)
    requires Sane(m) && Tight(name) && name in regions
    requires RenderLines(m, Block(m, name, TrimBlank(regions[name])) + rest, regions).Ok?
    ensures RenderLines(m, rest, regions).Ok?
    ensures var block := Block(m, name, TrimBlank(regions[name]));
            var n := |RenderLines(m, block + rest, regions).value.out|;
            && n >= |block| + |RenderLines(m, rest, regions).value.out|
            && (HasEnd(m, TrimBlank(regions[name])) ==> n > |block| + |RenderLines(m, rest, regions).value.out|)
  {
    if HasEnd(m, TrimBlank(regions[name])) {
      DirtyBlockGrows(m, name, rest, regions);
    } else {
      CleanBlockPasses(m, name, rest, regions);
      BlockAgain(m, name, rest, regions);
    }
  }

  lemma CleanBlockPasses(m: Markers, name: string, rest: Lines, regions: Regions)
    requires Sane(m) && Tight(name) && name in regions && !HasEnd(m, TrimBlank(regions[name]))
    requires RenderLines(m, Block(m, name, TrimBlank(regions[name])) + rest, regions).Ok?
    ensures RenderLines(m, rest, regions).Ok?
  {
    BlockSplits(m, name, TrimBlank(regions[name]), rest);
    BlockEnd(m, name, TrimBlank(regions[name]), rest);
  }
}
