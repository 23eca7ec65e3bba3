/**
 What rendering means, without its loops: a README is lines and marked blocks, and a
 rendered one has the same lines and, for each block, the region of its name.
 */
module ReadmePieces {
  import opened Prelude
  import opened Text
  import opened ReadmeGen
  import opened ReadmeBlocks
  import opened ReadmeLaws
  import opened ReadmeMarkers

  // ------------------------------------------------------------ reading a README

  /** A line outside of any block; a block with its two markers; a begin marker that has no
      end marker of its name, with all that follows it. */
  datatype Piece = Line(text: string) | Marked(lines: Lines) | Broken(rest: Lines, error: Error)

  /** No end marker strictly between the first line and the last. */
  ghost predicate Unended(m: Markers, lines: Lines, from: nat, to: nat) {
    forall k | from <= k < to && k < |lines| :: m.ends(lines[k]).None?
  }

  ghost predicate IsMarked(m: Markers, lines: Lines) {
    var last := |lines| - 1;
    && last >= 1 && m.begins(lines[0]).Some? && m.ends(lines[last]) == m.begins(lines[0])
    && Unended(m, lines, 1, last)
  }

  /** No end marker follows, or the first that does has another name. */
  ghost predicate IsBroken(m: Markers, rest: Lines, error: Error) {
    && rest != [] && m.begins(rest[0]).Some?
    && var name := m.begins(rest[0]).value;
       match error
       case NotClosed(n) => n == name && Unended(m, rest, 1, |rest|)
       case WrongEnd(n) => n == name && exists k :: 1 <= k < |rest| && StopsAt(m, rest, k) && m.ends(rest[k]) != Some(name)
       case NoRegion(_) => false
       case Unmanaged => false
       case Unused => false
  }

  ghost predicate StopsAt(m: Markers, rest: Lines, k: nat) {
    k < |rest| && m.ends(rest[k]).Some? && Unended(m, rest, 1, k)
  }

  /** These pieces, in order, are these lines. */
  ghost predicate Parse(m: Markers, lines: Lines, pieces: seq<Piece>)
    decreases |pieces|
  {
    if pieces == [] then lines == [] else
    var rest := pieces[1..];
    match pieces[0]
    case Line(text) => m.begins(text).None? && lines != [] && lines[0] == text && Parse(m, lines[1..], rest)
    case Marked(ls) => IsMarked(m, ls) && ls <= lines && Parse(m, lines[|ls|..], rest)
    case Broken(ls, e) => IsBroken(m, ls, e) && lines == ls && rest == []
  }

  // ------------------------------------------------------------ writing one

  /** The name in the begin marker of a block. */
  function NameOf(m: Markers, p: Piece): string {
    match p
    case Line(_) => ""
    case Marked(ls) => if ls != [] && m.begins(ls[0]).Some? then m.begins(ls[0]).value else ""
    case Broken(ls, _) => if ls != [] && m.begins(ls[0]).Some? then m.begins(ls[0]).value else ""
  }

  /** The first thing that is wrong with a README. */
  function Fault(m: Markers, pieces: seq<Piece>, regions: Regions): Option<Error> {
    if pieces == [] then None else
    match pieces[0]
    case Line(_) => Fault(m, pieces[1..], regions)
    case Marked(_) =>
      if NameOf(m, pieces[0]) in regions then Fault(m, pieces[1..], regions) else Some(NoRegion(NameOf(m, pieces[0])))
    case Broken(_, e) => if NameOf(m, pieces[0]) in regions then Some(e) else Some(NoRegion(NameOf(m, pieces[0])))
  }

  /** A line stays; a block becomes its markers around a fenced copy of its region. */
  function Written(m: Markers, pieces: seq<Piece>, regions: Regions): Lines {
    if pieces == [] then [] else
    var p := pieces[0];
    var name := NameOf(m, p);
    (match p
     case Line(text) => [text]
     case Marked(_) =>
       if name in regions then [m.opening(name), "```go"] + TrimBlank(regions[name]) + ["```", m.closing(name)] else []
     case Broken(_, _) => [])
    + Written(m, pieces[1..], regions)
  }

  /** The names of the blocks. */
  function Names(m: Markers, pieces: seq<Piece>): set<string> {
    if pieces == [] then {}
    else if pieces[0].Marked? then {NameOf(m, pieces[0])} + Names(m, pieces[1..])
    else Names(m, pieces[1..])
  }

  // ------------------------------------------------------------ finding the end

  /** The search stops at the first end marker, which must have the name; these are all the
      answers it gives. */
  lemma {:induction false} FindEndIff(m: Markers, lines: Lines, name: string)
    ensures match FindEnd(m, lines, name)
            case Ok(k) => m.ends(lines[k]) == Some(name) && Unended(m, lines, 0, k)
            case Err(NotClosed(n)) => n == name && Unended(m, lines, 0, |lines|)
            case Err(WrongEnd(n)) =>
              n == name && exists k :: 0 <= k < |lines| && m.ends(lines[k]).Some? && m.ends(lines[k]) != Some(name)
                                       && Unended(m, lines, 0, k)
            case Err(_) => false
    decreases |lines|
  {
    if lines != [] && m.ends(lines[0]).None? {
      FindEndIff(m, lines[1..], name);
      if FindEnd(m, lines[1..], name) == Err(WrongEnd(name)) {
        var k :| 0 <= k < |lines[1..]| && m.ends(lines[1..][k]).Some? && m.ends(lines[1..][k]) != Some(name)
                 && Unended(m, lines[1..], 0, k);
        assert lines[k + 1] == lines[1..][k];
        UnendedNext(m, lines, k);
      } else if FindEnd(m, lines[1..], name).Ok? {
        UnendedNext(m, lines, FindEnd(m, lines[1..], name).value);
      } else {
        UnendedNext(m, lines, |lines| - 1);
      }
    }
  }

  lemma UnendedNext(m: Markers, lines: Lines, k: nat)
    requires lines != [] && m.ends(lines[0]).None?
    ensures Unended(m, lines[1..], 0, k) <==> Unended(m, lines, 0, k + 1)
  {
    assert forall j | 0 <= j < |lines| - 1 :: lines[1..][j] == lines[j + 1];
    if Unended(m, lines[1..], 0, k) {
      forall j | 0 <= j < k + 1 && j < |lines| ensures m.ends(lines[j]).None? {
        if j > 0 {
          assert m.ends(lines[1..][j - 1]).None?;
        }
      }
    }
  }

  lemma UnendedRest(m: Markers, lines: Lines, k: nat)
    requires lines != []
    ensures Unended(m, lines[1..], 0, k) <==> Unended(m, lines, 1, k + 1)
  {
    assert forall j | 0 <= j < |lines| - 1 :: lines[1..][j] == lines[j + 1];
    if Unended(m, lines[1..], 0, k) {
      forall j | 1 <= j < k + 1 && j < |lines| ensures m.ends(lines[j]).None? {
        assert m.ends(lines[1..][j - 1]).None?;
      }
    }
  }

  /** Where a block ends, seen from its begin marker. */
  lemma BlockEndsAt(m: Markers, lines: Lines, name: string, k: nat)
    requires 1 <= k && StopsAt(m, lines, k)
    ensures FindEnd(m, lines[1..], name) == if m.ends(lines[k]) == Some(name) then Ok(k - 1) else Err(WrongEnd(name))
  {
    FindEndIff(m, lines[1..], name);
    UnendedRest(m, lines, k - 1);
    assert m.ends(lines[1..][k - 1]).Some?;
  }

  lemma NeverEnds(m: Markers, lines: Lines, name: string)
    requires lines != [] && Unended(m, lines, 1, |lines|)
    ensures FindEnd(m, lines[1..], name) == Err(NotClosed(name))
  {
    FindEndIff(m, lines[1..], name);
    UnendedRest(m, lines, |lines| - 1);
  }

  // ------------------------------------------------------------ rendering is reading and writing

  /** Every text can be read as pieces. */
  lemma {:induction false} Parsed(m: Markers, lines: Lines) returns (pieces: seq<Piece>)
    ensures Parse(m, lines, pieces)
    decreases |lines|
  {
    if lines == [] {
      pieces := [];
    } else if m.begins(lines[0]).None? {
      var rest := Parsed(m, lines[1..]);
      pieces := [Line(lines[0])] + rest;
    } else {
      var name := m.begins(lines[0]).value;
      FindEndIff(m, lines[1..], name);
      match FindEnd(m, lines[1..], name)
      case Ok(k) =>
        UnendedRest(m, lines, k);
        var ls := lines[..k + 2];
        assert IsMarked(m, ls);
        var rest := Parsed(m, lines[k + 2..]);
        pieces := [Marked(ls)] + rest;
      case Err(e) =>
        FoundBroken(m, lines, e);
        pieces := [Broken(lines, e)];
    }
  }

  lemma FoundBroken(m: Markers, lines: Lines, e: Error)
    requires lines != [] && m.begins(lines[0]).Some?
    requires FindEnd(m, lines[1..], m.begins(lines[0]).value) == Err(e)
    ensures IsBroken(m, lines, e)
  {
    var name := m.begins(lines[0]).value;
    FindEndIff(m, lines[1..], name);
    if e.NotClosed? {
      UnendedRest(m, lines, |lines| - 1);
    } else {
      var k :| 0 <= k < |lines[1..]| && m.ends(lines[1..][k]).Some? && m.ends(lines[1..][k]) != Some(name)
               && Unended(m, lines[1..], 0, k);
      UnendedRest(m, lines, k);
      assert StopsAt(m, lines, k + 1);
    }
  }

  lemma BrokenFound(m: Markers, lines: Lines, e: Error)
    requires IsBroken(m, lines, e)
    ensures FindEnd(m, lines[1..], m.begins(lines[0]).value) == Err(e)
  {
    var name := m.begins(lines[0]).value;
    if e.NotClosed? {
      NeverEnds(m, lines, name);
    } else {
      var k :| 1 <= k < |lines| && StopsAt(m, lines, k) && m.ends(lines[k]) != Some(name);
      BlockEndsAt(m, lines, name, k);
    }
  }

  /**
   Rendering is reading the pieces and writing them: it fails with the first thing wrong,
   and otherwise gives every line as it was and every block anew, in order.
   */
  lemma {:induction false} RenderedByPieces(m: Markers, lines: Lines, regions: Regions, pieces: seq<Piece>)
    requires Parse(m, lines, pieces)
    ensures RenderLines(m, lines, regions)
         == match Fault(m, pieces, regions)
            case Some(e) => Err(e)
            case None => Ok(Rendered(Written(m, pieces, regions), Names(m, pieces)))
    decreases |pieces|
  {
    if pieces != [] {
      match pieces[0]
      case Line(_) => RenderedByPieces(m, lines[1..], regions, pieces[1..]);
      case Marked(ls) =>
        var k := |ls| - 1;
        assert ls == lines[..|ls|];
        assert StopsAt(m, lines, k);
        BlockEndsAt(m, lines, m.begins(ls[0]).value, k);
        RenderedByPieces(m, lines[|ls|..], regions, pieces[1..]);
      case Broken(ls, e) => BrokenFound(m, ls, e);
    }
  }
}
