/**
 The text part of cmd/readmegen: code regions of the example files are written between
 markers of a README. Works on lines; a region is the list of its lines.
 */
module ReadmeGen {
  import opened Prelude
  import opened Text

  const MARKER_BEGIN: string := "<!-- example: "
  const MARKER_END: string := "<!-- /example: "
  const MARKER_CLOSE: string := " -->"
  const FENCE_GO: string := "```go"
  const FENCE: string := "```"

  type Lines = seq<string>

  type Regions = map<string, Lines>

  datatype Error = NoRegion(name: string) | WrongEnd(name: string) | NotClosed(name: string) | Unmanaged | Unused

  datatype Result<T> = Ok(value: T) | Err(error: Error)

  predicate HasSuffix(s: string, suffix: string) {
    |s| >= |suffix| && s[|s| - |suffix|..] == suffix
  }

  function TrimSuffix(s: string, suffix: string): string {
    if HasSuffix(s, suffix) then s[..|s| - |suffix|] else s
  }

  /** The name in a marker, if a trimmed line is one. */
  function MarkerName(line: string, prefix: string): Option<string> {
    if prefix <= line && HasSuffix(line, MARKER_CLOSE) then
      Some(Trim(TrimSuffix(line[|prefix|..], MARKER_CLOSE)))
    else None
  }

  /** How begin and end markers are read from a line, and written. */
  datatype Markers = Markers(
    begins: string -> Option<string>,
    ends: string -> Option<string>,
    opening: string -> string,
    closing: string -> string)

  function ReadBegin(line: string): Option<string> {
    MarkerName(Trim(line), MARKER_BEGIN)
  }

  function ReadEnd(line: string): Option<string> {
    MarkerName(Trim(line), MARKER_END)
  }

  function WriteBegin(name: string): string {
    MARKER_BEGIN + name + MARKER_CLOSE
  }

  function WriteEnd(name: string): string {
    MARKER_END + name + MARKER_CLOSE
  }

  const README: Markers := Markers(ReadBegin, ReadEnd, WriteBegin, WriteEnd)

  predicate Blank(line: string) {
    Trim(line) == ""
  }

  /** Drop blank lines at both ends. */
  function TrimBlank(lines: Lines): Lines {
    TrimBlankEnd(TrimBlankStart(lines))
  }

  function TrimBlankStart(lines: Lines): Lines {
    if lines != [] && Blank(lines[0]) then TrimBlankStart(lines[1..]) else lines
  }

  function TrimBlankEnd(lines: Lines): Lines {
    if lines != [] && Blank(lines[|lines| - 1]) then TrimBlankEnd(lines[..|lines| - 1]) else lines
  }

  /** Where the first end marker is; it must carry the name of the begin marker. */
  function FindEnd(m: Markers, lines: Lines, name: string): (r: Result<nat>)
    ensures r.Ok? ==> r.value < |lines|
    decreases |lines|
  {
    if lines == [] then Err(NotClosed(name))
    else if m.ends(lines[0]).Some? then
      if m.ends(lines[0]).value == name then Ok(0) else Err(WrongEnd(name))
    else
      match FindEnd(m, lines[1..], name)
      case Ok(k) => Ok(k + 1)
      case Err(e) => Err(e)
  }

  function Block(m: Markers, name: string, body: Lines): Lines {
    [m.opening(name), FENCE_GO] + body + [FENCE, m.closing(name)]
  }

  datatype Rendered = Rendered(out: Lines, used: set<string>)

  /** The loop of render: lines pass, marked blocks are written anew. */
  function RenderLines(m: Markers, lines: Lines, regions: Regions): Result<Rendered>
    decreases |lines|
  {
    if lines == [] then Ok(Rendered([], {}))
    else if m.begins(lines[0]).None? then
      match RenderLines(m, lines[1..], regions)
      case Ok(r) => Ok(Rendered([lines[0]] + r.out, r.used))
      case Err(e) => Err(e)
    else
      var name := m.begins(lines[0]).value;
      if name !in regions then Err(NoRegion(name)) else
      match FindEnd(m, lines[1..], name)
      case Err(e) => Err(e)
      case Ok(k) =>
        match RenderLines(m, lines[k + 2..], regions)
        case Ok(r) => Ok(Rendered(Block(m, name, TrimBlank(regions[name])) + r.out, {name} + r.used))
        case Err(e) => Err(e)
  }

  /** The last line before i that is neither blank nor the opening of a go block, trimmed. */
  function Before(lines: Lines, i: nat): string
    requires i <= |lines|
  {
    if i == 0 then ""
    else if Blank(lines[i - 1]) || Trim(lines[i - 1]) == FENCE_GO then Before(lines, i - 1)
    else Trim(lines[i - 1])
  }

  /** Every go block comes right after a begin marker. */
  predicate Managed(m: Markers, lines: Lines) {
    forall i | 0 <= i < |lines| && Trim(lines[i]) == FENCE_GO :: m.begins(Before(lines, i)).Some?
  }

  function Render(m: Markers, src: string, regions: Regions): Result<string> {
    match RenderLines(m, Split(src), regions)
    case Err(e) => Err(e)
    case Ok(r) =>
      var text := Join(r.out);
      if !Managed(m, Split(text)) then Err(Unmanaged)
      else if !(regions.Keys <= r.used) then Err(Unused)
      else Ok(text)
  }

  /** What becomes of a README file: nothing, or a new text to write (or, when checking, to
      complain about). */
  datatype Sync = UpToDate | Stale(text: string) | Failed(error: Error)

  /** syncFile: work on line feeds, restore the file's line endings. */
  function SyncFile(m: Markers, data: string, regions: Regions): Sync {
    match Render(m, ToLF(data), regions)
    case Err(e) => Failed(e)
    case Ok(rendered) =>
      var text := WithEndings(data, rendered);
      if text == data then UpToDate else Stale(text)
  }

  /** The rendered text with the line endings of the file. */
  function WithEndings(data: string, rendered: string): string {
    if HasCRLF(data) then ToCRLF(rendered) else rendered
  }
}
