/** The markers of a README are read back as they are written. */
module ReadmeMarkers {
  import opened Prelude
  import opened Text
  import opened ReadmeGen
  import opened ReadmeBlocks
  import opened ReadmeLaws

  lemma MarkerWritten(prefix: string, name: string)
    requires prefix == MARKER_BEGIN || prefix == MARKER_END
    requires Tight(name)
    ensures MarkerName(Trim(prefix + name + MARKER_CLOSE), prefix) == Some(name)
  {
    var line := prefix + name + MARKER_CLOSE;
    assert line[0] == '<' && line[|line| - 1] == '>';
    TrimTight(line);
    assert line[|prefix|..] == name + MARKER_CLOSE;
    assert line[|line| - |MARKER_CLOSE|..] == MARKER_CLOSE;
    NameCut(name);
    TrimTight(name);
  }

  lemma NameCut(name: string)
    ensures TrimSuffix(name + MARKER_CLOSE, MARKER_CLOSE) == name
  {
    var s := name + MARKER_CLOSE;
    assert s[|s| - |MARKER_CLOSE|..] == MARKER_CLOSE;
    assert s[..|name|] == name;
  }

  lemma OneMarkerOnly(line: string)
    requires MarkerName(line, MARKER_BEGIN).Some?
    ensures MarkerName(line, MARKER_END).None?
  {
    assert line[5] == MARKER_BEGIN[5] == 'e';
    assert MARKER_END[5] == '/';
  }

  lemma NameTight(line: string, prefix: string)
    ensures MarkerName(line, prefix).Some? ==> Tight(MarkerName(line, prefix).value)
  {
    if MarkerName(line, prefix).Some? {
      TrimTight(TrimSuffix(line[|prefix|..], MARKER_CLOSE));
    }
  }

  lemma FenceIsNoMarker(fence: string)
    requires fence == FENCE_GO || fence == FENCE
    ensures MarkerName(Trim(fence), MARKER_END).None?
  {
    TrimTight(fence);
    assert fence[0] == '`' && MARKER_END[0] == '<';
  }

  lemma ReadmeSane()
    ensures Sane(README)
  {
    forall name | Tight(name)
      ensures README.begins(README.opening(name)) == Some(name) && README.ends(README.closing(name)) == Some(name)
    {
      ReadBack(name);
    }
    forall line | README.begins(line).Some? ensures Tight(README.begins(line).value) && README.ends(line).None? {
      ReadOne(line);
    }
    FencesRead();
  }

  lemma ReadBack(name: string)
    requires Tight(name)
    ensures README.begins(README.opening(name)) == Some(name) && README.ends(README.closing(name)) == Some(name)
  {
    MarkerWritten(MARKER_BEGIN, name);
    MarkerWritten(MARKER_END, name);
  }

  lemma ReadOne(line: string)
    requires README.begins(line).Some?
    ensures Tight(README.begins(line).value) && README.ends(line).None?
  {
    NameTight(Trim(line), MARKER_BEGIN);
    OneMarkerOnly(Trim(line));
  }

  lemma FencesRead()
    ensures README.ends(FENCE_GO) == None && README.ends(FENCE) == None
  {
    FenceIsNoMarker(FENCE_GO);
    FenceIsNoMarker(FENCE);
  }

  lemma NamePlain(line: string, prefix: string)
    requires Plain(line) && MarkerName(Trim(line), prefix).Some?
    ensures Plain(MarkerName(Trim(line), prefix).value)
  {
    TrimPlain(line);
    var rest := Trim(line)[|prefix|..];
    assert forall c | c in rest :: c in Trim(line);
    assert forall c | c in TrimSuffix(rest, MARKER_CLOSE) :: c in rest;
    TrimPlain(TrimSuffix(rest, MARKER_CLOSE));
  }

  lemma PartsPlain()
    ensures Plain(MARKER_BEGIN) && Plain(MARKER_END) && Plain(MARKER_CLOSE)
  {
  }

  lemma ReadmePlain()
    ensures PlainMarkers(README)
  {
    forall line | Plain(line) && README.begins(line).Some? ensures Plain(README.begins(line).value) {
      NamePlain(line, MARKER_BEGIN);
    }
    forall name | Plain(name) ensures Plain(README.opening(name)) && Plain(README.closing(name)) {
      PartsPlain();
    }
  }

  // ------------------------------------------------------------ the promises

  /** Rendering a README again changes nothing, exactly if no region contains a line that
      reads as an end marker; and then lines outside the markers are as they were. */
  lemma RenderTwiceIff(src: string, regions: Regions)
    requires PlainRegions(regions) && '\r' !in src && Render(README, src, regions).Ok?
    ensures var text := Render(README, src, regions).value;
            && (Render(README, text, regions) == Ok(text) <==> CleanRegions(README, regions))
            && (CleanRegions(README, regions) ==> Outside(README, Split(text)) == Outside(README, Split(src)))
  {
    ReadmeSane();
    ReadmePlain();
    RenderFixpointIff(README, src, regions);
    if CleanRegions(README, regions) {
      OutsideUnchanged(README, src, regions);
    }
  }

  /** A check right after a write reports no difference, for a file of either line ending or
      of both, exactly if no region contains a line that reads as an end marker. */
  lemma CheckAfterWriteIff(data: string, regions: Regions)
    requires PlainRegions(regions) && SyncFile(README, data, regions).Stale?
    ensures var text := SyncFile(README, data, regions).text;
            SyncFile(README, text, regions) == UpToDate <==> CleanRegions(README, regions)
  {
    ReadmeSane();
    ReadmePlain();
    SyncFixpointIff(README, data, regions);
  }
}
