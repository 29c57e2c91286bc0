/** The migration's own copy of the manifest algorithm, over raw joined rows, proved
    to agree with the application's constructors followed by its manifest. */
module FrozenManifest {
  import opened Basics
  import opened Text
  import opened Documents
  import opened ArtifactIdentity

  datatype SectionFields = SectionFields(
    ordinal: int, parentOrdinal: Option<int>, level: int, heading: Option<string>, headingPath: seq<string>,
    body: string, lineStart: int, lineEnd: int)

  datatype ChunkFields = ChunkFields(
    sectionOrdinal: int, ordinal: int, rawText: string, searchText: string, tokenCount: int,
    lineStart: int, lineEnd: int, chunkHash: string)

  function ToSection(f: SectionFields): Section {
    Section(f.ordinal, f.parentOrdinal, f.level, f.heading, f.headingPath, f.body, f.lineStart, f.lineEnd, [])
  }

  function ToDraft(f: ChunkFields): ChunkDraft {
    ChunkDraft(f.ordinal, f.rawText, f.searchText, f.tokenCount, f.lineStart, f.lineEnd, f.chunkHash, [])
  }

  function ToSections(rows: seq<SectionFields>): seq<Section> {
    seq(|rows|, i requires 0 <= i < |rows| => ToSection(rows[i]))
  }

  function ToDrafts(rows: seq<ChunkFields>): seq<ChunkDraft> {
    seq(|rows|, i requires 0 <= i < |rows| => ToDraft(rows[i]))
  }

  function Owners(rows: seq<ChunkFields>): seq<int> {
    seq(|rows|, i requires 0 <= i < |rows| => rows[i].sectionOrdinal)
  }

  /** The application's reading of the same rows: construct every value, then take
      the manifest. */
  function ApplicationManifest(sections: seq<SectionFields>, chunks: seq<ChunkFields>): Option<Manifest> {
    if ValidSections(ToSections(sections)) && ValidChunks(ToDrafts(chunks))
    then ManifestOf(ToSections(sections), ToDrafts(chunks), Owners(chunks))
    else None
  }

  method CheckSections(sections: seq<SectionFields>) returns (accepted: bool)
    ensures accepted <==> ValidSections(ToSections(sections)) && Sequential(ToSections(sections))
  {
    var typed := ToSections(sections);
    for expected := 0 to |sections|
      invariant forall j :: 0 <= j < expected ==> ValidSection(typed[j]) && typed[j].ordinal == j
    {
      var s := sections[expected];
      assert typed[expected] == ToSection(s);
      if s.ordinal != expected { return false; }
      if s.parentOrdinal.Some? && (s.parentOrdinal.value < 0 || s.parentOrdinal.value >= expected) {
        assert !ValidSection(typed[expected]);
        return false;
      }
      if !(0 <= s.level <= 6) || s.lineStart < 1 || s.lineEnd < s.lineStart {
        assert !ValidSection(typed[expected]);
        return false;
      }
      if s.level == 0 {
        if s.heading.Some? || s.headingPath != [] {
          assert !ValidSection(typed[expected]);
          return false;
        }
      } else if s.heading.None? || s.headingPath == [] || s.headingPath[|s.headingPath| - 1] != s.heading.value {
        assert !ValidSection(typed[expected]);
        return false;
      }
    }
    return true;
  }

  predicate FrozenChunkFields(c: ChunkFields) {
    && c.rawText != "" && c.searchText != "" && c.tokenCount > 0
    && c.lineStart >= 1 && c.lineEnd >= c.lineStart
    && |c.chunkHash| == 64 && forall i :: 0 <= i < |c.chunkHash| ==> c.chunkHash[i] in "0123456789abcdef"
  }

  lemma FrozenChunkIsValid(c: ChunkFields)
    requires 0 <= c.ordinal
    ensures FrozenChunkFields(c) <==> ValidChunk(ToDraft(c))
  {
    forall ch: char ensures ch in "0123456789abcdef" <==> IsLowerHex(ch) {
      HexDigits(ch);
    }
  }

  lemma HexDigits(c: char)
    ensures c in "0123456789abcdef" <==> IsLowerHex(c)
  {
    var digits := "0123456789abcdef";
    if IsLowerHex(c) {
      var i := if c <= '9' then c as int - '0' as int else 10 + c as int - 'a' as int;
      assert digits[i] == c;
    }
  }

  method CountChunks(sections: seq<SectionFields>, chunks: seq<ChunkFields>)
    returns (accepted: bool, counts: seq<nat>)
    requires sections != []
    ensures !accepted ==> !ValidChunks(ToDrafts(chunks)) || !Coherent(ToSections(sections), ToDrafts(chunks), Owners(chunks))
    ensures accepted ==> |counts| == |sections| && ValidChunks(ToDrafts(chunks))
    ensures accepted ==> (forall k :: 0 <= k < |chunks| ==> 0 <= Owners(chunks)[k] < |sections|) && Sorted(Owners(chunks))
    ensures accepted ==> forall i :: 0 <= i < |sections| ==>
              var ordinals := OrdinalsOf(ToDrafts(chunks), Owners(chunks), i);
              Counting(ordinals) && counts[i] == |ordinals|
  {
    ghost var drafts, owners := ToDrafts(chunks), Owners(chunks);
    counts := seq(|sections|, _ => 0);
    var previous := -1;
    var expected: nat := 0;
    for k := 0 to |chunks|
      invariant |counts| == |sections|
      invariant Walked(drafts, owners, k, counts, previous, expected)
      invariant forall j :: 0 <= j < k ==> ValidChunk(drafts[j])
    {
      var chunk := chunks[k];
      assert drafts[k] == ToDraft(chunk) && owners[k] == chunk.sectionOrdinal;
      var owner := chunk.sectionOrdinal;
      if owner < 0 || owner >= |sections| || owner < previous {
        WalkReject(ToSections(sections), drafts, owners, k, counts, previous, expected);
        return false, counts;
      }
      ghost var counted := expected;
      if owner != previous { expected := 0; }
      if chunk.ordinal != expected {
        WalkReject(ToSections(sections), drafts, owners, k, counts, previous, counted);
        return false, counts;
      }
      FrozenChunkIsValid(chunk);
      if !FrozenChunkFields(chunk) { return false, counts; }
      WalkStep(drafts, owners, k, counts, previous, counted);
      counts := counts[owner := counts[owner] + 1];
      previous := owner;
      expected := expected + 1;
    }
    assert drafts[..|chunks|] == drafts && owners[..|chunks|] == owners;
    accepted := true;
  }

  /** list(sections) and list(chunks): the rows' own fields, by name. */
  function FrozenPayload(sections: seq<SectionFields>, chunks: seq<ChunkFields>): Payload {
    Payload(
      seq(|sections|, i requires 0 <= i < |sections| =>
        Section(ordinal := sections[i].ordinal, parent := sections[i].parentOrdinal, level := sections[i].level,
                heading := sections[i].heading, headingPath := sections[i].headingPath, body := sections[i].body,
                lineStart := sections[i].lineStart, lineEnd := sections[i].lineEnd, blocks := [])),
      seq(|chunks|, k requires 0 <= k < |chunks| =>
        ChunkPayload(chunks[k].sectionOrdinal,
                     ChunkDraft(ordinal := chunks[k].ordinal, rawText := chunks[k].rawText, searchText := chunks[k].searchText,
                                tokenCount := chunks[k].tokenCount, lineStart := chunks[k].lineStart, lineEnd := chunks[k].lineEnd,
                                chunkHash := chunks[k].chunkHash, warnings := []))))
  }

  /** _frozen_artifact_manifest accepts exactly what the application accepts and
      returns the same counts and payload digest. */
  method FrozenArtifactManifest(sections: seq<SectionFields>, chunks: seq<ChunkFields>)
    returns (manifest: Option<Manifest>)
    ensures manifest == ApplicationManifest(sections, chunks)
  {
    if sections == [] { return None; }
    var sectionsAccepted := CheckSections(sections);
    if !sectionsAccepted { return None; }
    var accepted, counts := CountChunks(sections, chunks);
    if !accepted { return None; }
    ghost var typed, drafts, owners := ToSections(sections), ToDrafts(chunks), Owners(chunks);
    for i := 0 to |sections|
      invariant forall j :: 0 <= j < i ==> (Blank(sections[j].body) <==> counts[j] == 0)
    {
      if Blank(sections[i].body) != (counts[i] == 0) {
        assert Blank(typed[i].body) != (OrdinalsOf(drafts, owners, i) == []);
        return None;
      }
    }
    assert Coherent(typed, drafts, owners);
    assert StoredSections(typed) == typed;
    var payload := FrozenPayload(sections, chunks);
    assert payload.sections == typed;
    assert payload.chunks == ChunkPayloads(drafts, owners);
    return Some(Manifest(|sections|, |chunks|, Sha256OfJson(payload)));
  }
}
