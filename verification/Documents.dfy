/** The immutable values exchanged between parser, chunker and store, with the
    checks their constructors make. */
module Documents {
  import opened Basics
  import opened Text

  datatype Block = Block(kind: string, rawText: string, lineStart: int, lineEnd: int, children: seq<Block>)

  datatype Section = Section(
    ordinal: int, parent: Option<int>, level: int, heading: Option<string>, headingPath: seq<string>,
    body: string, lineStart: int, lineEnd: int, blocks: seq<Block>)

  datatype ParsedMarkdown = ParsedMarkdown(parserVersion: string, sections: seq<Section>)

  datatype Warning = Warning(blockKind: string, lineStart: int, lineEnd: int)

  datatype ChunkDraft = ChunkDraft(
    ordinal: int, rawText: string, searchText: string, tokenCount: int,
    lineStart: int, lineEnd: int, chunkHash: string, warnings: seq<Warning>)

  predicate LineRange(lineStart: int, lineEnd: int) {
    1 <= lineStart <= lineEnd
  }

  predicate ValidBlock(b: Block) {
    && b.kind != ""
    && LineRange(b.lineStart, b.lineEnd)
    && forall i :: 0 <= i < |b.children| ==>
         && ValidBlock(b.children[i])
         && b.lineStart <= b.children[i].lineStart && b.children[i].lineEnd <= b.lineEnd
  }

  predicate ValidSection(s: Section) {
    && 0 <= s.ordinal
    && (s.parent.Some? ==> 0 <= s.parent.value < s.ordinal)
    && 0 <= s.level <= 6
    && (if s.level == 0
        then s.heading.None? && s.headingPath == []
        else s.heading.Some? && s.headingPath != [] && s.headingPath[|s.headingPath| - 1] == s.heading.value)
    && LineRange(s.lineStart, s.lineEnd)
    && forall i :: 0 <= i < |s.blocks| ==>
         && ValidBlock(s.blocks[i])
         && s.lineStart <= s.blocks[i].lineStart && s.blocks[i].lineEnd <= s.lineEnd
  }

  predicate Sequential(sections: seq<Section>) {
    forall i :: 0 <= i < |sections| ==> sections[i].ordinal == i
  }

  predicate ValidSections(sections: seq<Section>) {
    forall i :: 0 <= i < |sections| ==> ValidSection(sections[i])
  }

  predicate ValidParsedMarkdown(p: ParsedMarkdown) {
    p.parserVersion != "" && ValidSections(p.sections) && Sequential(p.sections)
  }

  predicate ValidChunk(c: ChunkDraft) {
    && 0 <= c.ordinal
    && c.rawText != "" && c.searchText != "" && 0 < c.tokenCount
    && LineRange(c.lineStart, c.lineEnd)
    && IsSha256(c.chunkHash)
    && forall i :: 0 <= i < |c.warnings| ==>
         c.warnings[i].blockKind != "" && LineRange(c.warnings[i].lineStart, c.warnings[i].lineEnd)
  }

  predicate ValidChunks(chunks: seq<ChunkDraft>) {
    forall i :: 0 <= i < |chunks| ==> ValidChunk(chunks[i])
  }

  /** What a stored section or chunk keeps: transient parser blocks and chunker
      warnings are not persisted. */
  function StoredForm(s: Section): Section { s.(blocks := []) }

  function StoredSections(sections: seq<Section>): seq<Section> {
    seq(|sections|, i requires 0 <= i < |sections| => StoredForm(sections[i]))
  }

  function StoredDraft(c: ChunkDraft): ChunkDraft { c.(warnings := []) }

  function StoredDrafts(chunks: seq<ChunkDraft>): seq<ChunkDraft> {
    seq(|chunks|, i requires 0 <= i < |chunks| => StoredDraft(chunks[i]))
  }
}
