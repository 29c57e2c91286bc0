/** Index stage: find or create the parse artifacts of one document with text. */
module ParseStage {
  import opened Basics
  import opened Text
  import opened Ordering
  import opened Documents
  import opened ArtifactIdentity
  import opened ChunkOwnership
  import opened Tables
  import opened StoredParses
  import opened StoreFrames
  import opened ParseStore
  import opened StoreInvariant
  import opened Readiness
  import opened Collaborators
  import opened Provenance

  /** Errors that escape the index service. */
  datatype Cause = ContentCollision | ParseCorrupt | ParseRejected | KeyRejected | VectorConflict

  /** The causes left over a sound store: a projection that cannot be saved, or a chunk
      configuration hash that is none. */
  predicate Expected(cause: Cause, snapshot: Snapshot) {
    cause == ParseRejected || (cause == KeyRejected && !IsSha256(snapshot.chunkConfigHash))
  }

  /** The store alone changed, by growing. */
  ghost predicate StoreStep(a: Database, b: Database) {
    b == a.(store := b.store) && Grown(a.store, b.store)
  }

  lemma StoreStepTransitive(a: Database, b: Database, c: Database)
    requires StoreStep(a, b) && StoreStep(b, c)
    ensures StoreStep(a, c)
  {
    GrownTransitive(a.store, b.store, c.store);
    hide Grown;
  }

  lemma NoStep(a: Database)
    ensures StoreStep(a, a)
  {
  }

  /** _valid_parse_artifacts */
  predicate ValidParseArtifacts(artifacts: ParseArtifacts, snapshot: Snapshot) {
    && artifacts.parserVersion == snapshot.parserVersion
    && artifacts.chunkConfigHash == snapshot.chunkConfigHash
    && artifacts.parsed.parserVersion == snapshot.parserVersion
    && |set i | 0 <= i < |artifacts.chunks| :: artifacts.chunks[i].id| == |artifacts.chunks|
  }

  /** Artifacts the repository returns always pass the service's own check. */
  lemma FoundIsValid(st: Store, snapshot: Snapshot, content: Uuid, artifacts: ParseArtifacts)
    requires FindParse(st, ParseKeyOf(snapshot, content)) == Found(artifacts)
    ensures ValidParseArtifacts(artifacts, snapshot)
    ensures artifacts.parserVersion == artifacts.parsed.parserVersion == snapshot.parserVersion
    ensures artifacts.chunkConfigHash == snapshot.chunkConfigHash
    ensures forall i, j :: 0 <= i < j < |artifacts.chunks| ==> artifacts.chunks[i].id != artifacts.chunks[j].id
  {
    hide ParseSound, OrderBy, Lists;
    var key := ParseKeyOf(snapshot, content);
    var ids := ChunkIds(st, key);
    OrderByLists(ChunkKeys(st, key));
    ListsDistinct(ids, ChunkKeys(st, key));
    assert (set i | 0 <= i < |artifacts.chunks| :: artifacts.chunks[i].id) == Elements(ids) by {
      assert |artifacts.chunks| == |ids|;
      assert forall i :: 0 <= i < |ids| ==> artifacts.chunks[i].id == ids[i];
    }
  }

  datatype ParseStep = Parsed(artifacts: ParseArtifacts) | ParseFails(code: FailureCode) | ParseRaises(cause: Cause)

  function ParseEnding(step: ParseStep): Ending {
    if step.ParseFails? then Bad(step.code)
    else if step == ParseRaises(ParseRejected) then Refused
    else Good
  }

  /** Chunks of every section, in section order, or an error; `parts` are the good answers. */
  method SplitAll(adapters: Adapters, parsed: ParsedMarkdown) returns (chunks: Option<seq<ChunkDraft>>, ghost parts: seq<Answer>)
    modifies adapters
    ensures Parts(parsed, parts)
    ensures chunks.Some? ==> ValidChunks(chunks.value) && Joined(parts) == chunks && |parts| == |parsed.sections|
    ensures chunks.Some? ==> adapters.log == old(adapters.log) + parts
    ensures chunks.None? ==> |parts| < |parsed.sections|
                             && adapters.log == old(adapters.log) + parts + [SplitAnswer(parsed.sections[|parts|], parsed.parserVersion, None)]
  {
    hide ValidChunk;
    var collected: seq<ChunkDraft> := [];
    parts := [];
    for i := 0 to |parsed.sections|
      invariant ValidChunks(collected) && Parts(parsed, parts) && |parts| == i && Joined(parts) == Some(collected)
      invariant adapters.log == old(adapters.log) + parts
    {
      var part := adapters.Split(parsed.sections[i], parsed.parserVersion);
      if part.None? { return None, parts; }
      ghost var answer := SplitAnswer(parsed.sections[i], parsed.parserVersion, part);
      assert (parts + [answer])[..|parts|] == parts;
      collected, parts := collected + part.value, parts + [answer];
    }
    return Some(collected), parts;
  }

  /** What a projection leaves in the log. */
  function ProjectEnding(projection: Result<(ParsedMarkdown, seq<ChunkDraft>), FailureCode>): Ending {
    match projection
    case Err(code) => Bad(code)
    case Ok(value) => if Persistable(value.0, value.1) then Good else Refused
  }

  /** parse and split: what would be saved, or the failure. */
  method Project(adapters: Adapters, snapshot: Snapshot, text: string)
    returns (projection: Result<(ParsedMarkdown, seq<ChunkDraft>), FailureCode>)
    modifies adapters
    ensures projection.Ok? ==> ValidParsedMarkdown(projection.value.0) && ValidChunks(projection.value.1)
    ensures projection.Ok? ==> projection.value.0.parserVersion == snapshot.parserVersion
    ensures Logged(old(adapters.log), adapters.log, snapshot, ProjectEnding(projection), [])
    ensures projection.Ok? ==> Projects(Since(old(adapters.log), adapters.log), 0, text, projection.value.0, projection.value.1)
  {
    hide Logged, ValidParsedMarkdown, ValidChunks, Persistable, Joined, Parts, Projects;
    ghost var before := adapters.log;
    var parsed := adapters.Parse(text);
    if parsed.None? || parsed.value.parserVersion != snapshot.parserVersion {
      LoggedParse(before, text, parsed, snapshot);
      return Err(if parsed.None? then ParseFailure else InvariantFailure);
    }
    var chunks;
    ghost var parts;
    chunks, parts := SplitAll(adapters, parsed.value);
    ghost var calls := CallsOf(text, parsed.value, parts);
    if chunks.None? {
      ghost var last := SplitAnswer(parsed.value.sections[|parts|], parsed.value.parserVersion, None);
      assert adapters.log == before + calls + [last];
      LoggedSplit(before, text, parsed.value, parts, last, snapshot);
      return Err(ParseFailure);
    }
    assert adapters.log == before + calls;
    assert Since(before, before + calls) == calls;
    LoggedProjection(before, text, parsed.value, parts, chunks.value, snapshot);
    return Ok((parsed.value, chunks.value));
  }

  /** A new key is rejected just for the projection. */
  lemma RejectsExactly(st: Store, key: ParseKey, parsed: ParsedMarkdown, chunks: seq<ChunkDraft>)
    requires FindParse(st, key) == Missing && key.content in st.contents && parsed.parserVersion == key.parserVersion
    ensures Decide(st, key, parsed, chunks).Reject? <==> !Persistable(parsed, chunks)
  {
    hide OwnersOf, ManifestOf, ParseSound;
  }

  method CreateArtifacts(session: Session, adapters: Adapters, snapshot: Snapshot, content: Uuid, text: string) returns (step: ParseStep)
    requires session.Sound() && content in session.db.store.contents
    requires session.db.store.contents[content].text == text && !Blank(text)
    requires FindParse(session.db.store, ParseKeyOf(snapshot, content)) == Missing
    modifies session, adapters
    ensures session.Sound() && StoreStep(old(session.db), session.db)
    ensures step.Parsed? ==> FindParse(session.db.store, ParseKeyOf(snapshot, content)) == Found(step.artifacts)
    ensures step.ParseRaises? ==> step.cause == ParseRejected
    ensures Logged(old(adapters.log), adapters.log, snapshot, ParseEnding(step), [])
    ensures step.Parsed? ==> ParsesFrom(old(session.db.store), session.db.store, Since(old(adapters.log), adapters.log))
  {
    hide Logged, Persistable, FindParse, ValidParsedMarkdown, ValidChunks, StoreStep, Projects, StoredAs, ParsesFrom;
    var key := ParseKeyOf(snapshot, content);
    ghost var before := session.db;
    NoStep(session.db);
    var projection := Project(adapters, snapshot, text);
    if projection.Err? { return ParseFails(projection.error); }
    var saved := SaveNew(session, key, projection.value.0, projection.value.1);
    if saved.Some? {
      SavedFrom(before, session.db, key, text, Since(old(adapters.log), adapters.log), projection.value.0, projection.value.1);
    }
    return if saved.None? then ParseRaises(ParseRejected) else Parsed(saved.value);
  }

  /** The one new parse is the projection of its content's text. */
  lemma SavedFrom(a: Database, b: Database, key: ParseKey, text: string, answers: seq<Answer>, parsed: ParsedMarkdown, chunks: seq<ChunkDraft>)
    requires StoreStep(a, b) && b.store.parses.Keys <= a.store.parses.Keys + {key}
    requires key.content in a.store.contents && a.store.contents[key.content].text == text
    requires Projects(answers, 0, text, parsed, chunks) && StoredAs(b.store, key, parsed, chunks)
    ensures ParsesFrom(a.store, b.store, answers)
  {
    hide Projects, StoredAs, StoreSound;
    assert b.store.contents[key.content] == a.store.contents[key.content];
  }

  /** save_parse under a new key. */
  method SaveNew(session: Session, key: ParseKey, parsed: ParsedMarkdown, chunks: seq<ChunkDraft>) returns (saved: Option<ParseArtifacts>)
    requires session.Sound() && ValidParsedMarkdown(parsed) && ValidChunks(chunks) && parsed.parserVersion == key.parserVersion
    requires key.content in session.db.store.contents && !Blank(session.db.store.contents[key.content].text)
    requires FindParse(session.db.store, key) == Missing
    modifies session
    ensures session.Sound() && StoreStep(old(session.db), session.db)
    ensures saved.Some? <==> Persistable(parsed, chunks)
    ensures saved.Some? ==> FindParse(session.db.store, key) == Found(saved.value)
    ensures saved.Some? ==> StoredAs(session.db.store, key, parsed, chunks) && session.db.store.parses.Keys <= old(session.db.store.parses.Keys) + {key}
  {
    hide FindParse, Persistable, ValidParsedMarkdown, ValidChunks, StoreStep, ParseCreated, OwnersOf, ManifestOf;
    ghost var before := session.db;
    NoStep(before);
    RejectsExactly(before.store, key, parsed, chunks);
    NeverReused(before.store, key, parsed, chunks);
    saved := SaveParse(session, key, parsed, chunks);
    ghost var decision := Decide(before.store, key, parsed, chunks);
    if decision.Create? {
      CreatedIsStep(before, session.db, key, decision.manifest);
      CreatedKeys(before, session.db, key, decision.manifest);
    }
  }

  lemma CreatedIsStep(a: Database, b: Database, key: ParseKey, manifest: Manifest)
    requires Schema(a) && ParseCreated(a, b, key, manifest) && FindParse(b.store, key).Found?
    requires key.content in a.store.contents && !Blank(a.store.contents[key.content].text)
    ensures StoreStep(a, b)
  {
    hide Grown;
    ParseCreatedGrows(a, b, key, manifest);
  }

  lemma CreatedKeys(a: Database, b: Database, key: ParseKey, manifest: Manifest)
    requires ParseCreated(a, b, key, manifest)
    ensures b.store.parses.Keys == a.store.parses.Keys + {key}
  {
  }

  lemma NothingParsed(st: Store, answers: seq<Answer>)
    ensures ParsesFrom(st, st, answers)
  {
  }

  lemma NeverReused(st: Store, key: ParseKey, parsed: ParsedMarkdown, chunks: seq<ChunkDraft>)
    requires FindParse(st, key) == Missing
    ensures !Decide(st, key, parsed, chunks).Reuse?
  {
    hide OwnersOf, ManifestOf, ParseSound;
  }

  lemma SoundIsNotCorrupt(st: Store, key: ParseKey)
    requires StoreSound(st)
    ensures FindParse(st, key).Corrupt? ==> !IsSha256(key.chunkConfigHash)
  {
    assert ParsesSound(st);
    hide ParseSound;
  }

  /** find_parse, else parse, chunk and save. */
  method FindOrCreate(session: Session, adapters: Adapters, snapshot: Snapshot, content: Uuid, text: string) returns (step: ParseStep)
    requires session.Sound() && content in session.db.store.contents
    requires session.db.store.contents[content].text == text && !Blank(text)
    modifies session, adapters
    ensures session.Sound() && StoreStep(old(session.db), session.db)
    ensures step.Parsed? ==> FindParse(session.db.store, ParseKeyOf(snapshot, content)) == Found(step.artifacts)
    ensures step.ParseRaises? && StoreSound(old(session.db.store)) ==> Expected(step.cause, snapshot)
    ensures Logged(old(adapters.log), adapters.log, snapshot, ParseEnding(step), [])
    ensures step.Parsed? ==> ParsesFrom(old(session.db.store), session.db.store, Since(old(adapters.log), adapters.log))
  {
    hide FindParse, Grown, StoreSound, Logged, Schema, ParsesFrom;
    NothingParsed(session.db.store, Since(adapters.log, adapters.log));
    var key := ParseKeyOf(snapshot, content);
    NoStep(session.db);
    NothingLogged(adapters.log, snapshot);
    if StoreSound(session.db.store) { SoundIsNotCorrupt(session.db.store, key); }
    match FindParse(session.db.store, key) {
      case Corrupt => return ParseRaises(if IsSha256(snapshot.chunkConfigHash) then ParseCorrupt else KeyRejected);
      case Found(artifacts) => return Parsed(artifacts);
      case Missing => step := CreateArtifacts(session, adapters, snapshot, content, text);
    }
  }

  /** The artifacts of a document, found or built and checked.  With a sound store the only
      errors that can escape are the rejection of the projection the parser and chunker
      answered, and that of the configuration hash. */
  method ObtainParse(session: Session, adapters: Adapters, snapshot: Snapshot, content: Uuid, text: string) returns (step: ParseStep)
    requires session.Sound() && content in session.db.store.contents
    requires session.db.store.contents[content].text == text && !Blank(text)
    modifies session, adapters
    ensures session.Sound() && StoreStep(old(session.db), session.db)
    ensures step.Parsed? ==> FindParse(session.db.store, ParseKeyOf(snapshot, content)) == Found(step.artifacts)
    ensures step.ParseRaises? && StoreSound(old(session.db.store)) ==> Expected(step.cause, snapshot)
    ensures Logged(old(adapters.log), adapters.log, snapshot, ParseEnding(step), [])
    ensures step.Parsed? ==> ParsesFrom(old(session.db.store), session.db.store, Since(old(adapters.log), adapters.log))
  {
    hide FindParse, Grown, StoreSound, Logged, ValidParseArtifacts, Schema, StoreStep, ParsesFrom;
    step := FindOrCreate(session, adapters, snapshot, content, text);
    if step.Parsed? {
      FoundIsValid(session.db.store, snapshot, content, step.artifacts);
      step := if ValidParseArtifacts(step.artifacts, snapshot) then step else ParseFails(InvariantFailure);
    }
  }
}
