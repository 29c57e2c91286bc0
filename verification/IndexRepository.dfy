/** Run, content and occurrence rows of one bound source and configuration. */
module IndexRepository {
  import opened Basics
  import opened Text
  import opened Tables
  import opened StoreFrames
  import opened StoreInvariant
  import opened ArtifactInserts

  /** The identities a repository and service are bound to. */
  datatype Binding = Binding(source: Uuid, config: Uuid, snapshot: Snapshot)

  datatype IndexResult = IndexResult(run: Uuid, status: Status, stats: Stats)

  /** Everything but the run's own occurrences and the shared store is as before. */
  ghost predicate BuildFrame(a: Database, b: Database, run: Uuid) {
    && b == a.(occurrences := b.occurrences, store := b.store)
    && Extends(a.store, b.store)
    && (forall key: OccurrenceKey :: key.run != run ==> (key in a.occurrences <==> key in b.occurrences))
    && (forall key: OccurrenceKey :: key.run != run && key in a.occurrences ==> b.occurrences[key] == a.occurrences[key])
  }

  lemma BuildFrameTransitive(a: Database, b: Database, c: Database, run: Uuid)
    requires BuildFrame(a, b, run) && BuildFrame(b, c, run)
    ensures BuildFrame(a, c, run)
  {
    ExtendsTransitive(a.store, b.store, c.store);
    hide Extends;
  }

  // ---------------------------------------------------------------- runs

  predicate IsCommitSha(commit: string) {
    |commit| == 40 && forall i :: 0 <= i < |commit| ==> IsLowerHex(commit[i])
  }

  function NewRun(binding: Binding, commit: string): Run {
    Run(binding.source, binding.config, commit, Building, None, None)
  }

  lemma PutRunSchema(db: Database, id: Uuid, run: Run)
    requires Schema(db) && run.source in db.sources && run.config in db.configs
    requires run.status.Building? || run.status.Ready? || run.status.Failed?
    requires id in db.runs ==> !NeedsActivation(db.runs[id].status) && db.runs[id].source == run.source
    ensures Schema(db.(runs := db.runs[id := run]))
  {
    hide StoreSchema;
    var runs := db.runs[id := run];
    assert RunsSchema(db.sources, db.configs, runs);
    assert SourcesSchema(db.sources, runs);
    assert OccurrencesSchema(runs, db.occurrences, db.store.contents);
  }

  /** create_building_run; None is a rejected commit or a broken foreign key. */
  method CreateBuildingRun(session: Session, binding: Binding, commit: string) returns (run: Option<Uuid>)
    requires session.Sound()
    modifies session
    ensures session.Sound()
    ensures run.Some? <==>
              && |commit| == 40 && (forall i :: 0 <= i < |commit| ==> '0' <= commit[i] <= '9' || 'a' <= commit[i] <= 'f')
              && binding.source in old(session.db).sources && binding.config in old(session.db).configs
    ensures run.None? ==> session.db == old(session.db)
    ensures run.Some? ==> run.value !in old(session.db).runs
    ensures run.Some? ==> session.db == old(session.db).(runs := old(session.db).runs[run.value := NewRun(binding, commit)])
    ensures run.Some? ==>
              var row := session.db.runs[run.value];
              && row.source == binding.source && row.config == binding.config && row.commit == commit
              && row.status == Building && row.activatedAt.None? && row.stats.None?
  {
    if !IsCommitSha(commit) || binding.source !in session.db.sources || binding.config !in session.db.configs { return None; }
    UnusedUuidExists(session.db.runs.Keys);
    var id :| id !in session.db.runs;
    PutRunSchema(session.db, id, NewRun(binding, commit));
    session.db := session.db.(runs := session.db.runs[id := NewRun(binding, commit)]);
    session.Flush();
    return Some(id);
  }

  /** _require_owned_run */
  predicate Owned(db: Database, binding: Binding, run: Uuid) {
    run in db.runs && db.runs[run].source == binding.source && db.runs[run].config == binding.config
  }

  function Finished(run: Run, result: IndexResult): Run {
    run.(status := result.status, stats := Some(result.stats))
  }

  /** What mark_ready and mark_failed accept. */
  predicate MayFinish(db: Database, binding: Binding, run: Uuid, result: IndexResult) {
    && result.run == run
    && ((result.status == Ready && result.stats.failure.None?) || (result.status == Failed && result.stats.failure.Some?))
    && Owned(db, binding, run) && db.runs[run].status == Building
  }

  /** mark_ready and mark_failed: only a BUILDING run of this binding finishes. */
  method MarkFinished(session: Session, binding: Binding, run: Uuid, result: IndexResult) returns (ok: bool)
    requires session.Sound()
    modifies session
    ensures session.Sound() && (ok <==> MayFinish(old(session.db), binding, run, result))
    ensures ok <==>
              && result.run == run && run in old(session.db).runs && old(session.db).runs[run].status == Building
              && old(session.db).runs[run].source == binding.source && old(session.db).runs[run].config == binding.config
              && (result.status == Ready || result.status == Failed) && (result.status == Ready <==> result.stats.failure.None?)
    ensures session.db == if ok then old(session.db).(runs := old(session.db).runs[run := Finished(old(session.db).runs[run], result)])
                          else old(session.db)
    ensures ok ==>
              var row, was := session.db.runs[run], old(session.db).runs[run];
              && row.status == result.status && row.stats == Some(result.stats)
              && row.source == was.source && row.config == was.config && row.commit == was.commit && row.activatedAt == was.activatedAt
  {
    if !MayFinish(session.db, binding, run, result) { return false; }
    var row := Finished(session.db.runs[run], result);
    assert RunsSchema(session.db.sources, session.db.configs, session.db.runs);
    PutRunSchema(session.db, run, row);
    session.db := session.db.(runs := session.db.runs[run := row]);
    session.Flush();
    return true;
  }

  // ---------------------------------------------------------------- contents

  lemma AddContentSchema(db: Database, id: Uuid, content: Content)
    requires Schema(db) && id !in db.store.contents
    requires forall i :: i in db.store.contents ==> db.store.contents[i].hash != content.hash
    ensures Schema(db.(store := db.store.(contents := db.store.contents[id := content])))
  {
    var contents := db.store.contents[id := content];
    assert ContentsSchema(contents, db.store.parses);
    assert OccurrencesSchema(db.runs, db.occurrences, contents);
    hide ContentsSchema, SectionsSchema, ChunksSchema, EmbeddingsSchema, RunsSchema, SourcesSchema, OccurrencesSchema;
  }

  lemma SoleHash(db: Database)
    requires Schema(db)
    ensures forall i, j :: i in db.store.contents && j in db.store.contents && db.store.contents[i].hash == db.store.contents[j].hash ==> i == j
    ensures StoreSchema(db.store)
  {
    hide SectionsSchema, ChunksSchema, EmbeddingsSchema, RunsSchema, SourcesSchema, OccurrencesSchema;
    assert ContentsSchema(db.store.contents, db.store.parses);
  }

  lemma Unfaithful(contents: map<Uuid, Content>, id: Uuid)
    requires id in contents && contents[id].hash != Sha256OfText(contents[id].text)
    ensures !ContentsFaithful(contents)
  {
  }

  lemma StoreGrows(st: Store)
    ensures Grown(st, st)
  {
    hide StoreSound;
  }

  /** upsert_content.  None is a stored row whose hash agrees but whose text does not; the
      digest is taken as given, so only the hash of the text keeps the store sound. */
  method UpsertContent(session: Session, digest: ContentHash, text: string, ghost run: Uuid) returns (id: Option<Uuid>)
    requires session.Sound()
    modifies session
    ensures session.Sound() && BuildFrame(old(session.db), session.db, run)
    ensures session.db == old(session.db).(store := old(session.db.store).(contents := session.db.store.contents))
    ensures digest == Sha256OfText(text) ==> Grown(old(session.db.store), session.db.store)
    ensures id.Some? ==> id.value in session.db.store.contents && session.db.store.contents[id.value] == Content(digest, text)
    ensures id.Some? ==> session.db.store.contents == old(session.db.store.contents)[id.value := Content(digest, text)]
    ensures id.None? <==> exists i :: i in old(session.db.store.contents) && old(session.db.store.contents)[i].hash == digest
                                    && old(session.db.store.contents)[i].text != text
    ensures id.None? ==> session.db == old(session.db)
    ensures id.None? && digest == Sha256OfText(text) ==> !ContentsFaithful(session.db.store.contents)
  {
    hide Schema, Grown, ContentsFaithful;
    var contents := session.db.store.contents;
    SoleHash(session.db);
    if existing: Uuid :| existing in contents && contents[existing].hash == digest {
      StoreGrows(session.db.store);
      if contents[existing].text != text {
        if digest == Sha256OfText(text) { assert !ContentsFaithful(contents) by { Unfaithful(contents, existing); } }
        return None;
      }
      assert contents[existing := Content(digest, text)] == contents;
      return Some(existing);
    }
    UnusedUuidExists(contents.Keys);
    var added: Uuid :| added !in contents;
    AddContentSchema(session.db, added, Content(digest, text));
    if digest == Sha256OfText(text) { ContentAddedGrows(session.db.store, added, text); }
    assert Extends(session.db.store, session.db.store.(contents := contents[added := Content(digest, text)]));
    session.db := session.db.(store := session.db.store.(contents := contents[added := Content(digest, text)]));
    session.Flush();
    return Some(added);
  }

  // ---------------------------------------------------------------- occurrences

  /** create_occurrence: an exact replay is idempotent, anything else at a taken path
      is an error, as is a run of another binding. */
  method CreateOccurrence(session: Session, binding: Binding, run: Uuid, content: Uuid, path: string, metadata: Metadata)
    returns (ok: bool)
    requires session.Sound()
    modifies session
    ensures session.Sound() && BuildFrame(old(session.db), session.db, run)
    ensures ok <==> Owned(old(session.db), binding, run)
                    && (OccurrenceKey(run, path) in old(session.db).occurrences ==>
                          old(session.db).occurrences[OccurrenceKey(run, path)] == Occurrence(content, metadata))
                    && (OccurrenceKey(run, path) !in old(session.db).occurrences ==> content in old(session.db.store.contents))
    ensures session.db == if ok then old(session.db).(occurrences := old(session.db).occurrences[OccurrenceKey(run, path) := Occurrence(content, metadata)])
                          else old(session.db)
  {
    var key := OccurrenceKey(run, path);
    if !Owned(session.db, binding, run) { return false; }
    if key in session.db.occurrences {
      if session.db.occurrences[key] != Occurrence(content, metadata) { return false; }
      assert session.db.occurrences[key := Occurrence(content, metadata)] == session.db.occurrences;
      return true;
    }
    if content !in session.db.store.contents { return false; }
    assert OccurrencesSchema(session.db.runs, session.db.occurrences[key := Occurrence(content, metadata)], session.db.store.contents);
    session.db := session.db.(occurrences := session.db.occurrences[key := Occurrence(content, metadata)]);
    session.Flush();
    return true;
  }
}
