/** Where what a build stores comes from: every new parse, occurrence and vector is the
    collaborators' answer to a call about just that document, file or chunk hash. */
module Provenance {
  import opened Basics
  import opened Documents
  import opened Tables
  import opened StoredParses
  import opened StoreFrames
  import opened VectorStore
  import opened ParseStore
  import opened StoreInvariant
  import opened Collaborators

  // ---------------------------------------------------------------- parses

  /** The stored rows read back as this projection, without blocks and warnings. */
  ghost predicate StoredAs(st: Store, key: ParseKey, parsed: ParsedMarkdown, chunks: seq<ChunkDraft>) {
    match FindParse(st, key)
    case Found(artifacts) => artifacts.parsed.sections == StoredSections(parsed.sections) && Drafts(artifacts) == StoredDrafts(chunks)
    case Missing => false
    case Corrupt => false
  }

  /** The parse is the projection of its content's own text. */
  ghost predicate ParseFrom(st: Store, key: ParseKey, answers: seq<Answer>) {
    && key.content in st.contents
    && exists k: nat, parsed, chunks :: Projects(answers, k, st.contents[key.content].text, parsed, chunks) && StoredAs(st, key, parsed, chunks)
  }

  ghost predicate ParsesFrom(start: Store, st: Store, answers: seq<Answer>) {
    forall key :: key in st.parses && key !in start.parses ==> ParseFrom(st, key, answers)
  }

  lemma ProjectsEarlier(x: seq<Answer>, y: seq<Answer>, k: nat, text: string, parsed: ParsedMarkdown, chunks: seq<ChunkDraft>)
    requires Projects(x, k, text, parsed, chunks) && Starts(y)
    ensures Projects(x + y, k, text, parsed, chunks)
  {
    ProjectionSplits(x, y, k);
  }

  lemma ProjectsLater(x: seq<Answer>, y: seq<Answer>, k: nat, text: string, parsed: ParsedMarkdown, chunks: seq<ChunkDraft>)
    requires Projects(y, k, text, parsed, chunks) && Starts(y)
    ensures Projects(x + y, |x| + k, text, parsed, chunks)
  {
    ProjectionSplits(x, y, |x| + k);
  }

  lemma StoredAsStays(a: Store, b: Store, key: ParseKey, parsed: ParsedMarkdown, chunks: seq<ChunkDraft>)
    requires key in a.parses && Extends(a, b) && StoredAs(a, key, parsed, chunks)
    ensures StoredAs(b, key, parsed, chunks)
  {
    ExtendsKeepsParse(a, b, key);
    SameParseFind(a, b, key);
    hide FindParse, SameParse;
  }

  lemma ParseFromStays(a: Store, b: Store, key: ParseKey, x: seq<Answer>, y: seq<Answer>)
    requires key in a.parses && ParseFrom(a, key, x) && Extends(a, b) && Starts(y)
    ensures ParseFrom(b, key, x + y)
  {
    hide Projects, StoredAs;
    var text := a.contents[key.content].text;
    var k: nat, parsed, chunks :| Projects(x, k, text, parsed, chunks) && StoredAs(a, key, parsed, chunks);
    ProjectsEarlier(x, y, k, text, parsed, chunks);
    StoredAsStays(a, b, key, parsed, chunks);
  }

  lemma ParseFromLater(st: Store, key: ParseKey, x: seq<Answer>, y: seq<Answer>)
    requires ParseFrom(st, key, y) && Starts(y)
    ensures ParseFrom(st, key, x + y)
  {
    hide Projects, StoredAs;
    var text := st.contents[key.content].text;
    var k: nat, parsed, chunks :| Projects(y, k, text, parsed, chunks) && StoredAs(st, key, parsed, chunks);
    ProjectsLater(x, y, k, text, parsed, chunks);
  }

  lemma ParsesFromThen(start: Store, a: Store, b: Store, x: seq<Answer>, y: seq<Answer>)
    requires ParsesFrom(start, a, x) && ParsesFrom(a, b, y) && Extends(a, b) && Starts(y)
    ensures ParsesFrom(start, b, x + y)
  {
    hide ParseFrom, Extends, Starts;
    forall key | key in b.parses && key !in start.parses ensures ParseFrom(b, key, x + y) {
      if key in a.parses { ParseFromStays(a, b, key, x, y); } else { ParseFromLater(b, key, x, y); }
    }
  }

  // ---------------------------------------------------------------- vectors

  /** A stored vector of a chunk with the hash, under the configuration. */
  predicate Holder(st: Store, document: DocumentConfig, hash: string, key: EmbeddingKey) {
    && key in st.embeddings && key.config == Sha256OfDocumentConfig(document)
    && key.chunk in st.chunks && st.chunks[key.chunk].draft.chunkHash == hash
  }

  /** The hash has a stored vector, and every one of them is the given one as float32. */
  ghost predicate HashCarries(st: Store, document: DocumentConfig, hash: string, vector: Vector) {
    && (exists key :: Holder(st, document, hash, key))
    && (forall key :: Holder(st, document, hash, key) ==> Rounds(vector, st.embeddings[key].vector))
  }

  /** A stored chunk has this hash and this search text. */
  ghost predicate Describes(st: Store, request: Request) {
    exists id :: id in st.chunks && st.chunks[id].draft.chunkHash == request.chunkHash && st.chunks[id].draft.searchText == request.text
  }

  ghost predicate Carries(st: Store, document: DocumentConfig, request: Request, vector: Vector) {
    Describes(st, request) && HashCarries(st, document, request.chunkHash, vector)
  }

  ghost predicate AnswerCarried(st: Store, document: DocumentConfig, answer: Answer) {
    answer.EmbedAnswer? && answer.vectors.Some? ==>
      forall j :: 0 <= j < |answer.requests| && j < |answer.vectors.value| ==> Carries(st, document, answer.requests[j], answer.vectors.value[j])
  }

  /** Every answered request's hash carries the vector answered for it. */
  ghost predicate VectorsFrom(st: Store, document: DocumentConfig, answers: seq<Answer>) {
    forall i :: 0 <= i < |answers| ==> AnswerCarried(st, document, answers[i])
  }

  lemma HashCarriesStays(a: Store, b: Store, document: DocumentConfig, hash: string, vector: Vector)
    requires HashCarries(a, document, hash, vector) && Extends(a, b) && VectorsCoherent(b.chunks, b.embeddings)
    ensures HashCarries(b, document, hash, vector)
  {
    hide RowSound, Rounds;
    var known :| Holder(a, document, hash, known);
    assert Holder(b, document, hash, known);
    forall key | Holder(b, document, hash, key) ensures Rounds(vector, b.embeddings[key].vector) {
      assert SameCalculation(b.chunks, key, known);
    }
  }

  lemma VectorsFromStay(a: Store, b: Store, document: DocumentConfig, answers: seq<Answer>)
    requires VectorsFrom(a, document, answers) && Extends(a, b) && VectorsCoherent(b.chunks, b.embeddings)
    ensures VectorsFrom(b, document, answers)
  {
    hide HashCarries, VectorsCoherent;
    forall i, j | 0 <= i < |answers| && answers[i].EmbedAnswer? && answers[i].vectors.Some?
                  && 0 <= j < |answers[i].requests| && j < |answers[i].vectors.value|
      ensures Carries(b, document, answers[i].requests[j], answers[i].vectors.value[j])
    {
      assert AnswerCarried(a, document, answers[i]);
      HashCarriesStays(a, b, document, answers[i].requests[j].chunkHash, answers[i].vectors.value[j]);
    }
  }

  lemma VectorsFromAppend(st: Store, document: DocumentConfig, x: seq<Answer>, y: seq<Answer>)
    requires VectorsFrom(st, document, x) && VectorsFrom(st, document, y)
    ensures VectorsFrom(st, document, x + y)
  {
    hide AnswerCarried;
  }

  lemma {:induction false} NothingSentNothingBound(st: Store, document: DocumentConfig, answers: seq<Answer>)
    requires Batches(answers) == []
    ensures VectorsFrom(st, document, answers)
  {
    if answers != [] {
      var front := answers[..|answers| - 1];
      NothingSentNothingBound(st, document, front);
      assert !answers[|answers| - 1].EmbedAnswer?;
      assert answers == front + [answers[|answers| - 1]];
    }
  }

  // ---------------------------------------------------------------- the store of a build

  /** What a build has stored since `start`, against the answers it got. */
  ghost predicate StoreFrom(start: Store, st: Store, document: DocumentConfig, answers: seq<Answer>) {
    ParsesFrom(start, st, answers) && (StoreSound(start) ==> VectorsFrom(st, document, answers))
  }

  lemma StoreFromStart(st: Store, document: DocumentConfig)
    ensures StoreFrom(st, st, document, [])
  {
  }

  /** Nothing is asked about a blank document. */
  lemma NothingAskedFrom(st: Store, document: DocumentConfig, log: seq<Answer>)
    ensures Starts(Since(log, log)) && StoreFrom(st, st, document, Since(log, log))
  {
    StoreFromStart(st, document);
    assert Since(log, log) == [];
  }

  lemma SoundIsCoherent(st: Store)
    requires StoreSound(st)
    ensures VectorsCoherent(st.chunks, st.embeddings)
  {
  }

  /** Two stretches of a build in turn. */
  lemma StoreFromThen(start: Store, a: Store, b: Store, document: DocumentConfig, x: seq<Answer>, y: seq<Answer>)
    requires StoreFrom(start, a, document, x) && StoreFrom(a, b, document, y) && Extends(a, b) && Starts(y)
    requires (StoreSound(start) ==> StoreSound(a)) && (StoreSound(a) ==> StoreSound(b))
    ensures StoreFrom(start, b, document, x + y)
  {
    hide ParsesFrom, VectorsFrom, StoreSound, Extends, VectorsCoherent;
    ParsesFromThen(start, a, b, x, y);
    if StoreSound(start) {
      SoundIsCoherent(b);
      VectorsFromStay(a, b, document, x);
      VectorsFromAppend(b, document, x, y);
    }
  }

  /** A document is parsed and saved, then its missing vectors are. */
  lemma ParsedThenLinked(a: Store, b: Store, c: Store, document: DocumentConfig, x: seq<Answer>, y: seq<Answer>)
    requires ParsesFrom(a, b, x) && Batches(x) == [] && Starts(y)
    requires Extends(a, b) && Extends(b, c) && c.parses == b.parses
    requires (StoreSound(a) ==> StoreSound(b)) && (StoreSound(b) ==> VectorsFrom(c, document, y))
    ensures StoreFrom(a, c, document, x + y)
  {
    hide VectorsFrom, StoreSound, Extends, Batches, ParseFrom;
    NothingSentNothingBound(c, document, x);
    assert ParsesFrom(b, c, y);
    ParsesFromThen(a, b, c, x, y);
    if StoreSound(a) { VectorsFromAppend(c, document, x, y); }
  }

  // ---------------------------------------------------------------- occurrences

  /** The occurrence's metadata was answered for its own path and text. */
  ghost predicate OccurrenceFrom(db: Database, key: OccurrenceKey, answers: seq<Answer>) {
    && key in db.occurrences && db.occurrences[key].content in db.store.contents
    && MetadataAnswer(key.path, db.store.contents[db.occurrences[key].content].text, Some(db.occurrences[key].metadata)) in answers
  }

  ghost predicate OccurrencesFrom(db: Database, run: Uuid, answers: seq<Answer>) {
    forall key :: key in db.occurrences && key.run == run ==> OccurrenceFrom(db, key, answers)
  }

  /** A recorded file changes no parse and no vector. */
  lemma RecordingFrom(a: Store, b: Store, document: DocumentConfig, answers: seq<Answer>)
    requires b.parses == a.parses && Batches(answers) == []
    ensures StoreFrom(a, b, document, answers)
  {
    hide ParseFrom, AnswerCarried, Batches;
    NothingSentNothingBound(b, document, answers);
  }

  /** The occurrence of one more file. */
  lemma OccurrencesFromThen(a: Database, b: Database, run: Uuid, added: OccurrenceKey, x: seq<Answer>, y: seq<Answer>)
    requires OccurrencesFrom(a, run, x) && OccurrenceFrom(b, added, y) && Extends(a.store, b.store)
    requires added in b.occurrences && b.occurrences == a.occurrences[added := b.occurrences[added]]
    ensures OccurrencesFrom(b, run, x + y)
  {
    forall key | key in b.occurrences && key.run == run ensures OccurrenceFrom(b, key, x + y) {
      if key != added { assert OccurrenceFrom(a, key, x); }
    }
  }

  lemma OccurrenceFromThen(a: Database, b: Database, key: OccurrenceKey, x: seq<Answer>, y: seq<Answer>)
    requires OccurrenceFrom(a, key, x) && b.occurrences == a.occurrences && Extends(a.store, b.store)
    ensures OccurrenceFrom(b, key, x + y)
  {
  }

  /** Everything a run has stored is an answer to a call about it. */
  ghost predicate Accounted(start: Store, now: Database, run: Uuid, document: DocumentConfig, answers: seq<Answer>) {
    match now
    case Database(_, _, _, _, store) => StoreFrom(start, store, document, answers) && OccurrencesFrom(now, run, answers)
  }

  /** It depends on the run's occurrences and the store alone. */
  lemma AccountedStays(start: Store, a: Database, b: Database, run: Uuid, document: DocumentConfig, answers: seq<Answer>)
    requires Accounted(start, a, run, document, answers) && b.occurrences == a.occurrences && b.store == a.store
    ensures Accounted(start, b, run, document, answers)
  {
    hide StoreFrom;
    assert forall key :: key in a.occurrences && key.run == run ==> OccurrenceFrom(a, key, answers);
  }
}
