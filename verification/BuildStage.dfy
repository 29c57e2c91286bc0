/** Index stage: all artifacts of one document with text. */
module BuildStage {
  import opened Basics
  import opened Text
  import opened Documents
  import opened Tables
  import opened StoredParses
  import opened StoreFrames
  import opened VectorStore
  import opened StoreInvariant
  import opened Readiness
  import opened ParseStage
  import opened EmbeddingStage
  import opened Collaborators
  import opened Provenance

  ghost predicate GroupLinked(st: Store, document: DocumentConfig, hash: string, group: seq<StoredChunk>) {
    && (forall i :: 0 <= i < |group| ==> Embedded(st, document, group[i].id))
    && ReusableKeys(st, document, hash) != {}
  }

  /** The first n groups are linked, the others still need a vector. */
  ghost predicate EmbedProgress(a: Database, b: Database, document: DocumentConfig, missing: Waitlist, n: nat) {
    match b
    case Database(_, _, _, _, store) =>
      && LinksOnly(a, b) && Distinct(missing.order) && Elements(missing.order) == missing.groups.Keys
      && n <= |missing.order|
      && (forall j :: 0 <= j < n ==> GroupAt(missing, j).Some? && GroupLinked(store, document, missing.order[j], GroupAt(missing, j).value))
      && (forall j :: n <= j < |missing.order| ==> GroupAt(missing, j).Some? && GroupSound(store, document, missing.order[j], GroupAt(missing, j).value))
  }

  function GroupAt(missing: Waitlist, j: nat): Option<seq<StoredChunk>> {
    if j < |missing.order| && missing.order[j] in missing.groups then Some(missing.groups[missing.order[j]]) else None
  }

  lemma EmbedStart(a: Database, document: DocumentConfig, missing: Waitlist)
    requires MissingSound(a.store, document, missing)
    ensures EmbedProgress(a, a, document, missing, 0)
  {
    NoLinks(a);
    hide GroupSound;
    assert forall j :: 0 <= j < |missing.order| ==> missing.order[j] in Elements(missing.order);
  }

  lemma LinkedStays(a: Store, b: Store, document: DocumentConfig, hash: string, group: seq<StoredChunk>)
    requires Extends(a, b) && GroupLinked(a, document, hash, group)
    ensures GroupLinked(b, document, hash, group)
  {
    KeysGrow(a, b, document, hash);
    hide ReusableKeys;
    forall i | 0 <= i < |group| ensures Embedded(b, document, group[i].id) {
      EmbeddedStays(a, b, document, group[i].id);
    }
  }

  lemma KeysGrow(a: Store, b: Store, document: DocumentConfig, hash: string)
    requires Extends(a, b)
    ensures ReusableKeys(a, document, hash) <= ReusableKeys(b, document, hash)
  {
  }

  lemma UnlinkedStays(a: Store, b: Store, document: DocumentConfig, saved: string, hash: string, group: seq<StoredChunk>)
    requires Extends(a, b) && OtherHashesKept(a, b, document, saved) && saved != hash
    requires GroupSound(a, document, hash, group)
    ensures GroupSound(b, document, hash, group)
  {
    ChunksMatchStays(a, b, group);
    hide ReusableKeys, Extends, ChunksMatch;
  }

  lemma EmbedStepped(a: Database, b: Database, c: Database, document: DocumentConfig, missing: Waitlist, n: nat)
    requires EmbedProgress(a, b, document, missing, n) && n < |missing.order| && missing.order[n] in missing.groups
    requires LinksOnly(b, c) && OtherHashesKept(b.store, c.store, document, missing.order[n])
    requires GroupLinked(c.store, document, missing.order[n], missing.groups[missing.order[n]])
    ensures EmbedProgress(a, c, document, missing, n + 1)
  {
    LinksOnlyTransitive(a, b, c);
    LinksOnlyExtends(b, c);
    hide GroupLinked, GroupSound, OtherHashesKept;
    forall j | 0 <= j < n ensures GroupLinked(c.store, document, missing.order[j], GroupAt(missing, j).value) {
      LinkedStays(b.store, c.store, document, missing.order[j], GroupAt(missing, j).value);
    }
    forall j | n < j < |missing.order| ensures GroupSound(c.store, document, missing.order[j], GroupAt(missing, j).value) {
      UnlinkedStays(b.store, c.store, document, missing.order[n], missing.order[j], GroupAt(missing, j).value);
    }
  }

  datatype EmbedStep = AllLinked | EmbedFails(code: FailureCode) | EmbedConflict

  lemma BatchNormalizes(vectors: seq<Vector>, count: nat, dimension: nat)
    requires ValidBatch(vectors, count, dimension)
    ensures |vectors| == count && forall j :: 0 <= j < |vectors| ==> NormalizeVector(vectors[j], dimension).Some?
  {
  }

  /** The first n hashes each carry the vector at their own position. */
  ghost predicate PairsCarried(st: Store, document: DocumentConfig, hashes: seq<string>, vectors: seq<Vector>, n: nat) {
    forall i :: 0 <= i < n && i < |hashes| && i < |vectors| ==> HashCarries(st, document, hashes[i], vectors[i])
  }

  lemma NoPairs(st: Store, document: DocumentConfig, hashes: seq<string>, vectors: seq<Vector>)
    ensures PairsCarried(st, document, hashes, vectors, 0)
  {
  }

  lemma PairsStepped(b: Database, c: Database, document: DocumentConfig, hashes: seq<string>, vectors: seq<Vector>, n: nat)
    requires PairsCarried(b.store, document, hashes, vectors, n) && n < |hashes| && n < |vectors|
    requires LinksOnly(b, c) && StoreSound(b.store) && HashCarries(c.store, document, hashes[n], vectors[n])
    ensures PairsCarried(c.store, document, hashes, vectors, n + 1)
  {
    LinksOnlyExtends(b, c);
    SoundIsCoherent(c.store);
    hide HashCarries, StoreSound, LinksOnly, VectorsCoherent, Extends;
    forall i | 0 <= i < n && i < |hashes| && i < |vectors| ensures HashCarries(c.store, document, hashes[i], vectors[i]) {
      HashCarriesStays(b.store, c.store, document, hashes[i], vectors[i]);
    }
  }

  /** Saving one vector for every missing hash: the j-th vector goes to the j-th hash. */
  method SaveAll(session: Session, document: DocumentConfig, missing: Waitlist, vectors: seq<Vector>) returns (ok: bool)
    requires session.Sound() && MissingSound(session.db.store, document, missing)
    requires ValidBatch(vectors, |missing.order|, document.descriptor.dimension)
    modifies session
    ensures session.Sound() && LinksOnly(old(session.db), session.db)
    ensures ok ==> forall hash :: hash in missing.groups ==> GroupLinked(session.db.store, document, hash, missing.groups[hash])
    ensures !ok ==> !StoreSound(old(session.db.store))
    ensures ok && StoreSound(old(session.db.store)) ==> PairsCarried(session.db.store, document, missing.order, vectors, |missing.order|)
  {
    hide MissingSound, GroupSound, EmbedProgress, GroupLinked, LinksOnly, OtherHashesKept, StoreSound, Embedded,
         ReusableKeys, NormalizeVector, Schema, PairsCarried, HashCarries;
    ghost var a := session.db;
    NoPairs(a.store, document, missing.order, vectors);
    EmbedStart(a, document, missing);
    BatchNormalizes(vectors, |missing.order|, document.descriptor.dimension);
    for j := 0 to |missing.order|
      invariant session.Sound() && EmbedProgress(a, session.db, document, missing, j)
      invariant StoreSound(a.store) ==> PairsCarried(session.db.store, document, missing.order, vectors, j)
    {
      ghost var b := session.db;
      EmbedFacts(a, b, document, missing, j);
      ok := SaveGroup(session, document, missing.order[j], missing.groups[missing.order[j]], vectors[j]);
      if !ok {
        LinksOnlyTransitive(a, b, session.db);
        return;
      }
      LinkedIs(session.db.store, document, missing.order[j], missing.groups[missing.order[j]]);
      EmbedStepped(a, b, session.db, document, missing, j);
      if StoreSound(a.store) { PairsStepped(b, session.db, document, missing.order, vectors, j); }
    }
    EmbedDone(a, session.db, document, missing);
    ok := true;
  }

  /** Every waiting group has a first chunk. */
  predicate GroupsStarted(missing: Waitlist) {
    forall j :: 0 <= j < |missing.order| ==> missing.order[j] in missing.groups && missing.groups[missing.order[j]] != []
  }

  /** group[0].draft.search_text of every group, with the hash it stands for. */
  function RequestsOf(missing: Waitlist): (requests: seq<Request>)
    requires GroupsStarted(missing)
    ensures HashesOf(requests) == missing.order
  {
    var requests := seq(|missing.order|, j requires 0 <= j < |missing.order| =>
      Request(missing.order[j], missing.groups[missing.order[j]][0].draft.searchText));
    assert HashesOf(requests) == missing.order;
    requests
  }

  function EmbedEnding(step: EmbedStep): Ending {
    if step.EmbedFails? then Bad(step.code) else Good
  }

  /** One call to the provider for all missing hashes, one document per hash. */
  method EmbedMissing(session: Session, adapters: Adapters, snapshot: Snapshot, missing: Waitlist) returns (step: EmbedStep)
    requires session.Sound() && MissingSound(session.db.store, snapshot.document, missing) && GroupsStarted(missing)
    modifies session, adapters
    ensures session.Sound() && LinksOnly(old(session.db), session.db)
    ensures step.AllLinked? ==> forall hash :: hash in missing.groups ==> GroupLinked(session.db.store, snapshot.document, hash, missing.groups[hash])
    ensures step.EmbedConflict? ==> !StoreSound(old(session.db.store))
    ensures |adapters.log| == |old(adapters.log)| + 1 && old(adapters.log) <= adapters.log
    ensures Logged(old(adapters.log), adapters.log, snapshot, EmbedEnding(step), [RequestsOf(missing)])
    ensures step.AllLinked? && StoreSound(old(session.db.store)) ==>
              VectorsFrom(session.db.store, snapshot.document, Since(old(adapters.log), adapters.log))
  {
    hide ValidBatch, MissingSound, LinksOnly, Logged, GroupLinked, StoreSound, PairsCarried, VectorsFrom;
    ghost var a := session.db;
    NoLinks(session.db);
    var requests := RequestsOf(missing);
    var vectors := adapters.EmbedDocuments(requests);
    LoggedOne(old(adapters.log), EmbedAnswer(requests, vectors), snapshot);
    if vectors.None? { return EmbedFails(EmbeddingFailure); }
    if !ValidBatch(vectors.value, |requests|, snapshot.document.descriptor.dimension) { return EmbedFails(InvariantFailure); }
    var ok := SaveAll(session, snapshot.document, missing, vectors.value);
    if ok && StoreSound(a.store) {
      assert Since(old(adapters.log), adapters.log) == [EmbedAnswer(requests, vectors)];
      RequestsCarried(a, session.db, snapshot.document, missing, vectors.value);
    }
    return if ok then AllLinked else EmbedConflict;
  }

  /** Every request describes a stored chunk, and its hash carries its vector. */
  lemma RequestsCarried(a: Database, b: Database, document: DocumentConfig, missing: Waitlist, vectors: seq<Vector>)
    requires MissingSound(a.store, document, missing) && GroupsStarted(missing) && LinksOnly(a, b)
    requires PairsCarried(b.store, document, missing.order, vectors, |missing.order|)
    ensures VectorsFrom(b.store, document, [EmbedAnswer(RequestsOf(missing), Some(vectors))])
  {
    hide HashCarries, StoreSound;
    var requests := RequestsOf(missing);
    assert HashesOf(requests) == missing.order;
    forall j | 0 <= j < |requests| && j < |vectors| ensures Carries(b.store, document, requests[j], vectors[j]) {
      var hash := missing.order[j];
      assert requests[j].chunkHash == hash && hash in missing.groups;
      assert GroupSound(a.store, document, hash, missing.groups[hash]);
      assert b.store.chunks == a.store.chunks;
      var first := missing.groups[hash][0];
      assert first.id in b.store.chunks && b.store.chunks[first.id].draft.searchText == requests[j].text;
    }
  }

  lemma FirstOfEach(st: Store, document: DocumentConfig, missing: Waitlist)
    requires MissingSound(st, document, missing)
    ensures GroupsStarted(missing)
  {
    forall j | 0 <= j < |missing.order| ensures missing.order[j] in missing.groups && missing.groups[missing.order[j]] != [] {
      assert missing.order[j] in Elements(missing.order);
      assert GroupSound(st, document, missing.order[j], missing.groups[missing.order[j]]);
    }
  }

  lemma LinkedIs(st: Store, document: DocumentConfig, hash: string, group: seq<StoredChunk>)
    requires forall i :: 0 <= i < |group| ==> Embedded(st, document, group[i].id)
    requires ReusableKeys(st, document, hash) != {}
    ensures GroupLinked(st, document, hash, group)
  {
  }

  lemma EmbedFacts(a: Database, b: Database, document: DocumentConfig, missing: Waitlist, n: nat)
    requires EmbedProgress(a, b, document, missing, n)
    ensures LinksOnly(a, b) && (StoreSound(a.store) ==> StoreSound(b.store))
    ensures n < |missing.order| ==> missing.order[n] in missing.groups
    ensures n < |missing.order| ==> GroupSound(b.store, document, missing.order[n], missing.groups[missing.order[n]])
  {
    LinksOnlyExtends(a, b);
    hide StoreSound, GroupLinked, LinksOnly;
    if n < |missing.order| { assert GroupAt(missing, n).Some?; }
  }

  lemma EmbedDone(a: Database, b: Database, document: DocumentConfig, missing: Waitlist)
    requires EmbedProgress(a, b, document, missing, |missing.order|)
    ensures LinksOnly(a, b)
    ensures forall hash :: hash in missing.groups ==> GroupLinked(b.store, document, hash, missing.groups[hash])
  {
    hide GroupLinked, GroupSound, LinksOnly;
    forall hash | hash in missing.groups ensures GroupLinked(b.store, document, hash, missing.groups[hash]) {
      assert hash in Elements(missing.order);
      var j :| 0 <= j < |missing.order| && missing.order[j] == hash;
      assert GroupAt(missing, j).Some?;
    }
  }

  // ---------------------------------------------------------------- what was sent

  /** Hashes whose text went to the provider: each once, none already stored at the
      start, each stored by now. */
  ghost predicate SentSound(start: Store, now: Store, document: DocumentConfig, sent: seq<string>) {
    && Distinct(sent)
    && (forall i :: 0 <= i < |sent| ==> ReusableKeys(start, document, sent[i]) == {})
    && (forall i :: 0 <= i < |sent| ==> ReusableKeys(now, document, sent[i]) != {})
  }

  /** Hashes sent at most once and only when no vector was stored at the start. */
  ghost predicate SentOnce(start: Store, document: DocumentConfig, sent: seq<string>) {
    && Distinct(sent)
    && (forall i :: 0 <= i < |sent| ==> ReusableKeys(start, document, sent[i]) == {})
  }

  lemma SentStays(start: Store, a: Store, b: Store, document: DocumentConfig, sent: seq<string>)
    requires Extends(a, b) && SentSound(start, a, document, sent)
    ensures SentSound(start, b, document, sent) && SentOnce(start, document, sent)
  {
    forall i | 0 <= i < |sent| ensures ReusableKeys(b, document, sent[i]) != {} {
      KeysGrow(a, b, document, sent[i]);
    }
  }

  /** A waiting hash has no vector now, so it was never sent before and had none at the start. */
  lemma SendingMissing(start: Store, now: Store, document: DocumentConfig, sent: seq<string>, missing: Waitlist)
    requires Extends(start, now) && SentSound(start, now, document, sent) && MissingSound(now, document, missing)
    ensures SentOnce(start, document, sent + missing.order)
  {
    forall j | 0 <= j < |missing.order|
      ensures ReusableKeys(now, document, missing.order[j]) == {} && ReusableKeys(start, document, missing.order[j]) == {}
    {
      assert missing.order[j] in Elements(missing.order);
      assert GroupSound(now, document, missing.order[j], missing.groups[missing.order[j]]);
      KeysGrow(start, now, document, missing.order[j]);
    }
    hide ReusableKeys, MissingSound, Extends;
  }

  lemma SentLinked(start: Store, now: Store, after: Store, document: DocumentConfig, sent: seq<string>, missing: Waitlist)
    requires Extends(now, after) && SentSound(start, now, document, sent)
    requires SentOnce(start, document, sent + missing.order) && Elements(missing.order) == missing.groups.Keys
    requires forall hash :: hash in missing.groups ==> GroupLinked(after, document, hash, missing.groups[hash])
    ensures SentSound(start, after, document, sent + missing.order)
  {
    SentStays(start, now, after, document, sent);
    forall j | 0 <= j < |missing.order| ensures ReusableKeys(after, document, missing.order[j]) != {} {
      assert missing.order[j] in Elements(missing.order);
      assert GroupLinked(after, document, missing.order[j], missing.groups[missing.order[j]]);
    }
    hide ReusableKeys, Extends, GroupLinked;
  }

  // ---------------------------------------------------------------- one document

  datatype BuildStep = Built | BuildFails(code: FailureCode) | BuildRaises(cause: Cause)

  /** The parse is sound and every chunk of it is embedded. */
  ghost predicate ParseServed(st: Store, snapshot: Snapshot, content: Uuid) {
    match snapshot
    case Snapshot(_, _, _, document, _, _) =>
      ParseSound(st, ParseKeyOf(snapshot, content)) && AllEmbedded(st, document, ParseKeyOf(snapshot, content))
  }

  lemma ServedStays(a: Store, b: Store, snapshot: Snapshot, content: Uuid)
    requires Extends(a, b) && ParseServed(a, snapshot, content)
    ensures ParseServed(b, snapshot, content)
  {
    var key := ParseKeyOf(snapshot, content);
    assert key in a.parses;
    ExtendsKeepsParse(a, b, key);
    SameParseFind(a, b, key);
    hide ParseSound;
    forall id | id in ChunksOf(b, key) ensures Embedded(b, snapshot.document, id) {
      assert Embedded(a, snapshot.document, id);
      EmbeddedStays(a, b, snapshot.document, id);
    }
  }

  /** Every chunk handled and every waiting group linked serves the whole parse. */
  lemma AllServed(found: Store, linked: Store, st: Store, snapshot: Snapshot, content: Uuid, artifacts: ParseArtifacts, missing: Waitlist)
    requires FindParse(found, ParseKeyOf(snapshot, content)) == Found(artifacts)
    requires Extends(found, st) && Extends(linked, st)
    requires Handled(linked, snapshot.document, missing, artifacts.chunks, |artifacts.chunks|)
    requires forall hash :: hash in missing.groups ==> GroupLinked(st, snapshot.document, hash, missing.groups[hash])
    ensures ParseServed(st, snapshot, content)
  {
    var key := ParseKeyOf(snapshot, content);
    assert key in found.parses;
    ExtendsKeepsParse(found, st, key);
    SameParseFind(found, st, key);
    FoundChunksMatch(found, key, artifacts);
    hide ParseSound, FindParse, ChunksMatch, ReusableKeys;
    forall id | id in ChunksOf(st, key) ensures Embedded(st, snapshot.document, id) {
      assert id in ChunksOf(found, key);
      var i :| 0 <= i < |artifacts.chunks| && artifacts.chunks[i].id == id;
      if Embedded(linked, snapshot.document, id) {
        EmbeddedStays(linked, st, snapshot.document, id);
      } else {
        var hash := artifacts.chunks[i].draft.chunkHash;
        assert GroupLinked(st, snapshot.document, hash, missing.groups[hash]);
        var k :| 0 <= k < |missing.groups[hash]| && missing.groups[hash][k] == artifacts.chunks[i];
        assert Embedded(st, snapshot.document, missing.groups[hash][k].id);
      }
    }
  }

  function BuildEnding(step: BuildStep): Ending {
    if step.BuildFails? then Bad(step.code)
    else if step == BuildRaises(ParseRejected) then Refused
    else Good
  }

  /** All artifacts of one document with text, with at most one embedding call.  `sent`
      holds the batches sent since `base`. */
  method BuildArtifacts(session: Session, adapters: Adapters, snapshot: Snapshot, content: Uuid, text: string,
                        ghost start: Store, ghost base: seq<Answer>, ghost sent: seq<seq<Request>>)
    returns (step: BuildStep, ghost sentAfter: seq<seq<Request>>)
    requires session.Sound() && content in session.db.store.contents
    requires session.db.store.contents[content].text == text && !Blank(text)
    requires Extends(start, session.db.store) && SentSound(start, session.db.store, snapshot.document, Hashes(sent))
    requires Logged(base, adapters.log, snapshot, Good, sent)
    modifies session, adapters
    ensures session.Sound() && StoreStep(old(session.db), session.db)
    ensures Logged(base, adapters.log, snapshot, BuildEnding(step), sentAfter)
    ensures sent <= sentAfter && |sentAfter| <= |sent| + 1
    ensures SentOnce(start, snapshot.document, Hashes(sentAfter))
    ensures step.Built? ==> ParseServed(session.db.store, snapshot, content)
    ensures step.Built? ==> SentSound(start, session.db.store, snapshot.document, Hashes(sentAfter))
    ensures step.BuildRaises? && StoreSound(old(session.db.store)) ==> Expected(step.cause, snapshot)
    ensures step.Built? ==> StoreFrom(old(session.db.store), session.db.store, snapshot.document, Since(old(adapters.log), adapters.log))
    ensures step.Built? ==> old(adapters.log) <= adapters.log && Starts(Since(old(adapters.log), adapters.log))
  {
    hide ParseServed, SentSound, SentOnce, FindParse, Logged, Hashes, Extends, StoreStep, StoreSound, Expected,
         ParsesFrom, VectorsFrom, StoreFrom, Starts, Batches;
    ghost var a, before := session.db, adapters.log;
    sentAfter := sent;
    ExtendsSelf(a.store);
    SentStays(start, a.store, a.store, snapshot.document, Hashes(sent));
    var obtained := ObtainParse(session, adapters, snapshot, content, text);
    LoggedSince(before, adapters.log, snapshot, ParseEnding(obtained), []);
    LoggedThen(base, before, adapters.log, snapshot, ParseEnding(obtained), sent, []);
    assert sent + [] == sent;
    ghost var b, middle := session.db, adapters.log;
    StoreStepExtends(a, b);
    match obtained {
      case ParseFails(code) => return BuildFails(code), sentAfter;
      case ParseRaises(cause) => return BuildRaises(cause), sentAfter;
      case Parsed(_) =>
    }
    var artifacts := obtained.artifacts;
    step, sentAfter := LinkArtifacts(session, adapters, snapshot, content, artifacts, start, a, base, sent);
    if step.Built? {
      SinceThen(before, middle, adapters.log);
      StartsThen(Since(before, middle), Since(middle, adapters.log));
      ParsedThenLinked(a.store, b.store, session.db.store, snapshot.document, Since(before, middle), Since(middle, adapters.log));
    }
  }

  lemma ExtendsSelf(a: Store)
    ensures Extends(a, a)
  {
  }

  method LinkArtifacts(session: Session, adapters: Adapters, snapshot: Snapshot, content: Uuid, artifacts: ParseArtifacts,
                       ghost start: Store, ghost a: Database, ghost base: seq<Answer>, ghost sent: seq<seq<Request>>)
    returns (step: BuildStep, ghost sentAfter: seq<seq<Request>>)
    requires session.Sound() && FindParse(session.db.store, ParseKeyOf(snapshot, content)) == Found(artifacts)
    requires Extends(start, a.store) && SentSound(start, a.store, snapshot.document, Hashes(sent)) && StoreStep(a, session.db)
    requires Logged(base, adapters.log, snapshot, Good, sent)
    modifies session, adapters
    ensures Logged(base, adapters.log, snapshot, BuildEnding(step), sentAfter)
    ensures sent <= sentAfter && |sentAfter| <= |sent| + 1
    ensures session.Sound() && StoreStep(a, session.db)
    ensures SentOnce(start, snapshot.document, Hashes(sentAfter))
    ensures step.Built? ==> ParseServed(session.db.store, snapshot, content)
    ensures step.Built? ==> SentSound(start, session.db.store, snapshot.document, Hashes(sentAfter))
    ensures step.BuildRaises? ==> !StoreSound(a.store)
    ensures Extends(old(session.db.store), session.db.store) && session.db.store.parses == old(session.db.store.parses)
    ensures old(adapters.log) <= adapters.log && Starts(Since(old(adapters.log), adapters.log))
    ensures step.Built? && StoreSound(old(session.db.store)) ==>
              VectorsFrom(session.db.store, snapshot.document, Since(old(adapters.log), adapters.log))
  {
    hide Logged, Hashes, ParseServed, SentSound, SentOnce, FindParse, MissingSound, Handled, StoreStep, LinksOnly, VectorsFrom;
    ghost var b := session.db;
    StoreStepExtends(a, b);
    SentStays(start, a.store, b.store, snapshot.document, Hashes(sent));
    ExtendsTransitive(start, a.store, b.store);
    FoundChunksMatch(b.store, ParseKeyOf(snapshot, content), artifacts);
    hide Extends, StoreSound;
    var ok, missing := LinkReusable(session, snapshot.document, artifacts.chunks);
    LinksThen(a, b, session.db);
    LinksKeepParses(b, session.db);
    ghost var c := session.db;
    if !ok { return BuildRaises(VectorConflict), sent; }
    LinksOnlyExtends(b, session.db);
    step, sentAfter := EmbedAndServe(session, adapters, snapshot, content, artifacts, missing, start, b, base, sent);
    StoreStepTransitive(a, b, session.db);
    ExtendsTransitive(b.store, c.store, session.db.store);
  }

  lemma LinksKeepParses(a: Database, b: Database)
    requires LinksOnly(a, b)
    ensures b.store.parses == a.store.parses && Extends(a.store, b.store)
  {
    hide StoreSound;
  }

  /** The embedding call of one document, if a hash is missing. */
  method SendMissing(session: Session, adapters: Adapters, snapshot: Snapshot, missing: Waitlist,
                     ghost base: seq<Answer>, ghost sent: seq<seq<Request>>)
    returns (embedded: EmbedStep, ghost sentAfter: seq<seq<Request>>)
    requires session.Sound() && MissingSound(session.db.store, snapshot.document, missing)
    requires Logged(base, adapters.log, snapshot, Good, sent)
    modifies session, adapters
    ensures session.Sound() && LinksOnly(old(session.db), session.db)
    ensures Logged(base, adapters.log, snapshot, EmbedEnding(embedded), sentAfter)
    ensures sent <= sentAfter && |sentAfter| <= |sent| + 1 && Hashes(sentAfter) == Hashes(sent) + missing.order
    ensures missing.order == [] ==> adapters.log == old(adapters.log)
    ensures embedded.AllLinked? ==> forall hash :: hash in missing.groups ==> GroupLinked(session.db.store, snapshot.document, hash, missing.groups[hash])
    ensures embedded.EmbedConflict? ==> !StoreSound(old(session.db.store))
    ensures old(adapters.log) <= adapters.log && Starts(Since(old(adapters.log), adapters.log))
    ensures embedded.AllLinked? && StoreSound(old(session.db.store)) ==>
              VectorsFrom(session.db.store, snapshot.document, Since(old(adapters.log), adapters.log))
  {
    hide Logged, Hashes, MissingSound, GroupLinked, StoreSound, LinksOnly, AnswerCarried;
    ghost var before := adapters.log;
    NoLinks(session.db);
    FirstOfEach(session.db.store, snapshot.document, missing);
    WaitlistKeys(session.db.store, snapshot.document, missing);
    if missing.order == [] { return AllLinked, sent; }
    embedded := EmbedMissing(session, adapters, snapshot, missing);
    LoggedSince(before, adapters.log, snapshot, EmbedEnding(embedded), [RequestsOf(missing)]);
    LoggedThen(base, before, adapters.log, snapshot, EmbedEnding(embedded), sent, [RequestsOf(missing)]);
    HashesMore(sent, RequestsOf(missing));
    sentAfter := sent + [RequestsOf(missing)];
  }

  method EmbedAndServe(session: Session, adapters: Adapters, snapshot: Snapshot, content: Uuid, artifacts: ParseArtifacts, missing: Waitlist,
                       ghost start: Store, ghost b: Database, ghost base: seq<Answer>, ghost sent: seq<seq<Request>>)
    returns (step: BuildStep, ghost sentAfter: seq<seq<Request>>)
    requires session.Sound() && FindParse(b.store, ParseKeyOf(snapshot, content)) == Found(artifacts)
    requires Extends(start, b.store) && SentSound(start, b.store, snapshot.document, Hashes(sent)) && LinksOnly(b, session.db)
    requires MissingSound(session.db.store, snapshot.document, missing)
    requires Handled(session.db.store, snapshot.document, missing, artifacts.chunks, |artifacts.chunks|)
    requires Logged(base, adapters.log, snapshot, Good, sent)
    modifies session, adapters
    ensures Logged(base, adapters.log, snapshot, BuildEnding(step), sentAfter)
    ensures sent <= sentAfter && |sentAfter| <= |sent| + 1
    ensures session.Sound() && StoreStep(b, session.db)
    ensures SentOnce(start, snapshot.document, Hashes(sentAfter))
    ensures step.Built? ==> ParseServed(session.db.store, snapshot, content)
    ensures step.Built? ==> SentSound(start, session.db.store, snapshot.document, Hashes(sentAfter))
    ensures step.BuildRaises? ==> !StoreSound(b.store)
    ensures Extends(old(session.db.store), session.db.store) && session.db.store.parses == old(session.db.store.parses)
    ensures old(adapters.log) <= adapters.log && Starts(Since(old(adapters.log), adapters.log))
    ensures step.Built? && StoreSound(b.store) ==>
              VectorsFrom(session.db.store, snapshot.document, Since(old(adapters.log), adapters.log))
  {
    hide Logged, Hashes, ParseServed, SentSound, SentOnce, FindParse, MissingSound, Handled, Extends, StoreSound, LinksOnly, StoreStep,
         VectorsFrom, Starts;
    ghost var c := session.db;
    LinksOnlyExtends(b, c);
    SentStays(start, b.store, c.store, snapshot.document, Hashes(sent));
    ExtendsTransitive(start, b.store, c.store);
    SendingMissing(start, c.store, snapshot.document, Hashes(sent), missing);
    WaitlistKeys(c.store, snapshot.document, missing);
    var embedded;
    embedded, sentAfter := SendMissing(session, adapters, snapshot, missing, base, sent);
    LinksOnlyTransitive(b, c, session.db);
    LinksOnlyExtends(c, session.db);
    LinksKeepParses(c, session.db);
    LinksOnlyIsStep(b, session.db);
    if embedded.EmbedFails? { return BuildFails(embedded.code), sentAfter; }
    if embedded.EmbedConflict? { return BuildRaises(VectorConflict), sentAfter; }
    SentLinked(start, c.store, session.db.store, snapshot.document, Hashes(sent), missing);
    ExtendsTransitive(b.store, c.store, session.db.store);
    AllServed(b.store, c.store, session.db.store, snapshot, content, artifacts, missing);
    return Built, sentAfter;
  }

  lemma LinksOnlyIsStep(a: Database, b: Database)
    requires LinksOnly(a, b)
    ensures StoreStep(a, b)
  {
  }

  lemma WaitlistKeys(st: Store, document: DocumentConfig, missing: Waitlist)
    requires MissingSound(st, document, missing)
    ensures Elements(missing.order) == missing.groups.Keys
    ensures missing.order == [] ==> missing.groups == map[]
  {
  }

  lemma StoreStepExtends(a: Database, b: Database)
    requires StoreStep(a, b)
    ensures Extends(a.store, b.store) && (StoreSound(a.store) ==> StoreSound(b.store))
  {
  }

  lemma LinksThen(a: Database, b: Database, c: Database)
    requires StoreStep(a, b) && LinksOnly(b, c)
    ensures StoreStep(a, c)
  {
    StoreStepTransitive(a, b, c);
    hide Grown;
  }
}
