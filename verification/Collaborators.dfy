/** The parser, chunker, metadata extractor and embedding provider: foreign code whose
    answers are arbitrary values that pass their constructors' checks, or an error. */
module Collaborators {
  import opened Basics
  import opened Documents
  import opened Tables
  import opened ParseStore
  import opened VectorStore

  /** One document of an embedding call: its text, and the chunk hash it stands for. */
  datatype Request = Request(chunkHash: string, text: string)

  /** One call to a collaborator, its arguments and its answer; None is an error. */
  datatype Answer =
    | MetadataAnswer(path: string, text: string, metadata: Option<Metadata>)
    | ParseAnswer(text: string, parsed: Option<ParsedMarkdown>)
    | SplitAnswer(section: Section, version: string, chunks: Option<seq<ChunkDraft>>)
    | EmbedAnswer(requests: seq<Request>, vectors: Option<seq<Vector>>)

  /** The collaborators, with every call they received and what they answered. */
  class Adapters {
    ghost var log: seq<Answer>

    constructor ()
      ensures log == []
    {
      log := [];
    }

    method ExtractMetadata(path: string, text: string) returns (metadata: Option<Metadata>)
      modifies this
      ensures log == old(log) + [MetadataAnswer(path, text, metadata)]
    {
      metadata := *;
      log := log + [MetadataAnswer(path, text, metadata)];
    }

    method Parse(text: string) returns (parsed: Option<ParsedMarkdown>)
      modifies this
      ensures parsed.Some? ==> ValidParsedMarkdown(parsed.value)
      ensures log == old(log) + [ParseAnswer(text, parsed)]
    {
      parsed := *;
      if parsed.Some? && !ValidParsedMarkdown(parsed.value) { parsed := None; }
      log := log + [ParseAnswer(text, parsed)];
    }

    method Split(section: Section, parserVersion: string) returns (chunks: Option<seq<ChunkDraft>>)
      modifies this
      ensures chunks.Some? ==> ValidChunks(chunks.value)
      ensures log == old(log) + [SplitAnswer(section, parserVersion, chunks)]
    {
      chunks := *;
      if chunks.Some? && !ValidChunks(chunks.value) { chunks := None; }
      log := log + [SplitAnswer(section, parserVersion, chunks)];
    }

    /** The provider sees the texts only. */
    method EmbedDocuments(requests: seq<Request>) returns (vectors: Option<seq<Vector>>)
      modifies this
      ensures log == old(log) + [EmbedAnswer(requests, vectors)]
    {
      vectors := *;
      log := log + [EmbedAnswer(requests, vectors)];
    }
  }

  // ---------------------------------------------------------------- what was sent

  /** The documents of each embedding call. */
  function Batches(log: seq<Answer>): seq<seq<Request>> {
    if log == [] then []
    else
      var last := log[|log| - 1];
      Batches(log[..|log| - 1]) + if last.EmbedAnswer? then [last.requests] else []
  }

  function HashesOf(requests: seq<Request>): (hashes: seq<string>)
    ensures |hashes| == |requests| && forall i :: 0 <= i < |hashes| ==> hashes[i] == requests[i].chunkHash
  {
    seq(|requests|, i requires 0 <= i < |requests| => requests[i].chunkHash)
  }

  /** Every chunk hash in these batches, once per time it occurs. */
  function Hashes(batches: seq<seq<Request>>): seq<string> {
    if batches == [] then []
    else Hashes(batches[..|batches| - 1]) + HashesOf(batches[|batches| - 1])
  }

  /** Every chunk hash sent to the provider, in order. */
  function Sent(log: seq<Answer>): seq<string> {
    Hashes(Batches(log))
  }

  lemma {:induction false} BatchesAppend(a: seq<Answer>, b: seq<Answer>)
    ensures Batches(a + b) == Batches(a) + Batches(b)
  {
    if b == [] {
      assert a + b == a;
    } else {
      var front := b[..|b| - 1];
      BatchesAppend(a, front);
      assert (a + b)[..|a + b| - 1] == a + front;
    }
  }

  lemma HashesMore(batches: seq<seq<Request>>, requests: seq<Request>)
    ensures Hashes(batches + [requests]) == Hashes(batches) + HashesOf(requests)
  {
    assert (batches + [requests])[..|batches|] == batches;
  }

  // ---------------------------------------------------------------- which answers end a build

  /** _valid_embedding_batch */
  predicate ValidBatch(vectors: seq<Vector>, count: nat, dimension: nat) {
    && |vectors| == count
    && forall i :: 0 <= i < |vectors| ==> |vectors[i]| == dimension && forall j :: 0 <= j < |vectors[i]| ==> Storable(vectors[i][j])
  }

  /** The failure code an answer leads to; None is an answer the build goes on with. */
  function Verdict(answer: Answer, snapshot: Snapshot): Option<FailureCode> {
    match answer
    case MetadataAnswer(_, _, metadata) => if metadata.None? then Some(InvariantFailure) else None
    case ParseAnswer(_, parsed) =>
      if parsed.None? then Some(ParseFailure)
      else if parsed.value.parserVersion != snapshot.parserVersion then Some(InvariantFailure)
      else None
    case SplitAnswer(_, _, chunks) => if chunks.None? then Some(ParseFailure) else None
    case EmbedAnswer(requests, vectors) =>
      if vectors.None? then Some(EmbeddingFailure)
      else if !ValidBatch(vectors.value, |requests|, snapshot.document.descriptor.dimension) then Some(InvariantFailure)
      else None
  }

  predicate AllGood(answers: seq<Answer>, snapshot: Snapshot) {
    forall i :: 0 <= i < |answers| ==> Verdict(answers[i], snapshot).None?
  }

  /** The chunks that consecutive answers of the chunker add up to, if they are that. */
  function Joined(answers: seq<Answer>): Option<seq<ChunkDraft>> {
    if answers == [] then Some([])
    else
      var front, last := Joined(answers[..|answers| - 1]), answers[|answers| - 1];
      if front.None? || !last.SplitAnswer? || last.chunks.None? then None else Some(front.value + last.chunks.value)
  }

  /** The projection of a document parsed by call k, if every section of it was split. */
  function ProjectionAt(answers: seq<Answer>, k: nat): Option<(ParsedMarkdown, seq<ChunkDraft>)>
    requires k < |answers|
  {
    match answers[k]
    case ParseAnswer(_, Some(parsed)) =>
      var end := k + 1 + |parsed.sections|;
      if end <= |answers| && Parts(parsed, answers[k + 1..end]) && Joined(answers[k + 1..end]).Some?
      then Some((parsed, Joined(answers[k + 1..end]).value))
      else None
    case _ => None
  }

  /** Good answers for the leading sections of a document, in order. */
  predicate Parts(parsed: ParsedMarkdown, parts: seq<Answer>) {
    && |parts| <= |parsed.sections|
    && forall i :: 0 <= i < |parts| ==>
         parts[i].SplitAnswer? && parts[i].section == parsed.sections[i] && parts[i].version == parsed.parserVersion && parts[i].chunks.Some?
  }

  /** Call k parsed the text, and this is the projection it led to. */
  predicate Projects(answers: seq<Answer>, k: nat, text: string, parsed: ParsedMarkdown, chunks: seq<ChunkDraft>) {
    k < |answers| && answers[k].ParseAnswer? && answers[k].text == text && ProjectionAt(answers, k) == Some((parsed, chunks))
  }

  /** save_parse raises on a projection that is not persistable. */
  predicate AllPersistable(answers: seq<Answer>) {
    forall k: nat :: k < |answers| && ProjectionAt(answers, k).Some? ==>
      Persistable(ProjectionAt(answers, k).value.0, ProjectionAt(answers, k).value.1)
  }

  /** Every answer lets the build go on, one by one and taken together. */
  predicate Welcome(answers: seq<Answer>, snapshot: Snapshot) {
    AllGood(answers, snapshot) && AllPersistable(answers)
  }

  /** How the answers of a stretch leave the build: going on, failing with a code because
      of the last one, or raising because the projection it completes cannot be saved. */
  datatype Ending = Good | Bad(code: FailureCode) | Refused

  ghost predicate Answered(answers: seq<Answer>, snapshot: Snapshot, ending: Ending) {
    match ending
    case Good => Welcome(answers, snapshot)
    case Bad(code) =>
      answers != [] && Welcome(answers[..|answers| - 1], snapshot) && Verdict(answers[|answers| - 1], snapshot) == Some(code)
    case Refused =>
      && answers != [] && Welcome(answers[..|answers| - 1], snapshot) && Verdict(answers[|answers| - 1], snapshot) == None
      && !AllPersistable(answers)
  }

  /** A stretch does not start amid the splits of a document. */
  predicate Starts(answers: seq<Answer>) {
    answers == [] || !answers[0].SplitAnswer?
  }

  /** The log grew by answers that send just these batches. */
  ghost predicate Logged(before: seq<Answer>, after: seq<Answer>, snapshot: Snapshot, ending: Ending, sent: seq<seq<Request>>) {
    && before <= after && Answered(after[|before|..], snapshot, ending) && Batches(after[|before|..]) == sent
    && Starts(after[|before|..])
  }

  lemma NothingLogged(log: seq<Answer>, snapshot: Snapshot)
    ensures Logged(log, log, snapshot, Good, [])
  {
  }

  lemma {:induction false} JoinsSplitsOnly(answers: seq<Answer>, i: nat)
    requires i < |answers| && !answers[i].SplitAnswer?
    ensures Joined(answers).None?
  {
    if i < |answers| - 1 { JoinsSplitsOnly(answers[..|answers| - 1], i); }
  }

  /** A projection of two stretches belongs to one of them. */
  lemma ProjectionSplits(x: seq<Answer>, y: seq<Answer>, k: nat)
    requires Starts(y) && k < |x + y|
    ensures ProjectionAt(x + y, k) == if k < |x| then ProjectionAt(x, k) else ProjectionAt(y, k - |x|)
  {
    var all := x + y;
    match all[k] {
      case ParseAnswer(_, Some(parsed)) =>
        var end := k + 1 + |parsed.sections|;
        if end <= |all| {
          if |x| <= k {
            assert all[k + 1..end] == y[k + 1 - |x|..end - |x|];
          } else if end <= |x| {
            assert all[k + 1..end] == x[k + 1..end];
          } else {
            assert all[k + 1..end][|x| - k - 1] == y[0];
            JoinsSplitsOnly(all[k + 1..end], |x| - k - 1);
          }
        }
      case _ =>
    }
  }

  lemma PersistableAppend(x: seq<Answer>, y: seq<Answer>)
    requires Starts(y) && AllPersistable(x)
    ensures AllPersistable(x + y) <==> AllPersistable(y)
  {
    hide Persistable, ProjectionAt, Starts;
    forall k: nat | k < |x + y|
      ensures ProjectionAt(x + y, k) == if k < |x| then ProjectionAt(x, k) else ProjectionAt(y, k - |x|)
    {
      ProjectionSplits(x, y, k);
    }
    if AllPersistable(x + y) {
      forall k: nat | k < |y| && ProjectionAt(y, k).Some? ensures Persistable(ProjectionAt(y, k).value.0, ProjectionAt(y, k).value.1) {
        assert ProjectionAt(x + y, |x| + k) == ProjectionAt(y, k);
      }
    }
  }

  lemma WelcomeAppend(x: seq<Answer>, y: seq<Answer>, snapshot: Snapshot)
    requires Starts(y) && Welcome(x, snapshot) && Welcome(y, snapshot)
    ensures Welcome(x + y, snapshot)
  {
    hide Verdict, AllPersistable;
    PersistableAppend(x, y);
  }

  lemma AnsweredAppend(x: seq<Answer>, y: seq<Answer>, snapshot: Snapshot, ending: Ending)
    requires Starts(y) && Answered(x, snapshot, Good) && Answered(y, snapshot, ending)
    ensures Answered(x + y, snapshot, ending)
  {
    hide Verdict, AllGood, AllPersistable;
    if ending.Good? {
      WelcomeAppend(x, y, snapshot);
    } else {
      var front := y[..|y| - 1];
      assert (x + y)[..|x + y| - 1] == x + front;
      WelcomeAppend(x, front, snapshot);
      PersistableAppend(x, y);
    }
  }

  lemma LoggedThen(a: seq<Answer>, b: seq<Answer>, c: seq<Answer>, snapshot: Snapshot, ending: Ending, first: seq<seq<Request>>, second: seq<seq<Request>>)
    requires Logged(a, b, snapshot, Good, first) && Logged(b, c, snapshot, ending, second)
    ensures Logged(a, c, snapshot, ending, first + second)
  {
    hide Answered, Batches;
    var x, y := b[|a|..], c[|b|..];
    assert c[|a|..] == x + y;
    BatchesAppend(x, y);
    AnsweredAppend(x, y, snapshot, ending);
  }

  /** The ending an answer has by itself. */
  function EndingOf(verdict: Option<FailureCode>): Ending {
    if verdict.None? then Good else Bad(verdict.value)
  }

  /** One call other than for a projection. */
  lemma LoggedOne(log: seq<Answer>, answer: Answer, snapshot: Snapshot)
    requires answer.MetadataAnswer? || answer.EmbedAnswer?
    ensures Logged(log, log + [answer], snapshot, EndingOf(Verdict(answer, snapshot)), if answer.EmbedAnswer? then [answer.requests] else [])
  {
    hide Verdict;
    assert (log + [answer])[|log|..] == [answer];
    assert [answer][..0] == [];
    assert Batches([answer][..0]) == [];
    assert Batches([answer]) == if answer.EmbedAnswer? then [answer.requests] else [];
    if Verdict(answer, snapshot).None? { assert AllGood([answer], snapshot); }
  }

  lemma LoggedSent(before: seq<Answer>, after: seq<Answer>, snapshot: Snapshot, ending: Ending, sent: seq<seq<Request>>)
    requires Logged(before, after, snapshot, ending, sent)
    ensures before <= after && sent == Batches(after[|before|..])
    ensures Answered(after[|before|..], snapshot, ending)
    ensures Welcome(after[|before|..], snapshot) <==> ending.Good?
  {
    hide Batches, Verdict, AllPersistable;
    var answers := after[|before|..];
    if ending.Bad? { assert Verdict(answers[|answers| - 1], snapshot).Some?; }
  }

  // ---------------------------------------------------------------- one document's projection

  lemma {:induction false} PartsJoin(parsed: ParsedMarkdown, parts: seq<Answer>)
    requires Parts(parsed, parts)
    ensures Joined(parts).Some? && Batches(parts) == []
  {
    if parts != [] { PartsJoin(parsed, parts[..|parts| - 1]); }
  }

  /** The calls one document leads to. */
  function CallsOf(text: string, parsed: ParsedMarkdown, parts: seq<Answer>): seq<Answer> {
    [ParseAnswer(text, Some(parsed))] + parts
  }

  /** Call 0 parsed, the others split: no later call completes a projection. */
  lemma ProjectionFirst(text: string, parsed: ParsedMarkdown, parts: seq<Answer>)
    requires Parts(parsed, parts)
    ensures |parts| < |parsed.sections| ==> AllPersistable(CallsOf(text, parsed, parts))
    ensures |parts| == |parsed.sections| && Joined(parts).Some? ==>
              && Projects(CallsOf(text, parsed, parts), 0, text, parsed, Joined(parts).value)
              && (AllPersistable(CallsOf(text, parsed, parts)) <==> Persistable(parsed, Joined(parts).value))
  {
    hide Persistable, Joined;
    var answers := CallsOf(text, parsed, parts);
    if |parts| == |parsed.sections| {
      assert answers[1..1 + |parsed.sections|] == parts;
      assert Joined(parts).Some? ==> ProjectionAt(answers, 0) == Some((parsed, Joined(parts).value));
    }
    forall k: nat | 0 < k < |answers| ensures ProjectionAt(answers, k).None? { assert answers[k] == parts[k - 1]; }
  }

  lemma PartsWelcome(text: string, parsed: ParsedMarkdown, parts: seq<Answer>, snapshot: Snapshot)
    requires Parts(parsed, parts) && parsed.parserVersion == snapshot.parserVersion
    ensures AllGood(CallsOf(text, parsed, parts), snapshot) && Batches(CallsOf(text, parsed, parts)) == []
  {
    var first := [ParseAnswer(text, Some(parsed))];
    PartsJoin(parsed, parts);
    BatchesAppend(first, parts);
    assert first[..0] == [];
    assert Batches(first[..0]) == [];
  }

  /** A document parsed and split ends well or is refused. */
  lemma LoggedProjection(log: seq<Answer>, text: string, parsed: ParsedMarkdown, parts: seq<Answer>, chunks: seq<ChunkDraft>, snapshot: Snapshot)
    requires Parts(parsed, parts) && parsed.parserVersion == snapshot.parserVersion
    requires |parts| == |parsed.sections| && Joined(parts) == Some(chunks)
    ensures Logged(log, log + CallsOf(text, parsed, parts), snapshot, if Persistable(parsed, chunks) then Good else Refused, [])
    ensures Projects(CallsOf(text, parsed, parts), 0, text, parsed, chunks)
  {
    hide Persistable, AllPersistable, AllGood, Batches, Joined, Projects;
    var answers := CallsOf(text, parsed, parts);
    assert (log + answers)[|log|..] == answers;
    PartsWelcome(text, parsed, parts, snapshot);
    ProjectionFirst(text, parsed, parts);
    if !Persistable(parsed, chunks) { LastWelcome(text, parsed, parts, snapshot); }
  }

  lemma LastWelcome(text: string, parsed: ParsedMarkdown, parts: seq<Answer>, snapshot: Snapshot)
    requires Parts(parsed, parts) && parsed.parserVersion == snapshot.parserVersion && |parts| == |parsed.sections|
    ensures var answers := CallsOf(text, parsed, parts);
            Welcome(answers[..|answers| - 1], snapshot) && Verdict(answers[|answers| - 1], snapshot) == None
  {
    hide AllPersistable;
    var answers := CallsOf(text, parsed, parts);
    PartsWelcome(text, parsed, parts, snapshot);
    if parts == [] {
      NothingLogged([], snapshot);
      assert answers[..|answers| - 1] == [];
    } else {
      var front := parts[..|parts| - 1];
      assert answers[..|answers| - 1] == CallsOf(text, parsed, front);
      ProjectionFirst(text, parsed, front);
    }
  }

  /** A failing parse, or one of another version. */
  lemma LoggedParse(log: seq<Answer>, text: string, parsed: Option<ParsedMarkdown>, snapshot: Snapshot)
    requires Verdict(ParseAnswer(text, parsed), snapshot).Some?
    ensures Logged(log, log + [ParseAnswer(text, parsed)], snapshot, Bad(Verdict(ParseAnswer(text, parsed), snapshot).value), [])
  {
    hide Verdict;
    var answers := [ParseAnswer(text, parsed)];
    assert (log + answers)[|log|..] == answers;
    assert answers[..0] == [];
    assert Batches(answers[..0]) == [];
  }

  /** A split that fails. */
  lemma LoggedSplit(log: seq<Answer>, text: string, parsed: ParsedMarkdown, parts: seq<Answer>, last: Answer, snapshot: Snapshot)
    requires Parts(parsed, parts) && parsed.parserVersion == snapshot.parserVersion && |parts| < |parsed.sections|
    requires last.SplitAnswer? && last.chunks.None?
    ensures Logged(log, log + CallsOf(text, parsed, parts) + [last], snapshot, Bad(ParseFailure), [])
  {
    hide AllPersistable, AllGood;
    var front := CallsOf(text, parsed, parts);
    var answers := front + [last];
    assert (log + front + [last])[|log|..] == answers;
    assert answers[..|answers| - 1] == front;
    PartsWelcome(text, parsed, parts, snapshot);
    ProjectionFirst(text, parsed, parts);
  }

  // ---------------------------------------------------------------- stretches of the log

  /** The calls made since the log was `before`. */
  function Since(before: seq<Answer>, after: seq<Answer>): seq<Answer> {
    if |before| <= |after| then after[|before|..] else []
  }

  /** What a logged stretch is in itself. */
  lemma LoggedSince(before: seq<Answer>, after: seq<Answer>, snapshot: Snapshot, ending: Ending, sent: seq<seq<Request>>)
    requires Logged(before, after, snapshot, ending, sent)
    ensures before <= after && Starts(Since(before, after)) && Batches(Since(before, after)) == sent
  {
  }

  lemma StartsThen(x: seq<Answer>, y: seq<Answer>)
    requires Starts(x) && Starts(y)
    ensures Starts(x + y)
  {
  }

  lemma SinceThen(a: seq<Answer>, b: seq<Answer>, c: seq<Answer>)
    requires a <= b <= c
    ensures Since(a, c) == Since(a, b) + Since(b, c)
  {
  }
}
