/** parse_relation_sidecar, after its JSON has been decoded. */
module Relations {
  import opened Basics
  import opened IndexProgress
  import opened PhysicalLines

  datatype RelationType = Supersedes | PotentialConflict

  datatype Relation = Relation(
    from: string, to: string, relationType: RelationType, evidence: string, lineStart: int, lineEnd: int)

  datatype RawRelation = RawRelation(
    from: string, to: string, relationType: string, evidence: string, lineStart: int, lineEnd: int)

  /** canonical_source_path: None is an unsafe path. */
  type Canonical = string -> Option<string>

  function TypeOf(text: string): Option<RelationType> {
    if text == "supersedes" then Some(Supersedes)
    else if text == "potential_conflict" then Some(PotentialConflict)
    else None
  }

  predicate IsCanonical(canonical: Canonical, path: string) {
    canonical(path) == Some(path)
  }

  /** _parse_relation_entry with the checks of DocumentRelationSpec. */
  function ParseEntry(raw: RawRelation, canonical: Canonical): Option<Relation> {
    var relationType := TypeOf(raw.relationType);
    if relationType.None? || raw.lineStart < 1 || raw.lineEnd < raw.lineStart then None
    else
      var from, to, evidence := canonical(raw.from), canonical(raw.to), canonical(raw.evidence);
      if from.None? || to.None? || evidence.None? then None
      else if !IsCanonical(canonical, from.value) || !IsCanonical(canonical, to.value) || !IsCanonical(canonical, evidence.value) then None
      else if from == to then None
      else Some(Relation(from.value, to.value, relationType.value, evidence.value, raw.lineStart, raw.lineEnd))
  }

  /** The relation an entry states, field by field. */
  predicate Reads(raw: RawRelation, canonical: Canonical, r: Relation) {
    && canonical(raw.from) == Some(r.from) && canonical(raw.to) == Some(r.to) && canonical(raw.evidence) == Some(r.evidence)
    && IsCanonical(canonical, r.from) && IsCanonical(canonical, r.to) && IsCanonical(canonical, r.evidence)
    && r.from != r.to && 1 <= r.lineStart <= r.lineEnd
    && r.lineStart == raw.lineStart && r.lineEnd == raw.lineEnd
    && ((raw.relationType == "supersedes" && r.relationType.Supersedes?)
        || (raw.relationType == "potential_conflict" && r.relationType.PotentialConflict?))
  }

  lemma EntryReads(raw: RawRelation, canonical: Canonical, r: Relation)
    ensures ParseEntry(raw, canonical) == Some(r) <==> Reads(raw, canonical, r)
  {
  }

  predicate Exists(files: seq<ArchiveFile>, path: string) {
    exists i :: 0 <= i < |files| && files[i].path == path
  }

  /** The text has at least n physical lines. */
  ghost predicate HasLines(text: string, n: int) {
    exists lines :: IsSplit(lines) && Concat(lines) == text && n <= |lines|
  }

  /** The cited lines exist in the evidence document. */
  ghost predicate EvidenceExists(files: seq<ArchiveFile>, r: Relation) {
    exists i :: 0 <= i < |files| && files[i].path == r.evidence && files[i].text.Some? && HasLines(files[i].text.value, r.lineEnd)
  }

  ghost predicate Grounded(files: seq<ArchiveFile>, r: Relation) {
    Exists(files, r.from) && Exists(files, r.to) && EvidenceExists(files, r)
  }

  /** Two declarations of one conflict, in either direction. */
  predicate SameConflict(a: Relation, b: Relation) {
    a.relationType.PotentialConflict? && b.relationType.PotentialConflict? && {a.from, a.to} == {b.from, b.to}
  }

  /** A sidecar's relations: each grounded, none repeated, no conflict declared twice. */
  ghost predicate Acceptable(files: seq<ArchiveFile>, relations: seq<Relation>) {
    && (forall i :: 0 <= i < |relations| ==> Grounded(files, relations[i]))
    && (forall i, j :: 0 <= i < j < |relations| ==> relations[i] != relations[j] && !SameConflict(relations[i], relations[j]))
  }

  ghost predicate Parses(raw: seq<RawRelation>, canonical: Canonical, relations: seq<Relation>) {
    |relations| == |raw| && forall i :: 0 <= i < |raw| ==> Reads(raw[i], canonical, relations[i])
  }

  /** _validate_evidence_range on the first file with the path. */
  method CheckEvidence(files: seq<ArchiveFile>, r: Relation) returns (ok: bool)
    requires DistinctPaths(files)
    ensures ok <==> EvidenceExists(files, r)
  {
    if i :| 0 <= i < |files| && files[i].path == r.evidence {
      if files[i].text.None? { return false; }
      var lines := SplitPhysicalLines(files[i].text.value);
      ok := r.lineEnd <= |lines|;
      if HasLines(files[i].text.value, r.lineEnd) {
        var other :| IsSplit(other) && Concat(other) == files[i].text.value && r.lineEnd <= |other|;
        SplitUnique(lines, other);
      }
      assert forall j :: 0 <= j < |files| && files[j].path == r.evidence ==> j == i;
      return ok;
    }
    return false;
  }

  /** The pairs of all declared conflicts. */
  ghost predicate ConflictSet(found: seq<Relation>, conflicts: set<set<string>>) {
    forall pair :: pair in conflicts <==>
      exists j :: 0 <= j < |found| && found[j].relationType.PotentialConflict? && {found[j].from, found[j].to} == pair
  }

  /** The loop's two seen-sets after i entries. */
  ghost predicate Tracks(raw: seq<RawRelation>, files: seq<ArchiveFile>, canonical: Canonical, i: nat,
                         found: seq<Relation>, seen: set<Relation>, conflicts: set<set<string>>)
  {
    && i <= |raw| && Parses(raw[..i], canonical, found) && Acceptable(files, found)
    && seen == Elements(found) && ConflictSet(found, conflicts)
  }

  /** No parse of the entries is acceptable. */
  ghost predicate Hopeless(raw: seq<RawRelation>, files: seq<ArchiveFile>, canonical: Canonical) {
    forall all :: Parses(raw, canonical, all) ==> !Acceptable(files, all)
  }

  /** parse_relation_sidecar: accepted exactly when every entry parses and the relations
      are acceptable; the result is them, in order. */
  method ParseRelationSidecar(raw: seq<RawRelation>, files: seq<ArchiveFile>, canonical: Canonical) returns (relations: Option<seq<Relation>>)
    requires DistinctPaths(files)
    ensures relations.Some? ==> Parses(raw, canonical, relations.value) && Acceptable(files, relations.value)
    ensures relations.None? ==> Hopeless(raw, files, canonical)
  {
    hide Tracks, Parses, Acceptable, Hopeless, EvidenceExists, ParseEntry;
    var found: seq<Relation> := [];
    var seen: set<Relation>, conflicts: set<set<string>> := {}, {};
    TrackNothing(raw, files, canonical);
    for i := 0 to |raw|
      invariant Tracks(raw, files, canonical, i, found, seen, conflicts)
    {
      var entry := ParseEntry(raw[i], canonical);
      if entry.None? {
        Unparsed(raw, files, canonical, i);
        return None;
      }
      var r := entry.value;
      var grounded := CheckEvidence(files, r);
      if !Exists(files, r.from) || !Exists(files, r.to) || !grounded {
        Refused(raw, files, canonical, i, r);
        return None;
      }
      if r in seen || (r.relationType.PotentialConflict? && {r.from, r.to} in conflicts) {
        Repeated(raw, files, canonical, found, seen, conflicts, i, r);
        return None;
      }
      Accepted(raw, files, canonical, i, found, seen, conflicts, r);
      if r.relationType.PotentialConflict? { conflicts := conflicts + {{r.from, r.to}}; }
      found := found + [r];
      seen := seen + {r};
    }
    AllTracked(raw, files, canonical, found, seen, conflicts);
    return Some(found);
  }

  lemma TrackNothing(raw: seq<RawRelation>, files: seq<ArchiveFile>, canonical: Canonical)
    ensures Tracks(raw, files, canonical, 0, [], {}, {})
  {
  }

  lemma AllTracked(raw: seq<RawRelation>, files: seq<ArchiveFile>, canonical: Canonical,
                   found: seq<Relation>, seen: set<Relation>, conflicts: set<set<string>>)
    requires Tracks(raw, files, canonical, |raw|, found, seen, conflicts)
    ensures Parses(raw, canonical, found) && Acceptable(files, found)
  {
    assert raw[..|raw|] == raw;
  }

  lemma Accepted(raw: seq<RawRelation>, files: seq<ArchiveFile>, canonical: Canonical, i: nat,
                 found: seq<Relation>, seen: set<Relation>, conflicts: set<set<string>>, r: Relation)
    requires Tracks(raw, files, canonical, i, found, seen, conflicts) && i < |raw| && ParseEntry(raw[i], canonical) == Some(r)
    requires Grounded(files, r) && r !in seen && (r.relationType.PotentialConflict? ==> {r.from, r.to} !in conflicts)
    ensures Tracks(raw, files, canonical, i + 1, found + [r], seen + {r},
                   if r.relationType.PotentialConflict? then conflicts + {{r.from, r.to}} else conflicts)
  {
    hide Grounded, ParseEntry, Reads;
    EntryReads(raw[i], canonical, r);
    var more := found + [r];
    forall j | 0 <= j < |found| ensures found[j] != r && !SameConflict(found[j], r) {
      assert found[j] in seen;
    }
    assert Acceptable(files, more);
    assert raw[..i + 1] == raw[..i] + [raw[i]];
    assert Parses(raw[..i + 1], canonical, more);
    assert Elements(more) == Elements(found) + {r};
    ConflictsOf(found, conflicts, r);
  }

  lemma ConflictsOf(found: seq<Relation>, conflicts: set<set<string>>, r: Relation)
    requires ConflictSet(found, conflicts)
    ensures ConflictSet(found + [r], if r.relationType.PotentialConflict? then conflicts + {{r.from, r.to}} else conflicts)
  {
    var more := found + [r];
    var after := if r.relationType.PotentialConflict? then conflicts + {{r.from, r.to}} else conflicts;
    forall pair | pair in after
      ensures exists j :: 0 <= j < |more| && more[j].relationType.PotentialConflict? && {more[j].from, more[j].to} == pair
    {
      if pair in conflicts {
        var j :| 0 <= j < |found| && found[j].relationType.PotentialConflict? && {found[j].from, found[j].to} == pair;
        assert more[j] == found[j];
      } else {
        assert more[|found|] == r;
      }
    }
  }

  lemma Unparsed(raw: seq<RawRelation>, files: seq<ArchiveFile>, canonical: Canonical, i: nat)
    requires i < |raw| && ParseEntry(raw[i], canonical).None?
    ensures Hopeless(raw, files, canonical)
  {
    hide ParseEntry, Acceptable, Reads;
    forall all ensures !Parses(raw, canonical, all) {
      if |all| == |raw| { EntryReads(raw[i], canonical, all[i]); }
    }
  }

  lemma Refused(raw: seq<RawRelation>, files: seq<ArchiveFile>, canonical: Canonical, i: nat, r: Relation)
    requires i < |raw| && ParseEntry(raw[i], canonical) == Some(r) && !Grounded(files, r)
    ensures Hopeless(raw, files, canonical)
  {
    hide Grounded, ParseEntry, Reads;
    forall all | Parses(raw, canonical, all) ensures !Acceptable(files, all) {
      EntryReads(raw[i], canonical, all[i]);
      assert all[i] == r;
    }
  }

  lemma Repeated(raw: seq<RawRelation>, files: seq<ArchiveFile>, canonical: Canonical,
                 found: seq<Relation>, seen: set<Relation>, conflicts: set<set<string>>, i: nat, r: Relation)
    requires Tracks(raw, files, canonical, i, found, seen, conflicts) && i < |raw| && ParseEntry(raw[i], canonical) == Some(r)
    requires r in seen || (r.relationType.PotentialConflict? && {r.from, r.to} in conflicts)
    ensures Hopeless(raw, files, canonical)
  {
    hide Grounded, ParseEntry, Reads;
    var j :| 0 <= j < |found| && (found[j] == r || SameConflict(found[j], r));
    assert raw[..i][j] == raw[j];
    forall all | Parses(raw, canonical, all) ensures !Acceptable(files, all) {
      EntryReads(raw[i], canonical, all[i]);
      EntryReads(raw[j], canonical, all[j]);
      EntryReads(raw[j], canonical, found[j]);
      assert all[i] == r && all[j] == found[j];
    }
  }
}
