/** The identity of one persisted parse: which section/chunk projections are
    admissible, and the digest that covers every persisted field. */
module ArtifactIdentity {
  import opened Basics
  import opened Text
  import opened Documents

  datatype ChunkPayload = ChunkPayload(owner: int, draft: ChunkDraft)

  datatype Payload = Payload(sections: seq<Section>, chunks: seq<ChunkPayload>)

  /** SHA-256 of canonical JSON, taken to be injective on payloads. */
  datatype ArtifactHash = Sha256OfJson(payload: Payload)

  datatype Manifest = Manifest(sectionCount: nat, chunkCount: nat, artifactHash: ArtifactHash)

  // ---------------------------------------------------------------- specification

  predicate Sorted(s: seq<int>) {
    forall i, j :: 0 <= i < j < |s| ==> s[i] <= s[j]
  }

  /** `s == list(range(len(s)))` */
  predicate Counting(s: seq<int>) {
    forall i :: 0 <= i < |s| ==> s[i] == i
  }

  /** The chunk ordinals of one section, in chunk order. */
  function OrdinalsOf(chunks: seq<ChunkDraft>, owners: seq<int>, owner: int): (ordinals: seq<int>)
    requires |owners| == |chunks|
  {
    if chunks == [] then []
    else
      var last := |chunks| - 1;
      OrdinalsOf(chunks[..last], owners[..last], owner)
        + (if owners[last] == owner then [chunks[last].ordinal] else [])
  }

  /** The declarative meaning of an admissible projection. */
  predicate Coherent(sections: seq<Section>, chunks: seq<ChunkDraft>, owners: seq<int>) {
    && sections != []
    && Sequential(sections)
    && |owners| == |chunks|
    && (forall k :: 0 <= k < |owners| ==> 0 <= owners[k] < |sections|)
    && Sorted(owners)
    && (forall i :: 0 <= i < |sections| ==> Counting(OrdinalsOf(chunks, owners, i)))
    && (forall i :: 0 <= i < |sections| ==> (Blank(sections[i].body) <==> OrdinalsOf(chunks, owners, i) == []))
  }

  function ChunkPayloads(chunks: seq<ChunkDraft>, owners: seq<int>): seq<ChunkPayload>
    requires |owners| == |chunks|
  {
    seq(|chunks|, k requires 0 <= k < |chunks| => ChunkPayload(owners[k], StoredDraft(chunks[k])))
  }

  function ManifestOf(sections: seq<Section>, chunks: seq<ChunkDraft>, owners: seq<int>): Option<Manifest> {
    if Coherent(sections, chunks, owners) then
      Some(Manifest(|sections|, |chunks|,
                    Sha256OfJson(Payload(StoredSections(sections), ChunkPayloads(chunks, owners)))))
    else None
  }

  // ---------------------------------------------------------------- one-pass counters

  /** What the one-pass counters know after `k` chunks. */
  ghost predicate Walked(chunks: seq<ChunkDraft>, owners: seq<int>, k: nat,
                         counts: seq<nat>, previous: int, expected: nat)
  {
    && k <= |chunks| == |owners|
    && -1 <= previous < |counts|
    && (if k == 0 then previous == -1 && expected == 0
        else previous == owners[k - 1] && previous >= 0 && expected == counts[previous])
    && (forall j :: 0 <= j < k ==> 0 <= owners[j] <= previous)
    && Sorted(owners[..k])
    && (forall i :: 0 <= i < |counts| ==> Counting(OrdinalsOf(chunks[..k], owners[..k], i)))
    && (forall i :: 0 <= i < |counts| ==> counts[i] == |OrdinalsOf(chunks[..k], owners[..k], i)|)
    && (forall i :: previous < i < |counts| ==> counts[i] == 0)
  }

  /** The ordinals seen in a prefix are a prefix of the ordinals seen in all. */
  lemma {:induction false} OrdinalsPrefix(chunks: seq<ChunkDraft>, owners: seq<int>, k: nat, owner: int)
    requires k <= |chunks| == |owners|
    ensures OrdinalsOf(chunks[..k], owners[..k], owner) <= OrdinalsOf(chunks, owners, owner)
  {
    if k == |chunks| {
      assert chunks[..k] == chunks && owners[..k] == owners;
    } else {
      var last := |chunks| - 1;
      OrdinalsPrefix(chunks[..last], owners[..last], k, owner);
      assert chunks[..last][..k] == chunks[..k] && owners[..last][..k] == owners[..k];
    }
  }

  lemma OrdinalsExtend(chunks: seq<ChunkDraft>, owners: seq<int>, k: nat, owner: int)
    requires k < |chunks| == |owners|
    ensures OrdinalsOf(chunks[..k + 1], owners[..k + 1], owner)
         == OrdinalsOf(chunks[..k], owners[..k], owner)
            + (if owners[k] == owner then [chunks[k].ordinal] else [])
  {
    assert chunks[..k + 1][..k] == chunks[..k] && owners[..k + 1][..k] == owners[..k];
  }

  /** The ordinal the counters expect next for `owner`. */
  function NextOrdinal(owner: int, previous: int, expected: nat): nat {
    if owner != previous then 0 else expected
  }

  lemma WalkStep(chunks: seq<ChunkDraft>, owners: seq<int>, k: nat,
                 counts: seq<nat>, previous: int, expected: nat)
    requires Walked(chunks, owners, k, counts, previous, expected) && k < |chunks|
    requires 0 <= owners[k] < |counts| && previous <= owners[k]
    requires chunks[k].ordinal == NextOrdinal(owners[k], previous, expected)
    ensures Walked(chunks, owners, k + 1, counts[owners[k] := counts[owners[k]] + 1],
                   owners[k], chunks[k].ordinal + 1)
  {
    var owner, counts' := owners[k], counts[owners[k] := counts[owners[k]] + 1];
    var chunks', owners' := chunks[..k + 1], owners[..k + 1];
    assert chunks[k].ordinal == counts[owner];
    assert owners' == owners[..k] + [owner];
    forall i | 0 <= i < |counts'|
      ensures Counting(OrdinalsOf(chunks', owners', i))
      ensures counts'[i] == |OrdinalsOf(chunks', owners', i)|
    {
      OrdinalsExtend(chunks, owners, k, i);
      assert Counting(OrdinalsOf(chunks[..k], owners[..k], i));
    }
  }

  lemma WalkReject(sections: seq<Section>, chunks: seq<ChunkDraft>, owners: seq<int>, k: nat,
                   counts: seq<nat>, previous: int, expected: nat)
    requires Walked(chunks, owners, k, counts, previous, expected) && k < |chunks|
    requires |counts| == |sections|
    requires !(0 <= owners[k] < |counts| && previous <= owners[k])
          || chunks[k].ordinal != NextOrdinal(owners[k], previous, expected)
    ensures !Coherent(sections, chunks, owners)
  {
    var owner := owners[k];
    if 0 <= owner < |counts| && previous <= owner {
      var all := OrdinalsOf(chunks, owners, owner);
      OrdinalsExtend(chunks, owners, k, owner);
      OrdinalsPrefix(chunks, owners, k + 1, owner);
      assert all[counts[owner]] == chunks[k].ordinal;
      assert !Counting(all);
    } else if 0 <= owner {
      assert owner >= |sections| || owners[k - 1] > owners[k];
    }
  }

  /** The chunk loop: chunk counts per section and chunk payloads, or None at the
      first chunk out of order. */
  method WalkChunks(sections: seq<Section>, chunks: seq<ChunkDraft>, owners: seq<int>)
    returns (accepted: bool, counts: seq<nat>, payloads: seq<ChunkPayload>)
    requires sections != [] && |owners| == |chunks|
    ensures !accepted ==> !Coherent(sections, chunks, owners)
    ensures accepted ==> |counts| == |sections| && payloads == ChunkPayloads(chunks, owners)
    ensures accepted ==> (forall k :: 0 <= k < |owners| ==> 0 <= owners[k] < |sections|) && Sorted(owners)
    ensures accepted ==> forall i :: 0 <= i < |sections| ==>
              Counting(OrdinalsOf(chunks, owners, i)) && counts[i] == |OrdinalsOf(chunks, owners, i)|
  {
    counts := seq(|sections|, _ => 0);
    payloads := [];
    var previous := -1;
    var expected: nat := 0;
    for k := 0 to |chunks|
      invariant |counts| == |sections|
      invariant Walked(chunks, owners, k, counts, previous, expected)
      invariant payloads == ChunkPayloads(chunks[..k], owners[..k])
    {
      var owner, chunk := owners[k], chunks[k];
      if owner < 0 || owner >= |sections| || owner < previous {
        WalkReject(sections, chunks, owners, k, counts, previous, expected);
        return false, counts, payloads;
      }
      var next := if owner != previous then 0 else expected;
      if chunk.ordinal != next {
        WalkReject(sections, chunks, owners, k, counts, previous, expected);
        return false, counts, payloads;
      }
      WalkStep(chunks, owners, k, counts, previous, expected);
      counts := counts[owner := counts[owner] + 1];
      previous := owner;
      expected := next + 1;
      payloads := payloads + [ChunkPayload(owner, StoredDraft(chunk))];
    }
    assert chunks[..|chunks|] == chunks && owners[..|owners|] == owners;
    accepted := true;
  }

  /** parse_artifact_manifest: one pass over the chunks decides `Coherent`. */
  method ParseArtifactManifest(sections: seq<Section>, chunks: seq<ChunkDraft>, owners: seq<int>)
    returns (manifest: Option<Manifest>)
    ensures manifest == ManifestOf(sections, chunks, owners)
  {
    if sections == [] { return None; }
    for i := 0 to |sections|
      invariant forall j :: 0 <= j < i ==> sections[j].ordinal == j
    {
      if sections[i].ordinal != i { return None; }
    }
    if |owners| != |chunks| { return None; }
    var accepted, counts, payloads := WalkChunks(sections, chunks, owners);
    if !accepted { return None; }
    for i := 0 to |sections|
      invariant forall j :: 0 <= j < i ==> (Blank(sections[j].body) <==> counts[j] == 0)
    {
      if Blank(sections[i].body) != (counts[i] == 0) {
        assert Blank(sections[i].body) != (OrdinalsOf(chunks, owners, i) == []);
        return None;
      }
    }
    assert Coherent(sections, chunks, owners);
    return Some(Manifest(|sections|, |chunks|, Sha256OfJson(Payload(StoredSections(sections), payloads))));
  }

  /** The digest covers every persisted field: equal manifests mean equal projections. */
  lemma ManifestInjective(sections: seq<Section>, chunks: seq<ChunkDraft>, owners: seq<int>,
                          sections': seq<Section>, chunks': seq<ChunkDraft>, owners': seq<int>)
    requires ManifestOf(sections, chunks, owners).Some?
    ensures ManifestOf(sections, chunks, owners) == ManifestOf(sections', chunks', owners')
       <==> StoredSections(sections) == StoredSections(sections')
            && StoredDrafts(chunks) == StoredDrafts(chunks') && owners == owners'
  {
    if StoredSections(sections) == StoredSections(sections') && StoredDrafts(chunks) == StoredDrafts(chunks') && owners == owners' {
      StoredFormCoherent(sections, chunks, owners);
      StoredFormCoherent(sections', chunks', owners');
      assert |chunks| == |StoredDrafts(chunks)| == |chunks'|;
      forall k | 0 <= k < |chunks| ensures StoredDraft(chunks[k]) == StoredDraft(chunks'[k]) {
        assert StoredDrafts(chunks)[k] == StoredDrafts(chunks')[k];
      }
      assert ChunkPayloads(chunks, owners) == ChunkPayloads(chunks', owners');
    }
    var m, m' := ManifestOf(sections, chunks, owners), ManifestOf(sections', chunks', owners');
    if m == m' {
      var p, p' := ChunkPayloads(chunks, owners), ChunkPayloads(chunks', owners');
      assert p == p';
      forall k | 0 <= k < |chunks| ensures StoredDraft(chunks[k]) == StoredDraft(chunks'[k]) && owners[k] == owners'[k] {
        assert p[k] == p'[k];
      }
    }
  }

  lemma {:induction false} StoredOrdinals(chunks: seq<ChunkDraft>, owners: seq<int>, owner: int)
    requires |owners| == |chunks|
    ensures OrdinalsOf(StoredDrafts(chunks), owners, owner) == OrdinalsOf(chunks, owners, owner)
  {
    if chunks != [] {
      var last := |chunks| - 1;
      StoredOrdinals(chunks[..last], owners[..last], owner);
      assert StoredDrafts(chunks)[..last] == StoredDrafts(chunks[..last]);
    }
  }

  /** Persisting a projection does not change its admissibility or its manifest. */
  lemma StoredFormCoherent(sections: seq<Section>, chunks: seq<ChunkDraft>, owners: seq<int>)
    ensures Coherent(StoredSections(sections), StoredDrafts(chunks), owners) == Coherent(sections, chunks, owners)
    ensures ManifestOf(StoredSections(sections), StoredDrafts(chunks), owners) == ManifestOf(sections, chunks, owners)
  {
    var s, c := StoredSections(sections), StoredDrafts(chunks);
    assert StoredSections(s) == s && StoredDrafts(c) == c;
    assert forall i :: 0 <= i < |s| ==> s[i].ordinal == sections[i].ordinal && s[i].body == sections[i].body;
    if |owners| == |chunks| {
      forall i: int ensures OrdinalsOf(c, owners, i) == OrdinalsOf(chunks, owners, i) {
        StoredOrdinals(chunks, owners, i);
      }
      assert ChunkPayloads(c, owners) == ChunkPayloads(chunks, owners);
    }
  }
}
