/** Assigning each chunk to the one section whose line range contains it. */
module ChunkOwnership {
  import opened Basics
  import opened Documents
  import opened ArtifactIdentity

  predicate Contains(s: Section, c: ChunkDraft) {
    s.lineStart <= c.lineStart && c.lineEnd <= s.lineEnd
  }

  /** Ordinals of the sections whose line range contains the chunk. */
  function Candidates(sections: seq<Section>, chunk: ChunkDraft): seq<int> {
    if sections == [] then []
    else
      var last := |sections| - 1;
      Candidates(sections[..last], chunk) + (if Contains(sections[last], chunk) then [sections[last].ordinal] else [])
  }

  /** Every chunk has exactly one containing section, sections own consecutive
      ordinals, and chunks follow section order. */
  predicate Owned(sections: seq<Section>, chunks: seq<ChunkDraft>, owners: seq<int>) {
    && |owners| == |chunks|
    && (forall k :: 0 <= k < |chunks| ==> Candidates(sections, chunks[k]) == [owners[k]])
    && (forall i :: 0 <= i < |sections| ==> Counting(OrdinalsOf(chunks, owners, i)))
    && Sorted(owners)
  }

  function FirstCandidates(sections: seq<Section>, chunks: seq<ChunkDraft>): (owners: seq<int>)
    ensures |owners| == |chunks|
  {
    seq(|chunks|, k requires 0 <= k < |chunks| =>
      var c := Candidates(sections, chunks[k]); if c == [] then -1 else c[0])
  }

  function OwnersOf(sections: seq<Section>, chunks: seq<ChunkDraft>): (owners: Option<seq<int>>)
    ensures owners.Some? ==> Owned(sections, chunks, owners.value)
    ensures owners.None? ==> forall o :: !Owned(sections, chunks, o)
  {
    var owners := FirstCandidates(sections, chunks);
    assert forall o :: Owned(sections, chunks, o) ==> o == owners by {
      forall o | Owned(sections, chunks, o) ensures o == owners {
        forall k | 0 <= k < |chunks| ensures o[k] == owners[k] {
          assert Candidates(sections, chunks[k]) == [o[k]];
        }
      }
    }
    if Owned(sections, chunks, owners) then Some(owners) else None
  }

  lemma OwnersUnique(sections: seq<Section>, chunks: seq<ChunkDraft>, owners: seq<int>)
    requires Owned(sections, chunks, owners)
    ensures OwnersOf(sections, chunks) == Some(owners)
  {
    var found := OwnersOf(sections, chunks);
    assert found.Some? && Owned(sections, chunks, found.value);
    forall k | 0 <= k < |chunks| ensures found.value[k] == owners[k] {
      assert [found.value[k]][0] == [owners[k]][0];
    }
    assert found.value == owners;
  }

  lemma {:induction false} CandidatesInRange(sections: seq<Section>, chunk: ChunkDraft)
    requires Sequential(sections)
    ensures forall i :: 0 <= i < |Candidates(sections, chunk)| ==> 0 <= Candidates(sections, chunk)[i] < |sections|
  {
    if sections != [] {
      CandidatesInRange(sections[..|sections| - 1], chunk);
    }
  }

  /** The owner is the only section containing the chunk. */
  lemma {:induction false} SoleCandidate(sections: seq<Section>, chunk: ChunkDraft, owner: int)
    requires Sequential(sections) && Candidates(sections, chunk) == [owner]
    ensures 0 <= owner < |sections|
    ensures forall i :: 0 <= i < |sections| ==>
              (sections[i].lineStart <= chunk.lineStart && chunk.lineEnd <= sections[i].lineEnd <==> i == owner)
  {
    var last := |sections| - 1;
    var front := Candidates(sections[..last], chunk);
    if Contains(sections[last], chunk) {
      assert |front + [last]| == 1 && (front + [last])[0] == owner;
      NoCandidate(sections[..last], chunk);
    } else {
      SoleCandidate(sections[..last], chunk, owner);
    }
  }

  lemma {:induction false} NoCandidate(sections: seq<Section>, chunk: ChunkDraft)
    requires Candidates(sections, chunk) == []
    ensures forall i :: 0 <= i < |sections| ==> !Contains(sections[i], chunk)
  {
    if sections != [] {
      NoCandidate(sections[..|sections| - 1], chunk);
    }
  }

  /** The sole candidate of every chunk, and the ordinals collected per section. */
  method MapChunks(sections: seq<Section>, chunks: seq<ChunkDraft>)
    returns (unique: bool, owners: seq<int>, ordinals: seq<seq<int>>)
    requires Sequential(sections)
    ensures !unique ==> OwnersOf(sections, chunks) == None
    ensures unique ==> |owners| == |chunks| && |ordinals| == |sections|
    ensures unique ==> forall k :: 0 <= k < |chunks| ==> Candidates(sections, chunks[k]) == [owners[k]]
    ensures unique ==> forall i :: 0 <= i < |sections| ==> ordinals[i] == OrdinalsOf(chunks, owners, i)
  {
    hide OwnersOf;
    owners := [];
    ordinals := seq(|sections|, _ => []);
    for k := 0 to |chunks|
      invariant |owners| == k && |ordinals| == |sections|
      invariant forall j :: 0 <= j < k ==> Candidates(sections, chunks[j]) == [owners[j]]
      invariant forall i :: 0 <= i < |sections| ==> ordinals[i] == OrdinalsOf(chunks[..k], owners, i)
    {
      var candidates := CollectCandidates(sections, chunks[k]);
      if |candidates| != 1 {
        NotUnique(sections, chunks, k);
        return false, owners, ordinals;
      }
      CandidatesInRange(sections, chunks[k]);
      var owner := candidates[0];
      assert chunks[..k + 1][..k] == chunks[..k] && (owners + [owner])[..k] == owners;
      owners := owners + [owner];
      ordinals := ordinals[owner := ordinals[owner] + [chunks[k].ordinal]];
    }
    assert chunks[..|chunks|] == chunks;
    unique := true;
  }

  lemma NotUnique(sections: seq<Section>, chunks: seq<ChunkDraft>, k: nat)
    requires k < |chunks| && |Candidates(sections, chunks[k])| != 1
    ensures OwnersOf(sections, chunks) == None
  {
    assert |[FirstCandidates(sections, chunks)[k]]| == 1;
    assert !Owned(sections, chunks, FirstCandidates(sections, chunks));
  }

  /** A mapped chunk lies in its owner's lines and in no other section's. */
  lemma OwnersContain(sections: seq<Section>, chunks: seq<ChunkDraft>, owners: seq<int>)
    requires Sequential(sections) && Owned(sections, chunks, owners)
    ensures forall k, i :: 0 <= k < |chunks| && 0 <= i < |sections| ==>
              (sections[i].lineStart <= chunks[k].lineStart && chunks[k].lineEnd <= sections[i].lineEnd <==> i == owners[k])
  {
    hide Candidates;
    forall k | 0 <= k < |chunks|
      ensures forall i :: 0 <= i < |sections| ==>
                (sections[i].lineStart <= chunks[k].lineStart && chunks[k].lineEnd <= sections[i].lineEnd <==> i == owners[k])
    {
      SoleCandidate(sections, chunks[k], owners[k]);
    }
  }

  /** _validate_and_map_chunks */
  method ValidateAndMapChunks(sections: seq<Section>, chunks: seq<ChunkDraft>) returns (mapped: Option<seq<int>>)
    requires Sequential(sections)
    ensures mapped == OwnersOf(sections, chunks)
    ensures mapped.Some? ==> |mapped.value| == |chunks|
    ensures mapped.Some? ==> forall k, i :: 0 <= k < |chunks| && 0 <= i < |sections| ==>
              (sections[i].lineStart <= chunks[k].lineStart && chunks[k].lineEnd <= sections[i].lineEnd <==> i == mapped.value[k])
  {
    hide OwnersOf;
    var unique, owners, ordinals := MapChunks(sections, chunks);
    if !unique { return None; }
    for i := 0 to |sections|
      invariant forall j :: 0 <= j < i ==> Counting(OrdinalsOf(chunks, owners, j))
    {
      if !Counting(ordinals[i]) {
        assert !Counting(OrdinalsOf(chunks, owners, i));
        RejectMapped(sections, chunks, owners);
        return None;
      }
    }
    if !Sorted(owners) {
      RejectMapped(sections, chunks, owners);
      return None;
    }
    OwnersUnique(sections, chunks, owners);
    OwnersContain(sections, chunks, owners);
    return Some(owners);
  }

  lemma RejectMapped(sections: seq<Section>, chunks: seq<ChunkDraft>, owners: seq<int>)
    requires |owners| == |chunks| && forall k :: 0 <= k < |chunks| ==> Candidates(sections, chunks[k]) == [owners[k]]
    requires !Owned(sections, chunks, owners)
    ensures OwnersOf(sections, chunks) == None
  {
    var first := FirstCandidates(sections, chunks);
    assert first == owners;
  }

  method CollectCandidates(sections: seq<Section>, chunk: ChunkDraft) returns (candidates: seq<int>)
    ensures candidates == Candidates(sections, chunk)
  {
    candidates := [];
    for i := 0 to |sections|
      invariant candidates == Candidates(sections[..i], chunk)
    {
      assert sections[..i + 1][..i] == sections[..i];
      if Contains(sections[i], chunk) {
        candidates := candidates + [sections[i].ordinal];
      }
    }
    assert sections[..|sections|] == sections;
  }

  lemma {:induction false} StoredCandidates(sections: seq<Section>, chunk: ChunkDraft)
    ensures Candidates(StoredSections(sections), StoredDraft(chunk)) == Candidates(sections, chunk)
  {
    if sections != [] {
      var last := |sections| - 1;
      StoredCandidates(sections[..last], chunk);
      assert StoredSections(sections)[..last] == StoredSections(sections[..last]);
    }
  }

  /** Ownership only depends on what is persisted. */
  lemma StoredOwners(sections: seq<Section>, chunks: seq<ChunkDraft>)
    ensures OwnersOf(StoredSections(sections), StoredDrafts(chunks)) == OwnersOf(sections, chunks)
  {
    var s, c := StoredSections(sections), StoredDrafts(chunks);
    forall k | 0 <= k < |chunks| ensures Candidates(s, c[k]) == Candidates(sections, chunks[k]) {
      StoredCandidates(sections, chunks[k]);
    }
    var owners := FirstCandidates(sections, chunks);
    assert FirstCandidates(s, c) == owners;
    forall i: int ensures OrdinalsOf(c, owners, i) == OrdinalsOf(chunks, owners, i) {
      StoredOrdinals(chunks, owners, i);
    }
  }
}
