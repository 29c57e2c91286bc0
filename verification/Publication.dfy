/** _atomic_publish: replace the manifest by a staged file, keeping a hard link to the
    prior one so that a later failure can put it back. */
module Publication {
  import opened Basics
  import opened Volume

  /** A descriptor whose close reported an error is gone: closing it again fails too. */
  datatype Descriptor = Closed | Open | Broken

  datatype Published = Published(backup: Option<Name>, previous: Option<nat>, content: Option<Bytes>, inode: nat)

  /** The locals that steer the finally block. */
  datatype Locals = Locals(
    descriptor: Descriptor, temporary: Option<Name>, backup: Option<Name>, previous: Option<nat>,
    publication: Option<Published>)

  /** How far a failing attempt got. */
  datatype Phase =
    | Preparing                      // before the rename
    | DescriptorBroken(name: Name)   // closing the staged file failed
    | PlaceholderLeft(name: Name)    // closing or unlinking the backup placeholder failed
    | Unprotected                    // renamed, publication record not yet made
    | Protected                      // rollback covers the rest

  datatype Outcome = Success | NotStarted | Failure(phase: Phase)

  /** What the caller's three checks answer: before the rename, after it, and last. */
  datatype Checks = Checks(before: bool, after: bool, final: bool)

  const MAX_MANIFEST_BYTES: nat := 256 * (4096 + 512)

  /** The manifest a publication finds. */
  datatype Prior = Absent | NotRegular | Unreadable | Fit

  function PriorOf(d: Dir): Prior {
    if Manifest !in d.entries then Absent
    else match Shown(d, Manifest)
      case None => NotRegular
      case Some(bytes) => if 0 < |bytes| <= MAX_MANIFEST_BYTES then Fit else Unreadable
  }

  // ---------------------------------------------------------------- what holds in between

  function Own(l: Locals): set<Name> {
    {Manifest} + (if l.temporary.Some? then {l.temporary.value} else {}) + (if l.backup.Some? then {l.backup.value} else {})
  }

  /** Names in play were drawn by this attempt. */
  predicate Drew(d0: Dir, l: Locals) {
    && (l.temporary.Some? ==> l.temporary.value.Drawn? && l.temporary.value !in d0.entries)
    && (l.backup.Some? ==> l.backup.value.Drawn? && l.backup.value !in d0.entries && l.backup != l.temporary)
  }

  /** Only the attempt's own names and `left` differ from the start, and the staged inode
      is behind the temporary name or, after the rename, the manifest. */
  ghost predicate Underway(d0: Dir, d: Dir, l: Locals, inode: nat, left: set<Name>) {
    match l
    case Locals(_, temporary, backup, previous, _) =>
      && Valid(d) && KeepsFiles(d0, d) && inode !in d0.files && Drew(d0, l)
      && (forall n :: n !in Own(l) && n !in left ==> Entry(d, n) == Entry(d0, n))
      && (temporary.Some? ==> Entry(d, temporary.value) == Some(inode) && Entry(d, Manifest) == Entry(d0, Manifest))
      && (temporary.None? ==> Entry(d, Manifest) == Some(inode))
      && (backup.Some? && backup.value !in left ==> Entry(d, backup.value) == None || (previous.Some? && Entry(d, backup.value) == previous))
      && (previous.Some? ==> previous == Entry(d0, Manifest))
  }

  ghost predicate Staged(d: Dir, inode: nat, content: Bytes) {
    inode in d.files && d.files[inode] == Regular(content)
  }

  /** Every entry but the manifest is as before. */
  ghost predicate OthersSame(d0: Dir, d: Dir) {
    forall n :: n != Manifest ==> Entry(d, n) == Entry(d0, n)
  }

  // ---------------------------------------------------------------- writing

  /** Inodes other than `inode` keep their content. */
  ghost predicate OtherFilesSame(a: Dir, b: Dir, inode: nat) {
    forall i :: i in a.files && i != inode ==> i in b.files && b.files[i] == a.files[i]
  }

  /** The first `offset` bytes are in the file, and nothing else has changed. */
  ghost predicate Written(a: Dir, b: Dir, inode: nat, content: Bytes, offset: nat) {
    offset <= |content| && Valid(b) && b.entries == a.entries && Staged(b, inode, content[..offset]) && OtherFilesSame(a, b, inode)
  }

  lemma WriteStep(a: Dir, b: Dir, c: Dir, inode: nat, content: Bytes, offset: nat, n: nat)
    requires Written(a, b, inode, content, offset) && n <= |content| - offset
    requires c == b.(files := b.files[inode := Regular(b.files[inode].bytes + content[offset..][..n])])
    ensures Written(a, c, inode, content, offset + n)
  {
    assert content[..offset] + content[offset..][..n] == content[..offset + n];
  }

  lemma WriteFacts(a: Dir, b: Dir, inode: nat, content: Bytes, offset: nat)
    requires Written(a, b, inode, content, offset)
    ensures offset <= |content| && Valid(b) && b.entries == a.entries && OtherFilesSame(a, b, inode)
    ensures inode in b.files && b.files[inode].Regular?
    ensures offset == |content| ==> Staged(b, inode, content)
  {
    if offset == |content| { assert content[..offset] == content; }
  }

  /** The write loop; a call that writes nothing ends it. */
  method WriteAll(directory: Directory, inode: nat, content: Bytes) returns (ok: bool)
    requires Valid(directory.dir) && Staged(directory.dir, inode, [])
    modifies directory
    ensures Valid(directory.dir) && directory.dir.entries == old(directory.dir).entries
    ensures inode in directory.dir.files && directory.dir.files[inode].Regular?
    ensures OtherFilesSame(old(directory.dir), directory.dir, inode)
    ensures ok ==> Staged(directory.dir, inode, content)
    ensures ok ==> Clear(directory.faults, old(directory.calls), directory.calls)
    ensures ok ==> directory.calls == old(directory.calls) + WriteCalls(directory.room, old(directory.calls), |content|)
    ensures !ok ==> old(directory.calls) < directory.calls && Hits(directory.faults, old(directory.calls), directory.calls - 1)
    ensures !ok ==> directory.calls <= old(directory.calls) + WriteCalls(directory.room, old(directory.calls), |content|)
  {
    hide Written, OtherFilesSame, Staged, Valid;
    ghost var a, start := directory.dir, directory.calls;
    NothingWritten(a, inode, content);
    WriteFacts(a, a, inode, content, 0);
    var offset := 0;
    while offset < |content|
      invariant offset <= |content| && Written(a, directory.dir, inode, content, offset)
      invariant Valid(directory.dir) && inode in directory.dir.files && directory.dir.files[inode].Regular?
      invariant start <= directory.calls && Clear(directory.faults, start, directory.calls)
      invariant start + WriteCalls(directory.room, start, |content|)
             == directory.calls + WriteCalls(directory.room, directory.calls, |content| - offset)
    {
      ghost var b := directory.dir;
      var written := directory.Write(inode, content[offset..]);
      if written.None? || written.value == 0 {
        WriteFacts(a, directory.dir, inode, content, offset);
        return false;
      }
      WriteStep(a, b, directory.dir, inode, content, offset, written.value);
      offset := offset + written.value;
    }
    WriteFacts(a, directory.dir, inode, content, offset);
    return true;
  }

  lemma NothingWritten(a: Dir, inode: nat, content: Bytes)
    requires Valid(a) && Staged(a, inode, [])
    ensures Written(a, a, inode, content, 0)
  {
  }

  /** Write, sync and measure a fresh file, close it, sync the directory.  `ok` is success;
      otherwise the descriptor tells whether closing was reached and failed. */
  method Fill(directory: Directory, inode: nat, content: Bytes) returns (ok: bool, descriptor: Descriptor)
    requires Valid(directory.dir) && Staged(directory.dir, inode, [])
    modifies directory
    ensures Valid(directory.dir) && directory.dir.entries == old(directory.dir).entries
    ensures OtherFilesSame(old(directory.dir), directory.dir, inode)
    ensures ok ==> descriptor.Closed?
    ensures ok || descriptor.Broken? ==> Staged(directory.dir, inode, content)
    ensures var end := old(directory.calls) + WriteCalls(directory.room, old(directory.calls), |content|);
            && (ok <==> Clear(directory.faults, old(directory.calls), end + 4))
            && (ok ==> directory.calls == end + 4)
            && (descriptor.Broken? <==> Hits(directory.faults, old(directory.calls), end + 2))
    ensures old(directory.calls) <= directory.calls && (Clear(directory.faults, old(directory.calls), directory.calls) ==> ok)
  {
    var written := WriteAll(directory, inode, content);
    if !written { return false, Open; }
    var synced := directory.Sync();
    if !synced { return false, Open; }
    var size := directory.Size(inode);
    if size != Some(|content|) { return false, Open; }
    var closed := directory.Sync();
    if !closed { return false, Broken; }
    ok := directory.Sync();
    return ok, Closed;
  }

  /** os.close in a finally block: a descriptor already gone makes it raise. */
  method CloseAgain(directory: Directory, descriptor: Descriptor) returns (ok: bool)
    modifies directory`calls
    ensures old(directory.calls) <= directory.calls
    ensures !descriptor.Open? ==> directory.calls == old(directory.calls)
    ensures ok <==> !descriptor.Broken? && Clear(directory.faults, old(directory.calls), directory.calls)
  {
    match descriptor {
      case Closed => ok := true;
      case Open => ok := directory.Sync();
      case Broken => ok := false;
    }
  }

  // ---------------------------------------------------------------- rollback

  /** _restore_owned_manifest: rewrite the prior bytes into a fresh inode.  It ends `ok`,
      without an error or an early return, whenever none of its calls fails and the
      manifest still is the owned inode. */
  method RestoreOwned(directory: Directory, content: Bytes, owned: nat) returns (ok: bool)
    requires Valid(directory.dir)
    modifies directory
    ensures Valid(directory.dir) && old(directory.calls) <= directory.calls
    ensures Entry(old(directory.dir), Manifest) != Some(owned) ==> !ok && directory.dir == old(directory.dir)
    ensures Entry(old(directory.dir), Manifest) == Some(owned) && Clear(directory.faults, old(directory.calls), directory.calls) ==> ok
    ensures ok ==> Shown(directory.dir, Manifest) == Some(content)
                   && OthersSame(old(directory.dir), directory.dir) && KeepsFiles(old(directory.dir), directory.dir)
  {
    var before := directory.Identity(Manifest);
    if before != Some(Some(owned)) { return false; }
    var made := directory.Create(Restore);
    if made.None? { return false; }
    var name, inode := made.value.0, made.value.1;
    var filled, descriptor := Fill(directory, inode, content);
    if filled {
      var still := directory.Identity(Manifest);
      if still == Some(Some(owned)) {
        var moved := directory.Replace(name, Manifest);
        if moved {
          var now := directory.Identity(Manifest);
          if now != Some(Some(inode)) { return false; }
          ok := directory.Sync();
          return ok;
        }
      }
    }
    var closed := CloseAgain(directory, descriptor);
    if closed { var removed := directory.Unlink(name); }
    return false;
  }

  /** The prior coordinate can be put back from the backup or the saved bytes. */
  predicate Restorable(d: Dir, p: Published) {
    match p
    case Published(backup, previous, content, inode) =>
      && Entry(d, Manifest) == Some(inode)
      && (backup.Some? ==> previous.Some? && previous != Some(inode) && content.Some?)
  }

  /** _ManifestPublication.rollback.  A manifest that is no longer the published inode is
      left alone; otherwise the prior coordinate is back whenever no call fails. */
  method Rollback(directory: Directory, p: Published) returns (ok: bool)
    requires Valid(directory.dir) && (p.backup.Some? ==> p.backup.value.Drawn?)
    modifies directory
    ensures Valid(directory.dir) && old(directory.calls) <= directory.calls
    ensures Entry(old(directory.dir), Manifest) != Some(p.inode) ==> directory.dir == old(directory.dir)
    ensures Restorable(old(directory.dir), p) && Clear(directory.faults, old(directory.calls), directory.calls) ==> ok
    ensures ok ==> Entry(old(directory.dir), Manifest) == Some(p.inode) && KeepsFiles(old(directory.dir), directory.dir)
    ensures ok && p.backup.None? && p.content.None? ==>
              directory.dir.entries == old(directory.dir).entries - {Manifest}
    ensures ok && p.backup.Some? && Entry(old(directory.dir), p.backup.value) == p.previous && p.previous.Some? && p.previous != Some(p.inode) ==>
              directory.dir.entries == old(directory.dir).entries[Manifest := p.previous.value] - {p.backup.value}
    ensures ok && p.content.Some? && (p.backup.None? || Entry(old(directory.dir), p.backup.value) != p.previous) ==>
              Shown(directory.dir, Manifest) == p.content && OthersSame(old(directory.dir), directory.dir)
  {
    var current := directory.Identity(Manifest);
    if current != Some(Some(p.inode)) { return false; }
    if p.backup.None? {
      if p.content.Some? {
        ok := RestoreOwned(directory, p.content.value, p.inode);
        return ok;
      }
      var removed := directory.Unlink(Manifest);
      if !removed { return false; }
    } else {
      var kept := directory.Identity(p.backup.value);
      if kept.None? { return false; }
      if kept.value != p.previous {
        if p.content.None? { return false; }
        ok := RestoreOwned(directory, p.content.value, p.inode);
        return ok;
      }
      var moved := directory.Replace(p.backup.value, Manifest);
      if !moved { return false; }
    }
    ok := directory.Sync();
  }

  /** _ManifestPublication.commit: remove the backup if it still is the prior inode. */
  method Commit(directory: Directory, p: Published) returns (ok: bool)
    requires Valid(directory.dir) && (p.backup.Some? ==> p.backup.value.Drawn?)
    modifies directory
    ensures Valid(directory.dir) && old(directory.calls) <= directory.calls
    ensures ok ==> Clear(directory.faults, old(directory.calls), directory.calls)
    ensures (p.backup.Some? ==> p.previous.Some?) && Clear(directory.faults, old(directory.calls), directory.calls) ==> ok
    ensures directory.dir == old(directory.dir)
         || (p.backup.Some? && Entry(old(directory.dir), p.backup.value) == p.previous
             && directory.dir == old(directory.dir).(entries := old(directory.dir).entries - {p.backup.value}))
    ensures ok && p.backup.Some? && Entry(old(directory.dir), p.backup.value) == p.previous ==>
              directory.dir == old(directory.dir).(entries := old(directory.dir).entries - {p.backup.value})
    ensures p.backup.None? ==> directory.calls == old(directory.calls)
    ensures p.backup.Some? && p.previous.Some? && Entry(old(directory.dir), p.backup.value) == p.previous ==>
              (ok <==> Clear(directory.faults, old(directory.calls), old(directory.calls) + 3))
  {
    if p.backup.None? { return true; }
    var kept := directory.Identity(p.backup.value);
    if kept.None? { return false; }
    if kept.value == p.previous {
      var removed := directory.Unlink(p.backup.value);
      if !removed { return false; }
      ok := directory.Sync();
      return ok;
    }
    return true;
  }

  // ---------------------------------------------------------------- the try block

  /** The staged file is complete and nothing else has happened. */
  ghost predicate Ready(d0: Dir, d: Dir, l: Locals, inode: nat, content: Bytes) {
    && Underway(d0, d, l, inode, {}) && Staged(d, inode, content)
    && l.temporary.Some? && l.publication.None? && l.descriptor.Closed?
  }

  /** A name the attempt leaks: drawn, new, showing an empty placeholder. */
  ghost predicate Leaks(d0: Dir, d: Dir, l: Locals, inode: nat, name: Name) {
    && Underway(d0, d, l, inode, {name}) && l.temporary.Some? && l.temporary.value != name
    && name.Drawn? && name.kind == Backup && name !in d0.entries
    && Shown(d, name) == Some([]) && Entry(d, name) != l.previous
  }

  /** What is saved of the prior manifest. */
  ghost predicate Saved(d0: Dir, d: Dir, l: Locals, prior: Option<Bytes>) {
    && l.previous == Entry(d0, Manifest) && prior == Shown(d0, Manifest)
    && (l.previous.Some? <==> prior.Some?) && (l.previous.Some? <==> l.backup.Some?)
    && (l.backup.Some? ==> Entry(d, l.backup.value) == l.previous)
  }

  /** A prior manifest a publication can replace. */
  predicate Admissible(prior: Prior) {
    prior.Absent? || prior.Fit?
  }

  /** The calls SaveBackup makes over an admissible prior manifest. */
  function BackupCalls(prior: Prior): nat {
    if prior.Absent? then 1 else 9
  }

  lemma SamePrior(d0: Dir, d: Dir, l: Locals, inode: nat, left: set<Name>)
    requires Valid(d0) && Underway(d0, d, l, inode, left) && l.temporary.Some?
    ensures PriorOf(d) == PriorOf(d0) && Shown(d, Manifest) == Shown(d0, Manifest)
  {
  }

  /** Lines 282-287: draw a name and free it again. */
  method DrawBackupName(directory: Directory, before: Locals, ghost d0: Dir, ghost inode: nat, ghost content: Bytes)
    returns (l: Locals, failure: Option<Phase>)
    requires Ready(d0, directory.dir, before, inode, content) && before.backup.None? && Valid(d0)
    requires before.previous.Some? && before.previous == Entry(d0, Manifest)
    modifies directory
    ensures l == before.(backup := l.backup)
    ensures failure.None? ==> Ready(d0, directory.dir, l, inode, content) && l.backup.Some? && l.backup.value !in directory.dir.entries
    ensures failure.Some? ==> failure.value.Preparing? || failure.value.PlaceholderLeft?
    ensures failure == Some(Preparing) ==> Underway(d0, directory.dir, l, inode, {})
    ensures failure.Some? && failure.value.PlaceholderLeft? ==> Leaks(d0, directory.dir, l, inode, failure.value.name)
    ensures failure.None? <==> Clear(directory.faults, old(directory.calls), old(directory.calls) + 3)
    ensures failure.None? ==> directory.calls == old(directory.calls) + 3
    ensures old(directory.calls) <= directory.calls && (Clear(directory.faults, old(directory.calls), directory.calls) ==> failure.None?)
    ensures (failure.Some? && failure.value.PlaceholderLeft?) <==>
              Hits(directory.faults, old(directory.calls), old(directory.calls) + 1) || Hits(directory.faults, old(directory.calls), old(directory.calls) + 2)
  {
    l := before;
    ghost var d1 := directory.dir;
    var made := directory.Create(Backup);
    if made.None? { return l, Some(Preparing); }
    var name := made.value.0;
    assert name != l.temporary.value && Entry(d1, name) == Entry(d0, name);
    var closed := directory.Sync();
    if !closed { return l, Some(PlaceholderLeft(name)); }
    l := l.(backup := Some(name));
    var removed := directory.Unlink(name);
    if !removed { return l, Some(PlaceholderLeft(name)); }
    return l, None;
  }

  /** Lines 282-290: draw a name, free it, and hard-link the prior manifest to it. */
  method LinkBackup(directory: Directory, before: Locals, ghost d0: Dir, ghost inode: nat, ghost content: Bytes)
    returns (l: Locals, failure: Option<Phase>)
    requires Ready(d0, directory.dir, before, inode, content) && before.backup.None? && Valid(d0)
    requires before.previous.Some? && before.previous == Entry(d0, Manifest)
    modifies directory
    ensures l == before.(backup := l.backup)
    ensures failure.None? ==> Ready(d0, directory.dir, l, inode, content) && l.backup.Some? && Entry(directory.dir, l.backup.value) == l.previous
    ensures failure.Some? ==> failure.value.Preparing? || failure.value.PlaceholderLeft?
    ensures failure == Some(Preparing) ==> Underway(d0, directory.dir, l, inode, {})
    ensures failure.Some? && failure.value.PlaceholderLeft? ==> Leaks(d0, directory.dir, l, inode, failure.value.name)
    ensures failure.None? <==> Clear(directory.faults, old(directory.calls), old(directory.calls) + 5)
    ensures failure.None? ==> directory.calls == old(directory.calls) + 5
    ensures old(directory.calls) <= directory.calls && (Clear(directory.faults, old(directory.calls), directory.calls) ==> failure.None?)
    ensures (failure.Some? && failure.value.PlaceholderLeft?) <==>
              Hits(directory.faults, old(directory.calls), old(directory.calls) + 1) || Hits(directory.faults, old(directory.calls), old(directory.calls) + 2)
  {
    hide Leaks;
    l, failure := DrawBackupName(directory, before, d0, inode, content);
    if failure.Some? { return l, failure; }
    var linked := directory.Link(Manifest, l.backup.value);
    if !linked { return l, Some(Preparing); }
    var same := directory.Identity(l.backup.value);
    if same != Some(l.previous) { return l, Some(Preparing); }
    return l, None;
  }

  /** Lines 278-296: find the prior manifest, hard-link it to a drawn name and read it. */
  method SaveBackup(directory: Directory, before: Locals, ghost d0: Dir, ghost inode: nat, ghost content: Bytes)
    returns (l: Locals, prior: Option<Bytes>, failure: Option<Phase>)
    requires Ready(d0, directory.dir, before, inode, content) && before.backup.None? && before.previous.None? && Valid(d0)
    modifies directory
    ensures l.descriptor.Closed? && l.publication.None? && l.temporary == before.temporary
    ensures failure.None? ==> Ready(d0, directory.dir, l, inode, content) && Saved(d0, directory.dir, l, prior)
    ensures failure.Some? ==> failure.value.Preparing? || failure.value.PlaceholderLeft?
    ensures failure == Some(Preparing) ==> Underway(d0, directory.dir, l, inode, {})
    ensures failure.Some? && failure.value.PlaceholderLeft? ==> Leaks(d0, directory.dir, l, inode, failure.value.name)
    ensures failure.None? <==>
              Admissible(PriorOf(d0)) && Clear(directory.faults, old(directory.calls), old(directory.calls) + BackupCalls(PriorOf(d0)))
    ensures failure.None? ==> directory.calls == old(directory.calls) + BackupCalls(PriorOf(d0))
    ensures old(directory.calls) <= directory.calls
    ensures Admissible(PriorOf(d0)) && Clear(directory.faults, old(directory.calls), directory.calls) ==> failure.None?
    ensures (failure.Some? && failure.value.PlaceholderLeft?) <==>
              Shown(d0, Manifest).Some?
              && (Hits(directory.faults, old(directory.calls), old(directory.calls) + 3) || Hits(directory.faults, old(directory.calls), old(directory.calls) + 4))
  {
    hide Underway, Leaks, Staged;
    ReadyIsUnderway(d0, directory.dir, before, inode, content);
    SamePrior(d0, directory.dir, before, inode, {});
    l, prior := before, None;
    var identity := directory.Identity(Manifest);
    if identity.None? { return l, prior, Some(Preparing); }
    l := l.(previous := identity.value);
    SetPrevious(d0, directory.dir, before, inode, content);
    if l.previous.None? { return l, prior, None; }
    var regular := directory.IsRegular(Manifest);
    if regular != Some(true) { return l, prior, Some(Preparing); }
    l, failure := LinkBackup(directory, l, d0, inode, content);
    if failure.Some? { return l, prior, failure; }
    BackupShows(d0, directory.dir, l, inode, content);
    var read := directory.Open(l.backup.value);
    if read.None? || Some(read.value.0) != l.previous || read.value.1 == [] || |read.value.1| > MAX_MANIFEST_BYTES {
      return l, prior, Some(Preparing);
    }
    prior := Some(read.value.1);
    var synced := directory.Sync();
    if !synced { return l, prior, Some(Preparing); }
    return l, prior, None;
  }

  lemma ReadyIsUnderway(d0: Dir, d: Dir, l: Locals, inode: nat, content: Bytes)
    requires Ready(d0, d, l, inode, content)
    ensures Underway(d0, d, l, inode, {}) && Valid(d)
  {
  }

  /** The link shows the prior manifest's bytes. */
  lemma BackupShows(d0: Dir, d: Dir, l: Locals, inode: nat, content: Bytes)
    requires Valid(d0) && Ready(d0, d, l, inode, content) && l.backup.Some?
    requires l.previous.Some? && l.previous == Entry(d0, Manifest) == Entry(d, l.backup.value)
    ensures Shown(d, l.backup.value) == Shown(d0, Manifest)
  {
  }

  lemma SetPrevious(d0: Dir, d: Dir, l: Locals, inode: nat, content: Bytes)
    requires Ready(d0, d, l, inode, content) && l.backup.None?
    ensures Entry(d, Manifest) == Entry(d0, Manifest)
    ensures Ready(d0, d, l.(previous := Entry(d0, Manifest)), inode, content)
    ensures Underway(d0, d, l.(previous := Entry(d0, Manifest)), inode, {})
  {
  }

  /** The rename has happened and the record for rolling it back describes it. */
  ghost predicate Recorded(d0: Dir, d: Dir, l: Locals, inode: nat, content: Bytes, p: Published) {
    && Underway(d0, d, l, inode, {}) && Staged(d, inode, content) && l.temporary.None? && l.descriptor.Closed?
    && p.inode == inode && p.previous == l.previous == Entry(d0, Manifest) && p.content == Shown(d0, Manifest)
    && (p.previous.Some? <==> p.content.Some?) && (p.previous.Some? <==> p.backup.Some?)
    && (p.backup.Some? ==> p.backup.value.Drawn? && p.backup.value !in d0.entries)
    && (p.backup.Some? ==> Entry(d, p.backup.value) == None || Entry(d, p.backup.value) == p.previous)
    && (l.backup.Some? ==> l.backup == p.backup)
    && (l.backup.None? && p.backup.Some? ==> Entry(d, p.backup.value) == None)
  }

  /** Lines 297-318: check, rename, and look at what was published. */
  method Swap(directory: Directory, quiet: bool, check: bool, before: Locals, prior: Option<Bytes>, inode: nat, content: Bytes, ghost d0: Dir)
    returns (l: Locals, failure: Option<Phase>)
    requires Valid(d0) && Ready(d0, directory.dir, before, inode, content) && Saved(d0, directory.dir, before, prior)
    modifies directory
    ensures Valid(directory.dir) && l.descriptor.Closed? && (l.publication.Some? <==> failure.None?)
    ensures l.temporary == (if failure == Some(Preparing) then before.temporary else None) && l.backup == before.backup
    ensures failure.Some? ==> failure.value.Preparing? || failure.value.Unprotected?
    ensures l.publication.Some? ==> l.publication.value.backup == l.backup
    ensures quiet && failure.Some? ==> Underway(d0, directory.dir, l, inode, {}) && Staged(directory.dir, inode, content)
    ensures quiet && failure.None? ==> Recorded(d0, directory.dir, l, inode, content, l.publication.value)
    ensures quiet && failure.None? ==> l.backup.Some? ==> Entry(directory.dir, l.backup.value) == l.previous
    ensures quiet ==> (failure.None? <==> check && Clear(directory.faults, old(directory.calls), old(directory.calls) + 2))
    ensures quiet ==> (failure == Some(Unprotected) <==> check && Hits(directory.faults, old(directory.calls), old(directory.calls) + 1))
    ensures quiet && failure.None? ==> directory.calls == old(directory.calls) + 2
    ensures old(directory.calls) <= directory.calls
    ensures quiet && check && Clear(directory.faults, old(directory.calls), directory.calls) ==> failure.None?
  {
    l := before;
    var valid := directory.Check(quiet, check);
    if !valid { return l, Some(Preparing); }
    var moved := directory.Replace(l.temporary.value, Manifest);
    if !moved { return l, Some(Preparing); }
    l := l.(temporary := None);
    var found := directory.Open(Manifest);
    if found.None? || found.value.0 != inode || |found.value.1| != |content| { return l, Some(Unprotected); }
    l := l.(publication := Some(Published(l.backup, l.previous, prior, found.value.0)));
    return l, None;
  }

  /** The calls Seal makes for a record with or without a backup. */
  function SealCalls(prior: Prior): nat {
    if prior.Absent? then 1 else 4
  }

  /** Lines 319-326: sync, check again, drop the backup, validate. */
  method Seal(directory: Directory, quiet: bool, checks: Checks, before: Locals, ghost inode: nat, ghost content: Bytes, ghost d0: Dir)
    returns (l: Locals, ok: bool)
    requires Valid(directory.dir) && before.publication.Some? && before.temporary.None? && before.descriptor.Closed?
    requires before.publication.value.backup == before.backup && (before.backup.Some? ==> before.backup.value.Drawn?)
    requires quiet ==> Valid(d0) && Recorded(d0, directory.dir, before, inode, content, before.publication.value)
    requires quiet ==> before.backup.Some? ==> Entry(directory.dir, before.backup.value) == before.previous
    modifies directory
    ensures Valid(directory.dir) && l.temporary.None? && l.descriptor.Closed? && (l.backup.Some? ==> l.backup == before.backup)
    ensures l.publication == if ok then None else before.publication
    ensures ok ==> l.backup.None?
    ensures quiet ==> Recorded(d0, directory.dir, l, inode, content, before.publication.value)
    ensures quiet ==> (ok <==> checks.after && checks.final
                               && Clear(directory.faults, old(directory.calls), old(directory.calls) + SealCalls(PriorOf(d0))))
    ensures old(directory.calls) <= directory.calls
    ensures quiet && checks.after && checks.final && Clear(directory.faults, old(directory.calls), directory.calls) ==> ok
  {
    l := before;
    var synced := directory.Sync();
    if !synced { return l, false; }
    var valid := directory.Check(quiet, checks.after);
    if !valid { return l, false; }
    var committed := Commit(directory, l.publication.value);
    if !committed { return l, false; }
    l := l.(backup := None);
    var final := directory.Check(quiet, checks.final);
    if !final { return l, false; }
    return l.(publication := None), true;
  }

  // ---------------------------------------------------------------- the finally block

  /** Every entry outside `left` is as at the start, except that the manifest may show its
      prior bytes from another inode. */
  ghost predicate Restored(d0: Dir, d: Dir, left: set<Name>) {
    && (forall n :: n !in left && n != Manifest ==> Entry(d, n) == Entry(d0, n))
    && (Entry(d, Manifest).None? <==> Entry(d0, Manifest).None?)
    && (Entry(d, Manifest) == Entry(d0, Manifest) || Shown(d, Manifest).Some?)
    && Shown(d, Manifest) == Shown(d0, Manifest) && KeepsFiles(d0, d)
  }

  /** Rolling back a recorded publication puts the prior coordinate back. */
  lemma RolledBackIsRestored(d0: Dir, before: Dir, after: Dir, l: Locals, inode: nat, content: Bytes, p: Published)
    requires Valid(d0) && Recorded(d0, before, l, inode, content, p)
    requires KeepsFiles(before, after)
    requires p.backup.None? && p.content.None? ==> after.entries == before.entries - {Manifest}
    requires p.backup.Some? && Entry(before, p.backup.value) == p.previous && p.previous.Some? && p.previous != Some(p.inode) ==>
               after.entries == before.entries[Manifest := p.previous.value] - {p.backup.value}
    requires p.content.Some? && (p.backup.None? || Entry(before, p.backup.value) != p.previous) ==>
               Shown(after, Manifest) == p.content && OthersSame(before, after)
    ensures Restored(d0, after, {})
    ensures p.backup.Some? ==> Entry(after, p.backup.value) == None
  {
    assert p.previous != Some(p.inode);
    forall n | n != Manifest ensures Entry(after, n) == Entry(d0, n) {
      assert p.backup != Some(n) ==> Entry(before, n) == Entry(d0, n);
      if p.content.Some? && Entry(before, p.backup.value) != p.previous { assert Entry(after, n) == Entry(before, n); }
    }
  }

  /** An entry the finally block removes: the backup, if it still is the prior inode. */
  predicate Spent(d: Dir, l: Locals) {
    l.backup.Some? && Entry(d, l.backup.value) == l.previous && l.previous.Some?
  }

  /** The directory without the names the finally block removes. */
  ghost predicate Cleaned(a: Dir, b: Dir, l: Locals) {
    && b.files == a.files
    && (forall n :: l.temporary != Some(n) && l.backup != Some(n) ==> Entry(b, n) == Entry(a, n))
    && (l.temporary.Some? ==> Entry(b, l.temporary.value) == None)
    && (l.backup.Some? && l.backup != l.temporary ==> Entry(b, l.backup.value) == if Spent(a, l) then None else Entry(a, l.backup.value))
  }

  /** The descriptor can still be closed and the temporary name is there to be removed. */
  predicate Removable(d: Dir, l: Locals) {
    !l.descriptor.Broken? && (l.temporary.Some? ==> l.temporary.value in d.entries && l.backup != l.temporary)
  }

  /** Lines 333-345: close what is open, then remove the attempt's own names. */
  method CleanUp(directory: Directory, l: Locals)
    requires Valid(directory.dir) && l.backup != Some(Manifest) && l.temporary != Some(Manifest)
    modifies directory
    ensures Valid(directory.dir) && old(directory.calls) <= directory.calls
    ensures Entry(directory.dir, Manifest) == Entry(old(directory.dir), Manifest) && directory.dir.files == old(directory.dir).files
    ensures l.descriptor.Broken? || (l.descriptor.Closed? && l.temporary.None? && l.backup.None?) ==>
              directory.dir == old(directory.dir) && directory.calls == old(directory.calls)
    ensures Removable(old(directory.dir), l) && Clear(directory.faults, old(directory.calls), directory.calls) ==>
              Cleaned(old(directory.dir), directory.dir, l)
  {
    var closed := CloseAgain(directory, l.descriptor);
    if !closed { return; }
    if l.temporary.Some? {
      var removed := directory.Unlink(l.temporary.value);
    }
    if l.backup.Some? {
      var kept := directory.Identity(l.backup.value);
      if kept.Some? && kept.value == l.previous {
        var removed := directory.Unlink(l.backup.value);
      }
    }
  }

  /** What the finally block may be given. */
  ghost predicate Finishing(d0: Dir, d: Dir, l: Locals, quiet: bool, inode: nat, content: Bytes, left: set<Name>) {
    && Valid(d) && Valid(d0) && Manifest !in left
    && (l.temporary.Some? ==> l.temporary.value.Drawn? && l.temporary.value !in left) && (l.backup.Some? ==> l.backup.value.Drawn?)
    && (l.publication.Some? ==> l.temporary.None? && l.descriptor.Closed?)
    && (l.publication.Some? && l.publication.value.backup.Some? ==> l.publication.value.backup.value.Drawn?)
    && (quiet && l.publication.Some? ==> Recorded(d0, d, l, inode, content, l.publication.value) && left == {})
    && (quiet && l.publication.None? ==> Underway(d0, d, l, inode, left))
    && (quiet && l.publication.None? && l.backup.Some? && l.backup.value in left ==> Entry(d, l.backup.value) != l.previous)
  }

  /** What a finally block without failing calls leaves. */
  ghost predicate Finished(d0: Dir, before: Dir, after: Dir, l: Locals, inode: nat, left: set<Name>) {
    && (l.publication.Some? ==> Restored(d0, after, {}))
    && (l.publication.None? && l.temporary.Some? ==> Restored(d0, after, left) && Entry(after, Manifest) == Entry(d0, Manifest))
    && (l.publication.None? && l.temporary.None? ==>
          Entry(after, Manifest) == Some(inode) && forall n :: n !in left && n != Manifest ==> Entry(after, n) == Entry(d0, n))
    && (l.publication.None? ==> after.files == before.files && forall n :: n in left ==> Entry(after, n) == Entry(before, n))
  }

  lemma CleanedIsFinished(d0: Dir, before: Dir, after: Dir, l: Locals, inode: nat, content: Bytes, left: set<Name>)
    requires Finishing(d0, before, l, true, inode, content, left) && l.publication.None? && Cleaned(before, after, l)
    ensures Finished(d0, before, after, l, inode, left)
  {
    forall n | n !in left && n != Manifest ensures Entry(after, n) == Entry(d0, n) {
      if l.temporary != Some(n) && l.backup != Some(n) { assert n !in Own(l); }
    }
    if l.temporary.Some? { assert Shown(after, Manifest) == Shown(d0, Manifest); }
  }

  /** Lines 327-345. */
  method Finish(directory: Directory, l: Locals, ghost quiet: bool, ghost inode: nat, ghost content: Bytes, ghost d0: Dir, ghost left: set<Name>)
    requires Finishing(d0, directory.dir, l, quiet, inode, content, left)
    modifies directory
    ensures Valid(directory.dir) && old(directory.calls) <= directory.calls
    ensures l.publication.Some? && Entry(old(directory.dir), Manifest) != Some(l.publication.value.inode) ==>
              Entry(directory.dir, Manifest) == Entry(old(directory.dir), Manifest) && Shown(directory.dir, Manifest) == Shown(old(directory.dir), Manifest)
    ensures l.descriptor.Broken? || l == Locals(Closed, None, None, l.previous, None) ==>
              directory.dir == old(directory.dir) && directory.calls == old(directory.calls)
    ensures quiet && !l.descriptor.Broken? && Clear(directory.faults, old(directory.calls), directory.calls) ==>
              Finished(d0, old(directory.dir), directory.dir, l, inode, left)
  {
    hide Finished, Cleaned;
    ghost var before := directory.dir;
    if l.publication.None? {
      CleanUp(directory, l);
      if quiet && !l.descriptor.Broken? && Clear(directory.faults, old(directory.calls), directory.calls) {
        CleanedIsFinished(d0, before, directory.dir, l, inode, content, left);
      }
      return;
    }
    var restored := Rollback(directory, l.publication.value);
    ghost var after := directory.dir;
    if quiet && restored {
      RolledBackIsRestored(d0, before, after, l, inode, content, l.publication.value);
    }
    CleanUp(directory, l);
    if quiet && Clear(directory.faults, old(directory.calls), directory.calls) {
      RolledBackIsFinished(d0, before, after, directory.dir, l, inode);
    }
  }

  lemma RolledBackIsFinished(d0: Dir, before: Dir, after: Dir, end: Dir, l: Locals, inode: nat)
    requires l.publication.Some? && l.temporary.None? && Restored(d0, after, {}) && Cleaned(after, end, l)
    requires l.backup.Some? ==> Entry(after, l.backup.value) == None && l.backup.value != Manifest
    ensures Finished(d0, before, end, l, inode, {})
  {
    forall n ensures Entry(end, n) == Entry(after, n) {
    }
  }

  // ---------------------------------------------------------------- what it leaves

  /** What a failed publication leaves for each phase it failed in, if nobody interferes
      and no call of the finally block fails.
      Before the rename and under the publication record the prior state is back.  A failed
      close keeps the staged name, a failed close or unlink of the placeholder keeps an
      empty backup name, and between the rename and the record the new bytes stay. */
  ghost predicate LeftAfter(d0: Dir, d: Dir, phase: Phase, content: Bytes) {
    match phase
    case Preparing => Restored(d0, d, {}) && Entry(d, Manifest) == Entry(d0, Manifest)
    case Protected => Restored(d0, d, {})
    case DescriptorBroken(name) =>
      && name.Drawn? && name.kind == Temporary && name !in d0.entries && Shown(d, name) == Some(content)
      && Restored(d0, d, {name}) && Entry(d, Manifest) == Entry(d0, Manifest)
    case PlaceholderLeft(name) =>
      && name.Drawn? && name.kind == Backup && name !in d0.entries && Shown(d, name) == Some([])
      && Restored(d0, d, {name}) && Entry(d, Manifest) == Entry(d0, Manifest)
    case Unprotected => OthersSame(d0, d) && KeepsFiles(d0, d) && Shown(d, Manifest) == Some(content)
  }

  /** What success means: the new bytes under a fresh inode, and no other name touched. */
  ghost predicate PublishedExactly(d0: Dir, d: Dir, content: Bytes) {
    && OthersSame(d0, d) && KeepsFiles(d0, d) && Shown(d, Manifest) == Some(content)
    && Manifest in d.entries && d.entries[Manifest] !in d0.files
  }

  // ---------------------------------------------------------------- where it fails

  /** What decides a publication: the failing calls, the number of its first call, the
      writes it needs, the prior manifest and the caller's answers. */
  datatype Schedule = Schedule(faults: set<nat>, start: nat, writes: nat, prior: Prior, checks: Checks)

  function ScheduleOf(directory: Directory, checks: Checks, content: Bytes): Schedule
    reads directory
  {
    Schedule(directory.faults, directory.calls, WriteCalls(directory.room, directory.calls + 1, |content|), PriorOf(directory.dir), checks)
  }

  /** os.close of the staged file. */
  function StagedCloseAt(s: Schedule): nat {
    s.start + s.writes + 3
  }

  /** os.close and unlink of the backup placeholder. */
  function PlaceholderCloseAt(s: Schedule): nat {
    s.start + s.writes + 8
  }

  function PlaceholderUnlinkAt(s: Schedule): nat {
    s.start + s.writes + 9
  }

  /** The open that follows the rename. */
  function PublishedOpenAt(s: Schedule): nat {
    s.start + s.writes + 6 + BackupCalls(s.prior)
  }

  /** One past the last call of a publication that succeeds. */
  function EndAt(s: Schedule): nat {
    PublishedOpenAt(s) + 1 + SealCalls(s.prior)
  }

  ghost predicate BreaksDescriptor(s: Schedule) {
    Hits(s.faults, s.start, StagedCloseAt(s))
  }

  ghost predicate LeavesPlaceholder(s: Schedule) {
    && (s.prior.Fit? || s.prior.Unreadable?)
    && (Hits(s.faults, s.start, PlaceholderCloseAt(s)) || Hits(s.faults, s.start, PlaceholderUnlinkAt(s)))
  }

  ghost predicate LeavesNewBytes(s: Schedule) {
    Admissible(s.prior) && s.checks.before && Hits(s.faults, s.start, PublishedOpenAt(s))
  }

  ghost predicate ReachesRecord(s: Schedule) {
    Admissible(s.prior) && s.checks.before && Clear(s.faults, s.start, PublishedOpenAt(s) + 1)
  }

  ghost predicate Succeeds(s: Schedule) {
    Admissible(s.prior) && s.checks == Checks(true, true, true) && Clear(s.faults, s.start, EndAt(s))
  }

  /** The outcome the schedule decides. */
  ghost predicate Decides(s: Schedule, outcome: Outcome) {
    match outcome
    case NotStarted => s.start in s.faults
    case Success => Succeeds(s)
    case Failure(phase) =>
      && s.start !in s.faults && !Succeeds(s)
      && (phase.DescriptorBroken? <==> BreaksDescriptor(s))
      && (phase.PlaceholderLeft? <==> LeavesPlaceholder(s))
      && (phase.Unprotected? <==> LeavesNewBytes(s))
      && (phase.Protected? <==> ReachesRecord(s))
  }

  // ---------------------------------------------------------------- the whole publication

  /** The phase a failing try block ended in, against its schedule. */
  ghost predicate FailsAs(s: Schedule, failure: Option<Phase>) {
    Decides(s, if failure.None? then Success else Failure(failure.value))
  }

  /** A failing publication has a reason: the prior manifest, an answer, or a call that
      failed before the finally block. */
  ghost predicate Excused(s: Schedule, finishing: nat) {
    Admissible(s.prior) && s.checks == Checks(true, true, true) ==> !Clear(s.faults, s.start, finishing)
  }

  /** What the finally block finds for each end of the try block. */
  ghost predicate Ended(d0: Dir, d: Dir, l: Locals, failure: Option<Phase>, quiet: bool, name: Name, inode: nat, content: Bytes) {
    match failure
    case None => l == Locals(Closed, None, None, l.previous, None) && (quiet ==> PublishedExactly(d0, d, content) && Underway(d0, d, l, inode, {}))
    case Some(Preparing) => l.publication.None? && !l.descriptor.Broken? && l.temporary.Some? && (quiet ==> Underway(d0, d, l, inode, {}))
    case Some(DescriptorBroken(n)) => n == name && l.publication.None? && l.descriptor.Broken? && LeftAfter(d0, d, failure.value, content)
    case Some(PlaceholderLeft(n)) => l.publication.None? && l.descriptor.Closed? && Leaks(d0, d, l, inode, n)
    case Some(Unprotected) =>
      && l.publication.None? && l.descriptor.Closed? && l.temporary.None?
      && (quiet ==> Underway(d0, d, l, inode, {}) && Staged(d, inode, content))
    case Some(Protected) =>
      && l.publication.Some? && l.temporary.None? && l.descriptor.Closed?
      && (l.publication.value.backup.Some? ==> l.publication.value.backup.value.Drawn?)
      && (quiet ==> Recorded(d0, d, l, inode, content, l.publication.value))
  }

  predicate NamesDrawn(l: Locals) {
    (l.temporary.Some? ==> l.temporary.value.Drawn?) && (l.backup.Some? ==> l.backup.value.Drawn?)
  }

  /** The try block after the staged file is complete. */
  method PublishStaged(directory: Directory, quiet: bool, checks: Checks, content: Bytes, staged: Locals, inode: nat, ghost d0: Dir, ghost s: Schedule)
    returns (l: Locals, failure: Option<Phase>)
    requires Valid(d0) && Ready(d0, directory.dir, staged, inode, content) && staged == Locals(Closed, staged.temporary, None, None, None)
    requires s.faults == directory.faults && s.prior == PriorOf(d0) && s.checks == checks
    requires directory.calls == s.start + s.writes + 5 && Clear(s.faults, s.start, directory.calls)
    modifies directory
    ensures Valid(directory.dir) && NamesDrawn(l) && Ended(d0, directory.dir, l, failure, quiet, staged.temporary.value, inode, content)
    ensures failure.Some? ==> !failure.value.DescriptorBroken?
    ensures quiet ==> FailsAs(s, failure)
    ensures s.start <= directory.calls && (quiet && failure.Some? ==> Excused(s, directory.calls))
  {
    hide Underway, Leaks, Staged, PriorOf;
    var prior;
    ReadyDrew(d0, directory.dir, staged, inode, content);
    PriorShown(d0);
    l, prior, failure := SaveBackup(directory, staged, d0, inode, content);
    if failure.Some? {
      BackupDrew(d0, directory.dir, l, inode, failure.value);
      return l, failure;
    }
    ReadyDrew(d0, directory.dir, l, inode, content);
    l, failure := Swap(directory, quiet, checks.before, l, prior, inode, content, d0);
    if failure.Some? { return l, failure; }
    var sealed;
    l, sealed := Seal(directory, quiet, checks, l, inode, content, d0);
    if !sealed { return l, Some(Protected); }
    if quiet { SealedIsPublished(d0, directory.dir, l, inode, content); }
    return l, None;
  }

  lemma PriorShown(d: Dir)
    ensures Shown(d, Manifest).Some? <==> PriorOf(d).Fit? || PriorOf(d).Unreadable?
  {
  }

  lemma ReadyDrew(d0: Dir, d: Dir, l: Locals, inode: nat, content: Bytes)
    requires Ready(d0, d, l, inode, content)
    ensures NamesDrawn(l) && Valid(d)
  {
  }

  lemma BackupDrew(d0: Dir, d: Dir, l: Locals, inode: nat, phase: Phase)
    requires phase.Preparing? || phase.PlaceholderLeft?
    requires phase.Preparing? ==> Underway(d0, d, l, inode, {})
    requires phase.PlaceholderLeft? ==> Leaks(d0, d, l, inode, phase.name)
    ensures NamesDrawn(l) && Valid(d)
  {
  }

  lemma SealedIsPublished(d0: Dir, d: Dir, l: Locals, inode: nat, content: Bytes)
    requires Underway(d0, d, l, inode, {}) && Staged(d, inode, content) && l.temporary.None? && l.backup.None?
    ensures PublishedExactly(d0, d, content)
  {
    forall n | n != Manifest ensures Entry(d, n) == Entry(d0, n) { assert n !in Own(l); }
  }

  lemma StagedIsReady(d0: Dir, d: Dir, name: Name, inode: nat, content: Bytes)
    requires Valid(d0) && Valid(d) && name.Drawn? && name !in d0.entries && inode !in d0.files
    requires d.entries == d0.entries[name := inode] && KeepsFiles(d0, d) && Staged(d, inode, content)
    ensures Ready(d0, d, Locals(Closed, Some(name), None, None, None), inode, content)
  {
  }

  lemma StagedOnly(d0: Dir, d: Dir, descriptor: Descriptor, name: Name, inode: nat)
    requires Valid(d0) && Valid(d) && name.Drawn? && name !in d0.entries && inode !in d0.files
    requires d.entries == d0.entries[name := inode] && KeepsFiles(d0, d)
    ensures Underway(d0, d, Locals(descriptor, Some(name), None, None, None), inode, {})
  {
  }

  /** The try block, from a fresh temporary file on. */
  method Attempt(directory: Directory, quiet: bool, checks: Checks, content: Bytes, name: Name, inode: nat, ghost d0: Dir, ghost s: Schedule)
    returns (l: Locals, failure: Option<Phase>)
    requires Valid(d0) && name.Drawn? && name.kind == Temporary && name !in d0.entries && inode !in d0.files
    requires directory.dir == Dir(d0.entries[name := inode], d0.files[inode := Regular([])])
    requires directory.calls == s.start + 1 && s.start !in s.faults
    requires s == Schedule(directory.faults, s.start, WriteCalls(directory.room, s.start + 1, |content|), PriorOf(d0), checks)
    modifies directory
    ensures Valid(directory.dir) && NamesDrawn(l) && Ended(d0, directory.dir, l, failure, quiet, name, inode, content)
    ensures quiet ==> FailsAs(s, failure)
    ensures quiet && failure.Some? ==> Excused(s, directory.calls)
  {
    hide Underway, Leaks, Ready, Recorded, PriorOf, PublishedExactly;
    var filled, descriptor := Fill(directory, inode, content);
    l := Locals(descriptor, Some(name), None, None, None);
    StagedOnly(d0, directory.dir, descriptor, name, inode);
    if !filled {
      if descriptor.Broken? { return l, Some(DescriptorBroken(name)); }
      return l, Some(Preparing);
    }
    StagedIsReady(d0, directory.dir, name, inode, content);
    l, failure := PublishStaged(directory, quiet, checks, content, l, inode, d0, s);
  }

  lemma EndedIsFinishing(d0: Dir, d: Dir, l: Locals, failure: Option<Phase>, quiet: bool, name: Name, inode: nat, content: Bytes, left: set<Name>)
    requires Valid(d0) && Valid(d) && NamesDrawn(l) && Ended(d0, d, l, failure, quiet, name, inode, content)
    requires left == if failure.Some? && failure.value.PlaceholderLeft? then {failure.value.name} else {}
    ensures Finishing(d0, d, l, quiet && !l.descriptor.Broken?, inode, content, left)
  {
  }

  lemma FinishedIsLeft(d0: Dir, before: Dir, after: Dir, l: Locals, phase: Phase, name: Name, inode: nat, content: Bytes, left: set<Name>)
    requires Ended(d0, before, l, Some(phase), true, name, inode, content) && !phase.DescriptorBroken?
    requires left == if phase.PlaceholderLeft? then {phase.name} else {}
    requires Finished(d0, before, after, l, inode, left)
    ensures LeftAfter(d0, after, phase, content)
  {
    hide Restored;
    if phase.PlaceholderLeft? { assert Entry(after, phase.name) == Entry(before, phase.name); }
  }

  /** The failing calls and answers after which the prior state is not restored. */
  ghost predicate Unrestorable(s: Schedule) {
    BreaksDescriptor(s) || LeavesPlaceholder(s) || LeavesNewBytes(s)
  }

  /** What a failed publication leaves is the prior state exactly when its first failing
      call is none of those four. */
  lemma RestoresExactly(d0: Dir, d: Dir, s: Schedule, phase: Phase, content: Bytes)
    requires LeftAfter(d0, d, phase, content) && Decides(s, Failure(phase)) && Shown(d0, Manifest) != Some(content)
    ensures Restored(d0, d, {}) <==> !Unrestorable(s)
  {
    hide BreaksDescriptor, LeavesPlaceholder, LeavesNewBytes, ReachesRecord, Succeeds;
    match phase {
      case Preparing =>
      case Protected =>
        ProtectedOnly(s);
      case DescriptorBroken(name) => assert Entry(d, name) != Entry(d0, name);
      case PlaceholderLeft(name) => assert Entry(d, name) != Entry(d0, name);
      case Unprotected =>
    }
  }

  lemma ProtectedOnly(s: Schedule)
    requires ReachesRecord(s)
    ensures !Unrestorable(s)
  {
  }

  /** _atomic_publish.  `quiet` says that nobody else touches the directory; `seen` and
      `finishing` are the directory and the call number at which the finally block starts. */
  method AtomicPublish(directory: Directory, quiet: bool, checks: Checks, content: Bytes)
    returns (outcome: Outcome, ghost seen: Dir, ghost published: Option<nat>, ghost finishing: nat)
    requires Valid(directory.dir)
    modifies directory
    ensures Valid(directory.dir)
    ensures outcome.NotStarted? ==> directory.dir == old(directory.dir)
    ensures outcome.Success? ==> directory.dir == seen
    ensures quiet && outcome.Success? ==> PublishedExactly(old(directory.dir), directory.dir, content)
    ensures quiet ==> Decides(old(ScheduleOf(directory, checks, content)), outcome)
    ensures quiet && outcome.Failure? && Clear(directory.faults, finishing, directory.calls) ==>
              LeftAfter(old(directory.dir), directory.dir, outcome.phase, content)
    ensures quiet && outcome.Failure? && Clear(directory.faults, finishing, directory.calls) && Shown(old(directory.dir), Manifest) != Some(content) ==>
              (Restored(old(directory.dir), directory.dir, {}) <==> !Unrestorable(old(ScheduleOf(directory, checks, content))))
    ensures quiet && outcome.Failure? ==> Excused(old(ScheduleOf(directory, checks, content)), finishing)
    ensures outcome == Failure(Protected) ==> published.Some?
    ensures outcome == Failure(Protected) && Entry(seen, Manifest) != published ==>
              Entry(directory.dir, Manifest) == Entry(seen, Manifest) && Shown(directory.dir, Manifest) == Shown(seen, Manifest)
  {
    hide Ended, Finishing, Finished, LeftAfter, Restored, PublishedExactly, Unrestorable, PriorOf, Succeeds,
         BreaksDescriptor, LeavesPlaceholder, LeavesNewBytes, ReachesRecord, Clear, Excused;
    ghost var d0, s := directory.dir, ScheduleOf(directory, checks, content);
    seen, published, finishing := d0, None, directory.calls;
    var made := directory.Create(Temporary);
    if made.None? { return NotStarted, seen, published, finishing; }
    var name, inode := made.value.0, made.value.1;
    var l, failure := Attempt(directory, quiet, checks, content, name, inode, d0, s);
    seen, finishing := directory.dir, directory.calls;
    published := if l.publication.Some? then Some(l.publication.value.inode) else None;
    ghost var left := if failure.Some? && failure.value.PlaceholderLeft? then {failure.value.name} else {};
    ghost var covered := quiet && !l.descriptor.Broken?;
    EndedIsFinishing(d0, seen, l, failure, quiet, name, inode, content, left);
    EndedFacts(d0, seen, l, failure, quiet, name, inode, content);
    Finish(directory, l, covered, inode, content, d0, left);
    if failure.None? { return Success, seen, published, finishing; }
    if quiet && Clear(directory.faults, finishing, directory.calls) {
      if covered { FinishedIsLeft(d0, seen, directory.dir, l, failure.value, name, inode, content, left); }
      if Shown(d0, Manifest) != Some(content) { RestoresExactly(d0, directory.dir, s, failure.value, content); }
    }
    return Failure(failure.value), seen, published, finishing;
  }

  lemma EndedFacts(d0: Dir, d: Dir, l: Locals, failure: Option<Phase>, quiet: bool, name: Name, inode: nat, content: Bytes)
    requires Ended(d0, d, l, failure, quiet, name, inode, content)
    ensures l.descriptor.Broken? <==> failure.Some? && failure.value.DescriptorBroken?
    ensures l.descriptor.Broken? ==> LeftAfter(d0, d, failure.value, content)
    ensures failure == Some(Protected) ==> l.publication.Some?
    ensures failure.None? ==> l == Locals(Closed, None, None, l.previous, None) && (quiet ==> PublishedExactly(d0, d, content))
  {
    hide PublishedExactly, Underway, Leaks, Recorded;
  }

  // ---------------------------------------------------------------- one failing call

  /** A published manifest, and nothing else in the directory. */
  function Example(): Dir {
    Dir(map[Manifest := 0], map[0 := Regular([7])])
  }

  const NEW_BYTES: Bytes := [1, 2, 3]

  /** Writes take at most two bytes each, so three bytes take two writes. */
  function TwoAtATime(): nat -> nat {
    _ => 2
  }

  function ExampleSchedule(fault: nat): Schedule {
    Schedule({fault}, 0, 2, Fit, Checks(true, true, true))
  }

  lemma ThreeBytesTwoWrites()
    ensures WriteCalls(TwoAtATime(), 1, 3) == 2
  {
    assert Accepted(TwoAtATime(), 1, 3) == 2;
    assert Accepted(TwoAtATime(), 2, 1) == 1;
    assert WriteCalls(TwoAtATime(), 2, 1) == 1;
  }

  /** A quiet publication over the example in which just the given call fails. */
  method PublishOverExample(fault: nat) returns (outcome: Outcome, after: Dir)
    ensures Decides(ExampleSchedule(fault), outcome)
    ensures outcome.Failure? ==> LeftAfter(Example(), after, outcome.phase, NEW_BYTES)
  {
    hide Decides, LeftAfter;
    ThreeBytesTwoWrites();
    var directory := new Directory(Example(), {fault}, TwoAtATime());
    ghost var seen, published, finishing;
    outcome, seen, published, finishing := AtomicPublish(directory, true, Checks(true, true, true), NEW_BYTES);
    after := directory.dir;
  }

  /** Closing the staged file fails: its name stays, with the new bytes. */
  method DescriptorExample() returns (outcome: Outcome, after: Dir)
    ensures outcome.Failure? && outcome.phase.DescriptorBroken? && Shown(after, outcome.phase.name) == Some(NEW_BYTES)
    ensures Shown(after, Manifest) == Some([7]) && !Restored(Example(), after, {})
  {
    outcome, after := PublishOverExample(5);
    assert BreaksDescriptor(ExampleSchedule(5));
    RestoresExactly(Example(), after, ExampleSchedule(5), outcome.phase, NEW_BYTES);
  }

  /** Closing the placeholder fails: an empty backup name stays beside the old manifest. */
  method PlaceholderExample() returns (outcome: Outcome, after: Dir)
    ensures outcome.Failure? && outcome.phase.PlaceholderLeft? && Shown(after, outcome.phase.name) == Some([])
    ensures Shown(after, Manifest) == Some([7]) && !Restored(Example(), after, {})
  {
    outcome, after := PublishOverExample(10);
    assert LeavesPlaceholder(ExampleSchedule(10));
    RestoresExactly(Example(), after, ExampleSchedule(10), outcome.phase, NEW_BYTES);
  }

  /** Unlinking the placeholder fails: likewise. */
  method UnlinkExample() returns (outcome: Outcome, after: Dir)
    ensures outcome.Failure? && outcome.phase.PlaceholderLeft? && Shown(after, outcome.phase.name) == Some([])
    ensures Shown(after, Manifest) == Some([7]) && !Restored(Example(), after, {})
  {
    outcome, after := PublishOverExample(11);
    assert LeavesPlaceholder(ExampleSchedule(11));
    RestoresExactly(Example(), after, ExampleSchedule(11), outcome.phase, NEW_BYTES);
  }

  /** The open after the rename fails: the new bytes stay. */
  method NewBytesExample() returns (outcome: Outcome, after: Dir)
    ensures outcome == Failure(Unprotected) && Shown(after, Manifest) == Some(NEW_BYTES) && !Restored(Example(), after, {})
  {
    outcome, after := PublishOverExample(17);
    assert LeavesNewBytes(ExampleSchedule(17));
    RestoresExactly(Example(), after, ExampleSchedule(17), outcome.phase, NEW_BYTES);
  }
}
