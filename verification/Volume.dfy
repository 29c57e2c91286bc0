/** One directory of a file system: entries bound to inodes, and calls that may fail
    without effect at any time. */
module Volume {
  import opened Basics

  type Bytes = seq<bv8>

  datatype File = Regular(bytes: Bytes) | Special

  datatype Kind = Temporary | Backup | Restore

  /** The published file, a name drawn by mkstemp, or any other entry. */
  datatype Name = Manifest | Drawn(kind: Kind, suffix: nat) | Other(text: string)

  datatype Dir = Dir(entries: map<Name, nat>, files: map<nat, File>)

  predicate Valid(d: Dir) {
    forall n :: n in d.entries ==> d.entries[n] in d.files
  }

  function Entry(d: Dir, name: Name): Option<nat> {
    if name in d.entries then Some(d.entries[name]) else None
  }

  /** The bytes a name shows, if it names a regular file. */
  function Shown(d: Dir, name: Name): Option<Bytes> {
    if name in d.entries && d.entries[name] in d.files && d.files[d.entries[name]].Regular?
    then Some(d.files[d.entries[name]].bytes) else None
  }

  /** Inodes keep their content. */
  ghost predicate KeepsFiles(a: Dir, b: Dir) {
    forall i :: i in a.files ==> i in b.files && b.files[i] == a.files[i]
  }

  lemma {:induction false} UnusedNumber(used: set<nat>) returns (bound: nat)
    ensures forall n :: n in used ==> n < bound
  {
    if used == {} {
      bound := 0;
    } else {
      var x :| x in used;
      var rest := UnusedNumber(used - {x});
      bound := if x < rest then rest else x + 1;
      forall n | n in used ensures n < bound { assert n == x || n in used - {x}; }
    }
  }

  lemma NameExists(d: Dir, kind: Kind)
    ensures exists s: nat :: Drawn(kind, s) !in d.entries
  {
    var used := set n | n in d.entries && n.Drawn? :: n.suffix;
    var bound := UnusedNumber(used);
    var free := Drawn(kind, bound);
    assert free in d.entries ==> bound in used;
  }

  lemma InodeExists(d: Dir)
    ensures exists i: nat :: i !in d.files
  {
    var bound := UnusedNumber(d.files.Keys);
    assert bound !in d.files;
  }

  // ---------------------------------------------------------------- which calls fail

  /** None of the calls from `start` up to `end` fails. */
  ghost predicate Clear(faults: set<nat>, start: nat, end: nat) {
    forall n :: start <= n < end ==> n !in faults
  }

  /** Call `at` is the first failing one from `start` on. */
  ghost predicate Hits(faults: set<nat>, start: nat, at: nat) {
    start <= at && at in faults && Clear(faults, start, at)
  }

  /** How many of n remaining bytes a successful write takes. */
  function Accepted(room: nat -> nat, call: nat, n: nat): (taken: nat)
    ensures taken <= n && (0 < n ==> 0 < taken)
  {
    var most := if room(call) == 0 then 1 else room(call);
    if n <= most then n else most
  }

  /** How many successful writes from `call` on it takes to write n bytes. */
  function WriteCalls(room: nat -> nat, call: nat, n: nat): nat
    decreases n
  {
    if n == 0 then 0 else 1 + WriteCalls(room, call + 1, n - Accepted(room, call, n))
  }

  /** The directory as one process uses it.  Calls are numbered, exactly the calls in
      `faults` fail although they could have succeeded, and `room` bounds how much each
      write takes. */
  class Directory {
    var dir: Dir
    var calls: nat
    const faults: set<nat>
    const room: nat -> nat

    constructor (dir: Dir, faults: set<nat>, room: nat -> nat)
      requires Valid(dir)
      ensures this.dir == dir && calls == 0 && this.faults == faults && this.room == room
    {
      this.dir, calls, this.faults, this.room := dir, 0, faults, room;
    }

    /** fsync and close: no effect on the entries. */
    method Sync() returns (ok: bool)
      modifies this`calls
      ensures calls == old(calls) + 1 && (ok <==> old(calls) !in faults)
    {
      ok := calls !in faults;
      calls := calls + 1;
    }

    /** tempfile.mkstemp: a name and an inode nobody else has. */
    method Create(kind: Kind) returns (made: Option<(Name, nat)>)
      requires Valid(dir)
      modifies this
      ensures Valid(dir) && calls == old(calls) + 1 && (made.Some? <==> old(calls) !in faults)
      ensures made.None? ==> dir == old(dir)
      ensures made.Some? ==>
                && made.value.0.Drawn? && made.value.0.kind == kind
                && made.value.0 !in old(dir).entries && made.value.1 !in old(dir).files
                && dir == Dir(old(dir).entries[made.value.0 := made.value.1], old(dir).files[made.value.1 := Regular([])])
    {
      calls := calls + 1;
      if calls - 1 in faults { return None; }
      NameExists(dir, kind);
      InodeExists(dir);
      var s: nat :| Drawn(kind, s) !in dir.entries;
      var i: nat :| i !in dir.files;
      dir := Dir(dir.entries[Drawn(kind, s) := i], dir.files[i := Regular([])]);
      return Some((Drawn(kind, s), i));
    }

    /** os.write: appends a nonempty prefix of the data.  A failing call raises, or
        reports that it wrote nothing. */
    method Write(inode: nat, data: Bytes) returns (written: Option<nat>)
      requires Valid(dir) && inode in dir.files && dir.files[inode].Regular?
      modifies this
      ensures Valid(dir) && calls == old(calls) + 1
      ensures old(calls) in faults ==> (written.None? || written == Some(0)) && dir == old(dir)
      ensures old(calls) !in faults ==>
                && written == Some(Accepted(room, old(calls), |data|))
                && dir == old(dir).(files := old(dir).files[inode := Regular(old(dir).files[inode].bytes + data[..written.value])])
    {
      calls := calls + 1;
      if calls - 1 in faults {
        var raises := *;
        return if raises then None else Some(0);
      }
      var n := Accepted(room, calls - 1, |data|);
      dir := dir.(files := dir.files[inode := Regular(dir.files[inode].bytes + data[..n])]);
      return Some(n);
    }

    /** fstat of an open descriptor: its size. */
    method Size(inode: nat) returns (size: Option<nat>)
      requires inode in dir.files && dir.files[inode].Regular?
      modifies this`calls
      ensures calls == old(calls) + 1 && (size.Some? <==> old(calls) !in faults)
      ensures size.Some? ==> size.value == |dir.files[inode].bytes|
    {
      calls := calls + 1;
      if calls - 1 in faults { return None; }
      return Some(|dir.files[inode].bytes|);
    }

    /** _path_identity: Some(None) is a missing entry, None a failing lstat. */
    method Identity(name: Name) returns (identity: Option<Option<nat>>)
      modifies this`calls
      ensures calls == old(calls) + 1 && (identity.Some? <==> old(calls) !in faults)
      ensures identity.Some? ==> identity.value == Entry(dir, name)
    {
      calls := calls + 1;
      if calls - 1 in faults { return None; }
      return Some(Entry(dir, name));
    }

    /** lstat of an existing entry: whether it is a regular file. */
    method IsRegular(name: Name) returns (regular: Option<bool>)
      modifies this`calls
      ensures calls == old(calls) + 1 && (regular.Some? <==> old(calls) !in faults)
      ensures regular.Some? ==> (regular.value <==> Shown(dir, name).Some?)
    {
      calls := calls + 1;
      if calls - 1 in faults { return None; }
      return Some(Shown(dir, name).Some?);
    }

    method Unlink(name: Name) returns (ok: bool)
      requires Valid(dir)
      modifies this
      ensures Valid(dir) && calls == old(calls) + 1 && (ok <==> old(calls) !in faults && name in old(dir).entries)
      ensures dir == if ok then old(dir).(entries := old(dir).entries - {name}) else old(dir)
    {
      ok := calls !in faults && name in dir.entries;
      calls := calls + 1;
      if ok { dir := dir.(entries := dir.entries - {name}); }
    }

    /** os.replace of one entry by another; two names of one inode are left as they are. */
    method Replace(from: Name, to: Name) returns (ok: bool)
      requires Valid(dir) && from != to
      modifies this
      ensures Valid(dir) && calls == old(calls) + 1 && (ok <==> old(calls) !in faults && from in old(dir).entries)
      ensures !ok ==> dir == old(dir)
      ensures ok && Entry(old(dir), from) == Entry(old(dir), to) ==> dir == old(dir)
      ensures ok && Entry(old(dir), from) != Entry(old(dir), to) ==>
                dir == old(dir).(entries := old(dir).entries[to := old(dir).entries[from]] - {from})
    {
      ok := calls !in faults && from in dir.entries;
      calls := calls + 1;
      if ok && Entry(dir, from) != Entry(dir, to) {
        dir := dir.(entries := dir.entries[to := dir.entries[from]] - {from});
      }
    }

    /** os.link */
    method Link(from: Name, to: Name) returns (ok: bool)
      requires Valid(dir)
      modifies this
      ensures Valid(dir) && calls == old(calls) + 1
      ensures ok <==> old(calls) !in faults && from in old(dir).entries && to !in old(dir).entries
      ensures dir == if ok then old(dir).(entries := old(dir).entries[to := old(dir).entries[from]]) else old(dir)
    {
      ok := calls !in faults && from in dir.entries && to !in dir.entries;
      calls := calls + 1;
      if ok { dir := dir.(entries := dir.entries[to := dir.entries[from]]); }
    }

    /** Opening a name and reading it as a regular file. */
    method Open(name: Name) returns (found: Option<(nat, Bytes)>)
      modifies this`calls
      ensures calls == old(calls) + 1 && (found.Some? <==> old(calls) !in faults && Shown(dir, name).Some?)
      ensures found.Some? ==> Entry(dir, name) == Some(found.value.0) && Shown(dir, name) == Some(found.value.1)
    {
      calls := calls + 1;
      if calls - 1 in faults || Shown(dir, name).None? { return None; }
      return Some((dir.entries[name], Shown(dir, name).value));
    }

    /** A caller's check and its answer.  Unless the directory is quiet, another process
        may do anything to it meanwhile. */
    method Check(quiet: bool, answer: bool) returns (ok: bool)
      requires Valid(dir)
      modifies this`dir
      ensures Valid(dir) && ok == answer && (quiet ==> dir == old(dir))
    {
      ok := answer;
      if !quiet {
        var d: Dir := *;
        if Valid(d) { dir := d; }
      }
    }
  }
}
