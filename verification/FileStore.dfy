/**
 * Jobs on disk: one directory a job, its record replaced by renaming a finished temporary file
 * over it, and an index in memory that must always be what a restart would read back.
 */
module FileStore {
  import opened Wrappers
  import opened Repository

  type Bytes = seq<bv8>

  /** What the store keeps of one job: job.json, and temporary files on their way to become it. */
  datatype JobDir = JobDir(record: Option<Bytes>, temps: map<string, Bytes>)

  type Disk = map<string, JobDir>

  /** The record format, of which only this matters: what was encoded decodes to itself. */
  datatype Codec = Codec(encode: Record -> Option<Bytes>, decode: Bytes -> Option<Record>) {
    ghost predicate Faithful() {
      forall r :: encode(r).Some? ==> decode(encode(r).value) == Some(r)
    }
  }

  /** The job.json files. */
  function Records(disk: Disk): map<string, Bytes> {
    map id | id in disk && disk[id].record.Some? :: disk[id].record.value
  }

  /** The jobs they hold, by directory; what does not parse is no job. */
  function Committed(codec: Codec, disk: Disk): Index {
    map id | id in disk && disk[id].record.Some? && codec.decode(disk[id].record.value).Some?
      :: codec.decode(disk[id].record.value).value
  }

  /** Only job.json files count. */
  lemma CommittedByRecords(codec: Codec, one: Disk, other: Disk)
    requires Records(one) == Records(other)
    ensures Committed(codec, one) == Committed(codec, other)
  {
    forall id ensures id in Committed(codec, one) <==> id in Committed(codec, other)
      ensures id in Committed(codec, one) ==> Committed(codec, one)[id] == Committed(codec, other)[id]
    {
      assert id in Records(one) <==> id in Records(other);
    }
  }

  lemma CommittedAfterRename(codec: Codec, before: Disk, after: Disk, job: Record)
    requires codec.Faithful() && codec.encode(job).Some?
    requires Records(after) == Records(before)[job.id := codec.encode(job).value]
    ensures Committed(codec, after) == Committed(codec, before)[job.id := job]
  {
    forall id
      ensures id in Committed(codec, after) <==> id in Committed(codec, before)[job.id := job]
      ensures id in Committed(codec, after) ==>
        Committed(codec, after)[id] == Committed(codec, before)[job.id := job][id]
    {
      assert id in Records(after) <==> id in Records(before) || id == job.id;
      assert id in Records(after) && id != job.id ==> Records(after)[id] == Records(before)[id];
      assert Records(after)[job.id] == codec.encode(job).value;
    }
  }

  // ---- The file system ---------------------------------------------------------------------

  predicate HasTemp(disk: Disk, id: string, name: string) {
    id in disk && name in disk[id].temps
  }

  function PutTemp(disk: Disk, id: string, name: string, bytes: Bytes): Disk
    requires id in disk
  {
    disk[id := JobDir(disk[id].record, disk[id].temps[name := bytes])]
  }

  function DropTemp(disk: Disk, id: string, name: string): Disk
    requires id in disk
  {
    disk[id := JobDir(disk[id].record, disk[id].temps - {name})]
  }

  function Renamed(disk: Disk, id: string, name: string): Disk
    requires HasTemp(disk, id, name)
  {
    disk[id := JobDir(Some(disk[id].temps[name]), disk[id].temps - {name})]
  }

  /**
   * Any call may fail, and `failures` counts those that did and whose error is not ignored; `past` is
   * every state the disk was in, so every state a crash can leave.
   */
  class Files {
    var disk: Disk
    ghost var past: seq<Disk>
    ghost var failures: nat

    ghost predicate Valid()
      reads this
    {
      past != [] && past[|past| - 1] == disk
    }

    constructor (disk: Disk)
      ensures Valid() && this.disk == disk && past == [disk] && failures == 0
    {
      this.disk, past, failures := disk, [disk], 0;
    }

    method MkdirAll(id: string) returns (ok: bool)
      modifies this
      ensures Valid() && past == old(past) + [disk] && failures == old(failures) + (if ok then 0 else 1)
      ensures disk == if ok && id !in old(disk) then old(disk)[id := JobDir(None, map[])] else old(disk)
      ensures Records(disk) == Records(old(disk))
    {
      ok := *;
      if ok && id !in disk {
        disk := disk[id := JobDir(None, map[])];
      }
      past, failures := past + [disk], failures + if ok then 0 else 1;
    }

    /** A new name, and an empty file under it. */
    method CreateTemp(id: string) returns (name: Option<string>)
      requires id in disk
      modifies this
      ensures Valid() && past == old(past) + [disk] && failures == old(failures) + (if name.Some? then 0 else 1)
      ensures name.None? ==> disk == old(disk)
      ensures name.Some? ==> !HasTemp(old(disk), id, name.value) && disk == PutTemp(old(disk), id, name.value, [])
      ensures Records(disk) == Records(old(disk))
    {
      var ok: bool, candidate: string := *, *;
      name := None;
      if ok && candidate !in disk[id].temps {
        name := Some(candidate);
        disk := PutTemp(disk, id, candidate, []);
      }
      past, failures := past + [disk], failures + if name.Some? then 0 else 1;
    }

    /** Writes in pieces of any size, and may stop after any of them. */
    method Write(id: string, name: string, bytes: Bytes) returns (ok: bool)
      requires Valid() && HasTemp(disk, id, name)
      modifies this
      ensures Valid() && old(past) <= past && failures == old(failures) + (if ok then 0 else 1)
      ensures forall i :: |old(past)| <= i < |past| ==> Records(past[i]) == Records(old(disk))
      ensures exists n: nat :: n <= |bytes| && disk == PutTemp(old(disk), id, name, bytes[..n])
      ensures ok ==> disk == PutTemp(old(disk), id, name, bytes)
      ensures Records(disk) == Records(old(disk))
    {
      var n: int := 0;
      ok := true;
      ghost var before := disk;
      disk := PutTemp(disk, id, name, bytes[..0]);
      past := past + [disk];
      while ok && n < |bytes|
        invariant 0 <= n <= |bytes| && Valid() && old(past) <= past
        invariant failures == old(failures) + if ok then 0 else 1
        invariant forall i :: |old(past)| <= i < |past| ==> Records(past[i]) == Records(before)
        invariant disk == PutTemp(before, id, name, bytes[..n]) && Records(disk) == Records(before)
        decreases ok, |bytes| - n
      {
        var piece: int := *;
        if piece <= 0 || n + piece > |bytes| {
          ok := false;
          failures := failures + 1;
        } else {
          n := n + piece;
          PutTwice(before, id, name, bytes[..n - piece], bytes[..n]);
          disk := PutTemp(disk, id, name, bytes[..n]);
          past := past + [disk];
        }
      }
      assert ok ==> bytes[..n] == bytes;
    }

    /** Makes durable what was written; what a restart can read is the same before and after. */
    method Sync() returns (ok: bool)
      modifies this`failures
      ensures failures == old(failures) + if ok then 0 else 1
    {
      ok := *;
      failures := failures + if ok then 0 else 1;
    }

    method Close() returns (ok: bool)
      modifies this`failures
      ensures failures == old(failures) + if ok then 0 else 1
    {
      ok := *;
      failures := failures + if ok then 0 else 1;
    }

    /** All at once or not at all. */
    method Rename(id: string, name: string) returns (ok: bool)
      requires HasTemp(disk, id, name)
      modifies this
      ensures Valid() && past == old(past) + [disk] && failures == old(failures) + (if ok then 0 else 1)
      ensures disk == if ok then Renamed(old(disk), id, name) else old(disk)
    {
      ok := *;
      if ok {
        disk := Renamed(disk, id, name);
      }
      past, failures := past + [disk], failures + if ok then 0 else 1;
    }

    /** Removing what is no longer there is no change; an error here is ignored. */
    method Remove(id: string, name: string)
      requires id in disk
      modifies this`disk, this`past
      ensures Valid() && past == old(past) + [disk]
      ensures disk == old(disk) || disk == DropTemp(old(disk), id, name)
      ensures Records(disk) == Records(old(disk))
    {
      var ok: bool := *;
      if ok {
        disk := DropTemp(disk, id, name);
      }
      past := past + [disk];
    }
  }

  lemma PutTwice(disk: Disk, id: string, name: string, first: Bytes, second: Bytes)
    requires id in disk
    ensures PutTemp(PutTemp(disk, id, name, first), id, name, second) == PutTemp(disk, id, name, second)
    ensures Records(PutTemp(disk, id, name, second)) == Records(disk)
  {
    assert disk[id].temps[name := first][name := second] == disk[id].temps[name := second];
  }

  // ---- The history of a store -----------------------------------------------------------------

  ghost predicate OneRecordApart(before: Index, after: Index) {
    exists job: Record :: after == before[job.id := job]
  }

  /** `versions` are the successive committed contents, one record apart, and the disk never held anything else. */
  ghost predicate Chronicle(codec: Codec, past: seq<Disk>, versions: seq<Index>) {
    && versions != []
    && (forall i :: 0 <= i < |past| ==> Filed(Committed(codec, past[i])) && Committed(codec, past[i]) in versions)
    && (forall v :: 0 < v < |versions| ==> OneRecordApart(versions[v - 1], versions[v]))
  }

  /** More states that all hold the latest version, and perhaps a last one that holds the next. */
  lemma ChronicleGrows(codec: Codec, past: seq<Disk>, versions: seq<Index>, later: seq<Disk>, next: Index)
    requires Chronicle(codec, past, versions) && past <= later
    requires Filed(versions[|versions| - 1]) && Filed(next)
    requires forall i :: |past| <= i < |later| ==> Committed(codec, later[i]) in {versions[|versions| - 1], next}
    ensures next == versions[|versions| - 1] ==> Chronicle(codec, later, versions)
    ensures OneRecordApart(versions[|versions| - 1], next) ==> Chronicle(codec, later, versions + [next])
  {
    var latest := versions[|versions| - 1];
    assert latest in versions && next in versions + [next];
    forall i | 0 <= i < |later|
      ensures Filed(Committed(codec, later[i])) && Committed(codec, later[i]) in versions + [next]
      ensures next == latest ==> Committed(codec, later[i]) in versions
    {
      if i < |past| {
        assert later[i] == past[i];
      } else {
        assert Committed(codec, later[i]) in {latest, next};
      }
    }
  }

  // ---- The store ---------------------------------------------------------------------------

  predicate ValidJobId(id: string) {
    0 < |id| <= 128 && forall c :: c in id ==> c != '/' && c != '\\' && c != '.' && c != '\0'
  }

  class Store {
    const codec: Codec
    const files: Files
    var index: Index
    ghost var versions: seq<Index>

    /** The index is what a restart would read, now and at whatever step the process had died. */
    ghost predicate Valid()
      reads this, files
    {
      && codec.Faithful() && files.Valid()
      && index == Committed(codec, files.disk) && versions != [] && versions[|versions| - 1] == index
      && Chronicle(codec, files.past, versions)
    }

    /**
     * Reads whatever is there, skipping what does not parse. The index is filed by the id in the
     * record, not by the directory, so it agrees with the disk exactly when the two do.
     */
    constructor Open(codec: Codec, disk: Disk)
      ensures fresh(files) && files.disk == disk && this.codec == codec
      ensures index == Committed(codec, disk) <==> Filed(Committed(codec, disk))
      ensures forall id :: id in index ==> index[id].id == id && index[id] in Committed(codec, disk).Values
      ensures forall d :: d in Committed(codec, disk) ==> Committed(codec, disk)[d].id in index
      ensures codec.Faithful() && Filed(Committed(codec, disk)) ==> Valid() && versions == [index]
    {
      this.codec := codec;
      files := new Files(disk);
      var loaded: Index := map[];
      var names := disk.Keys;
      ghost var committed := Committed(codec, disk);
      while names != {}
        invariant names <= disk.Keys
        invariant forall id :: id in loaded ==>
          loaded[id].id == id && exists d :: d in committed && d !in names && committed[d] == loaded[id]
        invariant forall d :: d in committed && d !in names ==> committed[d].id in loaded
        decreases names
      {
        var name :| name in names;
        names := names - {name};
        if disk[name].record.Some? {
          var job := codec.decode(disk[name].record.value);
          if job.Some? {
            loaded := loaded[job.value.id := job.value];
          }
        }
      }
      index, versions := loaded, [loaded];
    }

    /**
     * Every state on the way holds the old job.json files or the new ones, and nothing in between.
     * It is the new ones in the end exactly when the record encodes and no call failed.
     */
    method WriteJob(job: Record) returns (ok: bool)
      requires files.Valid()
      modifies files
      ensures files.Valid() && old(files.past) <= files.past
      ensures ok <==> codec.encode(job).Some? && files.failures == old(files.failures)
      ensures files.failures >= old(files.failures)
      ensures Records(files.disk)
           == if ok then Records(old(files.disk))[job.id := codec.encode(job).value] else Records(old(files.disk))
      ensures forall i :: |old(files.past)| <= i < |files.past| ==>
        Records(files.past[i]) == Records(old(files.disk)) || Records(files.past[i]) == Records(files.disk)
    {
      ok := files.MkdirAll(job.id);
      var encoded := codec.encode(job);
      if ok && encoded.Some? {
        var name := files.CreateTemp(job.id);
        ok := name.Some?;
        if ok {
          ok := Commit(job.id, name.value, encoded.value);
        }
      } else {
        ok := false;
      }
    }

    /** Fills the temporary file, makes it durable, and renames it over job.json; removes it if that fails. */
    method Commit(id: string, name: string, bytes: Bytes) returns (ok: bool)
      requires files.Valid() && HasTemp(files.disk, id, name)
      modifies files
      ensures files.Valid() && old(files.past) <= files.past
      ensures files.failures >= old(files.failures) && (ok <==> files.failures == old(files.failures))
      ensures Records(files.disk) == if ok then Records(old(files.disk))[id := bytes] else Records(old(files.disk))
      ensures ok ==> id in files.disk && files.disk[id].temps == old(files.disk)[id].temps - {name}
      ensures forall i :: |old(files.past)| <= i < |files.past| ==>
        Records(files.past[i]) == Records(old(files.disk)) || Records(files.past[i]) == Records(files.disk)
    {
      ok := files.Write(id, name, bytes);
      if ok {
        ok := files.Sync();
      }
      if ok {
        ok := files.Close();
      }
      if ok {
        ok := files.Rename(id, name);
      }
      files.Remove(id, name);
    }

    /** Writes the record, then the index; when a call failed, or the record does not encode, nothing changed. */
    method Save(job: Record) returns (reply: Reply)
      requires Valid()
      modifies this, files
      ensures Valid() && old(files.past) <= files.past
      ensures reply == if Stores(job, old(files.failures)) then Stored else Refused
      ensures index == if reply == Stored then old(index)[job.id := job] else old(index)
      ensures versions == if reply == Stored then old(versions) + [index] else old(versions)
      ensures forall i :: |old(files.past)| <= i < |files.past| ==>
        Committed(codec, files.past[i]) in {old(index), index}
    {
      ghost var disk, past := files.disk, files.past;
      var ok := WriteJob(job);
      ghost var next := if ok then index[job.id := job] else index;
      Landed(codec, disk, files.disk, files.past[|past|..], job, ok);
      forall i | |past| <= i < |files.past| ensures Committed(codec, files.past[i]) in {index, next} {
        assert files.past[i] == files.past[|past|..][i - |past|];
      }
      assert Filed(index) by {
        assert past[|past| - 1] == disk;
      }
      assert ok ==> OneRecordApart(index, next);
      ChronicleGrows(codec, past, versions, files.past, next);
      if ok {
        index := index[job.id := job];
        versions := versions + [index];
        reply := Stored;
      } else {
        reply := Refused;
      }
    }

    /** Since `failures` was this, no file call has failed, and the record encodes. */
    ghost predicate Stores(job: Record, failures: nat)
      reads files
    {
      codec.encode(job).Some? && files.failures == failures
    }

    method Create(job: Record) returns (reply: Reply)
      requires Valid()
      modifies this, files
      ensures Valid() && old(files.past) <= files.past
      ensures reply == Refused
         <==> !ValidJobId(job.id) || (job.id !in old(index) && !Stores(job, old(files.failures)))
      ensures if reply == Refused then index == old(index) else (index, reply) == Created(old(index), job)
      ensures forall i :: |old(files.past)| <= i < |files.past| ==>
        Committed(codec, files.past[i]) in {old(index), index}
    {
      if !ValidJobId(job.id) {
        return Refused;
      }
      if job.id in index {
        return AlreadyExists;
      }
      reply := Save(job);
    }

    method Get(id: string) returns (job: Option<Record>)
      ensures job == Found(index, id)
    {
      if id !in index {
        return None;
      }
      return Some(index[id]);
    }

    method Update(job: Record) returns (reply: Reply)
      requires Valid()
      modifies this, files
      ensures Valid() && old(files.past) <= files.past
      ensures reply == Refused <==> job.id in old(index) && !Stores(job, old(files.failures))
      ensures if reply == Refused then index == old(index) else (index, reply) == Updated(old(index), job)
      ensures forall i :: |old(files.past)| <= i < |files.past| ==>
        Committed(codec, files.past[i]) in {old(index), index}
    {
      if job.id !in index {
        return NotFound;
      }
      reply := Save(job);
    }

    method List() returns (list: seq<Record>)
      requires Valid()
      ensures IsListing(list, index)
    {
      assert files.past[|files.past| - 1] == files.disk;
      list := Listing(index);
    }
  }

  /** What the job.json files say about a write, the committed jobs say too. */
  lemma Landed(codec: Codec, before: Disk, after: Disk, between: seq<Disk>, job: Record, ok: bool)
    requires codec.Faithful() && (ok ==> codec.encode(job).Some?)
    requires Records(after) == if ok then Records(before)[job.id := codec.encode(job).value] else Records(before)
    requires forall i :: 0 <= i < |between| ==>
      Records(between[i]) == Records(before) || Records(between[i]) == Records(after)
    ensures Committed(codec, after) == if ok then Committed(codec, before)[job.id := job] else Committed(codec, before)
    ensures forall i :: 0 <= i < |between| ==>
      Committed(codec, between[i]) in {Committed(codec, before), Committed(codec, after)}
  {
    if ok {
      CommittedAfterRename(codec, before, after, job);
    } else {
      CommittedByRecords(codec, before, after);
    }
    forall i | 0 <= i < |between|
      ensures Committed(codec, between[i]) in {Committed(codec, before), Committed(codec, after)}
    {
      if Records(between[i]) == Records(before) {
        CommittedByRecords(codec, between[i], before);
      } else {
        CommittedByRecords(codec, between[i], after);
      }
    }
  }

  /** Restarting on what a crash at any step of any operation left: the store is sound and holds one of its versions. */
  method Restart(crashed: Store, ghost step: nat, found: Disk) returns (again: Store)
    requires crashed.Valid() && step < |crashed.files.past| && found == crashed.files.past[step]
    ensures again.Valid() && again.index == Committed(crashed.codec, found) && again.index in crashed.versions
  {
    again := new Store.Open(crashed.codec, found);
  }
}
