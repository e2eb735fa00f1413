/** The chunk queue `MemoryBuffer`, the lower layer of the spill buffer. */
module MemoryBuffer {
  import opened Prelude

  class MemoryBuffer {
    var totalSize: nat
    var chunks: seq<seq<byte>>

    ghost predicate Valid()
      reads this
    {
      (forall i | 0 <= i < |chunks| :: chunks[i] != []) && totalSize == |Flatten(chunks)|
    }

    ghost function Contents(): seq<byte>
      reads this
    {
      Flatten(chunks)
    }

    constructor ()
      ensures Valid() && Contents() == []
    {
      totalSize, chunks := 0, [];
    }

    method Push(data: seq<byte>)
      requires Valid()
      modifies this
      ensures Valid() && Contents() == old(Contents()) + data
    {
      if data != [] {
        FlattenSnoc(chunks, data);
        totalSize := totalSize + |data|;
        chunks := chunks + [data];
      }
    }

    /** The front chunk: a prefix of the contents, empty only when there is nothing to read. */
    method Peek() returns (chunk: seq<byte>)
      requires Valid()
      ensures chunk <= Contents()
      ensures chunk == [] <==> Contents() == []
    {
      chunk := if chunks == [] then [] else chunks[0];
    }

    method Drain(length: nat)
      requires Valid() && length <= totalSize
      modifies this
      ensures Valid() && Contents() == old(Contents())[length..]
    {
      ghost var all := Contents();
      totalSize := totalSize - length;
      var left := length;
      while left > 0
        invariant 0 <= left <= length <= |all| && totalSize == |all| - length
        invariant forall i | 0 <= i < |chunks| :: chunks[i] != []
        invariant Contents() == all[length - left..]
      {
        var removed := RemoveFront(left);
        DropTwice(all, length - left, removed);
        left := left - removed;
      }
    }

    /** Up to `left` bytes of the front chunk. */
    method RemoveFront(left: nat) returns (removed: nat)
      requires left > 0 && Contents() != [] && forall i | 0 <= i < |chunks| :: chunks[i] != []
      modifies this`chunks
      ensures 0 < removed <= left && removed <= |old(Contents())| && Contents() == old(Contents())[removed..]
      ensures forall i | 0 <= i < |chunks| :: chunks[i] != []
    {
      ghost var behind := Flatten(chunks[1..]);
      var front := chunks[0];
      removed := Min(|front|, left);
      assert front + behind == Contents();
      assert (front + behind)[removed..] == front[removed..] + behind;
      front := front[removed..];
      if front == [] {
        assert front + behind == behind;
        chunks := chunks[1..];
      } else {
        assert ([front] + chunks[1..])[1..] == chunks[1..];
        chunks := [front] + chunks[1..];
      }
    }
  }

  lemma DropTwice(s: seq<byte>, m: nat, n: nat)
    requires m + n <= |s|
    ensures s[m..][n..] == s[m + n..]
  {
  }
}

/**
 * The memory-and-file buffer, in place: each operation does to memory and disk what `SpillStore` says.
 *
 * The disk holds the buffer's file and, while it is being stripped, the old one under a temporary name.
 */
module MemfileBuffer {
  import opened Prelude
  import opened SpillStore
  import M = MemoryBuffer

  datatype Path = Main | Temp

  type Disk = map<Path, seq<byte>>

  function Renamed(disk: Disk, from: Path, to: Path): Disk
    requires from in disk
  {
    (disk - {from})[to := disk[from]]
  }

  function MainFile(disk: Disk): seq<byte> {
    if Main in disk then disk[Main] else []
  }

  /** The new file, from what is unread in the old one. */
  method Rebuild(disk: Disk, readOffset: nat, f: StripFaults) returns (err: bool, after: Disk)
    requires Temp in disk && Main !in disk && readOffset <= |disk[Temp]|
    ensures var unread := disk[Temp][readOffset..];
      && Temp in after && after[Temp] == disk[Temp]
      && err == (f.create || f.openTemp || f.seek || (f.copy.Some? && unread != []))
      && MainFile(after) == if err then Unfinished(unread, f) else unread
  {
    after := disk;
    if f.create {
      return true, after;
    }
    after := after[Main := []];
    if f.openTemp || f.seek {
      return true, after;
    }
    var left := after[Temp][readOffset..];
    if f.copy.Some? && left != [] {
      return true, after[Main := after[Main] + left[..Min(f.copy.value, |left| - 1)]];
    }
    return false, after[Main := after[Main] + left];
  }

  /** The new file is removed and the old one renamed back. */
  method Rollback(disk: Disk, f: StripFaults) returns (after: Disk)
    requires Temp in disk
    ensures MainFile(after) == if !f.renameBack then disk[Temp] else if f.remove then MainFile(disk) else []
  {
    after := disk;
    if !f.remove {
      after := after - {Main};
    }
    if !f.renameBack {
      after := Renamed(after, Temp, Main);
    }
  }

  /** The file is renamed, made anew and, if that fails, put back; what is left under the other name is removed. */
  method Replace(disk: Disk, readOffset: nat, f: StripFaults) returns (err: bool, after: Disk)
    requires Main in disk && readOffset <= |disk[Main]|
    ensures var unread := disk[Main][readOffset..];
      && err == (f.create || f.openTemp || f.seek || (f.copy.Some? && unread != []))
      && MainFile(after) ==
           if !err then unread else if !f.renameBack then disk[Main] else if f.remove then Unfinished(unread, f) else []
  {
    after := Renamed(disk, Main, Temp);
    err, after := Rebuild(after, readOffset, f);
    if err {
      after := Rollback(after, f);
    }
    if !f.removeTemp {
      after := after - {Temp};
    }
  }

  class MemfileBuffer {
    const threshold: nat
    const maxFileSize: nat
    const mem: M.MemoryBuffer
    var fileOpen: bool
    var file: seq<byte>                // what is under the file's name; empty if nothing is
    var temp: Option<seq<byte>>        // what a strip left under the temporary name
    var readOffset: nat

    ghost function Limits(): Limits {
      SpillStore.Limits(threshold, maxFileSize)
    }

    ghost function View(): Store
      reads this, mem
    {
      Store(mem.Contents(), file, fileOpen, readOffset)
    }

    ghost predicate Shape()
      reads this, mem
    {
      mem.Valid() && mem.totalSize <= threshold
    }

    /** In order, with a file that can be read: `Good`, in terms of the fields. */
    ghost predicate Valid()
      reads this, mem
    {
      && Shape() && readOffset <= |file| <= maxFileSize && (!fileOpen ==> file == [])
      && (mem.totalSize < threshold ==> readOffset == |file|)
    }

    ghost function Contents(): seq<byte>
      reads this, mem
    {
      mem.Contents() + (if readOffset <= |file| then file[readOffset..] else [])
    }

    lemma Seen()
      ensures Valid() <==> Shape() && Good(Limits(), View())
      ensures Contents() == All(View())
    {
    }

    ghost function Capacity(): nat {
      threshold + maxFileSize
    }

    constructor (threshold: nat, maxFileSize: nat)
      ensures Valid() && View() == EMPTY && Contents() == [] && fresh(mem)
      ensures this.threshold == threshold && this.maxFileSize == maxFileSize
    {
      this.threshold, this.maxFileSize := threshold, maxFileSize;
      mem := new M.MemoryBuffer();
      fileOpen, file, temp, readOffset := false, [], None, 0;
    }

    /** A closed file is not counted; the source asserts that the file is no shorter than what was read of it. */
    method Size() returns (n: nat)
      requires Shape() && readOffset <= if fileOpen then |file| else 0
      ensures n == mem.totalSize + (if fileOpen then |file| else 0) - readOffset
      ensures Valid() ==> n == |Contents()| <= Capacity()
    {
      n := mem.totalSize + (if fileOpen then |file| else 0) - readOffset;
    }

    /** `push`, for a buffer in any state and with any faults. */
    method Push(data: seq<byte>, faults: Faults) returns (err: bool, ghost accepted: nat)
      requires Shape()
      modifies this, mem
      ensures Shape() && Pushed(View(), err, accepted) == SpillStore.Push(Limits(), old(View()), data, faults)
    {
      var rest := TransferMem2Mem(data);
      ghost var kept := |data| - |rest|;
      ghost var written;
      err, written := WriteInFile(rest, faults);
      accepted := kept + written;
    }

    /** `push` on a buffer whose file can be read, when no file operation fails. */
    method PushAll(data: seq<byte>) returns (err: bool, ghost accepted: nat)
      requires Valid()
      modifies this, mem
      ensures Valid() && accepted == Min(|data|, Capacity() - |old(Contents())|)
      ensures Contents() == old(Contents()) + data[..accepted]
      ensures err <==> |data| > threshold - old(mem.totalSize) && |old(Contents())| - old(mem.totalSize) == maxFileSize
    {
      Seen();
      FaultlessPush(Limits(), View(), data);
      PushKeepsGood(Limits(), View(), data, NO_FAULTS);
      PushLands(Limits(), View(), data, NO_FAULTS);
      InOrder(Limits(), View(), data, SpillStore.Push(Limits(), View(), data, NO_FAULTS).accepted);
      err, accepted := Push(data, NO_FAULTS);
      Seen();
    }

    /** `peek`, for a buffer in any state: the front chunk of memory, refilled from the file if that is open. */
    method Peek() returns (err: bool, chunk: seq<byte>)
      requires Shape()
      modifies this`readOffset, mem
      ensures Shape() && View() == Refill(Limits(), old(View())) && err == RefillFails(Limits(), old(View()))
      ensures chunk <= View().mem && (err ==> chunk == []) && (!err ==> (chunk == [] <==> View().mem == []))
    {
      err := TransferFile2Mem();
      chunk := [];
      if !err {
        chunk := mem.Peek();
      }
    }

    /** `peek` on a buffer whose file can be read: a prefix of the contents, non-empty when there are any. */
    method Front() returns (chunk: seq<byte>)
      requires Valid()
      modifies this`readOffset, mem
      ensures Valid() && Contents() == old(Contents())
      ensures chunk <= Contents() && |chunk| <= mem.totalSize
      ensures threshold > 0 ==> (chunk == [] <==> Contents() == [])
    {
      Seen();
      RefillKeeps(Limits(), View());
      RefillKeepsGood(Limits(), View());
      var _, front := Peek();
      chunk := front;
      Seen();
    }

    /** `drain`, for a buffer in any state. */
    method Drain(length: nat)
      requires Shape() && length <= mem.totalSize
      modifies this`readOffset, mem
      ensures Shape() && View() == SpillStore.Drain(Limits(), old(View()), length)
    {
      mem.Drain(length);
      var _ := TransferFile2Mem();
    }

    /** `drain` on a buffer whose file can be read. */
    method Advance(length: nat)
      requires Valid() && length <= mem.totalSize
      modifies this`readOffset, mem
      ensures Valid() && Contents() == old(Contents())[length..]
    {
      Seen();
      DrainExactly(Limits(), View(), length);
      RefillKeepsGood(Limits(), View().(mem := View().mem[length..]));
      Drain(length);
      Seen();
    }

    method TransferFile2Mem() returns (err: bool)
      requires Shape()
      modifies this`readOffset, mem
      ensures Shape() && View() == Refill(Limits(), old(View())) && err == RefillFails(Limits(), old(View()))
    {
      if !fileOpen {
        return false;
      }
      var freeSpace := threshold - mem.totalSize;
      var fsize := |file|;
      if freeSpace == 0 || fsize == 0 || fsize == readOffset {
        return false;
      }
      if fsize < readOffset {
        return true;
      }
      var toRead := Min(freeSpace, fsize - readOffset);
      mem.Push(file[readOffset..readOffset + toRead]);
      readOffset := readOffset + toRead;
      return false;
    }

    /** Returns what memory had no room for. */
    method TransferMem2Mem(data: seq<byte>) returns (rest: seq<byte>)
      requires Shape()
      modifies mem
      ensures Shape()
      ensures var kept := Kept(Limits(), old(View()), data);
        rest == data[kept..] && mem.Contents() == old(mem.Contents()) + data[..kept]
    {
      var freeSpace := threshold - mem.totalSize;
      if freeSpace == 0 {
        return data;
      }
      var chunk := if freeSpace >= |data| then data else data[..freeSpace];
      mem.Push(chunk);
      rest := data[|chunk|..];
    }

    /**
     * `strip_file`: the file is renamed away, a new one is made, and what is unread is copied to it; if
     * that fails, the new file is removed and the old one renamed back.
     */
    method StripFile(f: StripFaults) returns (err: bool)
      requires Shape() && fileOpen
      modifies this`file, this`temp, this`readOffset, this`fileOpen
      ensures Shape() && View() == Strip(old(View()), f) && err == (OutcomeOf(old(View()), f) != Stripped)
    {
      if f.stat || |file| < readOffset {
        return true;
      }
      fileOpen := false;
      if f.rename {
        return true;
      }
      var disk: Disk := if temp.Some? then map[Main := file, Temp := temp.value] else map[Main := file];
      err, disk := Replace(disk, readOffset, f);
      fileOpen := !err || (!f.renameBack && !f.reopen);
      file, temp := MainFile(disk), if Temp in disk then Some(disk[Temp]) else None;
      if !err {
        readOffset := 0;
      }
    }

    /** A closed file is opened again, with what it held. */
    method WriteInFile(data: seq<byte>, faults: Faults) returns (err: bool, ghost written: nat)
      requires Shape()
      modifies this`file, this`temp, this`readOffset, this`fileOpen
      ensures Shape() && Pushed(View(), err, written) == Write(Limits(), old(View()), data, faults)
    {
      if data == [] {
        return false, 0;
      }
      if !fileOpen {
        if faults.open {
          return true, 0;
        }
        fileOpen := true;
      }
      err, written := WriteInOpenFile(data, faults);
    }

    method WriteInOpenFile(data: seq<byte>, faults: Faults) returns (err: bool, ghost written: nat)
      requires Shape() && fileOpen
      modifies this`file, this`temp, this`readOffset, this`fileOpen
      ensures Shape() && Pushed(View(), err, written) ==
        WriteOpen(Limits(), old(View()), data, faults, NeedToStrip(maxFileSize, old(readOffset), |old(file)|, |data|))
    {
      if faults.stat {
        return true, 0;
      }
      if NeedToStrip(maxFileSize, readOffset, |file|, |data|) {
        var failed := StripFile(faults.strip);
        if failed {
          return true, 0;
        }
      }
      if faults.write || |file| >= maxFileSize {
        return true, 0;
      }
      var toWrite := Min(|data|, maxFileSize - |file|);
      file := file + data[..toWrite];
      return false, toWrite;
    }
  }

  // ---- Runs ----

  /** One operation of a client, in a run `r`; `looked` is what a peek showed. */
  method Perform(b: MemfileBuffer, a: Act, ghost r: Run) returns (out: seq<byte>, ghost added: seq<byte>, looked: seq<byte>)
    requires b.Shape() && r.s == b.View()
    modifies b, b.mem
    ensures b.Shape() && Do(b.Limits(), r, a) == Run(b.View(), r.consumed + out, r.accepted + added)
    ensures a.Look? && looked == [] ==> b.View().mem == [] || RefillFails(b.Limits(), r.s)
  {
    out, added, looked := [], [], [];
    match a {
      case Add(data, faults) =>
        PushExactly(b.Limits(), b.View(), data, faults);
        var _, accepted := b.Push(data, faults);
        added := data[..accepted];
      case Look =>
        var _, chunk := b.Peek();
        looked := chunk;
      case Take(n) =>
        var m := Min(n, b.mem.totalSize);
        out := Flatten(b.mem.chunks)[..m];
        b.Drain(m);
    }
    assert r.consumed + [] == r.consumed && r.accepted + [] == r.accepted;
  }

  /** In a run without the graver faults a peek that shows nothing finds nothing unread. */
  lemma NotStarved(l: Limits, s: Store)
    requires Good(l, s) && l.threshold > 0
    ensures !RefillFails(l, s) && (Refill(l, s).mem == [] ==> Refill(l, s).offset == |Refill(l, s).file|)
  {
    RefillKeepsGood(l, s);
  }

  /**
   * The buffer through any run of pushes, with any faults, peeks and drains: it ends as `DoAll` says, so
   * `ConservesExactly` tells when order was kept. If no strip fails in renaming or reopening the file,
   * what was read followed by what is left is what was accepted, and a peek shows something whenever
   * there is something.
   */
  method Replay(threshold: nat, maxFileSize: nat, acts: seq<Act>)
    returns (consumed: seq<byte>, ghost accepted: seq<byte>, ghost left: seq<byte>, starved: bool)
    ensures var r := DoAll(Limits(threshold, maxFileSize), START, acts);
      consumed == r.consumed && accepted == r.accepted && left == All(r.s)
    ensures FineThroughout(Limits(threshold, maxFileSize), START, acts) ==> consumed + left == accepted
    ensures MildActs(acts) ==> consumed + left == accepted && |left| <= threshold + maxFileSize
    ensures MildActs(acts) && threshold > 0 ==> !starved
  {
    var b := new MemfileBuffer(threshold, maxFileSize);
    ghost var l, r := Limits(threshold, maxFileSize), START;
    consumed, starved := [], false;
    for i := 0 to |acts|
      invariant b.Shape() && fresh(b) && fresh(b.mem) && b.Limits() == l
      invariant r.s == b.View() && r.consumed == consumed && r == DoAll(l, START, acts[..i])
      invariant MildActs(acts) ==> Good(l, r.s)
      invariant MildActs(acts) && threshold > 0 ==> !starved
    {
      RunOn(l, acts, i);
      if MildActs(acts) {
        GoodStep(l, r, acts[i]);
        if threshold > 0 {
          NotStarved(l, r.s);
        }
      }
      var out, _, looked := Perform(b, acts[i], r);
      r, consumed := Do(l, r, acts[i]), consumed + out;
      if acts[i].Look? && looked == [] {
        starved := starved || b.readOffset < |b.file|;
      }
    }
    assert acts[..|acts|] == acts;
    accepted, left := r.accepted, All(r.s);
    ReplayConserves(l, acts);
  }

  lemma ReplayConserves(l: Limits, acts: seq<Act>)
    ensures var r := DoAll(l, START, acts);
      && (FineThroughout(l, START, acts) ==> r.consumed + All(r.s) == r.accepted)
      && (MildActs(acts) ==> r.consumed + All(r.s) == r.accepted && |All(r.s)| <= l.threshold + l.maxFileSize)
  {
    if FineThroughout(l, START, acts) {
      FineRuns(l, START, acts);
    }
    if MildActs(acts) {
      MildRuns(l, START, acts);
    }
  }

  lemma RunOn(l: Limits, acts: seq<Act>, i: nat)
    requires i < |acts|
    ensures DoAll(l, START, acts[..i + 1]) == Do(l, DoAll(l, START, acts[..i]), acts[i])
  {
    assert acts[..i + 1] == acts[..i] + [acts[i]];
    OneMore(l, START, acts[..i], acts[i]);
  }

  /** A strip fails in its first rename; memory is read and filled again: byte 5 is read before byte 2. */
  method LostHandleReorders() returns (before: seq<byte>, chunk: seq<byte>, behind: seq<byte>)
    ensures before == [1] && chunk == [5] && behind == [2]
  {
    var b := new MemfileBuffer(1, 2);
    Overtakes(b.Limits());
    var _, _ := b.Push([1, 2], NO_FAULTS);
    var _, _ := b.Push([3, 4], RENAME_FAILS);
    before := Flatten(b.mem.chunks);
    b.Drain(1);
    var _, _ := b.Push([5], NO_FAULTS);
    var _, front := b.Peek();
    chunk, behind := front, b.file[b.readOffset..];
  }
}
