/**
 * The memory-and-file buffer on values: what a push, a peek and a drain make of the bytes in memory
 * and in the file, with every file operation of a push allowed to fail, and what is left of "first in,
 * first out" when some do.
 *
 * File reads and writes complete in one call. An absent file is an empty one.
 */
module SpillStore {
  import opened Prelude

  datatype Limits = Limits(threshold: nat, maxFileSize: nat)

  // The bytes in memory and in the file, whether the file is open, and how much of it has been read.
  datatype Store = Store(mem: seq<byte>, file: seq<byte>, open: bool, offset: nat)

  const EMPTY: Store := Store([], [], false, 0)

  function Unread(s: Store): seq<byte> {
    if s.offset <= |s.file| then s.file[s.offset..] else []
  }

  function All(s: Store): seq<byte> {
    s.mem + Unread(s)
  }

  // ---- Stripping the file ----

  /**
   * The steps of `strip_file` that fail: reading the size, renaming the file, creating the new one,
   * opening and positioning the old one, copying (after some bytes), and in the rollback removing the
   * new file, renaming the old one back and opening it; finally removing what is left of the old one.
   */
  datatype StripFaults = StripFaults(
    stat: bool, rename: bool, create: bool, openTemp: bool, seek: bool, copy: Option<nat>,
    remove: bool, renameBack: bool, reopen: bool, removeTemp: bool)

  const NO_STRIP_FAULTS: StripFaults :=
    StripFaults(false, false, false, false, false, None, false, false, false, false)

  datatype Outcome = Stripped | Refused | HandleLost | PutBack | FileLost

  /** The new file cannot be completed. */
  predicate RebuildFails(s: Store, f: StripFaults) {
    f.create || f.openTemp || f.seek || (f.copy.Some? && Unread(s) != [])
  }

  function OutcomeOf(s: Store, f: StripFaults): Outcome {
    if f.stat || |s.file| < s.offset then Refused
    else if f.rename then HandleLost
    else if !RebuildFails(s, f) then Stripped
    else if f.renameBack then FileLost
    else if f.reopen then HandleLost
    else PutBack
  }

  /** What a copy that fails has written. */
  function PartlyCopied(unread: seq<byte>, copied: nat): seq<byte> {
    if unread == [] then [] else unread[..Min(copied, |unread| - 1)]
  }

  /** What is in the new file when it could not be completed. */
  function Unfinished(unread: seq<byte>, f: StripFaults): seq<byte> {
    if !f.create && !f.openTemp && !f.seek && f.copy.Some? then PartlyCopied(unread, f.copy.value) else []
  }

  /** What is under the file's name when the old file could not be put back. */
  function Remains(s: Store, f: StripFaults): seq<byte> {
    if f.remove then Unfinished(Unread(s), f) else []
  }

  function Strip(s: Store, f: StripFaults): Store {
    match OutcomeOf(s, f)
    case Stripped => s.(file := Unread(s), offset := 0)
    case Refused => s
    case HandleLost => s.(open := false)
    case PutBack => s
    case FileLost => s.(open := false, file := Remains(s, f))
  }

  /** A strip changes the contents if and only if there are any in the file and the old file is not put back. */
  lemma StripLosesExactly(s: Store, f: StripFaults)
    ensures All(Strip(s, f)) == All(s) <==> OutcomeOf(s, f) != FileLost || Unread(s) == []
  {
    StripUnread(s, f);
  }

  lemma StripUnread(s: Store, f: StripFaults)
    ensures Strip(s, f).mem == s.mem
    ensures OutcomeOf(s, f) != FileLost || Unread(s) == [] ==> Unread(Strip(s, f)) == Unread(s)
    ensures OutcomeOf(s, f) == FileLost && Unread(s) != [] ==> |Unread(Strip(s, f))| < |Unread(s)|
  {
    if OutcomeOf(s, f) == Stripped {
      assert Unread(s)[0..] == Unread(s);
    } else if OutcomeOf(s, f) == FileLost {
      LostIsShorter(s, f);
    }
  }

  lemma LostIsShorter(s: Store, f: StripFaults)
    requires OutcomeOf(s, f) == FileLost
    ensures Unread(s) == [] ==> Unread(Strip(s, f)) == []
    ensures Unread(s) != [] ==> |Unread(Strip(s, f))| < |Unread(s)|
  {
    assert |Remains(s, f)| <= |Unread(s)| && (Unread(s) != [] ==> |Remains(s, f)| < |Unread(s)|);
  }

  // ---- Pushing ----

  // Which file operations of a push fail: opening, reading the size, those of a strip, writing.
  datatype Faults = Faults(open: bool, stat: bool, strip: StripFaults, write: bool)

  const NO_FAULTS: Faults := Faults(false, false, NO_STRIP_FAULTS, false)

  // Unsigned 64-bit arithmetic of the strip heuristics.
  function Wrap64(x: nat): (w: nat)
    ensures w <= x
  {
    x % 0x1_0000_0000_0000_0000
  }

  /** `need_to_strip_file`. */
  predicate NeedToStrip(max: nat, offset: nat, size: nat, data: nat) {
    || size + data > max
    || (offset > 0
        && (offset > Wrap64(max * 3) / 10 || offset > Wrap64(size * 3) / 10 || size > Wrap64(max * 8) / 10))
  }

  datatype Pushed = Pushed(s: Store, err: bool, accepted: nat)

  function Append(l: Limits, s: Store, data: seq<byte>, fails: bool): Pushed {
    if fails || |s.file| >= l.maxFileSize then Pushed(s, true, 0)
    else
      var n := Min(|data|, l.maxFileSize - |s.file|);
      Pushed(s.(file := s.file + data[..n]), false, n)
  }

  /** The file is open; `need` says that it is to be stripped first. */
  function WriteOpen(l: Limits, s: Store, data: seq<byte>, f: Faults, need: bool): Pushed {
    if f.stat then Pushed(s, true, 0)
    else if !need then Append(l, s, data, f.write)
    else if OutcomeOf(s, f.strip) != Stripped then Pushed(Strip(s, f.strip), true, 0)
    else Append(l, Strip(s, f.strip), data, f.write)
  }

  /** `write_in_file`; a closed file is opened with what it held. */
  function Write(l: Limits, s: Store, data: seq<byte>, f: Faults): Pushed {
    if data == [] then Pushed(s, false, 0)
    else if !s.open && f.open then Pushed(s, true, 0)
    else WriteOpen(l, s.(open := true), data, f, NeedToStrip(l.maxFileSize, s.offset, |s.file|, |data|))
  }

  /** How many bytes of a push go to memory. */
  function Kept(l: Limits, s: Store, data: seq<byte>): (n: nat)
    requires |s.mem| <= l.threshold
    ensures n <= |data|
  {
    Min(|data|, l.threshold - |s.mem|)
  }

  function Push(l: Limits, s: Store, data: seq<byte>, f: Faults): (p: Pushed)
    requires |s.mem| <= l.threshold
  {
    var kept := Kept(l, s, data);
    var p := Write(l, s.(mem := s.mem + data[..kept]), data[kept..], f);
    p.(accepted := kept + p.accepted)
  }

  /** Writing strips the file, with something unread in it, and cannot put it back. */
  predicate WriteLoses(l: Limits, s: Store, data: seq<byte>, f: Faults) {
    && data != [] && (s.open || !f.open) && !f.stat && Unread(s) != []
    && NeedToStrip(l.maxFileSize, s.offset, |s.file|, |data|) && OutcomeOf(s, f.strip) == FileLost
  }

  predicate Loses(l: Limits, s: Store, data: seq<byte>, f: Faults)
    requires |s.mem| <= l.threshold
  {
    WriteLoses(l, s, data[Kept(l, s, data)..], f)
  }

  /** A file that is shorter than what was read of it is never written again. */
  lemma ShortFileNeedsStrip(max: nat, offset: nat, size: nat, data: nat)
    requires offset > size
    ensures NeedToStrip(max, offset, size, data)
  {
    assert Wrap64(size * 3) / 10 <= size * 3 / 10 <= size;
  }

  lemma AppendExactly(l: Limits, s: Store, data: seq<byte>, fails: bool)
    requires s.offset <= |s.file|
    ensures var p := Append(l, s, data, fails);
      && p.accepted <= |data| && (p.err ==> p.accepted == 0)
      && p.s == s.(file := p.s.file) && Unread(p.s) == Unread(s) + data[..p.accepted]
  {
    var n := Append(l, s, data, fails).accepted;
    assert (s.file + data[..n])[s.offset..] == s.file[s.offset..] + data[..n];
  }

  lemma WriteOpenExactly(l: Limits, s: Store, data: seq<byte>, f: Faults, need: bool)
    requires s.offset > |s.file| ==> need
    ensures var p := WriteOpen(l, s, data, f, need);
      && p.accepted <= |data| && (p.err ==> p.accepted == 0) && p.s.mem == s.mem
      && (if !f.stat && need && OutcomeOf(s, f.strip) == FileLost && Unread(s) != []
          then p.accepted == 0 && |Unread(p.s)| < |Unread(s)|
          else Unread(p.s) == Unread(s) + data[..p.accepted])
  {
    assert Unread(s) + data[..0] == Unread(s);
    StripUnread(s, f.strip);
    if need && OutcomeOf(s, f.strip) == Stripped {
      AppendExactly(l, Strip(s, f.strip), data, f.write);
    } else if !need {
      AppendExactly(l, s, data, f.write);
    }
  }

  lemma WriteExactly(l: Limits, s: Store, data: seq<byte>, f: Faults)
    ensures var p := Write(l, s, data, f);
      && p.accepted <= |data| && (p.err ==> p.accepted == 0) && p.s.mem == s.mem
      && (if WriteLoses(l, s, data, f) then p.accepted == 0 && |Unread(p.s)| < |Unread(s)|
          else Unread(p.s) == Unread(s) + data[..p.accepted])
  {
    var u, need := s.(open := true), NeedToStrip(l.maxFileSize, s.offset, |s.file|, |data|);
    assert Unread(u) == Unread(s) && OutcomeOf(u, f.strip) == OutcomeOf(s, f.strip);
    assert Unread(s) + data[..0] == Unread(s);
    if s.offset > |s.file| {
      ShortFileNeedsStrip(l.maxFileSize, s.offset, |s.file|, |data|);
    }
    WriteOpenExactly(l, u, data, f, need);
  }

  /**
   * What a push does, whatever fails: memory is filled first, the rest goes behind what is unread in
   * the file, as far as it is accepted. Only a strip that loses the file takes something away.
   */
  lemma PushExactly(l: Limits, s: Store, data: seq<byte>, f: Faults)
    requires |s.mem| <= l.threshold
    ensures var p, kept := Push(l, s, data, f), Kept(l, s, data);
      && kept <= p.accepted <= |data| && (p.err ==> p.accepted == kept)
      && p.s.mem == s.mem + data[..kept] && |p.s.mem| <= l.threshold
      && (if Loses(l, s, data, f) then p.accepted == kept && |Unread(p.s)| < |Unread(s)|
          else Unread(p.s) == Unread(s) + data[kept..p.accepted])
  {
    var kept := Kept(l, s, data);
    var m := s.(mem := s.mem + data[..kept]);
    SameFile(l, s, m.mem, data[kept..], f);
    WriteExactly(l, m, data[kept..], f);
    PushFrom(s, data, kept, Write(l, m, data[kept..], f), Loses(l, s, data, f));
  }

  lemma SameFile(l: Limits, s: Store, mem: seq<byte>, data: seq<byte>, f: Faults)
    ensures Unread(s.(mem := mem)) == Unread(s)
    ensures WriteLoses(l, s.(mem := mem), data, f) == WriteLoses(l, s, data, f)
  {
  }

  lemma PushFrom(s: Store, data: seq<byte>, kept: nat, w: Pushed, loses: bool)
    requires kept + w.accepted <= |data| && w.s.mem == s.mem + data[..kept]
    requires if loses then w.accepted == 0 && |Unread(w.s)| < |Unread(s)|
             else Unread(w.s) == Unread(s) + data[kept..][..w.accepted]
    ensures if loses then w.accepted == 0 && |Unread(w.s)| < |Unread(s)|
            else Unread(w.s) == Unread(s) + data[kept..kept + w.accepted]
  {
    assert data[kept..][..w.accepted] == data[kept..kept + w.accepted];
  }

  // ---- Order ----

  /** Unread file bytes only exist behind a full memory. */
  predicate Ordered(l: Limits, s: Store) {
    |s.mem| < l.threshold ==> Unread(s) == []
  }

  /** Where an accepted prefix of `data` ends up. */
  function Landed(l: Limits, s: Store, data: seq<byte>, accepted: nat): seq<byte>
    requires |s.mem| <= l.threshold && Kept(l, s, data) <= accepted <= |data|
  {
    (s.mem + data[..Kept(l, s, data)]) + (Unread(s) + data[Kept(l, s, data)..accepted])
  }

  lemma PushLands(l: Limits, s: Store, data: seq<byte>, f: Faults)
    requires |s.mem| <= l.threshold && !Loses(l, s, data, f)
    ensures var p := Push(l, s, data, f);
      Kept(l, s, data) <= p.accepted <= |data| && All(p.s) == Landed(l, s, data, p.accepted)
  {
    PushExactly(l, s, data, f);
  }

  lemma InOrder(l: Limits, s: Store, data: seq<byte>, accepted: nat)
    requires |s.mem| <= l.threshold && Ordered(l, s) && Kept(l, s, data) <= accepted <= |data|
    ensures Landed(l, s, data, accepted) == All(s) + data[..accepted]
  {
    var kept := Kept(l, s, data);
    assert data[..accepted] == data[..kept] + data[kept..accepted];
    SwapEmpty(s.mem, data[..kept], Unread(s), data[kept..accepted]);
  }

  lemma SwapEmpty(a: seq<byte>, b: seq<byte>, c: seq<byte>, d: seq<byte>)
    requires b == [] || c == []
    ensures (a + b) + (c + d) == (a + c) + (b + d)
  {
    if b == [] {
      assert a + b == a && b + d == d;
      Assoc(a, c, d);
    } else {
      assert a + c == a && c + d == d;
      Assoc(a, b, d);
    }
  }

  /** Otherwise the first byte of a push gets ahead of the first one in the file. */
  lemma OutOfOrder(l: Limits, s: Store, data: seq<byte>, accepted: nat)
    requires |s.mem| <= l.threshold && !Ordered(l, s) && Kept(l, s, data) <= accepted <= |data| && data != []
    ensures Kept(l, s, data) > 0 && Landed(l, s, data, accepted)[|s.mem|] == data[0] && All(s)[|s.mem|] == Unread(s)[0]
  {
    assert data[..Kept(l, s, data)][0] == data[0];
  }

  ghost predicate PushesInOrder(l: Limits, s: Store)
    requires |s.mem| <= l.threshold
  {
    forall data: seq<byte>, f: Faults | !Loses(l, s, data, f) ::
      All(Push(l, s, data, f).s) == All(s) + data[..Min(Push(l, s, data, f).accepted, |data|)]
  }

  /** Whatever is pushed lands behind everything else, if and only if there is nothing unread in the file or memory is full. */
  lemma InOrderExactly(l: Limits, s: Store)
    requires |s.mem| <= l.threshold
    ensures PushesInOrder(l, s) <==> Ordered(l, s)
  {
    if Ordered(l, s) {
      forall data: seq<byte>, f: Faults | !Loses(l, s, data, f)
        ensures All(Push(l, s, data, f).s) == All(s) + data[..Min(Push(l, s, data, f).accepted, |data|)]
      {
        PushLands(l, s, data, f);
        InOrder(l, s, data, Push(l, s, data, f).accepted);
      }
    } else {
      var x: byte := if Unread(s)[0] == 0 then 1 else 0;
      assert !Loses(l, s, [x], NO_FAULTS);
      PushLands(l, s, [x], NO_FAULTS);
      OutOfOrder(l, s, [x], 1);
    }
  }

  // ---- Reading ----

  /** `transfer_file2mem`; it fails, and changes nothing, on a file shorter than what was read of it. */
  function Refill(l: Limits, s: Store): Store {
    if !s.open || |s.mem| >= l.threshold || s.offset >= |s.file| then s
    else
      var n := Min(l.threshold - |s.mem|, |s.file| - s.offset);
      s.(mem := s.mem + s.file[s.offset..s.offset + n], offset := s.offset + n)
  }

  predicate RefillFails(l: Limits, s: Store) {
    s.open && |s.mem| < l.threshold && 0 < |s.file| < s.offset
  }

  function Drain(l: Limits, s: Store, n: nat): Store
    requires n <= |s.mem|
  {
    Refill(l, s.(mem := s.mem[n..]))
  }

  lemma RefillKeeps(l: Limits, s: Store)
    requires |s.mem| <= l.threshold
    ensures All(Refill(l, s)) == All(s) && |Refill(l, s).mem| <= l.threshold
    ensures s.open ==> Ordered(l, Refill(l, s))
    ensures Refill(l, s) == s.(mem := Refill(l, s).mem, offset := Refill(l, s).offset)
    ensures s.mem <= Refill(l, s).mem && (s.offset <= |s.file| ==> Refill(l, s).offset <= |s.file|)
  {
    var d := Refill(l, s);
    if d.offset > s.offset {
      var part := s.file[s.offset..d.offset];
      assert s.file[s.offset..] == part + s.file[d.offset..];
      Assoc(s.mem, part, s.file[d.offset..]);
    }
  }

  lemma DrainExactly(l: Limits, s: Store, n: nat)
    requires n <= |s.mem| <= l.threshold
    ensures s.mem[..n] + All(Drain(l, s, n)) == All(s) && |Drain(l, s, n).mem| <= l.threshold
  {
    RefillKeeps(l, s.(mem := s.mem[n..]));
    assert s.mem == s.mem[..n] + s.mem[n..];
    Assoc(s.mem[..n], s.mem[n..], Unread(s));
  }

  /** Reading takes a buffer out of order if and only if its file has something unread and is closed. */
  lemma DrainOrders(l: Limits, s: Store, n: nat)
    requires n <= |s.mem| <= l.threshold && Ordered(l, s)
    ensures Ordered(l, Drain(l, s, n)) <==> n == 0 || Unread(s) == [] || s.open
  {
    var m := s.(mem := s.mem[n..]);
    RefillKeeps(l, m);
    if n == 0 {
      assert s.mem[0..] == s.mem;
    }
  }

  /** A push never does. */
  lemma PushOrders(l: Limits, s: Store, data: seq<byte>, f: Faults)
    requires |s.mem| <= l.threshold && Ordered(l, s)
    ensures Ordered(l, Push(l, s, data, f).s)
  {
    PushExactly(l, s, data, f);
  }

  // ---- A buffer whose file can be read ----

  predicate Good(l: Limits, s: Store) {
    && |s.mem| <= l.threshold && Ordered(l, s)
    && s.offset <= |s.file| <= l.maxFileSize && (s.open || s.file == [])
  }

  /** Faults that do not cost the buffer its file. */
  predicate Mild(f: StripFaults) {
    !f.rename && !f.renameBack && !f.reopen
  }

  lemma WriteKeepsGood(l: Limits, s: Store, data: seq<byte>, f: Faults)
    requires s.offset <= |s.file| <= l.maxFileSize && (s.open || s.file == []) && Mild(f.strip)
    ensures var d := Write(l, s, data, f).s;
      d.offset <= |d.file| <= l.maxFileSize && (d.open || d.file == [])
  {
    WriteOpenKeepsGood(l, s.(open := true), data, f, NeedToStrip(l.maxFileSize, s.offset, |s.file|, |data|));
  }

  lemma WriteOpenKeepsGood(l: Limits, s: Store, data: seq<byte>, f: Faults, need: bool)
    requires s.offset <= |s.file| <= l.maxFileSize && s.open && Mild(f.strip)
    ensures var d := WriteOpen(l, s, data, f, need).s; d.offset <= |d.file| <= l.maxFileSize && d.open
  {
    assert OutcomeOf(s, f.strip) != HandleLost && OutcomeOf(s, f.strip) != FileLost;
  }

  lemma PushKeepsGood(l: Limits, s: Store, data: seq<byte>, f: Faults)
    requires Good(l, s) && Mild(f.strip)
    ensures Good(l, Push(l, s, data, f).s) && !Loses(l, s, data, f)
  {
    PushExactly(l, s, data, f);
    WriteKeepsGood(l, s.(mem := s.mem + data[..Kept(l, s, data)]), data[Kept(l, s, data)..], f);
  }

  lemma RefillKeepsGood(l: Limits, s: Store)
    requires |s.mem| <= l.threshold && s.offset <= |s.file| <= l.maxFileSize && (s.open || s.file == [])
    ensures Good(l, Refill(l, s))
  {
    RefillKeeps(l, s);
  }

  lemma FaultlessWrite(l: Limits, s: Store, data: seq<byte>)
    requires s.offset <= |s.file| <= l.maxFileSize
    ensures var p := Write(l, s, data, NO_FAULTS);
      && p.accepted == Min(|data|, l.maxFileSize - |Unread(s)|)
      && (p.err <==> data != [] && |Unread(s)| == l.maxFileSize)
  {
  }

  /** Without faults exactly as much as the capacity allows is accepted. */
  lemma FaultlessPush(l: Limits, s: Store, data: seq<byte>)
    requires Good(l, s)
    ensures var p := Push(l, s, data, NO_FAULTS);
      && p.accepted == Min(|data|, l.threshold + l.maxFileSize - |All(s)|)
      && (p.err <==> |data| > l.threshold - |s.mem| && |Unread(s)| == l.maxFileSize)
  {
    FaultlessWrite(l, s.(mem := s.mem + data[..Kept(l, s, data)]), data[Kept(l, s, data)..]);
  }

  // ---- Runs ----

  datatype Act = Add(data: seq<byte>, faults: Faults) | Look | Take(n: nat)

  // A buffer, what has been read from it, and what it has accepted.
  datatype Run = Run(s: Store, consumed: seq<byte>, accepted: seq<byte>)

  const START: Run := Run(EMPTY, [], [])

  /** A client may drain what is in memory. */
  function Do(l: Limits, r: Run, a: Act): Run
    requires |r.s.mem| <= l.threshold
  {
    match a
    case Add(data, f) =>
      var p := Push(l, r.s, data, f);
      PushExactly(l, r.s, data, f);
      r.(s := p.s, accepted := r.accepted + data[..p.accepted])
    case Look => r.(s := Refill(l, r.s))
    case Take(n) =>
      var m := Min(n, |r.s.mem|);
      r.(s := Drain(l, r.s, m), consumed := r.consumed + r.s.mem[..m])
  }

  lemma DoFits(l: Limits, r: Run, a: Act)
    requires |r.s.mem| <= l.threshold
    ensures |Do(l, r, a).s.mem| <= l.threshold
  {
    match a
    case Add(data, f) => PushExactly(l, r.s, data, f);
    case Look => RefillKeeps(l, r.s);
    case Take(n) => DrainExactly(l, r.s, Min(n, |r.s.mem|));
  }

  function DoAll(l: Limits, r: Run, acts: seq<Act>): (d: Run)
    requires |r.s.mem| <= l.threshold
    ensures |d.s.mem| <= l.threshold
    decreases |acts|
  {
    if acts == [] then r
    else
      DoFits(l, r, acts[0]);
      DoAll(l, Do(l, r, acts[0]), acts[1..])
  }

  lemma {:induction false} OneMore(l: Limits, r: Run, acts: seq<Act>, a: Act)
    requires |r.s.mem| <= l.threshold
    ensures DoAll(l, r, acts + [a]) == Do(l, DoAll(l, r, acts), a)
    decreases |acts|
  {
    if acts == [] {
      assert acts + [a] == [a] && [a][1..] == [];
      assert DoAll(l, r, [a]) == DoAll(l, Do(l, r, a), []);
    } else {
      assert (acts + [a])[0] == acts[0] && (acts + [a])[1..] == acts[1..] + [a];
      DoFits(l, r, acts[0]);
      OneMore(l, Do(l, r, acts[0]), acts[1..], a);
    }
  }

  /** What was read, then what is held, is what was accepted. */
  predicate Conserves(r: Run) {
    r.consumed + All(r.s) == r.accepted
  }

  /** ...at every moment of a run. */
  predicate ConservesThroughout(l: Limits, r: Run, acts: seq<Act>)
    requires |r.s.mem| <= l.threshold
    decreases |acts|
  {
    Conserves(r) && (acts == [] || (DoFits(l, r, acts[0]); ConservesThroughout(l, Do(l, r, acts[0]), acts[1..])))
  }

  /** A push that keeps order: nothing is unread in the file or memory is full, and the file is not lost. */
  predicate Fine(l: Limits, s: Store, a: Act)
    requires |s.mem| <= l.threshold
  {
    a.Add? && a.data != [] ==> Ordered(l, s) && !Loses(l, s, a.data, a.faults)
  }

  predicate FineThroughout(l: Limits, r: Run, acts: seq<Act>)
    requires |r.s.mem| <= l.threshold
    decreases |acts|
  {
    acts == [] ||
    (Fine(l, r.s, acts[0]) && (DoFits(l, r, acts[0]); FineThroughout(l, Do(l, r, acts[0]), acts[1..])))
  }

  /** No push begins with the very byte that is next in the file, which would hide a change of order. */
  predicate Telling(l: Limits, r: Run, acts: seq<Act>)
    requires |r.s.mem| <= l.threshold
    decreases |acts|
  {
    acts == [] ||
    (&& (acts[0].Add? && acts[0].data != [] && Unread(r.s) != [] ==> acts[0].data[0] != Unread(r.s)[0])
     && (DoFits(l, r, acts[0]); Telling(l, Do(l, r, acts[0]), acts[1..])))
  }

  lemma FineAdd(l: Limits, r: Run, data: seq<byte>, f: Faults)
    requires |r.s.mem| <= l.threshold && Conserves(r) && Fine(l, r.s, Add(data, f))
    ensures Conserves(Do(l, r, Add(data, f)))
  {
    var p := Push(l, r.s, data, f);
    PushExactly(l, r.s, data, f);
    if data == [] {
      assert p.s == r.s.(mem := r.s.mem + []);
      assert r.s.mem + [] == r.s.mem;
    } else {
      PushLands(l, r.s, data, f);
      InOrder(l, r.s, data, p.accepted);
      Assoc(r.consumed, All(r.s), data[..p.accepted]);
    }
  }

  lemma LosingAdd(l: Limits, r: Run, data: seq<byte>, f: Faults)
    requires |r.s.mem| <= l.threshold && Conserves(r) && Loses(l, r.s, data, f)
    ensures !Conserves(Do(l, r, Add(data, f)))
  {
    PushExactly(l, r.s, data, f);
    var d := Do(l, r, Add(data, f));
    assert |d.consumed + All(d.s)| < |d.accepted|;
  }

  lemma OvertakingAdd(l: Limits, r: Run, data: seq<byte>, f: Faults)
    requires |r.s.mem| <= l.threshold && Conserves(r) && !Loses(l, r.s, data, f) && !Ordered(l, r.s)
    requires data != [] && data[0] != Unread(r.s)[0]
    ensures !Conserves(Do(l, r, Add(data, f)))
  {
    PushLands(l, r.s, data, f);
    var p, d := Push(l, r.s, data, f), Do(l, r, Add(data, f));
    OutOfOrder(l, r.s, data, p.accepted);
    var k := |r.consumed| + |r.s.mem|;
    assert (d.consumed + All(d.s))[k] == data[0];
    assert d.accepted[k] == (r.consumed + All(r.s))[k] == Unread(r.s)[0];
  }

  lemma ReadConserves(l: Limits, r: Run, a: Act)
    requires |r.s.mem| <= l.threshold && Conserves(r) && !a.Add?
    ensures Conserves(Do(l, r, a))
  {
    match a
    case Look => RefillKeeps(l, r.s);
    case Take(n) =>
      var m := Min(n, |r.s.mem|);
      DrainExactly(l, r.s, m);
      Assoc(r.consumed, r.s.mem[..m], All(Drain(l, r.s, m)));
  }

  lemma {:induction false} TellingRuns(l: Limits, r: Run, acts: seq<Act>)
    requires |r.s.mem| <= l.threshold && Conserves(r) && Telling(l, r, acts)
    ensures ConservesThroughout(l, r, acts) <==> FineThroughout(l, r, acts)
    decreases |acts|
  {
    if acts != [] {
      var a := acts[0];
      DoFits(l, r, a);
      if !a.Add? {
        ReadConserves(l, r, a);
      } else if Fine(l, r.s, a) {
        FineAdd(l, r, a.data, a.faults);
      } else if Loses(l, r.s, a.data, a.faults) {
        LosingAdd(l, r, a.data, a.faults);
      } else {
        OvertakingAdd(l, r, a.data, a.faults);
      }
      if Conserves(Do(l, r, a)) {
        TellingRuns(l, Do(l, r, a), acts[1..]);
      }
    }
  }

  /** A run of fine pushes conserves, whatever its bytes are. */
  lemma {:induction false} FineRuns(l: Limits, r: Run, acts: seq<Act>)
    requires |r.s.mem| <= l.threshold && Conserves(r) && FineThroughout(l, r, acts)
    ensures ConservesThroughout(l, r, acts) && Conserves(DoAll(l, r, acts))
    decreases |acts|
  {
    if acts != [] {
      DoFits(l, r, acts[0]);
      if acts[0].Add? {
        FineAdd(l, r, acts[0].data, acts[0].faults);
      } else {
        ReadConserves(l, r, acts[0]);
      }
      FineRuns(l, Do(l, r, acts[0]), acts[1..]);
    }
  }

  // Which bytes are pushed decides nothing but how many: runs of the same shape go the same way.

  predicate SameShape(s: Store, t: Store) {
    |s.mem| == |t.mem| && |s.file| == |t.file| && s.open == t.open && s.offset == t.offset
  }

  predicate SameAct(a: Act, b: Act) {
    match a
    case Add(data, f) => b.Add? && |b.data| == |data| && b.faults == f
    case Look => b.Look?
    case Take(n) => b == a
  }

  predicate SameActs(a: seq<Act>, b: seq<Act>) {
    |a| == |b| && forall i | 0 <= i < |a| :: SameAct(a[i], b[i])
  }

  lemma SameWrite(l: Limits, s: Store, t: Store, x: seq<byte>, y: seq<byte>, f: Faults)
    requires SameShape(s, t) && |x| == |y|
    ensures SameShape(Write(l, s, x, f).s, Write(l, t, y, f).s)
    ensures WriteLoses(l, s, x, f) == WriteLoses(l, t, y, f)
  {
    assert |Unread(s)| == |Unread(t)| && (x == [] <==> y == []);
    SameWriteOpen(l, s.(open := true), t.(open := true), x, y, f, NeedToStrip(l.maxFileSize, s.offset, |s.file|, |x|));
  }

  lemma SameWriteOpen(l: Limits, s: Store, t: Store, x: seq<byte>, y: seq<byte>, f: Faults, need: bool)
    requires SameShape(s, t) && |x| == |y|
    ensures SameShape(WriteOpen(l, s, x, f, need).s, WriteOpen(l, t, y, f, need).s)
  {
    SameStrip(s, t, f.strip);
  }

  lemma SameStrip(s: Store, t: Store, f: StripFaults)
    requires SameShape(s, t)
    ensures OutcomeOf(s, f) == OutcomeOf(t, f) && SameShape(Strip(s, f), Strip(t, f))
  {
    assert |Unread(s)| == |Unread(t)| && (Unread(s) == [] <==> Unread(t) == []);
  }

  lemma SamePush(l: Limits, s: Store, t: Store, x: seq<byte>, y: seq<byte>, f: Faults)
    requires |s.mem| <= l.threshold && SameShape(s, t) && |x| == |y|
    ensures SameShape(Push(l, s, x, f).s, Push(l, t, y, f).s) && Loses(l, s, x, f) == Loses(l, t, y, f)
  {
    var kept := Kept(l, s, x);
    SameWrite(l, s, t, x[kept..], y[kept..], f);
    SameWrite(l, s.(mem := s.mem + x[..kept]), t.(mem := t.mem + y[..kept]), x[kept..], y[kept..], f);
  }

  lemma SameRefill(l: Limits, s: Store, t: Store)
    requires SameShape(s, t)
    ensures SameShape(Refill(l, s), Refill(l, t)) && Ordered(l, s) == Ordered(l, t)
  {
    assert |Unread(s)| == |Unread(t)|;
  }

  lemma SameDo(l: Limits, q: Run, r: Run, a: Act, b: Act)
    requires |q.s.mem| <= l.threshold && SameShape(q.s, r.s) && SameAct(a, b)
    ensures SameShape(Do(l, q, a).s, Do(l, r, b).s)
  {
    match a
    case Add(data, f) => SamePush(l, q.s, r.s, data, b.data, f);
    case Look => SameRefill(l, q.s, r.s);
    case Take(n) =>
      var m := Min(n, |q.s.mem|);
      SameRefill(l, q.s.(mem := q.s.mem[m..]), r.s.(mem := r.s.mem[m..]));
  }

  lemma SameFine(l: Limits, s: Store, t: Store, a: Act, b: Act)
    requires |s.mem| <= l.threshold && SameShape(s, t) && SameAct(a, b)
    ensures Fine(l, s, a) == Fine(l, t, b)
  {
    if a.Add? {
      SamePush(l, s, t, a.data, b.data, a.faults);
      SameRefill(l, s, t);
    }
  }

  lemma {:induction false} SameFate(l: Limits, q: Run, r: Run, a: seq<Act>, b: seq<Act>)
    requires |q.s.mem| <= l.threshold && SameShape(q.s, r.s) && SameActs(a, b)
    ensures FineThroughout(l, q, a) == FineThroughout(l, r, b)
    decreases |a|
  {
    if a != [] {
      SameDo(l, q, r, a[0], b[0]);
      SameFine(l, q.s, r.s, a[0], b[0]);
      DoFits(l, q, a[0]);
      SameFate(l, Do(l, q, a[0]), Do(l, r, b[0]), a[1..], b[1..]);
    }
  }

  /** The same run with bytes that tell. */
  function Retold(l: Limits, r: Run, acts: seq<Act>): (d: seq<Act>)
    requires |r.s.mem| <= l.threshold
    ensures SameActs(acts, d)
    decreases |acts|
  {
    if acts == [] then []
    else
      var a := Tells(r.s, acts[0]);
      DoFits(l, r, a);
      [a] + Retold(l, Do(l, r, a), acts[1..])
  }

  function Tells(s: Store, a: Act): (d: Act)
    ensures SameAct(a, d)
    ensures d.Add? && d.data != [] && Unread(s) != [] ==> d.data[0] != Unread(s)[0]
  {
    if !a.Add? then a
    else
      var x: byte := if Unread(s) != [] && Unread(s)[0] == 0 then 1 else 0;
      Add(seq(|a.data|, _ => x), a.faults)
  }

  lemma {:induction false} RetoldTells(l: Limits, r: Run, acts: seq<Act>)
    requires |r.s.mem| <= l.threshold
    ensures Telling(l, r, Retold(l, r, acts))
    decreases |acts|
  {
    if acts != [] {
      var a := Tells(r.s, acts[0]);
      DoFits(l, r, a);
      RetoldTells(l, Do(l, r, a), acts[1..]);
      assert Retold(l, r, acts)[1..] == Retold(l, Do(l, r, a), acts[1..]);
    }
  }

  ghost predicate AlwaysConserves(l: Limits, acts: seq<Act>) {
    forall d | SameActs(acts, d) :: ConservesThroughout(l, START, d)
  }

  /**
   * A run keeps order and loses nothing, at every moment and whatever the bytes are, if and only if each
   * push of something finds memory full or nothing unread in the file, and does not lose the file.
   */
  lemma ConservesExactly(l: Limits, acts: seq<Act>)
    ensures AlwaysConserves(l, acts) <==> FineThroughout(l, START, acts)
  {
    if FineThroughout(l, START, acts) {
      forall d | SameActs(acts, d) ensures ConservesThroughout(l, START, d) {
        SameFate(l, START, START, acts, d);
        FineRuns(l, START, d);
      }
    }
    if AlwaysConserves(l, acts) {
      var d := Retold(l, START, acts);
      RetoldTells(l, START, acts);
      TellingRuns(l, START, d);
      SameFate(l, START, START, acts, d);
    }
  }

  predicate MildActs(acts: seq<Act>) {
    forall i | 0 <= i < |acts| && acts[i].Add? :: Mild(acts[i].faults.strip)
  }

  lemma MildStep(l: Limits, r: Run, a: Act)
    requires Good(l, r.s) && Conserves(r) && (a.Add? ==> Mild(a.faults.strip))
    ensures Good(l, Do(l, r, a).s) && Conserves(Do(l, r, a)) && Fine(l, r.s, a)
  {
    GoodStep(l, r, a);
    if a.Add? {
      PushKeepsGood(l, r.s, a.data, a.faults);
      FineAdd(l, r, a.data, a.faults);
    } else {
      ReadConserves(l, r, a);
    }
  }

  lemma GoodStep(l: Limits, r: Run, a: Act)
    requires Good(l, r.s) && (a.Add? ==> Mild(a.faults.strip))
    ensures Good(l, Do(l, r, a).s)
  {
    match a
    case Add(data, f) => PushKeepsGood(l, r.s, data, f);
    case Look => RefillKeepsGood(l, r.s);
    case Take(n) => RefillKeepsGood(l, r.s.(mem := r.s.mem[Min(n, |r.s.mem|)..]));
  }

  /** If no strip fails in renaming or reopening the file, a run keeps order and loses nothing, however long it is. */
  lemma {:induction false} MildRuns(l: Limits, r: Run, acts: seq<Act>)
    requires Good(l, r.s) && Conserves(r) && MildActs(acts)
    ensures Good(l, DoAll(l, r, acts).s) && Conserves(DoAll(l, r, acts)) && FineThroughout(l, r, acts)
    decreases |acts|
  {
    if acts != [] {
      MildStep(l, r, acts[0]);
      DoFits(l, r, acts[0]);
      MildRuns(l, Do(l, r, acts[0]), acts[1..]);
    }
  }

  // ---- Capacity ----

  function AllAdded(acts: seq<Act>): seq<byte> {
    if acts == [] then [] else (if acts[0].Add? then acts[0].data else []) + AllAdded(acts[1..])
  }

  predicate Faultless(acts: seq<Act>) {
    forall i | 0 <= i < |acts| && acts[i].Add? :: acts[i].faults == NO_FAULTS
  }

  /** Without faults nothing is refused as long as the bytes pushed all fit at once. */
  lemma {:induction false} NothingRefused(l: Limits, r: Run, acts: seq<Act>)
    requires Good(l, r.s) && Conserves(r) && Faultless(acts)
    requires |r.accepted| + |AllAdded(acts)| <= l.threshold + l.maxFileSize
    ensures DoAll(l, r, acts).accepted == r.accepted + AllAdded(acts)
    decreases |acts|
  {
    if acts != [] {
      var a := acts[0];
      MildStep(l, r, a);
      DoFits(l, r, a);
      var added := if a.Add? then a.data else [];
      Sizes(r);
      NoneRefused(l, r, a);
      NothingRefused(l, Do(l, r, a), acts[1..]);
      Assoc(r.accepted, added, AllAdded(acts[1..]));
    }
  }

  lemma NoneRefused(l: Limits, r: Run, a: Act)
    requires Good(l, r.s) && (a.Add? ==> a.faults == NO_FAULTS && |All(r.s)| + |a.data| <= l.threshold + l.maxFileSize)
    ensures Do(l, r, a).accepted == r.accepted + if a.Add? then a.data else []
  {
    if a.Add? {
      FaultlessPush(l, r.s, a.data);
      Whole(r.accepted, a.data, Push(l, r.s, a.data, NO_FAULTS).accepted);
    } else {
      Whole(r.accepted, [], 0);
    }
  }

  lemma Whole(before: seq<byte>, data: seq<byte>, n: nat)
    requires n == |data|
    ensures before + data[..n] == before + data && before + [] == before
  {
  }

  lemma Sizes(r: Run)
    requires Conserves(r)
    ensures |r.consumed| + |All(r.s)| == |r.accepted|
  {
  }

  // ---- What can go wrong ----

  const RENAME_FAILS: Faults := NO_FAULTS.(strip := NO_STRIP_FAULTS.(rename := true))
  const CREATE_AND_ROLLBACK_FAIL: Faults := NO_FAULTS.(strip := NO_STRIP_FAULTS.(create := true, renameBack := true))

  lemma FirstPush(l: Limits)
    requires l == Limits(1, 2)
    ensures Push(l, EMPTY, [1, 2], NO_FAULTS) == Pushed(Store([1], [2], true, 0), false, 2)
  {
    assert [1, 2][..1] == [1] && [1, 2][1..] == [2];
    assert EMPTY.mem + [1] == [1];
  }

  lemma SecondPush(l: Limits, f: Faults)
    requires l == Limits(1, 2) && f.strip != NO_STRIP_FAULTS && !f.stat && OutcomeOf(Store([1], [2], true, 0), f.strip) != Stripped
    ensures Push(l, Store([1], [2], true, 0), [3, 4], f) == Pushed(Strip(Store([1], [2], true, 0), f.strip), true, 0)
  {
    assert [3, 4][..0] == [] && [3, 4][0..] == [3, 4] && [1] + [] == [1];
  }

  /** Overtaking happens: a strip fails in its first rename, memory is read, and the next push gets ahead of the file. */
  lemma Overtakes(l: Limits)
    requires l == Limits(1, 2)
    ensures var s1 := Push(l, EMPTY, [1, 2], NO_FAULTS).s;
      |s1.mem| <= 1 && var s2 := Push(l, s1, [3, 4], RENAME_FAILS).s;
      |s2.mem| == 1 && var s3 := Drain(l, s2, 1);
      |s3.mem| <= 1 && var p := Push(l, s3, [5], NO_FAULTS);
      All(s3) == [2] && p == Pushed(Store([5], [2], false, 0), false, 1)
  {
    FirstPush(l);
    SecondPush(l, RENAME_FAILS);
    assert [5][..1] == [5] && [5][1..] == [] && [] + [5] == [5] && [2][0..] == [2];
  }

  /** So does a loss: the new file cannot be created and the old one cannot be renamed back. */
  lemma LosesFile(l: Limits)
    requires l == Limits(1, 2)
    ensures var s1 := Push(l, EMPTY, [1, 2], NO_FAULTS).s;
      |s1.mem| <= 1 && All(s1) == [1, 2] && All(Push(l, s1, [3, 4], CREATE_AND_ROLLBACK_FAIL).s) == [1]
  {
    FirstPush(l);
    SecondPush(l, CREATE_AND_ROLLBACK_FAIL);
  }
}
