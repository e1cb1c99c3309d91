/** The program `demo/uring_cat.c`: files are split into blocks, read by one vectored read each, and printed. */
module Cat {
  import opened Ring

  type Bytes = string

  const BLOCK_SZ: nat := 1024

  // ----- Splitting a size into blocks -----

  /** The conversion of an `off_t` to `int`. */
  function ToInt(x: nat): int {
    var m := x % WRAP;
    if m < WRAP / 2 then m else m - WRAP
  }

  /** Division of C's `int`, which truncates toward zero. */
  function Truncated(a: int, b: nat): int
    requires b > 0
  {
    if a >= 0 then a / b else -((-a) / b)
  }

  /** `int blocks = (int) file_sz / BLOCK_SZ; if (file_sz % BLOCK_SZ) blocks++;` */
  function BlockCount(size: nat): int {
    Truncated(ToInt(size), BLOCK_SZ) + if size % BLOCK_SZ != 0 then 1 else 0
  }

  function BlocksNeeded(size: nat): nat { (size + BLOCK_SZ - 1) / BLOCK_SZ }

  /** The table allocated for a file has as many entries as its blocks need exactly for files below 2 GiB. */
  lemma TableFitsIff(size: nat)
    ensures BlockCount(size) >= BlocksNeeded(size) <==> size < 0x8000_0000
    ensures size < 0x8000_0000 ==> BlockCount(size) == BlocksNeeded(size)
  {
  }

  /** The lengths of the blocks of a file of `size` bytes. */
  function BlockLens(size: nat): (lens: seq<nat>)
    ensures |lens| == BlocksNeeded(size)
    ensures forall i :: 0 <= i < |lens| ==> 1 <= lens[i] <= BLOCK_SZ
  {
    if size == 0 then [] else
      var len := if size > BLOCK_SZ then BLOCK_SZ else size;
      [len] + BlockLens(size - len)
  }

  function Total(lens: seq<nat>): nat {
    if lens == [] then 0 else lens[0] + Total(lens[1..])
  }

  lemma TotalOfMore(len: nat, lens: seq<nat>)
    ensures Total([len] + lens) == len + Total(lens)
  {
    assert ([len] + lens)[1..] == lens;
  }

  lemma {:induction false} BlocksAddUp(size: nat)
    ensures Total(BlockLens(size)) == size
  {
    if size > 0 {
      var len := if size > BLOCK_SZ then BLOCK_SZ else size;
      BlocksAddUp(size - len);
      TotalOfMore(len, BlockLens(size - len));
    }
  }

  // ----- Vectored reads -----

  datatype Iovec = Iovec(base: Bytes, len: nat) {
    predicate Fits() { len <= |base| }
  }

  ghost predicate AllFit(iov: seq<Iovec>) { forall i :: 0 <= i < |iov| ==> iov[i].Fits() }

  /** What printing the blocks one after the other outputs. */
  function Gather(iov: seq<Iovec>): Bytes
    requires AllFit(iov)
  {
    if iov == [] then [] else iov[0].base[..iov[0].len] + Gather(iov[1..])
  }

  /** What one block takes of the data that is left. */
  function Taken(v: Iovec, left: Bytes): nat { if |left| < v.len then |left| else v.len }

  function Filled(v: Iovec, left: Bytes): Iovec
    requires v.Fits()
  {
    v.(base := left[..Taken(v, left)] + v.base[Taken(v, left)..])
  }

  /** The vector after a read of `data`: each block takes what it can, in order. */
  function Scatter(iov: seq<Iovec>, data: Bytes): (r: seq<Iovec>)
    requires AllFit(iov)
    ensures |r| == |iov| && AllFit(r)
    ensures forall i :: 0 <= i < |iov| ==> r[i].len == iov[i].len
  {
    if iov == [] then [] else
      [Filled(iov[0], data)] + Scatter(iov[1..], data[Taken(iov[0], data)..])
  }

  function Lens(iov: seq<Iovec>): (lens: seq<nat>)
    ensures |lens| == |iov|
    ensures forall i :: 0 <= i < |iov| ==> lens[i] == iov[i].len
  {
    seq(|iov|, i requires 0 <= i < |iov| => iov[i].len)
  }

  /** Printing after a read that fills the vector outputs exactly the data. */
  lemma {:induction false} GatherAfterScatter(iov: seq<Iovec>, data: Bytes)
    requires AllFit(iov) && Total(Lens(iov)) == |data|
    ensures Gather(Scatter(iov, data)) == data
  {
    if iov != [] {
      assert Lens(iov)[1..] == Lens(iov[1..]);
      var n := iov[0].len;
      GatherAfterScatter(iov[1..], data[n..]);
      var r := Scatter(iov, data);
      assert r[0].base[..n] == data[..n] && r[1..] == Scatter(iov[1..], data[n..]);
      assert data[..n] + data[n..] == data;
    }
  }

  lemma {:induction false} GatherAppend(a: seq<Iovec>, b: seq<Iovec>)
    requires AllFit(a) && AllFit(b)
    ensures AllFit(a + b) && Gather(a + b) == Gather(a) + Gather(b)
  {
    if a == [] {
      assert a + b == b;
    } else {
      assert (a + b)[1..] == a[1..] + b;
      GatherAppend(a[1..], b);
    }
  }

  lemma {:induction false} LensAppend(size: nat, k: nat)
    requires k < BlocksNeeded(size)
    ensures k * BLOCK_SZ < size
    ensures BlockLens(size)[k] == if size - k * BLOCK_SZ > BLOCK_SZ then BLOCK_SZ else size - k * BLOCK_SZ
  {
    if k > 0 {
      LensAppend(size - BLOCK_SZ, k - 1);
      assert BlockLens(size)[1..] == BlockLens(size - BLOCK_SZ);
    }
  }

  lemma FillStep(now: seq<Iovec>, i: nat, left: Bytes)
    requires i < |now| && AllFit(now)
    ensures AllFit(now[i := Filled(now[i], left)])
    ensures var next, rest := now[i := Filled(now[i], left)], left[Taken(now[i], left)..];
            next[..i + 1] + Scatter(next[i + 1..], rest) == now[..i] + Scatter(now[i..], left)
  {
    var f, next, rest := Filled(now[i], left), now[i := Filled(now[i], left)], left[Taken(now[i], left)..];
    var tail := Scatter(now[i..][1..], rest);
    assert Scatter(now[i..], left) == [f] + tail;
    assert next[i + 1..] == now[i..][1..];
    assert next[..i + 1] == now[..i] + [f];
    Regrouped(now[..i], [f], tail);
  }

  lemma Regrouped<T>(a: seq<T>, b: seq<T>, c: seq<T>)
    ensures (a + b) + c == a + (b + c)
  {
  }

  /** `struct file_info`. */
  class FileInfo {
    const size: nat
    const iovecs: array<Iovec>

    ghost predicate Valid()
      reads iovecs
    {
      size < 0x8000_0000 && AllFit(iovecs[..]) && Lens(iovecs[..]) == BlockLens(size)
    }

    /** The block loop of `submit_to_sq`; the memory of a new block holds whatever `junk` it holds. */
    constructor (size: nat, junk: Bytes)
      requires size < 0x8000_0000 && |junk| == BLOCK_SZ
      ensures Valid() && this.size == size && fresh(iovecs)
    {
      TableFitsIff(size);
      var table := new Iovec[BlockCount(size)](_ => Iovec(junk, 0));
      var bytesRemaining, block := size, 0;
      while bytesRemaining != 0
        invariant bytesRemaining <= size && block <= table.Length
        invariant bytesRemaining == 0 ==> block == table.Length
        invariant bytesRemaining != 0 ==> block < table.Length && bytesRemaining == size - block * BLOCK_SZ
        invariant AllFit(table[..]) && forall i :: 0 <= i < block ==> table[i].len == BlockLens(size)[i]
        invariant forall i :: 0 <= i < table.Length ==> |table[i].base| == BLOCK_SZ
        decreases bytesRemaining
      {
        LensAppend(size, block);
        if block + 1 < table.Length { LensAppend(size, block + 1); }
        var bytesToRead := bytesRemaining;
        if bytesToRead > BLOCK_SZ {
          bytesToRead := BLOCK_SZ;
        }
        table[block] := Iovec(junk, bytesToRead);
        block := block + 1;
        bytesRemaining := bytesRemaining - bytesToRead;
      }
      this.size := size;
      this.iovecs := table;
    }

    /** The kernel's side of a vectored read that returns `data`. */
    method FillFrom(data: Bytes)
      requires Valid()
      modifies iovecs
      ensures Valid() && iovecs[..] == Scatter(old(iovecs[..]), data)
    {
      var left, i := data, 0;
      ghost var before, now := iovecs[..], iovecs[..];
      while i < iovecs.Length
        invariant i <= iovecs.Length && iovecs[..] == now && AllFit(now)
        invariant now[..i] + Scatter(now[i..], left) == Scatter(before, data)
      {
        FillStep(now, i, left);
        var n := if |left| < iovecs[i].len then |left| else iovecs[i].len;
        now := now[i := Filled(now[i], left)];
        iovecs[i] := Iovec(left[..n] + iovecs[i].base[n..], iovecs[i].len);
        left := left[n..];
        i := i + 1;
      }
      assert now[..i] + [] == now;
      assert Lens(iovecs[..]) == Lens(before);
    }

    /** The printing loop of `read_from_cq`. */
    method Output() returns (out: Bytes)
      requires Valid()
      ensures out == Gather(iovecs[..])
    {
      TableFitsIff(size);
      out := [];
      var i := 0;
      while i < BlockCount(size)
        invariant 0 <= i <= iovecs.Length
        invariant AllFit(iovecs[..i]) && out == Gather(iovecs[..i])
      {
        assert iovecs[..i + 1] == iovecs[..i] + [iovecs[i]];
        GatherAppend(iovecs[..i], [iovecs[i]]);
        out := out + iovecs[i].base[..iovecs[i].len];
        i := i + 1;
      }
      assert iovecs[..i] == iovecs[..];
    }
  }

  // ----- The program -----

  datatype Node = Regular(content: Bytes) | Other

  type FileSystem = map<string, Node>

  predicate Readable(fs: FileSystem, path: string) { path in fs && fs[path].Regular? }

  /** The files printed: all up to the first that cannot be read. */
  function Printed(fs: FileSystem, paths: seq<string>): Bytes {
    if paths == [] || !Readable(fs, paths[0]) then [] else fs[paths[0]].content + Printed(fs, paths[1..])
  }

  lemma {:induction false} PrintedPrefix(fs: FileSystem, paths: seq<string>, i: nat)
    requires i <= |paths| && forall j :: 0 <= j < i ==> Readable(fs, paths[j])
    ensures Printed(fs, paths) == Printed(fs, paths[..i]) + Printed(fs, paths[i..])
  {
    if i > 0 {
      PrintedPrefix(fs, paths[1..], i - 1);
      assert paths[..i][1..] == paths[1..][..i - 1] && paths[1..][i - 1..] == paths[i..];
      Regrouped(fs[paths[0]].content, Printed(fs, paths[..i][1..]), Printed(fs, paths[i..]));
    } else {
      assert paths[0..] == paths;
    }
  }

  /** The contents of the files one after the other. */
  function Contents(fs: FileSystem, paths: seq<string>): Bytes
    requires forall j :: 0 <= j < |paths| ==> Readable(fs, paths[j])
  {
    if paths == [] then []
    else
      assert Readable(fs, paths[|paths| - 1]);
      Contents(fs, paths[..|paths| - 1]) + fs[paths[|paths| - 1]].content
  }

  lemma {:induction false} PrintedAll(fs: FileSystem, paths: seq<string>)
    requires forall j :: 0 <= j < |paths| ==> Readable(fs, paths[j])
    ensures Printed(fs, paths) == Contents(fs, paths)
  {
    if paths != [] {
      var n := |paths| - 1;
      PrintedPrefix(fs, paths, n);
      PrintedAll(fs, paths[..n]);
      assert paths[n..] == [paths[n]] && [paths[n]][1..] == [] && Printed(fs, []) == [];
    }
  }

  /** The first file that cannot be read ends the output; what follows it is not printed, readable or not. */
  lemma PrintedUpTo(fs: FileSystem, paths: seq<string>, n: nat)
    requires n <= |paths| && (forall j :: 0 <= j < n ==> Readable(fs, paths[j]))
    requires n < |paths| ==> !Readable(fs, paths[n])
    ensures Printed(fs, paths) == Contents(fs, paths[..n])
  {
    PrintedPrefix(fs, paths, n);
    PrintedAll(fs, paths[..n]);
    if n < |paths| { assert paths[n..][0] == paths[n]; }
  }

  datatype ReadRequest = ReadRequest(path: string, info: FileInfo)

  datatype Completion = Completion(res: int, info: FileInfo)

  class CatProgram {
    const sq: SubmissionRing<ReadRequest>
    const cq: CompletionRing<Completion>
    var out: Bytes

    ghost function Repr(): set<object> { {this, sq, cq, sq.sqes, sq.index, cq.cqes} }

    /** Both rings are empty: what holds whenever a file is about to be submitted. */
    ghost predicate Idle()
      reads Repr()
    {
      && sq.Valid() && cq.Valid() && sq.Queued() == [] && cq.Published() == []
      && sq as object != cq && this as object != sq && this as object != cq
      && cq.cqes as object != sq.sqes && cq.cqes as object != sq.index
    }

    /** One file is read and waits in the completion ring. */
    ghost predicate Completed(info: FileInfo, content: Bytes)
      reads Repr(), info.iovecs
    {
      && sq.Valid() && cq.Valid() && sq.Queued() == []
      && cq.Published() == [Completion(|content|, info)]
      && info.Valid() && info.iovecs !in Repr() && Gather(info.iovecs[..]) == content
    }

    constructor (sq: SubmissionRing<ReadRequest>, cq: CompletionRing<Completion>)
      requires sq.Valid() && cq.Valid() && sq.Queued() == [] && cq.Published() == []
      requires sq as object != cq && cq.cqes as object != sq.sqes && cq.cqes as object != sq.index
      ensures Idle() && out == [] && this.sq == sq && this.cq == cq
    {
      this.sq, this.cq, out := sq, cq, [];
    }

    /** `io_uring_enter` with one entry to submit and one completion to wait for: the kernel takes the entry, reads the
        whole file into its blocks, and posts the completion. */
    method Enter(fs: FileSystem)
      requires sq.Valid() && cq.Valid() && |sq.Queued()| == 1 && cq.Published() == []
      requires sq as object != cq && cq.cqes as object != sq.sqes && cq.cqes as object != sq.index
      requires var r := sq.Queued()[0];
               && Readable(fs, r.path) && r.info.Valid() && r.info.size == |fs[r.path].content|
               && r.info.iovecs !in Repr()
      modifies sq`head, cq`tail, cq.cqes, sq.Queued()[0].info.iovecs
      ensures Completed(old(sq.Queued()[0]).info, fs[old(sq.Queued()[0]).path].content)
    {
      var r := sq.Take();
      var content := fs[r.path].content;
      BlocksAddUp(|content|);
      assert Total(Lens(r.info.iovecs[..])) == Total(BlockLens(|content|));
      GatherAfterScatter(r.info.iovecs[..], content);
      r.info.FillFrom(content);
      cq.Publish(Completion(|content|, r.info));
    }

    /** `submit_to_sq`: 1 when the file cannot be opened or has no size. */
    method SubmitToSq(path: string, fs: FileSystem, junk: Bytes) returns (rc: int, info: FileInfo?)
      requires Idle() && |junk| == BLOCK_SZ
      requires Readable(fs, path) ==> |fs[path].content| < 0x8000_0000
      modifies sq`head, sq`tail, sq.sqes, sq.index, cq`tail, cq.cqes
      ensures rc == 0 <==> Readable(fs, path)
      ensures rc != 0 ==> Idle()
      ensures rc == 0 ==> info != null && fresh(info.iovecs) && Completed(info, fs[path].content)
    {
      if path !in fs || fs[path].Other? {
        return 1, null;
      }
      info := new FileInfo(|fs[path].content|, junk);
      sq.Push(ReadRequest(path, info));
      assert sq.Queued()[0] == ReadRequest(path, info);
      Enter(fs);
      rc := 0;
    }

    /** `read_from_cq`: the one completion is reaped and its blocks are printed. */
    method ReadFromCq(ghost info: FileInfo, ghost content: Bytes)
      requires Completed(info, content)
      requires sq as object != cq && this as object != sq && this as object != cq
      requires cq.cqes as object != sq.sqes && cq.cqes as object != sq.index
      modifies this`out, cq, cq.cqes
      ensures Idle() && out == old(out) + content
    {
      label before:
      var reaped, rest := cq.ReadFromCq([], []);
      assert reaped == old@before(cq.Published()) by {
        assert rest == [] && reaped + rest == reaped;
      }
      var i := 0;
      while i < |reaped|
        invariant i <= |reaped| && reaped == [Completion(|content|, info)]
        invariant Idle() && info.Valid() && Gather(info.iovecs[..]) == content
        invariant out == old(out) + if i == 0 then [] else content
      {
        var text := reaped[i].info.Output();
        out := out + text;
        i := i + 1;
      }
    }

    /** The driver loop of `main`. Both rings are empty whenever a file is submitted, so even rings of one entry are never
        written over; the readable files up to the first unreadable one are printed once each, in order. */
    method Run(paths: seq<string>, fs: FileSystem, junk: Bytes) returns (rc: int)
      requires Idle() && out == [] && |junk| == BLOCK_SZ
      requires forall p :: p in paths && Readable(fs, p) ==> |fs[p].content| < 0x8000_0000
      modifies this`out, sq, sq.sqes, sq.index, cq, cq.cqes
      ensures Idle() && out == Printed(fs, paths)
      ensures rc == 0 <==> forall p :: p in paths ==> Readable(fs, p)
    {
      var i := 0;
      while i < |paths|
        invariant i <= |paths| && Idle()
        invariant forall j :: 0 <= j < i ==> Readable(fs, paths[j])
        invariant out == Printed(fs, paths[..i])
      {
        var failed, info := SubmitToSq(paths[i], fs, junk);
        PrintedPrefix(fs, paths, i);
        if failed != 0 {
          assert paths[i..][0] == paths[i];
          return 1;
        }
        ReadFromCq(info, fs[paths[i]].content);
        PrintedPrefix(fs, paths[..i + 1], i);
        assert paths[..i + 1][..i] == paths[..i] && paths[..i + 1][i..] == [paths[i]];
        i := i + 1;
      }
      assert paths[..i] == paths;
      rc := 0;
    }
  }
}
