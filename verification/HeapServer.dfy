/** Ownership of memory and sockets in `demo/uring_server.c`: every request block and every buffer is on the heap, is
    passed to the kernel as `user_data`, and is freed when its completion has been handled. */
module HeapServer {
  import opened Sums
  import C = CText
  import F = FileService
  import Q = HttpRequest

  /** A request names the blocks it owns: itself and the buffers of its vector, which for a write hold `data`. */
  datatype Request =
    | AcceptRequest(block: nat)
    | ReadRequest(block: nat, base: nat, socket: nat)
    | WriteRequest(block: nat, bases: seq<nat>, socket: nat, data: seq<string>)

  /** What `handle_client_request` makes of a request text: it calls `exit`, is undefined, or queues the write of some
      buffers. */
  type Outcome = F.Outcome

  const READ_SZ: nat := 8192

  /** `live` are the allocated blocks, `pending` the requests given to the kernel and not yet handled, `forgotten` the
      reads that returned 0 bytes, which the server drops. `misused` means that a block was used or freed when it was
      not allocated, or a socket closed that was not open; `undefined` that a request text made the program undefined. */
  datatype Heap = Heap(
    live: set<nat>, next: nat, pending: seq<Request>, forgotten: seq<Request>, open: set<nat>,
    exited: bool, misused: bool, undefined: bool)
  {
    predicate Stopped() { exited || misused || undefined }
  }

  function Malloc(h: Heap): Heap { h.(live := h.live + {h.next}, next := h.next + 1) }

  /** The ids of the next `n` blocks. */
  function Ids(from: nat, n: nat): (ids: seq<nat>)
    ensures |ids| == n
    ensures forall i :: 0 <= i < n ==> ids[i] == from + i
  {
    seq(n, i => from + i)
  }

  function MallocMany(h: Heap, n: nat): (r: Heap)
    ensures r.next == h.next + n
  {
    if n == 0 then h else Malloc(MallocMany(h, n - 1))
  }

  /** An access to a block. */
  function Use(h: Heap, b: nat): Heap { if b in h.live then h else h.(misused := true) }

  function Free(h: Heap, b: nat): Heap { Use(h, b).(live := h.live - {b}) }

  function FreeAll(h: Heap, bs: seq<nat>): Heap
    decreases |bs|
  {
    if bs == [] then h else FreeAll(Free(h, bs[0]), bs[1..])
  }

  lemma FreeTwo(h: Heap, a: nat, b: nat)
    ensures FreeAll(h, [a, b]) == Free(Free(h, a), b)
  {
    assert [a, b][1..] == [b] && [b][1..] == [];
    assert FreeAll(Free(h, a), [b]) == FreeAll(Free(Free(h, a), b), []);
  }

  function Close(h: Heap, fd: nat): Heap {
    if fd in h.open then h.(open := h.open - {fd}) else h.(misused := true)
  }

  function Submit(h: Heap, r: Request): Heap { h.(pending := h.pending + [r]) }

  function AddAccept(h: Heap): Heap { Submit(Malloc(h), AcceptRequest(h.next)) }

  function AddRead(h: Heap, fd: nat): Heap { Submit(MallocMany(h, 2), ReadRequest(h.next, h.next + 1, fd)) }

  /** A request block and a buffer for each piece of `data`. */
  function AddWrite(h: Heap, data: seq<string>, fd: nat): Heap {
    Submit(MallocMany(h, 1 + |data|), WriteRequest(h.next, Ids(h.next + 1, |data|), fd, data))
  }

  /** The accept branch; the kernel has opened descriptor `res`. */
  function AcceptDone(h: Heap, r: Request, res: nat): Heap
    requires r.AcceptRequest?
  {
    Free(AddRead(AddAccept(h.(open := h.open + {res})), res), r.block)
  }

  function ReadDone(h: Heap, r: Request, res: nat, outcome: Outcome): Heap
    requires r.ReadRequest?
  {
    if res == 0 then h.(forgotten := h.forgotten + [r])
    else
      var h1 := Use(h, r.base);
      match outcome
      case Exits => h1.(exited := true)
      case Undefined => h1.(undefined := true)
      case Sends(iov) => FreeAll(AddWrite(h1, iov, r.socket), [r.base, r.block])
  }

  function WriteDone(h: Heap, r: Request): Heap
    requires r.WriteRequest?
  {
    Free(Close(FreeAll(h, r.bases), r.socket), r.block)
  }

  /** One turn of `server_loop`: the kernel has completed request `i` with result `res`. */
  function Handle(h: Heap, i: nat, res: int, outcome: Outcome): Heap
    requires i < |h.pending|
  {
    var r := h.pending[i];
    var h0 := Use(h.(pending := Without(h.pending, i)), r.block);
    if res < 0 then h0.(exited := true)
    else match r
      case AcceptRequest(_) => AcceptDone(h0, r, res)
      case ReadRequest(_, _, _) => ReadDone(h0, r, res, outcome)
      case WriteRequest(_, _, _, _) => WriteDone(h0, r)
  }

  function Boot(): Heap { AddAccept(Heap({}, 0, [], [], {}, false, false, false)) }

  // ----- The program -----

  class HttpServer {
    var live: set<nat>
    var next: nat
    var pending: seq<Request>
    var forgotten: seq<Request>
    var open: set<nat>
    var exited: bool
    var misused: bool
    var undefined: bool

    ghost function View(): Heap
      reads this
    {
      Heap(live, next, pending, forgotten, open, exited, misused, undefined)
    }

    constructor ()
      ensures View() == Boot()
    {
      live, next, pending, forgotten, open := {}, 0, [], [], {};
      exited, misused, undefined := false, false, false;
      new;
      AddAcceptRequest();
    }

    method Allocate() returns (b: nat)
      modifies this
      ensures View() == Malloc(old(View())) && b == old(next)
    {
      b := next;
      live, next := live + {b}, next + 1;
    }

    method UseBlock(b: nat)
      modifies this
      ensures View() == Use(old(View()), b)
    {
      if b !in live {
        misused := true;
      }
    }

    method Release(b: nat)
      modifies this
      ensures View() == Free(old(View()), b)
    {
      UseBlock(b);
      live := live - {b};
    }

    method AddAcceptRequest()
      modifies this
      ensures View() == AddAccept(old(View()))
    {
      var req := Allocate();
      pending := pending + [AcceptRequest(req)];
    }

    method AddReadRequest(fd: nat)
      modifies this
      ensures View() == AddRead(old(View()), fd)
    {
      ghost var h := View();
      MallocOne(h);
      var req := Allocate();
      var base := Allocate();
      pending := pending + [ReadRequest(req, base, fd)];
    }

    /** `_send_static_string_content` with one buffer, the file branch of `handle_get_method` with six. */
    method AddWriteRequest(data: seq<string>, fd: nat)
      modifies this
      ensures View() == AddWrite(old(View()), data, fd)
    {
      ghost var h := View();
      var req := Allocate();
      MallocOne(h);
      var bases := [];
      var i := 0;
      while i < |data|
        invariant i <= |data| && View() == MallocMany(h, 1 + i)
        invariant bases == Ids(h.next + 1, i)
      {
        var base := Allocate();
        bases := bases + [base];
        i := i + 1;
      }
      pending := pending + [WriteRequest(req, bases, fd, data)];
    }

    method FinishRead(req: Request, res: nat, outcome: Outcome)
      requires req.ReadRequest?
      modifies this
      ensures View() == ReadDone(old(View()), req, res, outcome)
    {
      if res == 0 {
        forgotten := forgotten + [req];
        return;
      }
      UseBlock(req.base);
      match outcome {
        case Exits => exited := true;
        case Undefined => undefined := true;
        case Sends(iov) =>
          AddWriteRequest(iov, req.socket);
          ghost var h := View();
          Release(req.base);
          Release(req.block);
          FreeTwo(h, req.base, req.block);
      }
    }

    method FinishWrite(req: Request)
      requires req.WriteRequest?
      modifies this
      ensures View() == WriteDone(old(View()), req)
    {
      ghost var h := View();
      var j := 0;
      while j < |req.bases|
        invariant j <= |req.bases| && FreeAll(View(), req.bases[j..]) == FreeAll(h, req.bases)
      {
        assert req.bases[j..][1..] == req.bases[j + 1..];
        Release(req.bases[j]);
        j := j + 1;
      }
      if req.socket in open {
        open := open - {req.socket};
      } else {
        misused := true;
      }
      Release(req.block);
    }

    method HandleCompletion(i: nat, res: int, outcome: Outcome)
      requires i < |pending|
      modifies this
      ensures View() == Handle(old(View()), i, res, outcome)
    {
      var req := pending[i];
      pending := pending[..i] + pending[i + 1..];
      UseBlock(req.block);
      if res < 0 {
        exited := true;
        return;
      }
      match req {
        case AcceptRequest(block) =>
          open := open + {res};
          AddAcceptRequest();
          AddReadRequest(res);
          Release(block);
        case ReadRequest(_, _, _) => FinishRead(req, res, outcome);
        case WriteRequest(_, _, _, _) => FinishWrite(req);
      }
    }

    /** One turn of the loop; `text` is what the buffer of a read holds. */
    method HandleEvent(i: nat, res: int, text: string, fs: F.FileSystem, junk: string)
      requires i < |pending| && |text| == READ_SZ
      modifies this
      ensures View() == Turn(fs, old(View()), Step(i, res, text, junk))
    {
      var outcome := F.HandleClientRequest(text, fs, junk);
      HandleCompletion(i, res, outcome);
    }
  }

  // ----- Ownership -----

  function BlocksOf(r: Request): seq<nat> {
    match r
    case AcceptRequest(block) => [block]
    case ReadRequest(block, base, _) => [base, block]
    case WriteRequest(block, bases, _, _) => bases + [block]
  }

  function SocketsOf(r: Request): seq<nat> {
    if r.AcceptRequest? then [] else [r.socket]
  }

  function Blocks(): Request -> seq<nat> { (r: Request) => BlocksOf(r) }

  function Sockets(): Request -> seq<nat> { (r: Request) => SocketsOf(r) }

  function Accepts(): Request -> int { (r: Request) => if r.AcceptRequest? then 1 else 0 }

  /** Every allocated block and every open client socket has exactly one owner among the pending and the forgotten
      requests, but for the `blocks` and `fds` in the hands of the program; `accepts` accepts are pending. */
  ghost predicate Owns(h: Heap, blocks: multiset<nat>, fds: multiset<nat>, accepts: int) {
    && multiset(Concat(h.pending, Blocks())) + multiset(Concat(h.forgotten, Blocks())) + blocks == multiset(h.live)
    && multiset(Concat(h.pending, Sockets())) + multiset(Concat(h.forgotten, Sockets())) + fds == multiset(h.open)
    && Sum(h.pending, Accepts()) == accepts
    && (forall b :: b in h.live ==> b < h.next)
    && (forall r :: r in h.forgotten ==> r.ReadRequest?)
    && !h.Stopped()
  }

  ghost predicate Owned(h: Heap) { Owns(h, multiset{}, multiset{}, 1) }

  lemma {:induction false} ConcatAppend<T, U>(a: seq<T>, b: seq<T>, g: T -> seq<U>)
    ensures Concat(a + b, g) == Concat(a, g) + Concat(b, g)
  {
    if a == [] {
      assert a + b == b;
    } else {
      assert (a + b)[1..] == a[1..] + b;
      ConcatAppend(a[1..], b, g);
    }
  }

  lemma ConcatPush<T, U>(s: seq<T>, x: T, g: T -> seq<U>)
    ensures multiset(Concat(s + [x], g)) == multiset(Concat(s, g)) + multiset(g(x))
  {
    ConcatAppend(s, [x], g);
    assert [x][1..] == [];
    assert Concat([x], g) == g(x) + Concat([], g) == g(x);
  }

  lemma ConcatAround<T, U>(a: seq<T>, x: T, b: seq<T>, g: T -> seq<U>)
    ensures Concat(a + [x] + b, g) == Concat(a, g) + g(x) + Concat(b, g)
  {
    ConcatAppend(a + [x], b, g);
    ConcatAppend(a, [x], g);
    assert [x][1..] == [] && Concat([x], g) == g(x) + Concat([], g) == g(x);
  }

  lemma MiddleOut<U>(x: seq<U>, y: seq<U>, z: seq<U>)
    ensures multiset(x + y + z) == multiset(x + z) + multiset(y)
  {
  }

  lemma ConcatMiddleOut<T, U>(s: seq<T>, rest: seq<T>, a: seq<T>, x: T, b: seq<T>, g: T -> seq<U>)
    requires s == a + [x] + b && rest == a + b
    ensures multiset(Concat(s, g)) == multiset(Concat(rest, g)) + multiset(g(x))
  {
    ConcatAround(a, x, b, g);
    ConcatAppend(a, b, g);
    MiddleOut(Concat(a, g), g(x), Concat(b, g));
  }

  lemma Around<T>(s: seq<T>, i: nat)
    requires i < |s|
    ensures s == s[..i] + [s[i]] + s[i + 1..] && Without(s, i) == s[..i] + s[i + 1..]
  {
  }

  lemma ConcatWithout<T, U>(s: seq<T>, i: nat, g: T -> seq<U>)
    requires i < |s|
    ensures multiset(Concat(s, g)) == multiset(Concat(Without(s, i), g)) + multiset(g(s[i]))
  {
    Around(s, i);
    ConcatMiddleOut(s, Without(s, i), s[..i], s[i], s[i + 1..], g);
  }

  /** Allocation adds exactly the new blocks, none of which was allocated before. */
  lemma {:induction false} MallocManyAdds(h: Heap, n: nat)
    requires forall b :: b in h.live ==> b < h.next
    ensures var h' := MallocMany(h, n);
            && multiset(h'.live) == multiset(h.live) + multiset(Ids(h.next, n))
            && (forall b :: b in h'.live ==> b < h'.next)
            && h' == h.(live := h'.live, next := h.next + n)
  {
    if n == 0 {
      assert Ids(h.next, 0) == [];
    } else {
      MallocManyAdds(h, n - 1);
      var h1, x := MallocMany(h, n - 1), h.next + n - 1;
      NewMember(h1.live, x);
      MoreIds(h.next, n, x);
    }
  }

  lemma NewMember(s: set<nat>, x: nat)
    requires x !in s
    ensures multiset(s + {x}) == multiset(s) + multiset{x}
  {
  }

  lemma MoreIds(from: nat, n: nat, x: nat)
    requires n > 0 && x == from + n - 1
    ensures multiset(Ids(from, n)) == multiset(Ids(from, n - 1)) + multiset{x}
  {
    assert Ids(from, n) == Ids(from, n - 1) + [x];
  }

  /** Freeing blocks that are allocated, each listed once, is no misuse and leaves exactly the others. */
  lemma {:induction false} FreeAllRemoves(h: Heap, bs: seq<nat>)
    requires multiset(bs) <= multiset(h.live)
    ensures var h' := FreeAll(h, bs);
            && multiset(h'.live) == multiset(h.live) - multiset(bs)
            && h'.live <= h.live
            && h' == h.(live := h'.live)
    decreases |bs|
  {
    if bs != [] {
      assert bs == [bs[0]] + bs[1..];
      assert multiset(bs) == multiset{bs[0]} + multiset(bs[1..]);
      assert bs[0] in multiset(h.live);
      assert multiset(Free(h, bs[0]).live) == multiset(h.live) - multiset{bs[0]};
      FreeAllRemoves(Free(h, bs[0]), bs[1..]);
    }
  }

  // ----- The operations of a turn -----

  /** The request whose completion is handled falls to the program. */
  lemma Handed(all: multiset<nat>, rest: multiset<nat>, one: multiset<nat>, others: multiset<nat>, total: multiset<nat>)
    requires all == rest + one && all + others + multiset{} == total
    ensures rest + others + one == total
  {
  }

  lemma TakeOut(h: Heap, i: nat)
    requires Owned(h) && i < |h.pending|
    ensures var r := h.pending[i];
            Owns(h.(pending := Without(h.pending, i)), multiset(BlocksOf(r)), multiset(SocketsOf(r)), 1 - Accepts()(r))
  {
    var rest, r := Without(h.pending, i), h.pending[i];
    ConcatWithout(h.pending, i, Blocks());
    ConcatWithout(h.pending, i, Sockets());
    SumWithout(h.pending, i, Accepts());
    Handed(multiset(Concat(h.pending, Blocks())), multiset(Concat(rest, Blocks())), multiset(BlocksOf(r)),
      multiset(Concat(h.forgotten, Blocks())), multiset(h.live));
    Handed(multiset(Concat(h.pending, Sockets())), multiset(Concat(rest, Sockets())), multiset(SocketsOf(r)),
      multiset(Concat(h.forgotten, Sockets())), multiset(h.open));
  }

  /** New blocks go to the program. */
  lemma MallocGives(h: Heap, n: nat, blocks: multiset<nat>, fds: multiset<nat>, accepts: int)
    requires Owns(h, blocks, fds, accepts)
    ensures Owns(MallocMany(h, n), blocks + multiset(Ids(h.next, n)), fds, accepts)
    ensures MallocMany(h, n) == h.(live := MallocMany(h, n).live, next := h.next + n)
  {
    MallocManyAdds(h, n);
  }

  /** A submitted request takes its blocks and its socket along. */
  lemma SubmitTakes(h: Heap, r: Request, blocks: multiset<nat>, fds: multiset<nat>, accepts: int)
    requires Owns(h, blocks + multiset(BlocksOf(r)), fds + multiset(SocketsOf(r)), accepts)
    ensures Owns(Submit(h, r), blocks, fds, accepts + Accepts()(r))
  {
    ConcatPush(h.pending, r, Blocks());
    ConcatPush(h.pending, r, Sockets());
    SumPush(h.pending, r, Accepts());
  }

  lemma FreeTakes(h: Heap, bs: seq<nat>, blocks: multiset<nat>, fds: multiset<nat>, accepts: int)
    requires Owns(h, blocks + multiset(bs), fds, accepts)
    ensures Owns(FreeAll(h, bs), blocks, fds, accepts)
    ensures FreeAll(h, bs) == h.(live := FreeAll(h, bs).live)
  {
    FreeAllRemoves(h, bs);
  }

  lemma FreeOne(h: Heap, b: nat)
    ensures FreeAll(h, [b]) == Free(h, b)
  {
    assert [b][1..] == [];
    assert FreeAll(h, [b]) == FreeAll(Free(h, b), []);
  }

  lemma SubmitAccept(h: Heap, b: nat, ids: multiset<nat>, blocks: multiset<nat>, fds: multiset<nat>)
    requires ids == multiset{b} && Owns(h, blocks + ids, fds, 0)
    ensures Owns(Submit(h, AcceptRequest(b)), blocks, fds, 1)
  {
    var r := AcceptRequest(b);
    assert multiset(BlocksOf(r)) == ids && fds + multiset(SocketsOf(r)) == fds;
    SubmitTakes(h, r, blocks, fds, 0);
  }

  lemma OneId(from: nat)
    ensures multiset(Ids(from, 1)) == multiset{from}
  {
    assert Ids(from, 1) == [from];
  }

  lemma MallocOne(h: Heap)
    ensures MallocMany(h, 1) == Malloc(h)
  {
    assert MallocMany(h, 1) == Malloc(MallocMany(h, 0));
  }

  lemma AddAcceptOwns(h: Heap, blocks: multiset<nat>, fds: multiset<nat>)
    requires Owns(h, blocks, fds, 0)
    ensures Owns(AddAccept(h), blocks, fds, 1)
  {
    MallocGives(h, 1, blocks, fds, 0);
    MallocOne(h);
    OneId(h.next);
    SubmitAccept(Malloc(h), h.next, multiset(Ids(h.next, 1)), blocks, fds);
  }

  /** A read or write request takes the blocks allocated for it and its socket along. */
  lemma SubmitOwned(h: Heap, r: Request, ids: multiset<nat>, blocks: multiset<nat>, accepts: int)
    requires !r.AcceptRequest? && ids == multiset(BlocksOf(r))
    requires Owns(h, blocks + ids, multiset{r.socket}, accepts)
    ensures Owns(Submit(h, r), blocks, multiset{}, accepts)
  {
    assert multiset{} + multiset(SocketsOf(r)) == multiset{r.socket};
    SubmitTakes(h, r, blocks, multiset{}, accepts);
  }

  /** `n` blocks are allocated for a request, and it is given to the kernel. */
  lemma AllocateAndSubmit(h: Heap, n: nat, r: Request, h': Heap, blocks: multiset<nat>, accepts: int)
    requires h' == Submit(MallocMany(h, n), r)
    requires !r.AcceptRequest? && multiset(Ids(h.next, n)) == multiset(BlocksOf(r))
    requires Owns(h, blocks, multiset{r.socket}, accepts)
    ensures Owns(h', blocks, multiset{}, accepts)
  {
    MallocGives(h, n, blocks, multiset{r.socket}, accepts);
    SubmitOwned(MallocMany(h, n), r, multiset(Ids(h.next, n)), blocks, accepts);
  }

  lemma ReadBlocks(from: nat, fd: nat)
    ensures multiset(Ids(from, 2)) == multiset(BlocksOf(ReadRequest(from, from + 1, fd)))
  {
    assert Ids(from, 2) == [from, from + 1];
  }

  lemma AddReadOwns(h: Heap, fd: nat, blocks: multiset<nat>, accepts: int)
    requires Owns(h, blocks, multiset{fd}, accepts)
    ensures Owns(AddRead(h, fd), blocks, multiset{}, accepts)
  {
    ReadBlocks(h.next, fd);
    ReadOwns(h, 2, ReadRequest(h.next, h.next + 1, fd), AddRead(h, fd), blocks, accepts);
  }

  lemma ReadOwns(h: Heap, n: nat, r: Request, h': Heap, blocks: multiset<nat>, accepts: int)
    requires r.ReadRequest? && h' == Submit(MallocMany(h, n), r) && multiset(Ids(h.next, n)) == multiset(BlocksOf(r))
    requires Owns(h, blocks, multiset{r.socket}, accepts)
    ensures Owns(h', blocks, multiset{}, accepts)
  {
    AllocateAndSubmit(h, n, r, h', blocks, accepts);
  }

  /** The blocks a write request gets are those its submission takes along. */
  lemma WriteBlocks(from: nat, data: seq<string>, fd: nat)
    ensures multiset(Ids(from, 1 + |data|)) == multiset(BlocksOf(WriteRequest(from, Ids(from + 1, |data|), fd, data)))
  {
    var bases := Ids(from + 1, |data|);
    assert Ids(from, 1 + |data|) == [from] + bases;
    assert multiset([from] + bases) == multiset(bases + [from]);
  }

  lemma AddWriteOwns(h: Heap, data: seq<string>, fd: nat, blocks: multiset<nat>, accepts: int)
    requires Owns(h, blocks, multiset{fd}, accepts)
    ensures Owns(AddWrite(h, data, fd), blocks, multiset{}, accepts)
  {
    WriteBlocks(h.next, data, fd);
    var r := WriteRequest(h.next, Ids(h.next + 1, |data|), fd, data);
    AllocateAndSubmit(h, 1 + |data|, r, AddWrite(h, data, fd), blocks, accepts);
  }

  // ----- A turn of the loop -----

  /** What the kernel may report: a descriptor that is not open, or an error, or a byte count. */
  predicate Reportable(h: Heap, i: nat, res: int) {
    i < |h.pending| && (h.pending[i].AcceptRequest? && res >= 0 ==> res !in h.open)
  }

  /** The heap while the completion of request `i` is handled. */
  function During(h: Heap, i: nat): Heap
    requires i < |h.pending|
  {
    h.(pending := Without(h.pending, i))
  }

  /** The blocks and the socket of the request are allocated and open. */
  lemma DuringOwns(h: Heap, i: nat)
    requires Owned(h) && i < |h.pending|
    ensures var r := h.pending[i];
            && Owns(During(h, i), multiset(BlocksOf(r)), multiset(SocketsOf(r)), 1 - Accepts()(r))
            && r.block in h.live
            && (r.ReadRequest? ==> r.base in h.live)
            && (!r.AcceptRequest? ==> r.socket in h.open)
  {
    TakeOut(h, i);
    var r := h.pending[i];
    assert r.block in BlocksOf(r) && r.block in multiset(h.live);
    if r.ReadRequest? { assert r.base in BlocksOf(r) && r.base in multiset(h.live); }
    if !r.AcceptRequest? { assert r.socket in SocketsOf(r) && r.socket in multiset(h.open); }
  }

  lemma OpenGives(h: Heap, fd: nat, blocks: multiset<nat>, accepts: int)
    requires Owns(h, blocks, multiset{}, accepts) && fd !in h.open
    ensures Owns(h.(open := h.open + {fd}), blocks, multiset{fd}, accepts)
  {
    assert multiset(h.open + {fd}) == multiset(h.open) + multiset{fd};
  }

  lemma CloseTakes(h: Heap, fd: nat, blocks: multiset<nat>, accepts: int)
    requires Owns(h, blocks, multiset{fd}, accepts)
    ensures Owns(Close(h, fd), blocks, multiset{}, accepts)
  {
    assert fd in multiset(h.open);
    assert multiset(h.open - {fd}) == multiset(h.open) - multiset{fd};
  }

  lemma FreeLast(h: Heap, bs: seq<nat>, accepts: int)
    requires Owns(h, multiset(bs), multiset{}, accepts)
    ensures Owns(FreeAll(h, bs), multiset{}, multiset{}, accepts)
  {
    assert multiset{} + multiset(bs) == multiset(bs);
    FreeTakes(h, bs, multiset{}, multiset{}, accepts);
  }

  lemma AcceptTurn(h: Heap, i: nat, res: nat, outcome: Outcome)
    requires Owned(h) && Reportable(h, i, res) && h.pending[i].AcceptRequest?
    ensures Owned(Handle(h, i, res, outcome))
  {
    var block, h0 := h.pending[i].block, During(h, i);
    var h1 := h0.(open := h0.open + {res});
    DuringOwns(h, i);
    OpenGives(h0, res, multiset([block]), 0);
    AddAcceptOwns(h1, multiset([block]), multiset{res});
    AddReadOwns(AddAccept(h1), res, multiset([block]), 1);
    FreeLast(AddRead(AddAccept(h1), res), [block], 1);
    FreeOne(AddRead(AddAccept(h1), res), block);
  }

  lemma ForgetTakes(h: Heap, r: Request, accepts: int)
    requires Owns(h, multiset(BlocksOf(r)), multiset(SocketsOf(r)), accepts) && r.ReadRequest?
    ensures Owns(h.(forgotten := h.forgotten + [r]), multiset{}, multiset{}, accepts)
  {
    ConcatPush(h.forgotten, r, Blocks());
    ConcatPush(h.forgotten, r, Sockets());
  }

  lemma EmptyReadTurn(h: Heap, i: nat, outcome: Outcome)
    requires Owned(h) && i < |h.pending| && h.pending[i].ReadRequest?
    ensures Owned(Handle(h, i, 0, outcome))
  {
    DuringOwns(h, i);
    ForgetTakes(During(h, i), h.pending[i], 1);
  }

  lemma ReadTurn(h: Heap, i: nat, res: nat, outcome: Outcome)
    requires Owned(h) && Reads(h, i, res)
    ensures var h' := Handle(h, i, res, outcome);
            && !h'.misused && (h'.undefined <==> outcome.Undefined?) && (h'.exited <==> outcome.Exits?)
            && (outcome.Sends? ==> Owned(h'))
  {
    DuringOwns(h, i);
    if outcome.Sends? {
      var r, h0, data := h.pending[i], During(h, i), outcome.iov;
      assert multiset(SocketsOf(r)) == multiset{r.socket};
      AddWriteOwns(h0, data, r.socket, multiset([r.base, r.block]), 1);
      FreeLast(AddWrite(h0, data, r.socket), [r.base, r.block], 1);
    }
  }

  lemma WriteTurn(h: Heap, i: nat, res: nat, outcome: Outcome)
    requires Owned(h) && i < |h.pending| && h.pending[i].WriteRequest?
    ensures Owned(Handle(h, i, res, outcome))
  {
    var r, h0 := h.pending[i], During(h, i);
    DuringOwns(h, i);
    assert multiset(SocketsOf(r)) == multiset{r.socket};
    assert multiset(BlocksOf(r)) == multiset([r.block]) + multiset(r.bases);
    FreeTakes(h0, r.bases, multiset([r.block]), multiset{r.socket}, 1);
    var h1 := FreeAll(h0, r.bases);
    CloseTakes(h1, r.socket, multiset([r.block]), 1);
    FreeLast(Close(h1, r.socket), [r.block], 1);
    FreeOne(Close(h1, r.socket), r.block);
  }

  /** Request `i` is a read that brought a text. */
  predicate Reads(h: Heap, i: nat, res: int) {
    i < |h.pending| && h.pending[i].ReadRequest? && res > 0
  }

  lemma TurnKeepsOwned(h: Heap, i: nat, res: int, outcome: Outcome)
    requires Owned(h) && Reportable(h, i, res)
    ensures var h' := Handle(h, i, res, outcome);
            && !h'.misused
            && (h'.undefined <==> Reads(h, i, res) && outcome.Undefined?)
            && (h'.exited <==> res < 0 || (Reads(h, i, res) && outcome.Exits?))
            && (h'.Stopped() || Owned(h'))
  {
    if res < 0 {
      DuringOwns(h, i);
    } else if Reads(h, i, res) {
      ReadTurn(h, i, res, outcome);
    } else {
      OtherTurn(h, i, res, outcome);
    }
  }

  lemma OtherTurn(h: Heap, i: nat, res: nat, outcome: Outcome)
    requires Owned(h) && Reportable(h, i, res) && !Reads(h, i, res)
    ensures Owned(Handle(h, i, res, outcome))
  {
    match h.pending[i] {
      case AcceptRequest(_) => AcceptTurn(h, i, res, outcome);
      case ReadRequest(_, _, _) => EmptyReadTurn(h, i, outcome);
      case WriteRequest(_, _, _, _) => WriteTurn(h, i, res, outcome);
    }
  }

  // ----- What is asked of the kernel -----

  /** What a request asks for, whatever its blocks are called. */
  datatype Job = Listens | Reads(fd: nat) | Writes(fd: nat, data: seq<string>, blocks: nat)

  function JobOf(): Request -> Job {
    (r: Request) =>
      match r
      case AcceptRequest(_) => Listens
      case ReadRequest(_, _, socket) => Job.Reads(socket)
      case WriteRequest(_, bases, socket, data) => Writes(socket, data, 1 + |bases|)
  }

  /** The work that follows a piece of work that was done with result `res`. */
  function NewJobs(job: Job, res: nat, outcome: Outcome): seq<Job> {
    match job
    case Listens => [Listens, Job.Reads(res)]
    case Reads(fd) => if res > 0 && outcome.Sends? then [Writes(fd, outcome.iov, 1 + |outcome.iov|)] else []
    case Writes(_, _, _) => []
  }

  /** The client sockets that are open then. */
  function OpenAfter(open: set<nat>, job: Job, res: nat): set<nat> {
    match job
    case Listens => open + {res}
    case Reads(_) => open
    case Writes(fd, _, _) => open - {fd}
  }

  lemma {:induction false} FreeAllFrame(h: Heap, bs: seq<nat>)
    ensures var h' := FreeAll(h, bs); h' == h.(live := h'.live, misused := h'.misused)
    decreases |bs|
  {
    if bs != [] { FreeAllFrame(Free(h, bs[0]), bs[1..]); }
  }

  lemma {:induction false} MallocFrame(h: Heap, n: nat)
    ensures MallocMany(h, n) == h.(live := MallocMany(h, n).live, next := h.next + n)
  {
    if n > 0 { MallocFrame(h, n - 1); }
  }

  /** The pending work, the sockets and the number of forgotten requests after a turn. */
  ghost predicate Serves(h: Heap, i: nat, res: nat, outcome: Outcome, h': Heap)
    requires i < |h.pending|
  {
    var job := JobOf()(h.pending[i]);
    && Map(JobOf(), h'.pending) == Map(JobOf(), Without(h.pending, i)) + NewJobs(job, res, outcome)
    && h'.open == OpenAfter(h.open, job, res)
    && |h'.forgotten| == |h.forgotten| + if job.Reads? && res == 0 then 1 else 0
  }

  lemma AcceptServes(h: Heap, i: nat, res: nat, outcome: Outcome)
    requires i < |h.pending| && h.pending[i].AcceptRequest?
    ensures Serves(h, i, res, outcome, Handle(h, i, res, outcome))
  {
    var h0 := Use(During(h, i), h.pending[i].block);
    var h1 := h0.(open := h0.open + {res});
    MallocFrame(AddAccept(h1), 2);
    FreeAllFrame(AddRead(AddAccept(h1), res), [h.pending[i].block]);
    FreeOne(AddRead(AddAccept(h1), res), h.pending[i].block);
    MapPush(JobOf(), During(h, i).pending, AcceptRequest(h.next));
    MapPush(JobOf(), AddAccept(h1).pending, ReadRequest(h.next + 1, h.next + 2, res));
  }

  lemma TextServes(h: Heap, i: nat, res: nat, outcome: Outcome)
    requires Reads(h, i, res) && outcome.Sends?
    ensures Serves(h, i, res, outcome, Handle(h, i, res, outcome))
  {
    var r := h.pending[i];
    var h1 := Use(Use(During(h, i), r.block), r.base);
    MallocFrame(h1, 1 + |outcome.iov|);
    FreeAllFrame(AddWrite(h1, outcome.iov, r.socket), [r.base, r.block]);
    MapPush(JobOf(), h1.pending, WriteRequest(h1.next, Ids(h1.next + 1, |outcome.iov|), r.socket, outcome.iov));
  }

  lemma WriteServes(h: Heap, i: nat, res: nat, outcome: Outcome)
    requires i < |h.pending| && h.pending[i].WriteRequest? && !Handle(h, i, res, outcome).misused
    ensures Serves(h, i, res, outcome, Handle(h, i, res, outcome))
  {
    var r, h0 := h.pending[i], Use(During(h, i), h.pending[i].block);
    FreeAllFrame(h0, r.bases);
    var jobs := Map(JobOf(), During(h, i).pending);
    assert jobs + [] == jobs;
  }

  lemma TurnServes(h: Heap, i: nat, res: nat, outcome: Outcome)
    requires i < |h.pending| && !Handle(h, i, res, outcome).Stopped()
    ensures Serves(h, i, res, outcome, Handle(h, i, res, outcome))
  {
    match h.pending[i] {
      case AcceptRequest(_) => AcceptServes(h, i, res, outcome);
      case ReadRequest(_, _, _) =>
        if res > 0 {
          TextServes(h, i, res, outcome);
        } else {
          var jobs := Map(JobOf(), During(h, i).pending);
          assert jobs + [] == jobs;
        }
      case WriteRequest(_, _, _, _) => WriteServes(h, i, res, outcome);
    }
  }

  // ----- Every run -----

  /** The kernel reports result `res` for request `i`. When that is a read, its buffer holds `text`; `junk` are the
      contents of the uninitialised `send_buffer`. */
  datatype Step = Step(i: nat, res: int, text: string, junk: string)

  function Turn(fs: F.FileSystem, h: Heap, step: Step): Heap
    requires step.i < |h.pending|
  {
    Handle(h, step.i, step.res, F.Serve(fs, step.text, step.junk))
  }

  /** `states` is a run of the server over the files `fs`. */
  ghost predicate Run(fs: F.FileSystem, states: seq<Heap>, steps: seq<Step>) {
    && |states| == |steps| + 1 && states[0] == Boot()
    && forall k :: 0 <= k < |steps| ==>
         && !states[k].Stopped() && Reportable(states[k], steps[k].i, steps[k].res)
         && states[k + 1] == Turn(fs, states[k], steps[k])
  }

  lemma BootOwned()
    ensures Owned(Boot())
  {
    AddAcceptOwns(Heap({}, 0, [], [], {}, false, false, false), multiset{}, multiset{});
  }

  /** The number of blocks a request owns: 1 for an accept, 2 for a read, 1 + `iovec_count` for a write. */
  function BlockCount(): Request -> int {
    (r: Request) => if r.AcceptRequest? then 1 else if r.ReadRequest? then 2 else 1 + |r.bases|
  }

  function SocketCount(): Request -> int { (r: Request) => if r.AcceptRequest? then 0 else 1 }

  lemma {:induction false} ConcatLength<T, U>(s: seq<T>, g: T -> seq<U>, w: T -> int)
    requires forall x :: x in s ==> w(x) == |g(x)|
    ensures |Concat(s, g)| == Sum(s, w)
  {
    if s != [] {
      assert s[0] in s;
      ConcatLength(s[1..], g, w);
    }
  }

  lemma Counted(a: seq<nat>, b: seq<nat>, s: set<nat>)
    requires multiset(a) + multiset(b) + multiset{} == multiset(s)
    ensures |a| + |b| == |s|
  {
    assert |multiset(a)| == |a| && |multiset(b)| == |b| && |multiset(s)| == |s|;
    assert |multiset(a) + multiset(b) + multiset{}| == |multiset(a)| + |multiset(b)|;
  }

  lemma OwnedLengths(h: Heap)
    requires Owned(h)
    ensures |Concat(h.pending, Blocks())| + |Concat(h.forgotten, Blocks())| == |h.live|
    ensures |Concat(h.pending, Sockets())| + |Concat(h.forgotten, Sockets())| == |h.open|
  {
    Counted(Concat(h.pending, Blocks()), Concat(h.forgotten, Blocks()), h.live);
    Counted(Concat(h.pending, Sockets()), Concat(h.forgotten, Sockets()), h.open);
  }

  lemma RequestCounts(rs: seq<Request>)
    ensures |Concat(rs, Blocks())| == Sum(rs, BlockCount())
    ensures |Concat(rs, Sockets())| == Sum(rs, SocketCount())
  {
    ConcatLength(rs, Blocks(), BlockCount());
    ConcatLength(rs, Sockets(), SocketCount());
  }

  lemma OwnedCounts(h: Heap)
    requires Owned(h)
    ensures |h.live| == Sum(h.pending, BlockCount()) + 2 * |h.forgotten|
    ensures |h.open| == Sum(h.pending, SocketCount()) + |h.forgotten|
  {
    OwnedLengths(h);
    RequestCounts(h.pending);
    RequestCounts(h.forgotten);
    ForgottenCounts(h.forgotten);
  }

  lemma {:induction false} ForgottenCounts(rs: seq<Request>)
    requires forall r :: r in rs ==> r.ReadRequest?
    ensures Sum(rs, BlockCount()) == 2 * |rs| && Sum(rs, SocketCount()) == |rs|
  {
    if rs != [] {
      assert rs[0] in rs && BlockCount()(rs[0]) == 2 && SocketCount()(rs[0]) == 1;
      ForgottenCounts(rs[1..]);
    }
  }

  /** A read brought a text that the program is undefined for. */
  ghost predicate Offends(fs: F.FileSystem, h: Heap, step: Step) {
    Reads(h, step.i, step.res) && F.Unanswerable(fs, step.text, step.junk)
  }

  /** The request failed, or a read brought a text whose first line is too long. */
  predicate Ends(h: Heap, step: Step) {
    step.res < 0 || (Reads(h, step.i, step.res) && Q.FindCrlf(step.text) >= Q.LINE_SIZE)
  }

  /** What every state of a run satisfies, and how it stopped. */
  ghost predicate Kept(fs: F.FileSystem, states: seq<Heap>, steps: seq<Step>, k: nat)
    requires k < |states| == |steps| + 1
  {
    && !states[k].misused
    && (states[k].undefined <==> k > 0 && Offends(fs, states[k - 1], steps[k - 1]))
    && (states[k].exited <==> k > 0 && Ends(states[k - 1], steps[k - 1]))
    && (states[k].Stopped() || Owned(states[k]))
  }

  lemma TurnAccounts(fs: F.FileSystem, h: Heap, step: Step, h': Heap)
    requires Owned(h) && Reportable(h, step.i, step.res) && h' == Turn(fs, h, step)
    ensures !h'.misused && (h'.undefined <==> Offends(fs, h, step)) && (h'.exited <==> Ends(h, step))
    ensures h'.Stopped() || Owned(h')
  {
    F.ServeIff(fs, step.text, step.junk);
    TurnKeepsOwned(h, step.i, step.res, F.Serve(fs, step.text, step.junk));
  }

  lemma RunKept(fs: F.FileSystem, states: seq<Heap>, steps: seq<Step>, k: nat)
    requires Run(fs, states, steps) && k < |states|
    ensures Kept(fs, states, steps, k)
  {
    BootOwned();
    for j := 0 to k
      invariant Kept(fs, states, steps, j)
    {
      TurnAccounts(fs, states[j], steps[j], states[j + 1]);
    }
  }

  /** A client closed its connection without a word. */
  predicate IsEmptyRead(h: Heap, step: Step) {
    step.i < |h.pending| && h.pending[step.i].ReadRequest? && step.res == 0
  }

  /** The reads of the first `k` turns that returned 0 bytes. */
  function EmptyReads(states: seq<Heap>, steps: seq<Step>, k: nat): nat
    requires k <= |steps| < |states|
  {
    if k == 0 then 0 else EmptyReads(states, steps, k - 1) + if IsEmptyRead(states[k - 1], steps[k - 1]) then 1 else 0
  }

  lemma TurnForgets(fs: F.FileSystem, h: Heap, step: Step, h': Heap)
    requires step.i < |h.pending| && h' == Turn(fs, h, step) && !h'.Stopped()
    ensures |h'.forgotten| == |h.forgotten| + if IsEmptyRead(h, step) then 1 else 0
  {
    TurnServes(h, step.i, step.res, F.Serve(fs, step.text, step.junk));
  }

  lemma ForgottenAreEmptyReads(fs: F.FileSystem, states: seq<Heap>, steps: seq<Step>, k: nat)
    requires Run(fs, states, steps) && k < |states| && !states[k].Stopped()
    ensures |states[k].forgotten| == EmptyReads(states, steps, k)
  {
    for j := 0 to k
      invariant |states[j].forgotten| == EmptyReads(states, steps, j)
    {
      if j + 1 < k { assert !states[j + 1].Stopped(); }
      TurnForgets(fs, states[j], steps[j], states[j + 1]);
    }
  }

  /** Over every run: no block is used after it was freed or freed twice, no socket closed twice; and as long as the
      server runs, the allocated blocks are those of the one pending accept, of the pending reads and writes, and two for
      every read that returned nothing; the open client sockets are those of the pending reads and writes, and one for every
      such read. The program becomes undefined exactly when a read brings a line without the tokens it needs, a path that
      does not fit, or a file whose type line has no end; it exits exactly at a failed request or a line that is too long. */
  lemma ExactAccounting(fs: F.FileSystem, states: seq<Heap>, steps: seq<Step>, k: nat)
    requires Run(fs, states, steps) && k < |states|
    ensures !states[k].misused
    ensures states[k].undefined <==>
      && k > 0 && Reads(states[k - 1], steps[k - 1].i, steps[k - 1].res)
      && F.Unanswerable(fs, steps[k - 1].text, steps[k - 1].junk)
    ensures states[k].exited <==> k > 0 && Ends(states[k - 1], steps[k - 1])
    ensures !states[k].Stopped() ==>
      && Sum(states[k].pending, Accepts()) == 1
      && |states[k].live| == Sum(states[k].pending, BlockCount()) + 2 * EmptyReads(states, steps, k)
      && |states[k].open| == Sum(states[k].pending, SocketCount()) + EmptyReads(states, steps, k)
  {
    RunKept(fs, states, steps, k);
    if !states[k].Stopped() {
      OwnedCounts(states[k]);
      ForgottenAreEmptyReads(fs, states, steps, k);
    }
  }

  /** Over every run: a turn takes the completed request out and asks for the work that follows. The descriptor accepted is
      read from, a text is answered on the socket it came from, and a write ends with its socket closed. */
  lemma EveryTurn(fs: F.FileSystem, states: seq<Heap>, steps: seq<Step>, k: nat)
    requires Run(fs, states, steps) && k < |steps| && !states[k + 1].Stopped()
    ensures steps[k].res >= 0
    ensures Serves(states[k], steps[k].i, steps[k].res, F.Serve(fs, steps[k].text, steps[k].junk), states[k + 1])
  {
    RunKept(fs, states, steps, k + 1);
    TurnServes(states[k], steps[k].i, steps[k].res, F.Serve(fs, steps[k].text, steps[k].junk));
  }

  /** The last piece of work pending. */
  predicate LastWrites(h: Heap, fd: nat, data: seq<string>) {
    h.pending != [] && JobOf()(h.pending[|h.pending| - 1]) == Writes(fd, data, 1 + |data|)
  }

  lemma TextIsAnswered(fs: F.FileSystem, states: seq<Heap>, steps: seq<Step>, k: nat, outcome: Outcome)
    requires Run(fs, states, steps) && k < |steps| && Reads(states[k], steps[k].i, steps[k].res)
    requires outcome == F.Serve(fs, steps[k].text, steps[k].junk) && !states[k + 1].Stopped()
    ensures outcome.Sends? && LastWrites(states[k + 1], states[k].pending[steps[k].i].socket, outcome.iov)
  {
    EveryTurn(fs, states, steps, k);
    F.ServeIff(fs, steps[k].text, steps[k].junk);
    RunKept(fs, states, steps, k + 1);
    var jobs := Map(JobOf(), states[k + 1].pending);
    assert jobs[|jobs| - 1] == Writes(states[k].pending[steps[k].i].socket, outcome.iov, 1 + |outcome.iov|);
  }

  /** Over every run: a text that is read is answered on its own socket, with status 200 in 1 + 6 blocks for a GET of a file
      that is there, and otherwise with 404 or 400 in 1 + 1 blocks. */
  lemma EveryTextIsAnswered(fs: F.FileSystem, states: seq<Heap>, steps: seq<Step>, k: nat, file: string)
    requires Run(fs, states, steps) && k < |steps| && Reads(states[k], steps[k].i, steps[k].res) && !states[k + 1].Stopped()
    requires var r := Q.ParseLine(Q.LineOf(steps[k].text)); r.Get? ==> F.IsFileOf(file, r.path)
    ensures var o, r := F.Serve(fs, steps[k].text, steps[k].junk), Q.ParseLine(Q.LineOf(steps[k].text));
            && o.Sends? && LastWrites(states[k + 1], states[k].pending[steps[k].i].socket, o.iov)
            && if r.Get? && F.IsThere(fs, file) then F.IsAnswered(o.iov, "200", 6)
               else F.IsAnswered(o.iov, if r.Get? then "404" else "400", 1)
  {
    TextIsAnswered(fs, states, steps, k, F.Serve(fs, steps[k].text, steps[k].junk));
    F.StatusOfText(fs, steps[k].text, steps[k].junk, file);
  }

  /** Over every run: who asks for a file with a well-formed GET request is sent that file, on the same socket. */
  lemma GetIsAnswered(fs: F.FileSystem, states: seq<Heap>, steps: seq<Step>, k: nat,
                      verb: string, path: string, rest: string, file: string, mime: string)
    requires Run(fs, states, steps) && k < |steps| && Reads(states[k], steps[k].i, steps[k].res) && !states[k + 1].Stopped()
    requires steps[k].text == Q.RequestLine(verb, path) + "\r\n" + rest
    requires Q.IsToken(verb) && C.IsGet(verb) && Q.IsToken(path) && F.IsFileOf(file, path)
    requires F.IsThere(fs, file) && C.IsTypeOf(mime, C.FilenameExt(C.Lower(file)))
    ensures var o := F.Serve(fs, steps[k].text, steps[k].junk);
            && o.Sends? && LastWrites(states[k + 1], states[k].pending[steps[k].i].socket, o.iov)
            && F.ParsesInto(o.iov, mime, fs[file].content)
  {
    TextIsAnswered(fs, states, steps, k, F.Serve(fs, steps[k].text, steps[k].junk));
    F.GetReturnsFile(fs, verb, path, rest, steps[k].junk, file, mime);
  }
}
