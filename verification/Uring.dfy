/** The submission and completion entries the servers exchange with the kernel, and the kernel itself
    as a nondeterministic transition system: an operation consumed from the submission queue is armed,
    and every armed operation may complete at any time and in any order. A `char` stands for a byte. */
module Uring {
  import opened Options
  import opened Sums

  type Bytes = string

  const MAX_MESSAGE_LEN: nat := 2048
  const ENOBUFS: int := 105

  datatype EventType = ACCEPT | READ | WRITE | PROV_BUF

  /** What the servers store in the 64 bits of `user_data`. */
  datatype ConnInfo = ConnInfo(fd: nat, kind: EventType, bid: nat)

  datatype Op =
    | Accept(listener: nat)
    | Recv(fd: nat, size: nat)
    | Send(fd: nat, bid: nat, size: nat)
    | Provide(bid: nat)

  datatype Sqe = Sqe(op: Op, data: ConnInfo)

  datatype Cqe = Cqe(data: ConnInfo, res: int, flags: nat) {
    /** `cqe->flags >> 16` */
    function SelectedBuffer(): nat { flags / 0x1_0000 }

    predicate OutOfBuffers() { res == -ENOBUFS }

    /** What the servers call `exit` for: no buffer, or a buffer that could not be given back. */
    predicate Fatal() { res == -ENOBUFS || (data.kind == PROV_BUF && res < 0) }

    /** An accept or a send for which the kernel itself had no buffer space. */
    predicate Starved() { res == -ENOBUFS && (data.kind == ACCEPT || data.kind == WRITE) }
  }

  /** `IORING_CQE_F_BUFFER` with the chosen buffer id in the upper half. */
  function BufferFlags(bid: nat): (flags: nat)
    ensures flags / 0x1_0000 == bid
  {
    bid * 0x1_0000 + 1
  }

  /** Operations the kernel has consumed and not completed. */
  datatype Armed =
    | Accepting(data: ConnInfo)
    | Receiving(fd: nat, size: nat, held: Option<nat>, data: ConnInfo)
    | Sending(fd: nat, bid: nat, size: nat, done: nat, data: ConnInfo)

  /** What became of a stretch of a stream: it left the buffer, or a send that was cut short left it out. */
  datatype Piece = Passed(bytes: Bytes) | Unsent(bytes: Bytes)

  /** The whole stretch of stream that a trail covers. */
  function Whole(trail: seq<Piece>): Bytes {
    if trail == [] then [] else Whole(trail[..|trail| - 1]) + trail[|trail| - 1].bytes
  }

  /** The bytes that left: the trail without the unsent pieces. */
  function Kept(trail: seq<Piece>): Bytes {
    if trail == [] then [] else
      Kept(trail[..|trail| - 1]) + if trail[|trail| - 1].Passed? then trail[|trail| - 1].bytes else []
  }

  function UnsentLength(trail: seq<Piece>): nat {
    if trail == [] then 0 else
      UnsentLength(trail[..|trail| - 1]) + if trail[|trail| - 1].Unsent? then |trail[|trail| - 1].bytes| else 0
  }

  lemma TrailGrows(trail: seq<Piece>, p: Piece)
    ensures Whole(trail + [p]) == Whole(trail) + p.bytes
  {
    assert (trail + [p])[..|trail|] == trail;
  }

  /** Nothing is missing from what left exactly when no byte is unsent. */
  lemma {:induction false} KeptIsWhole(trail: seq<Piece>)
    ensures |Whole(trail)| == |Kept(trail)| + UnsentLength(trail)
    ensures UnsentLength(trail) == 0 ==> Kept(trail) == Whole(trail)
  {
    if trail != [] { KeptIsWhole(trail[..|trail| - 1]); }
  }

  /** `due` holds the bytes a connection has coming since it was accepted: what was received on it, until a server
      puts a response in their place. `trail` says piece by piece what the sends of a connection did with them. */
  datatype Kernel = Kernel(
    armed: seq<Armed>,
    cq: seq<Cqe>,
    pool: set<nat>,
    bufs: seq<Bytes>,
    open: set<nat>,
    due: map<nat, Bytes>,
    trail: map<nat, seq<Piece>>)
  {
    function Due(fd: nat): Bytes { if fd in due then due[fd] else [] }

    function Trail(fd: nat): seq<Piece> { if fd in trail then trail[fd] else [] }

    /** The bytes that left for a connection. */
    function Sent(fd: nat): Bytes { Kept(Trail(fd)) }

    /** How many bytes the completed sends of a connection left out. */
    function Lost(fd: nat): nat { UnsentLength(Trail(fd)) }
  }

  /** The bytes `from..to` of a buffer. */
  function Slice(k: Kernel, bid: nat, from: nat, to: nat): Bytes {
    if bid < |k.bufs| && from <= to <= |k.bufs[bid]| then k.bufs[bid][from..to] else []
  }

  /** The kernel after a piece of the stream of `fd` was dealt with. */
  function Tracked(k: Kernel, fd: nat, p: Piece): Kernel { k.(trail := k.trail[fd := k.Trail(fd) + [p]]) }

  /** The armed form of a consumed submission entry. */
  function Arm(e: Sqe): Armed
    requires !e.op.Provide?
  {
    match e.op
    case Accept(_) => Accepting(e.data)
    case Recv(fd, size) => Receiving(fd, size, None, e.data)
    case Send(fd, bid, size) => Sending(fd, bid, size, 0, e.data)
  }

  /** The kernel takes one entry off the submission queue. PROVIDE_BUFFERS takes effect at once. */
  function Issue(k: Kernel, e: Sqe): Kernel {
    if e.op.Provide? then k.(pool := k.pool + {e.op.bid}, cq := k.cq + [Cqe(e.data, 0, 0)])
    else k.(armed := k.armed + [Arm(e)])
  }

  /** What the kernel may do on its own; `i` is the position of the armed operation concerned. */
  datatype KStep =
    | AcceptDone(i: nat, fd: nat)       // a new descriptor
    | AcceptFail(i: nat, res: int)      // an error
    | Select(i: nat, bid: nat)          // a receive picks a free buffer
    | Recycle(i: nat)                   // a receive puts its buffer back while it goes on waiting
    | RecvDone(i: nat, data: Bytes)     // bytes arrived
    | RecvEnd(i: nat, res: int)         // end of stream or an error
    | RecvStarved(i: nat)               // no buffer to select: -ENOBUFS
    | SendSome(i: nat, n: nat)          // some more bytes leave the buffer
    | SendDone(i: nat, res: int)        // complete, in full or not

  predicate Enabled(k: Kernel, t: KStep) {
    && t.i < |k.armed|
    && var a := k.armed[t.i];
       match t
       case AcceptDone(_, fd) => a.Accepting? && fd !in k.open
       case AcceptFail(_, res) => a.Accepting? && res < 0
       case Select(_, bid) => a.Receiving? && a.held.None? && bid in k.pool
       case Recycle(_) => a.Receiving? && a.held.Some?
       case RecvDone(_, data) =>
         && a.Receiving? && a.held.Some? && a.held.value < |k.bufs|
         && 0 < |data| <= a.size && |data| <= |k.bufs[a.held.value]|
       case RecvEnd(_, res) => a.Receiving? && a.held.Some? && res <= 0 && res != -ENOBUFS
       case RecvStarved(_) => a.Receiving? && a.held.None? && k.pool == {}
       case SendSome(_, n) =>
         && a.Sending? && a.bid < |k.bufs|
         && a.done + n <= a.size && a.done + n <= |k.bufs[a.bid]|
       case SendDone(_, res) => a.Sending? && a.done <= a.size && (res == a.done || res < 0)
  }

  /** The first bytes of a buffer are overwritten. */
  function Overlay(buf: Bytes, data: Bytes): (r: Bytes)
    requires |data| <= |buf|
    ensures |r| == |buf| && r[..|data|] == data
  {
    data + buf[|data|..]
  }

  /** The steps after which the operation is still armed, and its new form. */
  predicate StaysArmed(t: KStep) { t.Select? || t.Recycle? || t.SendSome? }

  function Rearmed(k: Kernel, t: KStep): Armed
    requires Enabled(k, t) && StaysArmed(t)
  {
    var a := k.armed[t.i];
    match t
    case Select(_, bid) => a.(held := Some(bid))
    case Recycle(_) => a.(held := None)
    case SendSome(_, n) => a.(done := a.done + n)
  }

  /** The completion that the other steps post. */
  function Completion(k: Kernel, t: KStep): Cqe
    requires Enabled(k, t) && !StaysArmed(t)
  {
    var a := k.armed[t.i];
    match t
    case AcceptDone(_, fd) => Cqe(a.data, fd, 0)
    case AcceptFail(_, res) => Cqe(a.data, res, 0)
    case RecvDone(_, data) => Cqe(a.data, |data|, BufferFlags(a.held.value))
    case RecvEnd(_, res) => Cqe(a.data, res, BufferFlags(a.held.value))
    case RecvStarved(_) => Cqe(a.data, -ENOBUFS, 0)
    case SendDone(_, res) => Cqe(a.data, res, 0)
  }

  /** The effect of a step on the pool, the buffers and the sockets. */
  function Effect(k: Kernel, t: KStep): Kernel
    requires Enabled(k, t)
  {
    var a := k.armed[t.i];
    match t
    case AcceptDone(_, fd) =>
      k.(open := k.open + {fd}, due := k.due[fd := []], trail := k.trail[fd := []])
    case Select(_, bid) => k.(pool := k.pool - {bid})
    case Recycle(_) => k.(pool := k.pool + {a.held.value})
    case RecvDone(_, data) =>
      var bid := a.held.value;
      k.(bufs := k.bufs[bid := Overlay(k.bufs[bid], data)], due := k.due[a.fd := k.Due(a.fd) + data])
    case SendSome(_, n) => Tracked(k, a.fd, Passed(k.bufs[a.bid][a.done..a.done + n]))
    case SendDone(_, _) => Tracked(k, a.fd, Unsent(Slice(k, a.bid, a.done, a.size)))
    case _ => k
  }

  function Apply(k: Kernel, t: KStep): Kernel
    requires Enabled(k, t)
  {
    if StaysArmed(t) then Effect(k, t).(armed := k.armed[t.i := Rearmed(k, t)])
    else Effect(k, t).(armed := Without(k.armed, t.i), cq := k.cq + [Completion(k, t)])
  }

  /** The ids of `n` registered buffers. */
  function BufferIds(n: nat): (ids: set<nat>)
    ensures |ids| == n
    ensures forall b: nat :: b in ids <==> b < n
  {
    if n == 0 then {} else BufferIds(n - 1) + {n - 1}
  }
}
