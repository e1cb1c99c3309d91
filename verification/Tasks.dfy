/** `server/task.h`: the 64-bit tag that travels through the kernel, and the handle that owns a coroutine frame. */
module Tasks {
  import opened Options
  import opened Uring

  // ----- The tag -----

  const WORD: int := 0x1_0000_0000_0000_0000

  /** Two's complement: the `bits`-wide pattern of a value, with the width given by its number of patterns, and back. */
  function ToBits(x: int, width: nat): (u: nat)
    requires width > 0 && width % 2 == 0 && -(width / 2) <= x < width / 2
    ensures u < width && (u == x || u == x + width)
  {
    if x < 0 then x + width else x
  }

  function FromBits(u: nat, width: nat): (x: int)
    requires u < width && width % 2 == 0
    ensures -(width / 2) <= x < width / 2 && (x == u || x == u - width)
  {
    if u < width / 2 then u else u - width
  }

  predicate IsShort(x: int) { -0x8000 <= x < 0x8000 }

  predicate IsInt(x: int) { -0x8000_0000 <= x < 0x8000_0000 }

  /** The three fields of the `request` union. */
  datatype Request = Request(eventType: int, bid: int, clientSocket: int) {
    predicate Valid() { IsShort(eventType) && IsShort(bid) && IsInt(clientSocket) }
  }

  /** `uring_data` of the union on a little-endian machine: 16, 16 and 32 bits. */
  function Pack(r: Request): (data: nat)
    requires r.Valid()
    ensures data < WORD
  {
    ToBits(r.eventType, 0x1_0000) + 0x1_0000 * ToBits(r.bid, 0x1_0000) +
    0x1_0000_0000 * ToBits(r.clientSocket, 0x1_0000_0000)
  }

  function Unpack(data: nat): (r: Request)
    requires data < WORD
    ensures r.Valid()
  {
    Request(FromBits(data % 0x1_0000, 0x1_0000), FromBits(data / 0x1_0000 % 0x1_0000, 0x1_0000),
            FromBits(data / 0x1_0000_0000, 0x1_0000_0000))
  }

  lemma PackedFields(r: Request)
    requires r.Valid()
    ensures Pack(r) % 0x1_0000 == ToBits(r.eventType, 0x1_0000)
    ensures Pack(r) / 0x1_0000 % 0x1_0000 == ToBits(r.bid, 0x1_0000)
    ensures Pack(r) / 0x1_0000_0000 == ToBits(r.clientSocket, 0x1_0000_0000)
  {
  }

  lemma UnpackPack(r: Request)
    requires r.Valid()
    ensures Unpack(Pack(r)) == r
  {
    PackedFields(r);
  }

  lemma PackUnpack(data: nat)
    requires data < WORD
    ensures Pack(Unpack(data)) == data
  {
    var low, high := data % 0x1_0000_0000, data / 0x1_0000_0000;
    assert data / 0x1_0000 % 0x1_0000 == low / 0x1_0000 && data % 0x1_0000 == low % 0x1_0000;
  }

  /** Reading the union back gives what was stored, for every tag, and every 64-bit word is the tag of one request. */
  lemma TagRoundTrip(r: Request, data: nat)
    requires r.Valid() && data < WORD
    ensures Unpack(Pack(r)) == r
    ensures Pack(Unpack(data)) == data
    ensures var u := Pack(r);
            u % 0x1_0000 == r.eventType % 0x1_0000 && u / 0x1_0000 % 0x1_0000 == r.bid % 0x1_0000
            && u / 0x1_0000_0000 == r.clientSocket % 0x1_0000_0000
  {
    UnpackPack(r);
    PackUnpack(data);
    PackedFields(r);
  }

  /** The selected buffer as `cqe->flags >> 16` is stored in a `short`: it comes back as it was exactly below 32768. */
  function StoredBid(flags: nat): (bid: int)
    requires flags < 0x1_0000_0000
    ensures IsShort(bid)
  {
    FromBits(flags / 0x1_0000, 0x1_0000)
  }

  lemma BidFitsIff(flags: nat)
    requires flags < 0x1_0000_0000
    ensures StoredBid(flags) % 0x1_0000 == flags / 0x1_0000
    ensures StoredBid(flags) == flags / 0x1_0000 <==> flags / 0x1_0000 < 0x8000
  {
  }

  // ----- The tag of the echo servers -----

  function KindCode(kind: EventType): (code: nat)
    ensures code < 4
  {
    match kind
    case ACCEPT => 0
    case READ => 1
    case WRITE => 2
    case PROV_BUF => 3
  }

  /** `struct conn_info` as the 64 bits of `user_data`: 32, 16 and 16 bits. */
  function PackConn(c: ConnInfo): (data: nat)
    requires c.fd < 0x1_0000_0000 && c.bid < 0x1_0000
    ensures data < WORD
  {
    c.fd + 0x1_0000_0000 * KindCode(c.kind) + 0x1_0000_0000_0000 * c.bid
  }

  function UnpackConn(data: nat): ConnInfo
    requires data < WORD && data / 0x1_0000_0000 % 0x1_0000 < 4
  {
    var kinds := [ACCEPT, READ, WRITE, PROV_BUF];
    ConnInfo(data % 0x1_0000_0000, kinds[data / 0x1_0000_0000 % 0x1_0000], data / 0x1_0000_0000_0000)
  }

  lemma PackedConnFields(c: ConnInfo)
    requires c.fd < 0x1_0000_0000 && c.bid < 0x1_0000
    ensures PackConn(c) % 0x1_0000_0000 == c.fd
    ensures PackConn(c) / 0x1_0000_0000 % 0x1_0000 == KindCode(c.kind)
    ensures PackConn(c) / 0x1_0000_0000_0000 == c.bid
  {
  }

  /** What a completion brings back is the tag its entry was queued with. */
  lemma ConnRoundTrip(c: ConnInfo)
    requires c.fd < 0x1_0000_0000 && c.bid < 0x1_0000
    ensures PackConn(c) / 0x1_0000_0000 % 0x1_0000 < 4 && UnpackConn(PackConn(c)) == c
  {
    PackedConnFields(c);
  }

  // ----- The handle -----

  /** No frame has two handles. */
  ghost predicate SoleOwners(tasks: set<Task>)
    reads tasks
  {
    forall a, b :: a in tasks && b in tasks && a != b && a.handler.Some? ==> a.handler != b.handler
  }

  /** The frames that have a handle. */
  ghost function Frames(tasks: set<Task>): set<nat>
    reads tasks
  {
    set t | t in tasks && t.handler.Some? :: t.handler.value
  }

  /** A copy would give a frame two owners; `task` can only be moved. */
  class Task {
    var handler: Option<nat>

    constructor (handler: nat)
      ensures this.handler == Some(handler)
    {
      this.handler := Some(handler);
    }

    /** The move constructor: the new task takes the frame of `t` over. */
    constructor Move(t: Task, ghost tasks: set<Task>)
      requires t in tasks && SoleOwners(tasks)
      modifies t
      ensures handler == old(t.handler) && t.handler.None?
      ensures SoleOwners(tasks + {this}) && Frames(tasks + {this}) == old(Frames(tasks))
    {
      handler := t.handler;
      new;
      t.handler := None;
      assert forall f :: f in Frames(tasks + {this}) <==> f in old(Frames(tasks)) by {
        assert forall f :: f in old(Frames(tasks)) && Some(f) != handler ==> f in Frames(tasks + {this});
        assert this in tasks + {this};
      }
    }

    /** Move assignment: a task that already owns a frame destroys it first; assigning a task to itself does nothing. */
    method Assign(t: Task, ghost tasks: set<Task>) returns (destroyed: Option<nat>)
      requires this in tasks && t in tasks && SoleOwners(tasks)
      modifies this, t
      ensures if this == t then handler == old(handler) && destroyed.None?
              else handler == old(t.handler) && t.handler.None? && destroyed == old(handler)
      ensures SoleOwners(tasks)
      ensures Frames(tasks) == old(Frames(tasks)) - if destroyed.Some? then {destroyed.value} else {}
    {
      destroyed := None;
      if this != t {
        destroyed := handler;
        handler := t.handler;
        t.handler := None;
      }
    }
  }
}
