/** The coroutine form of the echo server, `demo/io_uring_coroutine_echo_server.cpp`. A coroutine frame is its
    suspension point, its parameter and its promise; `connections` maps descriptors to frames. */
module EchoCoroutine {
  import opened Uring
  import EchoLoop

  type Config = EchoLoop.Config

  /** Where `handle_echo` is suspended: before its first statement, or inside one of its `co_await`s. */
  datatype Point = AtStart | AtRead | AtEndBuffer | AtWrite | AtBuffer

  datatype Promise = Promise(info: ConnInfo, res: nat)

  datatype Frame =
    | Suspended(point: Point, fd: nat, promise: Promise)
    | Destroyed

  /** `frames` holds every frame ever created, at the position that serves as its handle. `shut` and `destroyed` are
      history. `misused` is undefined behaviour or an uncaught exception: `connections.at` without an entry, or a
      resumption of a frame that is not suspended. */
  datatype Server = Server(
    sq: seq<Sqe>, connections: map<nat, nat>, frames: seq<Frame>,
    shut: seq<nat>, destroyed: seq<nat>, exited: bool, faulted: bool, misused: bool)
  {
    predicate Stopped() { exited || faulted || misused }

    predicate IsSuspended(id: nat) { id < |frames| && frames[id].Suspended? }
  }

  function Push(cfg: Config, v: Server, e: Sqe): Server {
    if v.Stopped() then v
    else if |v.sq| < cfg.entries then v.(sq := v.sq + [e])
    else v.(faulted := true)
  }

  /** The value an `int` takes as a `size_t`. */
  function ToSize(res: int): nat { res % 0x1_0000_0000_0000_0000 }

  /** The length field of a submission entry has 32 bits. */
  function ToLength(size: nat): nat { size % 0x1_0000_0000 }

  /** `p.conn_info.type = kind`, then the entry gets a copy of `conn_info`. */
  function Tag(p: Promise, kind: EventType): ConnInfo { p.info.(kind := kind) }

  /** Suspends frame `id` at `point` after it queued `op`. */
  function Await(cfg: Config, v: Server, id: nat, op: Op, kind: EventType, point: Point): Server
    requires v.IsSuspended(id)
  {
    var f := v.frames[id];
    var data := Tag(f.promise, kind);
    var v' := Push(cfg, v, Sqe(op, data));
    if v'.Stopped() then v'
    else v'.(frames := v'.frames[id := f.(point := point, promise := f.promise.(info := data))])
  }

  function EchoRead(cfg: Config, v: Server, id: nat): Server
    requires v.IsSuspended(id)
  {
    Await(cfg, v, id, Recv(v.frames[id].promise.info.fd, MAX_MESSAGE_LEN), READ, AtRead)
  }

  function EchoWrite(cfg: Config, v: Server, id: nat, size: nat): Server
    requires v.IsSuspended(id)
  {
    var info := v.frames[id].promise.info;
    Await(cfg, v, id, Send(info.fd, info.bid, ToLength(size)), WRITE, AtWrite)
  }

  function EchoAddBuffer(cfg: Config, v: Server, id: nat, point: Point): Server
    requires v.IsSuspended(id)
  {
    Await(cfg, v, id, Provide(v.frames[id].promise.info.bid), PROV_BUF, point)
  }

  /** `shutdown`, `connections.erase`, `co_return`: the frame destroys itself at its final suspension point. */
  function Finish(v: Server, id: nat): Server
    requires v.IsSuspended(id)
  {
    var fd := v.frames[id].fd;
    v.(shut := v.shut + [fd], connections := v.connections - {fd},
    frames := v.frames[id := Destroyed], destroyed := v.destroyed + [id])
  }

  function Rank(v: Server, id: nat): nat {
    if v.IsSuspended(id) && (v.frames[id].point.AtRead? || v.frames[id].point.AtWrite?) then 1 else 0
  }

  /** `h.resume()`. The awaits of `echo_add_buffer` resume the coroutine again from inside `await_suspend`. */
  function Resume(cfg: Config, v: Server, id: nat): Server
    decreases Rank(v, id)
  {
    if v.Stopped() then v
    else if !v.IsSuspended(id) then v.(misused := true)
    else
      var f := v.frames[id];
      match f.point
      case AtStart => EchoRead(cfg, v, id)
      case AtRead =>
        if f.promise.res <= 0 then
          var v' := EchoAddBuffer(cfg, v, id, AtEndBuffer);
          if v'.Stopped() then v' else Resume(cfg, v', id)
        else EchoWrite(cfg, v, id, f.promise.res)
      case AtEndBuffer => Finish(v, id)
      case AtWrite =>
        var v' := EchoAddBuffer(cfg, v, id, AtBuffer);
        if v'.Stopped() then v' else Resume(cfg, v', id)
      case AtBuffer => EchoRead(cfg, v, id)
  }

  /** `connections.emplace(fd, handle_echo(fd))`: the frame is created in any case, with whatever `junk` its promise
      memory holds, but an existing entry is kept. */
  function Emplace(v: Server, fd: nat, junk: Promise): Server {
    var v' := v.(frames := v.frames + [Suspended(AtStart, fd, junk)]);
    if fd in v.connections then v' else v'.(connections := v.connections[fd := |v.frames|])
  }

  /** Writes to the promise of the frame `connections.at(fd)` refers to, then resumes it. */
  function Deliver(cfg: Config, v: Server, fd: nat, update: Promise -> Promise): Server {
    if v.Stopped() then v
    else if fd !in v.connections || !v.IsSuspended(v.connections[fd]) then v.(misused := true)
    else
      var id := v.connections[fd];
      var f := v.frames[id];
      Resume(cfg, v.(frames := v.frames[id := f.(promise := update(f.promise))]), id)
  }

  function SetFd(fd: nat): Promise -> Promise { (p: Promise) => p.(info := p.info.(fd := fd)) }

  function SetResult(bid: nat, res: nat): Promise -> Promise {
    (p: Promise) => Promise(p.info.(bid := bid), res)
  }

  function Same(): Promise -> Promise { (p: Promise) => p }

  function Handle(cfg: Config, v: Server, c: Cqe, junk: Promise): Server {
    if c.OutOfBuffers() then v.(exited := true)
    else match c.data.kind
      case PROV_BUF => if c.res < 0 then v.(exited := true) else v
      case ACCEPT =>
        var v' := if c.res >= 0 then Deliver(cfg, Emplace(v, c.res, junk), c.res, SetFd(c.res)) else v;
        Push(cfg, v', EchoLoop.AcceptSqe(cfg))
      case READ => Deliver(cfg, v, c.data.fd, SetResult(c.SelectedBuffer(), ToSize(c.res)))
      case WRITE => Deliver(cfg, v, c.data.fd, Same())
  }

  function Boot(cfg: Config): Server {
    Push(cfg, Server([], map[], [], [], [], false, false, false), EchoLoop.AcceptSqe(cfg))
  }

  /** A completion, and the memory a new promise is placed in. */
  datatype Input = Input(c: Cqe, junk: Promise)

  /** A pass over a batch of completions. */
  function HandleAll(cfg: Config, v: Server, inputs: seq<Input>): Server
    decreases |inputs|
  {
    if inputs == [] || v.Stopped() then v
    else HandleAll(cfg, Handle(cfg, v, inputs[0].c, inputs[0].junk), inputs[1..])
  }

  class CoroutineServer {
    const cfg: Config
    var sq: seq<Sqe>
    var connections: map<nat, nat>
    var frames: seq<Frame>
    var exited: bool
    var faulted: bool
    var misused: bool
    ghost var shut: seq<nat>
    ghost var destroyed: seq<nat>

    ghost function View(): Server
      reads this
    {
      Server(sq, connections, frames, shut, destroyed, exited, faulted, misused)
    }

    predicate Stopped()
      reads this
    {
      exited || faulted || misused
    }

    constructor (cfg: Config)
      ensures this.cfg == cfg && View() == Boot(cfg)
    {
      this.cfg := cfg;
      sq, connections, frames, shut, destroyed := [], map[], [], [], [];
      exited, faulted, misused := false, false, false;
      new;
      QueueSqe(EchoLoop.AcceptSqe(cfg));
    }

    method QueueSqe(e: Sqe)
      modifies this
      ensures View() == Push(cfg, old(View()), e)
    {
      if !Stopped() {
        if |sq| < cfg.entries {
          sq := sq + [e];
        } else {
          faulted := true;
        }
      }
    }

    method SuspendWith(id: nat, op: Op, kind: EventType, point: Point)
      requires View().IsSuspended(id)
      modifies this
      ensures View() == Await(cfg, old(View()), id, op, kind, point)
    {
      var f := frames[id];
      var info := f.promise.info.(kind := kind);
      QueueSqe(Sqe(op, info));
      if !Stopped() {
        frames := frames[id := Suspended(point, f.fd, Promise(info, f.promise.res))];
      }
    }

    method AwaitRead(id: nat)
      requires View().IsSuspended(id)
      modifies this
      ensures View() == EchoRead(cfg, old(View()), id)
    {
      SuspendWith(id, Recv(frames[id].promise.info.fd, MAX_MESSAGE_LEN), READ, AtRead);
    }

    method AwaitWrite(id: nat, size: nat)
      requires View().IsSuspended(id)
      modifies this
      ensures View() == EchoWrite(cfg, old(View()), id, size)
    {
      var info := frames[id].promise.info;
      SuspendWith(id, Send(info.fd, info.bid, size % 0x1_0000_0000), WRITE, AtWrite);
    }

    /** Queues PROVIDE_BUFFERS and resumes the coroutine before it returns to whoever resumed it. */
    method AwaitAddBuffer(id: nat, point: Point)
      requires View().IsSuspended(id) && (point.AtEndBuffer? || point.AtBuffer?)
      modifies this
      ensures var v := EchoAddBuffer(cfg, old(View()), id, point);
              View() == if v.Stopped() then v else Resume(cfg, v, id)
      decreases 0, 1
    {
      SuspendWith(id, Provide(frames[id].promise.info.bid), PROV_BUF, point);
      if !Stopped() {
        ResumeFrame(id);
      }
    }

    method ResumeFrame(id: nat)
      modifies this
      ensures View() == Resume(cfg, old(View()), id)
      decreases Rank(View(), id), 0
    {
      if Stopped() {
        return;
      }
      if id >= |frames| || frames[id].Destroyed? {
        misused := true;
        return;
      }
      var f := frames[id];
      match f.point {
        case AtStart => AwaitRead(id);
        case AtRead =>
          if f.promise.res <= 0 {
            AwaitAddBuffer(id, AtEndBuffer);
          } else {
            AwaitWrite(id, f.promise.res);
          }
        case AtEndBuffer =>
          shut, destroyed := shut + [f.fd], destroyed + [id];
          connections := connections - {f.fd};
          frames := frames[id := Destroyed];
        case AtWrite => AwaitAddBuffer(id, AtBuffer);
        case AtBuffer => AwaitRead(id);
      }
    }

    method HandleCompletion(c: Cqe, junk: Promise)
      modifies this
      ensures View() == Handle(cfg, old(View()), c, junk)
    {
      var conn := c.data;
      if c.res == -ENOBUFS {
        exited := true;
      } else if conn.kind == PROV_BUF {
        if c.res < 0 {
          exited := true;
        }
      } else if conn.kind == ACCEPT {
        var fd := c.res;
        if fd >= 0 {
          frames := frames + [Suspended(AtStart, fd, junk)];
          if fd !in connections {
            connections := connections[fd := |frames| - 1];
          }
          DeliverTo(fd, SetFd(fd));
        }
        QueueSqe(EchoLoop.AcceptSqe(cfg));
      } else if conn.kind == READ {
        DeliverTo(conn.fd, SetResult(c.flags / 0x1_0000, ToSize(c.res)));
      } else {
        DeliverTo(conn.fd, Same());
      }
    }

    /** `auto &h = connections.at(fd).handler; auto &p = h.promise(); ...; h.resume();` */
    method DeliverTo(fd: nat, update: Promise -> Promise)
      modifies this
      ensures View() == Deliver(cfg, old(View()), fd, update)
    {
      if Stopped() {
        return;
      }
      if fd !in connections || connections[fd] >= |frames| || frames[connections[fd]].Destroyed? {
        misused := true;
        return;
      }
      var id := connections[fd];
      var f := frames[id];
      frames := frames[id := Suspended(f.point, f.fd, update(f.promise))];
      ResumeFrame(id);
    }

    method HandlePass(inputs: seq<Input>) returns (count: nat)
      modifies this
      ensures View() == HandleAll(cfg, old(View()), inputs)
      ensures count <= |inputs| && (count < |inputs| ==> View().Stopped())
    {
      count := 0;
      while count < |inputs| && !Stopped()
        invariant count <= |inputs|
        invariant HandleAll(cfg, View(), inputs[count..]) == HandleAll(cfg, old(View()), inputs)
      {
        assert inputs[count..][1..] == inputs[count + 1..];
        HandleCompletion(inputs[count].c, inputs[count].junk);
        count := count + 1;
      }
    }
  }
}
