/** The web server of `server/`: `io_uring_handler::event_loop` with the awaitables of `stream.h`, and the coroutine
    `handle_http_request`, which reads once, builds the response in the same buffer, writes it and closes. */
module WebServer {
  import opened Options
  import opened Uring
  import F = FileService
  import H = HttpConn

  /** `base` is the address of the buffer block; `respond` is what `handle_request` makes of a NUL-terminated buffer, and
      `None` where it is undefined. */
  datatype Config = Config(entries: nat, listener: nat, base: nat, respond: Bytes -> Option<H.Response>)

  /** The requests are answered from the files `fs`. */
  ghost predicate ServesFiles(cfg: Config, fs: F.FileSystem) {
    forall b {:trigger H.Respond(fs, b)} :: cfg.respond(b) == H.Respond(fs, b)
  }

  function FileConfig(entries: nat, listener: nat, base: nat, fs: F.FileSystem): (cfg: Config)
    ensures ServesFiles(cfg, fs)
  {
    Config(entries, listener, base, (b: Bytes) => H.Respond(fs, b))
  }

  datatype Point = AtStart | AtRead | AtWrite

  datatype Promise = Promise(info: ConnInfo, res: nat)

  /** What one accepted connection has been through; history. */
  datatype Event =
    | ReadQueued
    | Received(bid: nat, content: Bytes)
    | WriteQueued(bid: nat, body: Bytes)
    | BufferReturned(bid: nat)
    | Closed(fd: nat)

  datatype Frame =
    | Suspended(point: Point, fd: nat, promise: Promise, log: seq<Event>)
    | Destroyed(fd: nat, log: seq<Event>)

  /** `bufs` is the memory shared with the kernel. `closed` and `destroyed` are history. `misused` is undefined
      behaviour or an uncaught exception. */
  datatype Server = Server(
    sq: seq<Sqe>, connections: map<nat, nat>, frames: seq<Frame>, bufs: seq<Bytes>,
    closed: seq<nat>, destroyed: seq<nat>, exited: bool, faulted: bool, misused: bool)
  {
    predicate Stopped() { exited || faulted || misused }

    predicate IsSuspended(id: nat) { id < |frames| && frames[id].Suspended? }
  }

  function Push(cfg: Config, v: Server, e: Sqe): Server {
    if v.Stopped() then v
    else if |v.sq| < cfg.entries then v.(sq := v.sq + [e])
    else v.(faulted := true)
  }

  function AcceptSqe(cfg: Config): Sqe { Sqe(Accept(cfg.listener), ConnInfo(cfg.listener, ACCEPT, 0)) }

  /** `get_buffer_pointer` and `get_buffer_id`. */
  function BufferPointer(cfg: Config, bid: nat): nat { cfg.base + bid * MAX_MESSAGE_LEN }

  function BufferId(cfg: Config, pointer: nat): nat
    requires cfg.base <= pointer
  {
    (pointer - cfg.base) / MAX_MESSAGE_LEN
  }

  /** The tag an `add_*_request` leaves in the promise and copies into the entry. */
  function Tag(info: ConnInfo, kind: EventType): ConnInfo { info.(kind := kind) }

  /** `co_await read_socket`. */
  function AwaitRead(cfg: Config, v: Server, id: nat): Server
    requires v.IsSuspended(id)
  {
    var f := v.frames[id];
    var info := Tag(f.promise.info, READ);
    var v' := Push(cfg, v, Sqe(Recv(info.fd, MAX_MESSAGE_LEN), info));
    if v'.Stopped() then v'
    else v'.(frames := v'.frames[id :=
      f.(point := AtRead, promise := f.promise.(info := info), log := f.log + [ReadQueued])])
  }

  /** The buffer with the terminating NUL the coroutine writes behind the bytes read. */
  function Terminated(buf: Bytes, n: nat): Bytes
    requires n < |buf|
  {
    buf[n := '\0']
  }

  /** The bytes read leave room for the NUL, and the response to them is defined and in its buffer. */
  predicate Servable(cfg: Config, bufs: seq<Bytes>, bid: nat, n: nat) {
    && bid < |bufs| && n < |bufs[bid]|
    && var r := cfg.respond(Terminated(bufs[bid], n));
       r.Some? && |r.value.content| == |bufs[bid]| && r.value.size <= |r.value.content|
  }

  /** From the end of the read to the `co_await write_socket`. */
  function AwaitWrite(cfg: Config, v: Server, id: nat): Server
    requires v.IsSuspended(id)
  {
    var f := v.frames[id];
    var pointer := BufferPointer(cfg, f.promise.info.bid);
    var n, bid := f.promise.res, BufferId(cfg, pointer);
    if !Servable(cfg, v.bufs, bid, n) then v.(misused := true)
    else
      var content := Terminated(v.bufs[bid], n);
      var r := cfg.respond(content).value;
      var info := Tag(f.promise.info.(bid := bid), WRITE);
      var v' := Push(cfg, v, Sqe(Send(info.fd, bid, r.size), info));
      if v'.Stopped() then v'
      else v'.(
        bufs := v'.bufs[bid := r.content],
        frames := v'.frames[id := f.(
          point := AtWrite, promise := f.promise.(info := info),
          log := f.log + [Received(f.promise.info.bid, content), WriteQueued(bid, r.content[..r.size])])])
  }

  /** From the end of the write to the end of the coroutine: `write_awaitable::await_resume` returns the buffer, then
      `add_close_request` erases the map entry and closes the socket, and the frame destroys itself. */
  function FinishRequest(cfg: Config, v: Server, id: nat): Server
    requires v.IsSuspended(id)
  {
    var f := v.frames[id];
    var info := Tag(f.promise.info, PROV_BUF);
    var v' := Push(cfg, v, Sqe(Provide(info.bid), info));
    if v'.Stopped() then v'
    else v'.(
      connections := v'.connections - {f.fd}, closed := v'.closed + [f.fd], destroyed := v'.destroyed + [id],
      frames := v'.frames[id := Destroyed(f.fd, f.log + [BufferReturned(info.bid), Closed(f.fd)])])
  }

  function Resume(cfg: Config, v: Server, id: nat): Server {
    if v.Stopped() then v
    else if !v.IsSuspended(id) then v.(misused := true)
    else match v.frames[id].point
      case AtStart => AwaitRead(cfg, v, id)
      case AtRead => AwaitWrite(cfg, v, id)
      case AtWrite => FinishRequest(cfg, v, id)
  }

  function Emplace(v: Server, fd: nat, junk: Promise): Server {
    var v' := v.(frames := v.frames + [Suspended(AtStart, fd, junk, [])]);
    if fd in v.connections then v' else v'.(connections := v.connections[fd := |v.frames|])
  }

  /** Writes to the promise of the frame `connections.at(fd)` refers to, then resumes it. */
  function Deliver(cfg: Config, v: Server, fd: nat, update: Promise -> Promise): Server {
    if v.Stopped() then v
    else if fd !in v.connections || !v.IsSuspended(v.connections[fd]) then v.(misused := true)
    else
      var id := v.connections[fd];
      var f := v.frames[id];
      Resume(cfg, v.(frames := v.frames[id := f.(promise := update(f.promise))]), id)
  }

  function ToSize(res: int): nat { res % 0x1_0000_0000_0000_0000 }

  function SetFd(fd: nat): Promise -> Promise { (p: Promise) => p.(info := p.info.(fd := fd)) }

  function SetRead(bid: nat, res: nat): Promise -> Promise { (p: Promise) => Promise(p.info.(bid := bid), res) }

  function SetWritten(res: nat): Promise -> Promise { (p: Promise) => p.(res := res) }

  function Handle(cfg: Config, v: Server, c: Cqe, junk: Promise): Server {
    if c.OutOfBuffers() then v.(exited := true)
    else match c.data.kind
      case PROV_BUF => if c.res < 0 then v.(exited := true) else v
      case ACCEPT =>
        var v' := if c.res >= 0 then Deliver(cfg, Emplace(v, c.res, junk), c.res, SetFd(c.res)) else v;
        Push(cfg, v', AcceptSqe(cfg))
      case READ => Deliver(cfg, v, c.data.fd, SetRead(c.SelectedBuffer(), ToSize(c.res)))
      case WRITE => Deliver(cfg, v, c.data.fd, SetWritten(ToSize(c.res)))
  }

  function Boot(cfg: Config, bufs: seq<Bytes>): Server {
    Push(cfg, Server([], map[], [], bufs, [], [], false, false, false), AcceptSqe(cfg))
  }

  /** A completion, the memory a new promise is placed in, and what the shared buffers hold when it is looked at. */
  datatype Input = Input(c: Cqe, junk: Promise, bufs: seq<Bytes>)

  /** A pass over a batch of completions. */
  function HandleAll(cfg: Config, v: Server, inputs: seq<Input>): Server
    decreases |inputs|
  {
    if inputs == [] || v.Stopped() then v
    else HandleAll(cfg, Handle(cfg, v.(bufs := inputs[0].bufs), inputs[0].c, inputs[0].junk), inputs[1..])
  }

  class IoUringHandler {
    const cfg: Config
    const fs: F.FileSystem
    var sq: seq<Sqe>
    var connections: map<nat, nat>
    var frames: seq<Frame>
    var bufs: seq<Bytes>
    var exited: bool
    var faulted: bool
    var misused: bool
    ghost var closed: seq<nat>
    ghost var destroyed: seq<nat>

    ghost function View(): Server
      reads this
    {
      Server(sq, connections, frames, bufs, closed, destroyed, exited, faulted, misused)
    }

    predicate Stopped()
      reads this
    {
      exited || faulted || misused
    }

    constructor (entries: nat, listener: nat, base: nat, fs: F.FileSystem, bufs: seq<Bytes>)
      ensures cfg == FileConfig(entries, listener, base, fs) && this.fs == fs && ServesFiles(cfg, fs)
      ensures View() == Boot(cfg, bufs)
    {
      this.cfg := FileConfig(entries, listener, base, fs);
      this.fs := fs;
      this.bufs := bufs;
      sq, connections, frames, closed, destroyed := [], map[], [], [], [];
      exited, faulted, misused := false, false, false;
      new;
      QueueSqe(AcceptSqe(cfg));
    }

    method QueueSqe(e: Sqe)
      modifies this
      ensures View() == Push(cfg, old(View()), e)
    {
      if !Stopped() {
        if |sq| < cfg.entries {
          sq := sq + [e];
        } else {
          faulted := true;
        }
      }
    }

    method ReadSocket(id: nat)
      requires View().IsSuspended(id) && !Stopped()
      modifies this
      ensures View() == AwaitRead(cfg, old(View()), id)
    {
      var f := frames[id];
      var info := f.promise.info.(kind := READ);
      QueueSqe(Sqe(Recv(info.fd, MAX_MESSAGE_LEN), info));
      if !Stopped() {
        frames := frames[id := Suspended(AtRead, f.fd, Promise(info, f.promise.res), f.log + [ReadQueued])];
      }
    }

    /** `http_conn conn; conn.handle_request(read_buffer);`, in a buffer of `READ_BUFFER_SIZE`. */
    method HandleRequest(content: Bytes) returns (r: Option<H.Response>)
      requires ServesFiles(cfg, fs) && |content| == H.READ_SIZE && '\0' in content
      ensures r == cfg.respond(content)
    {
      assert cfg.respond(content) == H.Respond(fs, content);
      var buf := new char[|content|](i requires 0 <= i < |content| => content[i]);
      assert buf[..] == content;
      var conn := new H.HttpConnection();
      var ok, code := conn.HandleRequest(buf, fs);
      r := if ok then Some(H.Response(buf[..], conn.responseSize)) else None;
    }

    /** The NUL behind the bytes read, and the response built over them; `None` when a write leaves the buffer. */
    method Serve(bid: nat, n: nat) returns (content: Bytes, r: Option<H.Response>)
      requires ServesFiles(cfg, fs)
      ensures r.Some? <==> Servable(cfg, bufs, bid, n)
      ensures r.Some? ==> content == Terminated(bufs[bid], n) && r == cfg.respond(content)
    {
      if bid >= |bufs| || n >= |bufs[bid]| {
        return "", None;
      }
      content := bufs[bid][n := '\0'];
      assert cfg.respond(content) == H.Respond(fs, content);
      if |content| != H.READ_SIZE {
        return content, None;
      }
      assert content[n] == '\0';
      r := HandleRequest(content);
    }

    method ServeAndWrite(id: nat)
      requires View().IsSuspended(id) && !Stopped() && ServesFiles(cfg, fs)
      modifies this
      ensures View() == AwaitWrite(cfg, old(View()), id)
    {
      var f := frames[id];
      var readBuffer := cfg.base + f.promise.info.bid * MAX_MESSAGE_LEN;
      var bid := (readBuffer - cfg.base) / MAX_MESSAGE_LEN;
      var content, answer := Serve(bid, f.promise.res);
      if answer.None? {
        misused := true;
        return;
      }
      var r := answer.value;
      var info := ConnInfo(f.promise.info.fd, WRITE, bid);
      QueueSqe(Sqe(Send(info.fd, bid, r.size), info));
      if !Stopped() {
        bufs := bufs[bid := r.content];
        var log := f.log + [Received(f.promise.info.bid, content), WriteQueued(bid, r.content[..r.size])];
        frames := frames[id := Suspended(AtWrite, f.fd, Promise(info, f.promise.res), log)];
      }
    }

    method ReturnAndClose(id: nat)
      requires View().IsSuspended(id) && !Stopped()
      modifies this
      ensures View() == FinishRequest(cfg, old(View()), id)
    {
      var f := frames[id];
      var info := f.promise.info.(kind := PROV_BUF);
      QueueSqe(Sqe(Provide(info.bid), info));
      if !Stopped() {
        connections := connections - {f.fd};
        closed, destroyed := closed + [f.fd], destroyed + [id];
        frames := frames[id := Destroyed(f.fd, f.log + [BufferReturned(info.bid), Closed(f.fd)])];
      }
    }

    method ResumeFrame(id: nat)
      requires ServesFiles(cfg, fs)
      modifies this
      ensures View() == Resume(cfg, old(View()), id)
    {
      if Stopped() {
        return;
      }
      if id >= |frames| || frames[id].Destroyed? {
        misused := true;
        return;
      }
      match frames[id].point {
        case AtStart => ReadSocket(id);
        case AtRead => ServeAndWrite(id);
        case AtWrite => ReturnAndClose(id);
      }
    }

    method DeliverTo(fd: nat, update: Promise -> Promise)
      requires ServesFiles(cfg, fs)
      modifies this
      ensures View() == Deliver(cfg, old(View()), fd, update)
    {
      if Stopped() {
        return;
      }
      if fd !in connections || connections[fd] >= |frames| || frames[connections[fd]].Destroyed? {
        misused := true;
        return;
      }
      var id := connections[fd];
      var f := frames[id];
      frames := frames[id := Suspended(f.point, f.fd, update(f.promise), f.log)];
      ResumeFrame(id);
    }

    method HandleCompletion(c: Cqe, junk: Promise)
      requires ServesFiles(cfg, fs)
      modifies this
      ensures View() == Handle(cfg, old(View()), c, junk)
    {
      var conn := c.data;
      if c.res == -ENOBUFS {
        exited := true;
      } else if conn.kind == PROV_BUF {
        if c.res < 0 {
          exited := true;
        }
      } else if conn.kind == ACCEPT {
        var fd := c.res;
        if fd >= 0 {
          frames := frames + [Suspended(AtStart, fd, junk, [])];
          if fd !in connections {
            connections := connections[fd := |frames| - 1];
          }
          DeliverTo(fd, SetFd(fd));
        }
        QueueSqe(AcceptSqe(cfg));
      } else if conn.kind == READ {
        DeliverTo(conn.fd, SetRead(c.flags / 0x1_0000, ToSize(c.res)));
      } else {
        DeliverTo(conn.fd, SetWritten(ToSize(c.res)));
      }
    }

    /** The pass of `event_loop` over the completions of `inputs`; between two of them the kernel may write to the
        buffers. */
    method HandlePass(inputs: seq<Input>) returns (count: nat)
      requires ServesFiles(cfg, fs)
      modifies this
      ensures View() == HandleAll(cfg, old(View()), inputs)
      ensures count <= |inputs| && (count < |inputs| ==> View().Stopped())
    {
      count := 0;
      while count < |inputs| && !Stopped()
        invariant count <= |inputs|
        invariant HandleAll(cfg, View(), inputs[count..]) == HandleAll(cfg, old(View()), inputs)
      {
        assert inputs[count..][1..] == inputs[count + 1..];
        bufs := inputs[count].bufs;
        HandleCompletion(inputs[count].c, inputs[count].junk);
        count := count + 1;
      }
    }
  }
}
