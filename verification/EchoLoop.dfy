/** The user side of the echo server `demo/io_uring_echo_server.c`: four routines that queue a submission entry,
    and the dispatch on a completion. `Server` is its state as a value, `EchoServer` the program that updates it. */
module EchoLoop {
  import opened Uring

  datatype Config = Config(entries: nat, listener: nat)

  /** `sq` holds the entries queued since the last submit. `live` (connections adopted and not shut down) and `shut`
      (the `shutdown` calls, in order) are history. `exited` is a call of `exit`; `faulted` means that
      `io_uring_get_sqe` returned NULL because the ring was full, which none of the routines checks. */
  datatype Server = Server(sq: seq<Sqe>, live: set<nat>, shut: seq<nat>, exited: bool, faulted: bool) {
    predicate Stopped() { exited || faulted }
  }

  function Push(cfg: Config, v: Server, e: Sqe): Server {
    if v.faulted then v
    else if |v.sq| < cfg.entries then v.(sq := v.sq + [e])
    else v.(faulted := true)
  }

  function AcceptSqe(cfg: Config): Sqe { Sqe(Accept(cfg.listener), ConnInfo(cfg.listener, ACCEPT, 0)) }

  function ReadSqe(fd: nat): Sqe { Sqe(Recv(fd, MAX_MESSAGE_LEN), ConnInfo(fd, READ, 0)) }

  function WriteSqe(fd: nat, bid: nat, size: nat): Sqe { Sqe(Send(fd, bid, size), ConnInfo(fd, WRITE, bid)) }

  function ProvideSqe(bid: nat): Sqe { Sqe(Provide(bid), ConnInfo(0, PROV_BUF, 0)) }

  function Boot(cfg: Config): Server { Push(cfg, Server([], {}, [], false, false), AcceptSqe(cfg)) }

  function Adopt(v: Server, fd: nat): Server { v.(live := v.live + {fd}) }

  function Shutdown(v: Server, fd: nat): Server {
    if v.faulted then v else v.(live := v.live - {fd}, shut := v.shut + [fd])
  }

  /** The effect of one completion. */
  function Handle(cfg: Config, v: Server, c: Cqe): Server {
    if c.OutOfBuffers() then v.(exited := true)
    else match c.data.kind
      case PROV_BUF => if c.res < 0 then v.(exited := true) else v
      case ACCEPT =>
        var v' := if c.res >= 0 then Push(cfg, Adopt(v, c.res), ReadSqe(c.res)) else v;
        Push(cfg, v', AcceptSqe(cfg))
      case READ =>
        var bid := c.SelectedBuffer();
        if c.res <= 0 then Shutdown(Push(cfg, v, ProvideSqe(bid)), c.data.fd)
        else Push(cfg, v, WriteSqe(c.data.fd, bid, c.res))
      case WRITE => Push(cfg, Push(cfg, v, ProvideSqe(c.data.bid)), ReadSqe(c.data.fd))
  }

  /** A pass over a batch of completions; a stopped process handles no more of them. */
  function HandleAll(cfg: Config, v: Server, cs: seq<Cqe>): Server
    decreases |cs|
  {
    if cs == [] || v.Stopped() then v else HandleAll(cfg, Handle(cfg, v, cs[0]), cs[1..])
  }

  class EchoServer {
    const cfg: Config
    var sq: seq<Sqe>
    var exited: bool
    var faulted: bool
    ghost var live: set<nat>
    ghost var shut: seq<nat>

    ghost function View(): Server
      reads this
    {
      Server(sq, live, shut, exited, faulted)
    }

    constructor (cfg: Config)
      ensures this.cfg == cfg && View() == Boot(cfg)
    {
      this.cfg := cfg;
      sq, exited, faulted, live, shut := [], false, false, {}, [];
      new;
      AddAccept();
    }

    /** `io_uring_get_sqe` and the preparation of the entry it returns. */
    method QueueSqe(e: Sqe)
      modifies this
      ensures View() == Push(cfg, old(View()), e)
    {
      if !faulted {
        if |sq| < cfg.entries {
          sq := sq + [e];
        } else {
          faulted := true;
        }
      }
    }

    method AddAccept()
      modifies this
      ensures View() == Push(cfg, old(View()), AcceptSqe(cfg))
    {
      QueueSqe(Sqe(Accept(cfg.listener), ConnInfo(cfg.listener, ACCEPT, 0)));
    }

    method AddSocketRead(fd: nat, size: nat)
      modifies this
      ensures View() == Push(cfg, old(View()), Sqe(Recv(fd, size), ConnInfo(fd, READ, 0)))
    {
      QueueSqe(Sqe(Recv(fd, size), ConnInfo(fd, READ, 0)));
    }

    method AddSocketWrite(fd: nat, bid: nat, size: nat)
      modifies this
      ensures View() == Push(cfg, old(View()), WriteSqe(fd, bid, size))
    {
      QueueSqe(Sqe(Send(fd, bid, size), ConnInfo(fd, WRITE, bid)));
    }

    method AddProvideBuf(bid: nat)
      modifies this
      ensures View() == Push(cfg, old(View()), ProvideSqe(bid))
    {
      QueueSqe(Sqe(Provide(bid), ConnInfo(0, PROV_BUF, 0)));
    }

    method ShutdownSocket(fd: nat)
      modifies this
      ensures View() == Shutdown(old(View()), fd)
    {
      if !faulted {
        live, shut := live - {fd}, shut + [fd];
      }
    }

    method HandleCompletion(c: Cqe)
      modifies this
      ensures View() == Handle(cfg, old(View()), c)
    {
      var conn := c.data;
      if c.res == -ENOBUFS {
        exited := true;
      } else if conn.kind == PROV_BUF {
        if c.res < 0 {
          exited := true;
        }
      } else if conn.kind == ACCEPT {
        var fd := c.res;
        if fd >= 0 {
          live := live + {fd};
          AddSocketRead(fd, MAX_MESSAGE_LEN);
        }
        AddAccept();
      } else if conn.kind == READ {
        var bytesRead, bid := c.res, c.flags / 0x1_0000;
        if bytesRead <= 0 {
          AddProvideBuf(bid);
          ShutdownSocket(conn.fd);
        } else {
          AddSocketWrite(conn.fd, bid, bytesRead);
        }
      } else {
        AddProvideBuf(conn.bid);
        AddSocketRead(conn.fd, MAX_MESSAGE_LEN);
      }
    }

    /** The pass of the event loop over the completions `cs`; `count` is what `io_uring_cq_advance` is told. */
    method HandlePass(cs: seq<Cqe>) returns (count: nat)
      modifies this
      ensures View() == HandleAll(cfg, old(View()), cs)
      ensures count <= |cs| && (count < |cs| ==> View().Stopped())
    {
      count := 0;
      while count < |cs| && !exited && !faulted
        invariant count <= |cs|
        invariant HandleAll(cfg, View(), cs[count..]) == HandleAll(cfg, old(View()), cs)
      {
        assert cs[count..][1..] == cs[count + 1..];
        HandleCompletion(cs[count]);
        count := count + 1;
      }
    }
  }
}
