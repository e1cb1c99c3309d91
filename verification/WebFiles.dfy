/** The web server from the socket to the file: `handle_http_request` with the `http_conn` it calls. */
module WebFiles {
  import opened Options
  import opened Uring
  import opened CText
  import opened Accounts
  import W = WebServer
  import S = WebProtocol
  import T = WebTheorems
  import P = EchoProtocol
  import H = HttpConn
  import C = CBuffer
  import F = FileService
  import Q = HttpRequest
  import R = HttpResponse

  // ----- Which reads the server is defined for -----

  /** The request that `n` bytes read into a buffer make. */
  function RequestIn(buf: Bytes, n: nat): Q.Request
    requires n < |buf|
  {
    H.RequestOf(W.Terminated(buf, n))
  }

  lemma TerminatedHasNul(buf: Bytes, n: nat)
    requires n < |buf|
    ensures '\0' in W.Terminated(buf, n)
  {
    assert W.Terminated(buf, n)[n] == '\0';
  }

  /** Without a byte there is no token. */
  lemma EmptyReadCrashes(buf: Bytes)
    requires buf != []
    ensures RequestIn(buf, 0).Crash?
  {
    assert Q.CString(W.Terminated(buf, 0)) == "";
    assert H.LineOf(W.Terminated(buf, 0)) == "";
  }

  /** A read can be served exactly when its bytes are a request the program is defined for. */
  lemma ServableIffAnswerable(cfg: W.Config, fs: F.FileSystem, bufs: seq<Bytes>, bid: nat, n: nat)
    requires W.ServesFiles(cfg, fs) && bid < |bufs| && |bufs[bid]| == MAX_MESSAGE_LEN && n < MAX_MESSAGE_LEN
    ensures W.Servable(cfg, bufs, bid, n) <==> H.Answerable(fs, RequestIn(bufs[bid], n))
  {
    var b := W.Terminated(bufs[bid], n);
    TerminatedHasNul(bufs[bid], n);
    H.RespondsIff(fs, b);
    assert cfg.respond(b) == H.Respond(fs, b);
  }

  /** A read handed to the server returned 1 to 2047 bytes, and they are a request the program is defined for. */
  predicate ReadsAnswerable(fs: F.FileSystem, s: S.System, step: P.Step) {
    step.HandleNext? && s.k.cq != [] && s.k.cq[0].data.kind.READ? && !s.k.cq[0].OutOfBuffers() ==>
      var c := s.k.cq[0];
      && 0 < c.res < MAX_MESSAGE_LEN
      && (c.SelectedBuffer() < |s.v.bufs| && |s.v.bufs[c.SelectedBuffer()]| == MAX_MESSAGE_LEN ==>
            H.Answerable(fs, RequestIn(s.v.bufs[c.SelectedBuffer()], c.res)))
  }

  /** `cqe->res` has 32 bits. */
  predicate IntResult(s: S.System, step: P.Step) {
    step.HandleNext? && s.k.cq != [] ==> -0x8000_0000 <= s.k.cq[0].res < 0x8000_0000
  }

  lemma AnswerableIsServable(cfg: W.Config, fs: F.FileSystem, s: S.System, step: P.Step)
    requires W.ServesFiles(cfg, fs) && ReadsAnswerable(fs, s, step)
    ensures S.ReadsServable(cfg, s, step)
  {
    if step.HandleNext? && s.k.cq != [] && s.k.cq[0].data.kind.READ? && !s.k.cq[0].OutOfBuffers() {
      var c := s.k.cq[0];
      if c.SelectedBuffer() < |s.v.bufs| && |s.v.bufs[c.SelectedBuffer()]| == MAX_MESSAGE_LEN {
        ServableIffAnswerable(cfg, fs, s.v.bufs, c.SelectedBuffer(), c.res);
      }
    }
  }

  /** The selected buffer of a completed read is one of the registered ones. */
  lemma ReadBufferKnown(cfg: W.Config, n: nat, s: S.System)
    requires S.Inv(cfg, n, s) && S.CanStep(s, P.HandleNext)
    requires s.k.cq[0].data.kind.READ? && !s.k.cq[0].OutOfBuffers()
    ensures var bid := s.k.cq[0].SelectedBuffer(); bid < |s.v.bufs| && |s.v.bufs[bid]| == MAX_MESSAGE_LEN
  {
    S.HandledIsAlone(n, s.v.sq, s.k, s.v.connections.Keys, Buffer(s.k.cq[0].SelectedBuffer()));
  }

  /** Handling a completion goes wrong in the program's own memory exactly when it is a read of another length or of another
      request. */
  lemma MisusedIffUnanswerable(cfg: W.Config, fs: F.FileSystem, n: nat, s: S.System, junk: W.Promise)
    requires W.ServesFiles(cfg, fs) && S.Inv(cfg, n, s) && S.CanStep(s, P.HandleNext) && IntResult(s, P.HandleNext)
    ensures S.Next(cfg, s, P.HandleNext, junk).v.misused <==> !ReadsAnswerable(fs, s, P.HandleNext)
  {
    var c := s.k.cq[0];
    if c.data.kind.READ? && !c.OutOfBuffers() {
      ReadBufferKnown(cfg, n, s);
      T.MisusedIffUnservable(cfg, n, s, junk);
      if 0 <= c.res < MAX_MESSAGE_LEN { ServableIffAnswerable(cfg, fs, s.v.bufs, c.SelectedBuffer(), c.res); }
      if c.res == 0 { EmptyReadCrashes(s.v.bufs[c.SelectedBuffer()]); }
    } else {
      AnswerableIsServable(cfg, fs, s, P.HandleNext);
      S.StepInv(cfg, n, s, P.HandleNext, S.Next(cfg, s, P.HandleNext, junk), junk);
    }
  }

  /** Something was done that the language does not define: a NULL or a dead frame was used, or a byte written outside its
      array; `faulted` is the NULL of `io_uring_get_sqe`, which is used without a check. */
  predicate Undefined(v: W.Server) { v.misused || v.faulted }

  /** Handling a completion is undefined exactly when it is a read of another length or of another request, or when the
      entries it is answered by do not fit the submission queue. */
  lemma UndefinedIff(cfg: W.Config, fs: F.FileSystem, n: nat, s: S.System, junk: W.Promise)
    requires W.ServesFiles(cfg, fs) && S.Inv(cfg, n, s) && S.CanStep(s, P.HandleNext) && IntResult(s, P.HandleNext)
    ensures Undefined(S.Next(cfg, s, P.HandleNext, junk).v) <==>
            !ReadsAnswerable(fs, s, P.HandleNext) || T.Overfills(cfg, s, P.HandleNext)
  {
    MisusedIffUnanswerable(cfg, fs, n, s, junk);
    if ReadsAnswerable(fs, s, P.HandleNext) { T.FaultedIffFull(cfg, n, s, junk); }
  }

  // ----- Every run -----

  /** Some read before state `i` was of another length or of another request. */
  ghost predicate Offended(fs: F.FileSystem, states: seq<S.System>, steps: seq<P.Step>, i: nat)
    requires i <= |steps| < |states|
  {
    exists j :: 0 <= j < i && !ReadsAnswerable(fs, states[j], steps[j])
  }

  /** Some completion before state `i` found no room for its entries. */
  ghost predicate Overfilled(cfg: W.Config, states: seq<S.System>, steps: seq<P.Step>, i: nat)
    requires i <= |steps| < |states|
  {
    exists j :: 0 <= j < i && T.Overfills(cfg, states[j], steps[j])
  }

  ghost predicate Tracked(cfg: W.Config, n: nat, s: S.System, undefined: bool) {
    if undefined then Undefined(s.v) else S.Good(cfg, n, s) && !s.v.faulted
  }

  lemma StepTracked(cfg: W.Config, fs: F.FileSystem, n: nat, s: S.System, step: P.Step, s': S.System, junk: W.Promise)
    requires W.ServesFiles(cfg, fs) && S.CanStep(s, step) && s' == S.Next(cfg, s, step, junk) && IntResult(s, step)
    requires S.Good(cfg, n, s)
    ensures Tracked(cfg, n, s', !ReadsAnswerable(fs, s, step) || T.Overfills(cfg, s, step))
  {
    if step.HandleNext? { UndefinedIff(cfg, fs, n, s, junk); }
    if ReadsAnswerable(fs, s, step) {
      AnswerableIsServable(cfg, fs, s, step);
      S.StepInv(cfg, n, s, step, s', junk);
    }
  }

  lemma OffendedGrows(fs: F.FileSystem, states: seq<S.System>, steps: seq<P.Step>, m: nat)
    requires m < |steps| < |states|
    ensures Offended(fs, states, steps, m + 1) <==>
            Offended(fs, states, steps, m) || !ReadsAnswerable(fs, states[m], steps[m])
  {
  }

  lemma OverfilledGrows(cfg: W.Config, states: seq<S.System>, steps: seq<P.Step>, m: nat)
    requires m < |steps| < |states|
    ensures Overfilled(cfg, states, steps, m + 1) <==>
            Overfilled(cfg, states, steps, m) || T.Overfills(cfg, states[m], steps[m])
  {
  }

  /** Over every run, whatever its reads return and however many connections it has: the server becomes undefined exactly by
      a request it is not defined for or by a completion whose entries do not fit the submission queue. */
  lemma DefinedIff(cfg: W.Config, fs: F.FileSystem, n: nat, states: seq<S.System>, steps: seq<P.Step>,
                   junk: seq<W.Promise>, i: nat)
    requires S.Trace(cfg, n, states, steps, junk) && i < |states| && W.ServesFiles(cfg, fs)
    requires forall j :: 0 <= j < |steps| ==> IntResult(states[j], steps[j])
    ensures Undefined(states[i].v) <==> Offended(fs, states, steps, i) || Overfilled(cfg, states, steps, i)
  {
    S.InitialInv(cfg, n, states[0]);
    for m := 0 to i
      invariant Tracked(cfg, n, states[m], Offended(fs, states, steps, m) || Overfilled(cfg, states, steps, m))
    {
      assert S.CanStep(states[m], steps[m]);
      StepTracked(cfg, fs, n, states[m], steps[m], states[m + 1], junk[m]);
      OffendedGrows(fs, states, steps, m);
      OverfilledGrows(cfg, states, steps, m);
    }
  }

  /** As long as no request was one the server is not defined for, the queue has room. */
  ghost predicate Unspoiled(cfg: W.Config, n: nat, s: S.System, offended: bool, l: nat) {
    if offended then Undefined(s.v) else S.Good(cfg, n, s) && T.Roomy(s, l)
  }

  lemma StepUnspoiled(cfg: W.Config, fs: F.FileSystem, n: nat, s: S.System, step: P.Step, s': S.System, junk: W.Promise,
                      l: nat)
    requires W.ServesFiles(cfg, fs) && S.CanStep(s, step) && s' == S.Next(cfg, s, step, junk) && IntResult(s, step)
    requires S.Good(cfg, n, s) && T.Roomy(s, l) && |s.v.connections| <= l && l + 2 <= cfg.entries
    ensures Unspoiled(cfg, n, s', !ReadsAnswerable(fs, s, step), l)
  {
    if ReadsAnswerable(fs, s, step) {
      AnswerableIsServable(cfg, fs, s, step);
      S.StepInv(cfg, n, s, step, s', junk);
      T.StepKeepsRoom(cfg, n, s, step, s', junk, l);
    } else {
      MisusedIffUnanswerable(cfg, fs, n, s, junk);
    }
  }

  /** Over every run with at most `l` connections at once and room for `l + 2` entries the server stays defined exactly as
      long as it is handed requests it is defined for: then no lookup in `connections` fails, no frame is resumed that is not
      suspended, no NULL is dereferenced, and no byte is written outside the array it was meant for. */
  lemma DefinedIffAnswerable(cfg: W.Config, fs: F.FileSystem, n: nat, states: seq<S.System>, steps: seq<P.Step>,
                             junk: seq<W.Promise>, l: nat, i: nat)
    requires S.Trace(cfg, n, states, steps, junk) && i < |states| && W.ServesFiles(cfg, fs)
    requires forall j :: 0 <= j < |steps| ==> IntResult(states[j], steps[j])
    requires l + 2 <= cfg.entries && forall j :: 0 <= j <= i ==> |states[j].v.connections| <= l
    ensures Undefined(states[i].v) <==> Offended(fs, states, steps, i)
  {
    S.InitialInv(cfg, n, states[0]);
    for m := 0 to i
      invariant Unspoiled(cfg, n, states[m], Offended(fs, states, steps, m), l)
    {
      assert S.CanStep(states[m], steps[m]);
      StepUnspoiled(cfg, fs, n, states[m], steps[m], states[m + 1], junk[m], l);
      OffendedGrows(fs, states, steps, m);
    }
  }

  /** All that is proved of runs in which every read can be served holds of runs in which every read is answerable. */
  lemma AnswerableRun(cfg: W.Config, fs: F.FileSystem, n: nat, states: seq<S.System>, steps: seq<P.Step>,
                      junk: seq<W.Promise>)
    requires S.Trace(cfg, n, states, steps, junk) && W.ServesFiles(cfg, fs)
    requires forall j :: 0 <= j < |steps| ==> ReadsAnswerable(fs, states[j], steps[j])
    ensures S.Run(cfg, n, states, steps, junk)
  {
    forall j | 0 <= j < |steps| ensures S.ReadsServable(cfg, states[j], steps[j]) {
      AnswerableIsServable(cfg, fs, states[j], steps[j]);
    }
  }

  // ----- What a client gets -----

  /** What a client was sent in answer to the request in the buffer `b`: the headers and the bytes of the file it asked for,
      or an error text. Behind the text for a missing file go its NUL and 37 more bytes of the buffer, which parsing leaves
      as they were wherever the request line does not reach: the rest of the request, or data of whoever used the buffer
      before. */
  ghost predicate Delivered(fs: F.FileSystem, b: Bytes, sent: Bytes)
    requires |b| == H.READ_SIZE && H.Answerable(fs, H.RequestOf(b))
  {
    var r := H.RequestOf(b);
    && (!H.Missing(fs, r) ==> sent == H.ResponseTo(fs, r))
    && (H.Missing(fs, r) ==> H.Trailed(H.ResponseTo(fs, r), H.Parsed(b), 38, sent))
    && (H.Missing(fs, r) && |H.LineOf(b)| <= |H.ResponseTo(fs, r)| ==> H.Trailed(H.ResponseTo(fs, r), b, 38, sent))
    && R.StatusCode(sent) == Some(if !r.Get? then "400" else if H.Found(fs, r.path) then "200" else "404")
    && (r.Get? && H.Found(fs, r.path) ==> ParsesInto(H.FinalPath(r.path), fs[H.FinalPath(r.path)].content, sent))
  }

  predicate ParsesInto(file: string, content: Bytes, sent: Bytes) {
    R.ParseResponse(sent) == Some(R.Response("HTTP/1.0", "200", "OK",
      [R.ServerHeader()] + H.TypeHeaders(FilenameExt(file)) + [R.LengthHeader(|content|)], content))
  }

  lemma SliceBehind(a: Bytes, b: Bytes, n: nat, from: nat, to: nat)
    requires n <= from <= to <= |a| == |b| && a[n..] == b[n..]
    ensures a[from..to] == b[from..to]
  {
    forall j | from <= j < to ensures a[j] == b[j] {
      assert a[j] == a[n..][j - n] && b[j] == b[n..][j - n];
    }
  }

  lemma TrailedByRest(text: Bytes, parsed: Bytes, b: Bytes, n: nat, extra: nat, sent: Bytes)
    requires H.Trailed(text, parsed, extra, sent)
    requires n <= |text| + 1 && n <= |parsed| == |b| && parsed[n..] == b[n..]
    ensures H.Trailed(text, b, extra, sent)
  {
    SliceBehind(parsed, b, n, |text| + 1, |text| + extra);
  }

  lemma TextTrails(b: Bytes, text: Bytes, content: Bytes, size: nat, sent: Bytes)
    requires |b| == H.READ_SIZE && '\0' in b && |text| + 38 == size <= |b|
    requires content == C.Copied(H.Parsed(b), 0, text) && sent == content[..size]
    ensures H.Trailed(text, H.Parsed(b), 38, sent)
    ensures |H.LineOf(b)| <= |text| ==> H.Trailed(text, b, 38, sent)
  {
    H.CopiedTrails(H.Parsed(b), text, 38, sent);
    H.ParsedKeepsRest(b);
    if |H.LineOf(b)| <= |text| { TrailedByRest(text, H.Parsed(b), b, |H.LineOf(b)| + 1, 38, sent); }
  }

  lemma MissingDelivered(fs: F.FileSystem, b: Bytes, sent: Bytes)
    requires H.Respond(fs, b).Some? && H.Missing(fs, H.RequestOf(b))
    requires var r := H.Respond(fs, b).value; sent == r.content[..r.size]
    ensures var text := H.ResponseTo(fs, H.RequestOf(b));
            && H.Trailed(text, H.Parsed(b), 38, sent)
            && (|H.LineOf(b)| <= |text| ==> H.Trailed(text, b, 38, sent))
  {
    var r := H.Respond(fs, b).value;
    H.ErrorLengths();
    TextTrails(b, H.ResponseTo(fs, H.RequestOf(b)), r.content, r.size, sent);
  }

  lemma ResponseDelivered(fs: F.FileSystem, b: Bytes, sent: Bytes)
    requires H.Respond(fs, b).Some? && (var r := H.Respond(fs, b).value; sent == r.content[..r.size])
    ensures Delivered(fs, b, sent)
  {
    var r := H.RequestOf(b);
    H.StatusSent(fs, b, if r.Get? then H.FinalPath(r.path) else "", sent);
    if H.Missing(fs, r) {
      MissingDelivered(fs, b, sent);
    } else {
      H.SentText(fs, b);
      if r.Get? { H.TextParses(H.FinalPath(r.path), fs[H.FinalPath(r.path)].content); }
    }
  }

  /** The body that a connection sends is what `handle_request` built for the request it logged. */
  lemma AnsweredIsDelivered(cfg: W.Config, fs: F.FileSystem, log: seq<W.Event>, bid: nat, body: Bytes)
    requires W.ServesFiles(cfg, fs) && S.Answered(cfg, log, bid, body)
    ensures H.Respond(fs, log[1].content).Some? && Delivered(fs, log[1].content, body)
  {
    assert cfg.respond(log[1].content) == H.Respond(fs, log[1].content);
    ResponseDelivered(fs, log[1].content, body);
  }

  /** In every run, a client whose write has completed without loss has been sent the response to its request. */
  lemma ClientGetsFile(cfg: W.Config, fs: F.FileSystem, n: nat, states: seq<S.System>, steps: seq<P.Step>,
                       junk: seq<W.Promise>, i: nat)
    requires S.Trace(cfg, n, states, steps, junk) && i < |steps| && steps[i].HandleNext? && W.ServesFiles(cfg, fs)
    requires forall j :: 0 <= j < |steps| ==> ReadsAnswerable(fs, states[j], steps[j])
    requires states[i].k.cq[0].data.kind.WRITE? && states[i].k.Lost(states[i].k.cq[0].data.fd) == 0
    ensures var v, k, fd := states[i].v, states[i].k, states[i].k.cq[0].data.fd;
            && fd in v.connections && v.IsSuspended(v.connections[fd])
            && var log := v.frames[v.connections[fd]].log;
               && |log| == 3 && log[1].Received? && H.Respond(fs, log[1].content).Some?
               && Delivered(fs, log[1].content, k.Sent(fd))
  {
    AnswerableRun(cfg, fs, n, states, steps, junk);
    T.OwnRequestOwnResponse(cfg, n, states, steps, junk, i);
    var v, k, c := states[i].v, states[i].k, states[i].k.cq[0];
    AnsweredIsDelivered(cfg, fs, v.frames[v.connections[c.data.fd]].log, c.data.bid, k.Due(c.data.fd));
  }
}
