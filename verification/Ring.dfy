/** The shared rings of `demo/uring_cat.c`: 32-bit head and tail counters that wrap around, and entries addressed by
    masking a counter. Each ring is proved to be a queue. */
module Ring {

  const WRAP: nat := 0x1_0000_0000

  function Pow2(k: nat): (p: nat)
    ensures p > 0
  {
    if k == 0 then 1 else 2 * Pow2(k - 1)
  }

  /** Bitwise and of two unsigned numbers. */
  function BitAnd(x: nat, y: nat): nat
    decreases x + y
  {
    if x == 0 || y == 0 then 0 else (x % 2) * (y % 2) + 2 * BitAnd(x / 2, y / 2)
  }

  /** A counter after `n` increments of an `unsigned`. */
  function Advance(counter: nat, n: nat): (r: nat)
    ensures r < WRAP
  {
    (counter + n) % WRAP
  }

  /** How far `tail` is ahead of `head`: their `unsigned` difference. */
  function Distance(head: nat, tail: nat): (n: nat)
    requires head < WRAP && tail < WRAP
    ensures n < WRAP && Advance(head, n) == tail
  {
    (tail + WRAP - head) % WRAP
  }

  lemma {:induction false} MaskIsRemainder(x: nat, k: nat)
    ensures BitAnd(x, Pow2(k) - 1) == x % Pow2(k)
  {
    if k == 0 {
    } else if x == 0 {
    } else {
      var m := Pow2(k - 1);
      MaskIsRemainder(x / 2, k - 1);
      HalvedMask(x, m);
      HalvedRemainder(x, m);
    }
  }

  lemma HalvedMask(x: nat, m: nat)
    requires m > 0 && x > 0
    ensures BitAnd(x, 2 * m - 1) == x % 2 + 2 * BitAnd(x / 2, m - 1)
  {
    assert (2 * m - 1) % 2 == 1 && (2 * m - 1) / 2 == m - 1;
  }

  lemma HalvedRemainder(x: nat, m: nat)
    requires m > 0
    ensures x % (2 * m) == x % 2 + 2 * ((x / 2) % m)
  {
    var q, r := x / 2 / m, (x / 2) % m;
    assert x / 2 == q * m + r;
    assert x == (2 * m) * q + (x % 2 + 2 * r) by {
      assert 2 * (q * m) == (2 * m) * q;
    }
    RemainderUnique(2 * m, q, x % 2 + 2 * r);
  }

  lemma RemainderUnique(d: nat, q: nat, r: nat)
    requires r < d
    ensures (d * q + r) % d == r
  {
    var x := d * q + r;
    var q', r' := x / d, x % d;
    assert x == d * q' + r';
    if q < q' {
      ProductGrows(d, q, q');
    } else if q' < q {
      ProductGrows(d, q', q);
    }
  }

  lemma {:induction false} ProductGrows(d: nat, a: nat, b: nat)
    requires a < b
    ensures d * b >= d * a + d
  {
    assert d * b == d * (b - 1) + d;
    if a < b - 1 { ProductGrows(d, a, b - 1); }
  }

  lemma {:induction false} Pow2Add(a: nat, b: nat)
    ensures Pow2(a + b) == Pow2(a) * Pow2(b)
  {
    if a > 0 {
      Pow2Add(a - 1, b);
      assert Pow2(a) * Pow2(b) == 2 * (Pow2(a - 1) * Pow2(b));
    }
  }

  lemma Pow2Of32()
    ensures Pow2(32) == WRAP
  {
    assert Pow2(8) == 256;
    Pow2Add(8, 8);
    Pow2Add(16, 16);
  }

  lemma NestedRemainder(x: nat, p: nat, c: nat)
    requires p > 0 && c > 0 && p * c > 0
    ensures (x % (p * c)) % p == x % p
  {
    var q, r := x / (p * c), x % (p * c);
    var q', r' := r / p, r % p;
    Quotients(x, p * c);
    Quotients(r, p);
    Regroup(p, c, q, q');
    RemainderUnique(p, c * q + q', r');
  }

  lemma Quotients(x: nat, d: nat)
    requires d > 0
    ensures x == d * (x / d) + x % d
  {
  }

  lemma Regroup(p: nat, c: nat, q: nat, q': nat)
    ensures (p * c) * q + p * q' == p * (c * q + q')
  {
    assert (p * c) * q == p * (c * q);
  }

  /** The counters wrap at a multiple of the ring size, so wrapping does not disturb the slots. */
  lemma WrapKeepsSlot(x: nat, k: nat)
    requires k <= 32
    ensures (x % WRAP) % Pow2(k) == x % Pow2(k)
  {
    Pow2Add(k, 32 - k);
    Pow2Of32();
    NestedRemainder(x, Pow2(k), Pow2(32 - k));
  }

  // ----- Windows of a ring -----

  /** The position of a counter in a ring of `Pow2(log)` entries: `counter & mask`. */
  function Slot(counter: nat, log: nat): (i: nat)
    ensures i == counter % Pow2(log)
  {
    MaskIsRemainder(counter, log);
    BitAnd(counter, Pow2(log) - 1)
  }

  /** The `n` entries from counter `from` on. */
  function Window<T>(buf: seq<T>, from: nat, n: nat, log: nat): (w: seq<T>)
    requires |buf| == Pow2(log)
    ensures |w| == n
  {
    seq(n, i requires 0 <= i < n => buf[Slot(Advance(from, i), log)])
  }

  lemma StepAside(x: nat, d: nat, p: nat)
    requires 0 < d < p
    ensures x % p != (x + d) % p
  {
    var q, r := x / p, x % p;
    Quotients(x, p);
    if r + d < p {
      assert x + d == p * q + (r + d);
      RemainderUnique(p, q, r + d);
    } else {
      assert p * (q + 1) == p * q + p;
      assert x + d == p * (q + 1) + (r + d - p);
      RemainderUnique(p, q + 1, r + d - p);
    }
  }

  /** As many consecutive counters as the ring has entries use different slots, also where the counters wrap. */
  lemma SlotsDiffer(from: nat, i: nat, j: nat, log: nat)
    requires i < j < i + Pow2(log) && log <= 32
    ensures Slot(Advance(from, i), log) != Slot(Advance(from, j), log)
  {
    WrapKeepsSlot(from + i, log);
    WrapKeepsSlot(from + j, log);
    StepAside(from + i, j - i, Pow2(log));
  }

  /** An entry written behind a window that does not fill the ring disturbs nothing in the window. */
  lemma WindowGrows<T>(buf: seq<T>, from: nat, n: nat, log: nat, e: T)
    requires |buf| == Pow2(log) && n < Pow2(log) && log <= 32
    ensures Window(buf[Slot(Advance(from, n), log) := e], from, n + 1, log) == Window(buf, from, n, log) + [e]
  {
    forall i | 0 <= i < n ensures Slot(Advance(from, i), log) != Slot(Advance(from, n), log) {
      SlotsDiffer(from, i, n, log);
    }
  }

  lemma AdvanceTwice(from: nat, a: nat, b: nat)
    ensures Advance(Advance(from, a), b) == Advance(from, a + b)
  {
  }

  lemma DistanceOfAdvance(from: nat, n: nat)
    requires from < WRAP && n < WRAP
    ensures Distance(from, Advance(from, n)) == n
  {
  }

  /** A masked counter finds the entry of the window it stands for. */
  lemma WindowEntry<T>(buf: seq<T>, from: nat, n: nat, i: nat, log: nat)
    requires |buf| == Pow2(log) && i < n
    ensures BitAnd(Advance(from, i), Pow2(log) - 1) < |buf|
    ensures buf[BitAnd(Advance(from, i), Pow2(log) - 1)] == Window(buf, from, n, log)[i]
  {
    MaskIsRemainder(Advance(from, i), log);
  }

  lemma PrefixGrows<T>(part: seq<T>, s: seq<T>)
    requires part <= s && |part| < |s|
    ensures part + [s[|part|]] <= s
  {
  }

  lemma LongerThan<T>(a: seq<T>, b: seq<T>, all: seq<T>, n: nat)
    requires a + b == all && n < |a|
    ensures n < |all|
  {
    assert |a + b| == |all|;
  }

  /** A counter that runs from the head to the tail meets the tail at its distance, and not before. */
  lemma CaughtUpIff(head: nat, tail: nat, n: nat)
    requires head < WRAP && tail < WRAP && n <= Distance(head, tail)
    ensures Advance(head, n) == tail <==> n == Distance(head, tail)
  {
    DistanceOfAdvance(head, n);
  }

  /** The completion ring: the kernel publishes at the tail, the program reaps at the head. */
  class CompletionRing<T> {
    const log: nat
    const cqes: array<T>
    var head: nat
    var tail: nat

    ghost predicate Valid()
      reads this
    {
      && log < 32 && cqes.Length == Pow2(log)
      && head < WRAP && tail < WRAP && Distance(head, tail) <= Pow2(log)
    }

    ghost function Published(): seq<T>
      requires Valid()
      reads this, cqes
    {
      Window(cqes[..], head, Distance(head, tail), log)
    }

    constructor (log: nat, start: nat, cqes: array<T>)
      requires log < 32 && cqes.Length == Pow2(log) && start < WRAP
      ensures Valid() && Published() == [] && this.cqes == cqes && this.log == log
    {
      this.log, this.cqes, head, tail := log, cqes, start, start;
    }

    /** The kernel posts one completion. */
    method Publish(e: T)
      requires Valid() && |Published()| < Pow2(log)
      modifies this`tail, cqes
      ensures Valid() && Published() == old(Published()) + [e]
    {
      ghost var n, buf := Distance(head, tail), cqes[..];
      Pow2Bound(log);
      WindowGrows(buf, head, n, log, e);
      AdvanceTwice(head, n, 1);
      DistanceOfAdvance(head, n + 1);
      cqes[BitAnd(tail, Pow2(log) - 1)] := e;
      tail := (tail + 1) % WRAP;
    }

    /** The kernel posts up to `n` of the completions in `pending`, as far as there is room. */
    method PublishSome(pending: seq<T>, n: nat) returns (rest: seq<T>)
      requires Valid()
      modifies this`tail, cqes
      ensures Valid() && |rest| <= |pending|
      ensures Published() + rest == old(Published()) + pending
      ensures old(Published()) <= Published()
    {
      rest := pending;
      var left := n;
      while left > 0 && rest != [] && (tail + WRAP - head) % WRAP < Pow2(log)
        invariant Valid() && |rest| <= |pending|
        invariant Published() + rest == old(Published()) + pending
        invariant old(Published()) <= Published()
        decreases left
      {
        assert Published() + rest == Published() + [rest[0]] + rest[1..];
        Publish(rest[0]);
        rest, left := rest[1..], left - 1;
      }
    }

    /** `&cring->cqes[head & *ring_mask]` */
    method EntryAt(counter: nat, ghost i: nat) returns (e: T)
      requires Valid() && i < |Published()| && counter == Advance(head, i)
      ensures e == Published()[i]
    {
      WindowEntry(cqes[..], head, Distance(head, tail), i, log);
      e := cqes[BitAnd(counter, Pow2(log) - 1)];
    }

    /** `read_from_cq`. Before each look at the tail the kernel may publish more of `backlog`, `polls` says how much.
        The head is stored once, after the loop: until then every published entry keeps its place. */
    method ReadFromCq(backlog: seq<T>, polls: seq<nat>) returns (reaped: seq<T>, rest: seq<T>)
      requires Valid()
      modifies this, cqes
      ensures Valid() && Published() == []
      ensures reaped + rest == old(Published()) + backlog
      ensures |rest| <= |backlog|
    {
      var localHead, poll := head, 0;
      reaped, rest := [], backlog;
      ghost var published := Published();
      ghost var all := published + backlog;
      while true
        invariant Valid() && head == old(head) && |rest| <= |backlog|
        invariant published == Published() && reaped <= published && published + rest == all
        invariant localHead == Advance(head, |reaped|)
        decreases |all| - |reaped|
      {
        if poll < |polls| {
          rest := PublishSome(rest, polls[poll]);
          published := Published();
          poll := poll + 1;
        }
        CaughtUpIff(head, tail, |reaped|);
        if localHead == tail {
          break;
        }
        var e := EntryAt(localHead, |reaped|);
        localHead := Increment(localHead, |reaped|);
        PrefixGrows(reaped, published);
        LongerThan(published, rest, all, |reaped|);
        reaped := reaped + [e];
      }
      assert reaped == published;
      head := localHead;
    }

    /** `head++` on an `unsigned`. */
    method Increment(counter: nat, ghost n: nat) returns (r: nat)
      requires counter == Advance(head, n)
      ensures r == Advance(head, n + 1)
    {
      AdvanceTwice(head, n, 1);
      r := (counter + 1) % WRAP;
    }
  }

  /** The index array of the submission ring maps every queued position to itself. */
  ghost predicate Straight(index: seq<nat>, from: nat, n: nat, log: nat)
    requires |index| == Pow2(log)
  {
    forall i :: 0 <= i < n ==> index[Slot(Advance(from, i), log)] == Slot(Advance(from, i), log)
  }

  lemma StraightGrows(index: seq<nat>, from: nat, n: nat, log: nat)
    requires |index| == Pow2(log) && n < Pow2(log) && log <= 32 && Straight(index, from, n, log)
    ensures var slot := Slot(Advance(from, n), log); Straight(index[slot := slot], from, n + 1, log)
  {
    forall i | 0 <= i < n ensures Slot(Advance(from, i), log) != Slot(Advance(from, n), log) {
      SlotsDiffer(from, i, n, log);
    }
  }

  lemma WindowShrinks<T>(buf: seq<T>, index: seq<nat>, from: nat, n: nat, log: nat)
    requires |buf| == |index| == Pow2(log) && n > 0 && Straight(index, from, n, log)
    ensures Window(buf, from, n, log)[1..] == Window(buf, Advance(from, 1), n - 1, log)
    ensures Straight(index, Advance(from, 1), n - 1, log)
  {
    forall i | 0 <= i < n - 1 ensures Advance(Advance(from, 1), i) == Advance(from, 1 + i) {
      AdvanceTwice(from, 1, i);
    }
  }

  /** The submission ring: the program queues at the tail through an index array, the kernel takes from the head. */
  class SubmissionRing<T> {
    const log: nat
    const sqes: array<T>
    const index: array<nat>
    var head: nat
    var tail: nat

    ghost predicate Valid()
      reads this, index
    {
      && log < 32 && sqes.Length == index.Length == Pow2(log) && sqes as object != index
      && head < WRAP && tail < WRAP && Distance(head, tail) <= Pow2(log)
      && Straight(index[..], head, Distance(head, tail), log)
    }

    ghost function Queued(): seq<T>
      requires Valid()
      reads this, sqes, index
    {
      Window(sqes[..], head, Distance(head, tail), log)
    }

    constructor (log: nat, start: nat, sqes: array<T>, index: array<nat>)
      requires log < 32 && sqes.Length == index.Length == Pow2(log) && start < WRAP && sqes as object != index
      ensures Valid() && Queued() == []
      ensures this.sqes == sqes && this.index == index && this.log == log
    {
      this.log, this.sqes, this.index, head, tail := log, sqes, index, start, start;
    }

    /** The tail of `submit_to_sq`: it writes at `tail & mask` without looking whether that entry is still queued. */
    method Push(e: T)
      requires Valid() && |Queued()| < Pow2(log)
      modifies this`tail, sqes, index
      ensures Valid() && Queued() == old(Queued()) + [e] && head == old(head)
    {
      ghost var n := Distance(head, tail);
      Pow2Bound(log);
      WindowGrows(sqes[..], head, n, log, e);
      StraightGrows(index[..], head, n, log);
      AdvanceTwice(head, n, 1);
      DistanceOfAdvance(head, n + 1);
      MaskIsRemainder(tail, log);
      var nextTail := (tail + 1) % WRAP;
      var slot := BitAnd(tail, Pow2(log) - 1);
      sqes[slot] := e;
      index[slot] := slot;
      tail := nextTail;
      assert sqes[..] == old(sqes[..])[slot := e] && index[..] == old(index[..])[slot := slot];
    }

    /** The kernel consumes the oldest entry. */
    method Take() returns (e: T)
      requires Valid() && Queued() != []
      modifies this`head
      ensures Valid() && [e] + Queued() == old(Queued()) && tail == old(tail)
    {
      ghost var n := Distance(head, tail);
      Pow2Bound(log);
      AdvanceTwice(head, 1, n - 1);
      DistanceOfAdvance(Advance(head, 1), n - 1);
      WindowShrinks(sqes[..], index[..], head, n, log);
      MaskIsRemainder(head, log);
      assert Advance(head, 0) == head;
      e := sqes[index[BitAnd(head, Pow2(log) - 1)]];
      head := (head + 1) % WRAP;
    }
  }

  lemma AddPeriod(x: nat, p: nat)
    requires p > 0
    ensures (x + p) % p == x % p
  {
    Quotients(x, p);
    RemainderUnique(p, x / p + 1, x % p);
  }

  /** In a full ring the entry a push would write to is the oldest one still queued. */
  lemma FullRingClobbers(head: nat, log: nat)
    requires log <= 32 && head < WRAP
    ensures Slot(Advance(head, Pow2(log)), log) == Slot(head, log)
  {
    WrapKeepsSlot(head + Pow2(log), log);
    AddPeriod(head, Pow2(log));
  }

  lemma {:induction false} Pow2Bound(log: nat)
    requires log < 32
    ensures Pow2(log) < WRAP
    decreases 32 - log
  {
    if log < 31 { Pow2Bound(log + 1); } else { Pow2Of32(); }
  }
}
