/**
 Sequence numbers for life: the block reservation of `sequence.py` over the two durable
 stores of `device.py`, and the nonces its numbers go into.
 */
module Sequence {
  import opened Prelude
  import Nonces

  const MAX_SEQUENCE := 0xFFFFFF
  const SEQUENCE_SPACE := MAX_SEQUENCE + 1
  /** The block size the device passes, and what the oldest store format has to skip. */
  const SEQUENCE_CHECKPOINT := 512

  // ----- Durable stores -----

  /** One store's JSON object; either key may be missing in files of other versions. */
  datatype Stored = Stored(reservedUntil: Option<nat>, sequence: Option<nat>)

  /** The stable store, and the rollback-compatible one when its file is a different one. */
  datatype Disk = Disk(stable: Option<Stored>, compatibility: Option<Stored>, dual: bool)

  /** `_sequence_high_water` */
  function HighWater(stored: Option<Stored>): Option<nat>
  {
    if stored.None? then None
    else if stored.value.reservedUntil.Some? then stored.value.reservedUntil
    else if stored.value.sequence.Some? then Some(stored.value.sequence.value + SEQUENCE_CHECKPOINT)
    else None
  }

  function MaxOption(a: Option<nat>, b: Option<nat>): Option<nat>
  {
    if a.None? then b else if b.None? then a else Some(Max(a.value, b.value))
  }

  /** The merged high-water mark of `_async_load_sequence_stores`. */
  function Loaded(disk: Disk): Option<nat>
  {
    MaxOption(HighWater(disk.stable), if disk.dual then HighWater(disk.compatibility) else None)
  }

  /** What `_async_load_sequence_stores` hands to `create`. */
  function LoadedStore(disk: Disk): Stored
  {
    Stored(Loaded(disk), Loaded(disk))
  }

  /** How many numbers one reservation sets aside. */
  type Block = b: nat | b >= 1 witness 1

  function RoundUp(n: nat, block: Block): nat
  {
    (n + block - 1) / block * block
  }

  /** The next sequence `SequenceReservation.create` starts from. */
  function Created(stored: Stored, minimum: nat, block: Block): nat
  {
    if stored.reservedUntil.Some? then Max(stored.reservedUntil.value, minimum)
    else if stored.sequence.Some? then Max(stored.sequence.value + block, minimum)
    else RoundUp(Max(minimum, block), block)
  }

  /**
   How one verified save can go: written and read back, raising with the old content still
   there, or raising after the new content reached the disk. Files are replaced atomically.
   */
  datatype Fate = Saved | RaisedBefore | RaisedAfter

  function AfterFate(before: Option<Stored>, data: Stored, fate: Fate): Option<Stored>
  {
    if fate.RaisedBefore? then before else Some(data)
  }

  /** `_async_save_sequence_stores`: stable first, and the other only once that one is verified. */
  function Save(disk: Disk, data: Stored, stable: Fate, compatibility: Fate): (Disk, bool)
  {
    var d := disk.(stable := AfterFate(disk.stable, data, stable));
    if !stable.Saved? then (d, false)
    else if !disk.dual then (d, true)
    else (d.(compatibility := AfterFate(disk.compatibility, data, compatibility)), compatibility.Saved?)
  }

  // ----- One process -----

  /** The running component: its reservation, and the number its proxy will hand out next. */
  datatype Process = Process(reservedUntil: nat, next: nat)

  /** `block` is the block size its reservations are created with. */
  datatype State = State(disk: Disk, process: Option<Process>, block: Block)

  /** `ensure_reserved`: the disk and reservation after it, and whether it returned. */
  function EnsureReserved(disk: Disk, reservedUntil: nat, block: nat, sequence: int, stable: Fate, compatibility: Fate)
    : (Disk, nat, bool)
  {
    if sequence < 0 || sequence > MAX_SEQUENCE then (disk, reservedUntil, false)
    else if sequence < reservedUntil then (disk, reservedUntil, true)
    else
      var until: nat := Min(sequence + block, SEQUENCE_SPACE);
      var (d, ok) := Save(disk, Stored(Some(until), Some(until)), stable, compatibility);
      (d, if ok then until else reservedUntil, ok)
  }

  /**
   What can happen: a boot, whose entry may name another compatibility store than the last one
   did; an allocation by the live proxy session; a crash, unload or failed setup. A BLE
   reconnect changes nothing: the next session starts at the number the last one reported.
   */
  datatype Event =
    | Boot(minimum: nat, compatibility: Option<Stored>, dual: bool)
    | Allocate(stable: Fate, compatibilityFate: Fate)
    | Stop

  function Step(s: State, e: Event): (State, Option<nat>)
  {
    match e
    case Boot(minimum, compatibility, dual) =>
      var disk := Disk(s.disk.stable, compatibility, dual);
      var next := Created(LoadedStore(disk), minimum, s.block);
      (s.(disk := disk, process := Some(Process(next, next))), None)
    case Stop => (s.(process := None), None)
    case Allocate(stable, compatibility) =>
      if s.process.None? then (s, None)
      else
        var p := s.process.value;
        var (disk, until, ok) := EnsureReserved(s.disk, p.reservedUntil, s.block, p.next, stable, compatibility);
        if ok then (s.(disk := disk, process := Some(Process(until, p.next + 1))), Some(p.next))
        else (s.(disk := disk, process := Some(p.(reservedUntil := until))), None)
  }

  function After(s: State, events: seq<Event>): State
  {
    if |events| == 0 then s else Step(After(s, events[..|events| - 1]), events[|events| - 1]).0
  }

  /** Every number handed out by a run, in order. */
  function HandedOut(s: State, events: seq<Event>): seq<nat>
  {
    if |events| == 0 then []
    else
      var before := events[..|events| - 1];
      var n := Step(After(s, before), events[|events| - 1]).1;
      HandedOut(s, before) + (if n.Some? then [n.value] else [])
  }

  // ----- Never twice -----

  /** What the stable store alone vouches for. */
  function Floor(stable: Option<Stored>): nat
  {
    var high := HighWater(stable);
    if high.Some? then high.value else 0
  }

  /** Every number ever handed out is below `used`, and the stable store knows it. */
  ghost predicate Inv(s: State, used: nat)
  {
    && used <= Floor(s.disk.stable)
    && (s.process.Some? ==>
          var p := s.process.value;
          used <= p.next && (p.next < p.reservedUntil ==> p.reservedUntil <= Floor(s.disk.stable)))
  }

  lemma RoundUpBlock(n: nat, block: Block)
    ensures var r := RoundUp(n, block);
            n <= r < n + block && r % block == 0
  {
    var x := n + block - 1;
    assert x == x / block * block + x % block;
    MultipleOf(x / block, block);
  }

  lemma {:induction false} MultipleOf(q: nat, block: Block)
    ensures (q * block) % block == 0
  {
    if q > 0 {
      MultipleOf(q - 1, block);
      assert q * block == (q - 1) * block + block;
      AddBlock((q - 1) * block, block);
    }
  }

  lemma AddBlock(n: nat, block: Block)
    ensures (n + block) % block == n % block
  {
    var q, r := n / block, n % block;
    assert n + block == (q + 1) * block + r;
    Remainder(n + block, block, q + 1, r);
  }

  /** Quotient and remainder are unique. */
  lemma Remainder(n: nat, block: Block, q: nat, r: nat)
    requires n == q * block + r && r < block
    ensures n / block == q && n % block == r
  {
    var q', r' := n / block, n % block;
    assert n == q' * block + r' && r' < block;
    if q < q' {
      MoreBlocks(q + 1, q', block);
    } else if q' < q {
      MoreBlocks(q' + 1, q, block);
    }
  }

  lemma MoreBlocks(a: nat, b: nat, block: Block)
    requires a <= b
    ensures a * block <= b * block
  {
  }

  /** With no store of any version, the first block is set aside for post-provision configuration. */
  lemma FirstBoot(disk: Disk, minimum: nat, block: Block)
    requires Loaded(disk).None?
    ensures var next := Created(LoadedStore(disk), minimum, block);
            next >= block && next >= minimum && next % block == 0 && next < Max(minimum, block) + block
  {
    RoundUpBlock(Max(minimum, block), block);
  }

  lemma StepKeeps(s: State, e: Event, used: nat)
    requires Inv(s, used)
    ensures var (s', n) := Step(s, e);
            if n.Some? then used <= n.value <= MAX_SEQUENCE && Inv(s', n.value + 1) else Inv(s', used)
  {
    if e.Boot? {
      var disk := Disk(s.disk.stable, e.compatibility, e.dual);
      if Loaded(disk).None? {
        assert HighWater(s.disk.stable).None?;
      }
    }
  }

  ghost predicate Increasing(ns: seq<nat>, from: nat)
  {
    && (forall i :: 0 <= i < |ns| ==> from <= ns[i] <= MAX_SEQUENCE)
    && forall i, j :: 0 <= i < j < |ns| ==> ns[i] < ns[j]
  }

  lemma {:induction false} RunKeeps(s: State, events: seq<Event>, used: nat) returns (last: nat)
    requires Inv(s, used)
    ensures used <= last && Inv(After(s, events), last)
    ensures Increasing(HandedOut(s, events), used) && forall n :: n in HandedOut(s, events) ==> n < last
  {
    if |events| == 0 {
      last := used;
    } else {
      hide Step, Inv;
      var before := events[..|events| - 1];
      var middle := RunKeeps(s, before, used);
      StepKeeps(After(s, before), events[|events| - 1], middle);
      var n := Step(After(s, before), events[|events| - 1]).1;
      last := if n.Some? then n.value + 1 else middle;
      var handed := HandedOut(s, before);
      forall i | 0 <= i < |handed| && n.Some? ensures handed[i] < n.value {
        assert handed[i] in handed;
      }
    }
  }

  /**
   Over any run of boots, re-created entries, allocations, failed and half-done saves and
   crashes, the numbers handed out strictly increase from whatever was used before and never
   leave the 24-bit space.
   */
  lemma NeverReused(s: State, events: seq<Event>, used: nat)
    requires Inv(s, used)
    ensures Increasing(HandedOut(s, events), used)
  {
    var last := RunKeeps(s, events, used);
  }

  // ----- Nonces -----

  /** What one number is spent on. Retransmitted segments and acknowledgments each take a new one. */
  datatype Use =
    | Access(deviceKey: bool, ttl: nat, dst: nat)
    | Segment(ttl: nat)
    | SegmentAck
    | ProxyConfig

  ghost predicate ValidUse(u: Use)
  {
    (u.Access? ==> u.ttl < 128 && u.dst < 0x10000) && (u.Segment? ==> u.ttl < 128)
  }

  /** The nonces under which that use encrypts: the access payload's, then the network PDU's. */
  function NoncesOf(u: Use, n: nat, src: nat, ivIndex: nat): seq<Nonces.Nonce>
  {
    match u
    case Access(deviceKey, ttl, dst) =>
      [if deviceKey then Nonces.Device(0, n, src, dst, ivIndex) else Nonces.Application(0, n, src, dst, ivIndex),
       Nonces.Network(0, ttl, n, src, ivIndex)]
    case Segment(ttl) => [Nonces.Network(0, ttl, n, src, ivIndex)]
    case SegmentAck => [Nonces.Network(1, 0, n, src, ivIndex)]
    case ProxyConfig => [Nonces.Proxy(n, src, ivIndex)]
  }

  /** The nonce bytes of a whole life, number by number. */
  function Encryptions(ns: seq<nat>, uses: seq<Use>, src: nat, ivIndex: nat): seq<Bytes>
    requires |ns| == |uses|
  {
    if |ns| == 0 then []
    else
      var k := |ns| - 1;
      Encryptions(ns[..k], uses[..k], src, ivIndex) + Layouts(NoncesOf(uses[k], ns[k], src, ivIndex))
  }

  function Layouts(nonces: seq<Nonces.Nonce>): (r: seq<Bytes>)
    ensures |r| == |nonces|
  {
    seq(|nonces|, i requires 0 <= i < |nonces| => Nonces.Layout(nonces[i]))
  }

  ghost predicate Distinct(bs: seq<Bytes>)
  {
    forall i, j :: 0 <= i < j < |bs| ==> bs[i] != bs[j]
  }

  /** Every nonce so far was made from a number below `bound`. */
  ghost predicate MadeBelow(bs: seq<Bytes>, bound: nat)
  {
    forall b :: b in bs ==> exists m :: Nonces.InRange(m) && m.seq_ < bound && b == Nonces.Layout(m)
  }

  lemma UseDistinct(u: Use, n: nat, src: nat, ivIndex: nat)
    requires ValidUse(u) && n <= MAX_SEQUENCE && src < 0x10000 && ivIndex < 0x1_0000_0000
    ensures var bs := Layouts(NoncesOf(u, n, src, ivIndex));
            Distinct(bs) && MadeBelow(bs, n + 1)
    ensures forall m :: m in NoncesOf(u, n, src, ivIndex) ==> Nonces.InRange(m) && m.seq_ == n
  {
    hide Nonces.Layout;
    var nonces := NoncesOf(u, n, src, ivIndex);
    if |nonces| == 2 {
      Nonces.LayoutInjective(nonces[0], nonces[1]);
    }
    forall b | b in Layouts(nonces)
      ensures exists m :: Nonces.InRange(m) && m.seq_ < n + 1 && b == Nonces.Layout(m)
    {
      var i :| 0 <= i < |nonces| && b == Layouts(nonces)[i];
      assert nonces[i] in nonces;
      assert Nonces.InRange(nonces[i]);
    }
  }

  lemma FreshNonces(bs: seq<Bytes>, bound: nat, nonces: seq<Nonces.Nonce>)
    requires MadeBelow(bs, bound) && Distinct(bs) && Distinct(Layouts(nonces))
    requires forall m :: m in nonces ==> Nonces.InRange(m) && m.seq_ >= bound
    ensures Distinct(bs + Layouts(nonces))
  {
    hide Nonces.Layout, Nonces.InRange;
    var more := Layouts(nonces);
    forall i, j | 0 <= i < |bs| && 0 <= j < |more| ensures bs[i] != more[j] {
      assert bs[i] in bs;
      var m :| Nonces.InRange(m) && m.seq_ < bound && bs[i] == Nonces.Layout(m);
      assert nonces[j] in nonces;
      Nonces.LayoutInjective(m, nonces[j]);
    }
  }

  lemma MadeMore(bs: seq<Bytes>, more: seq<Bytes>, bound: nat, to: nat)
    requires MadeBelow(bs, bound) && MadeBelow(more, to) && bound <= to
    ensures MadeBelow(bs + more, to)
  {
    hide Nonces.Layout, Nonces.InRange;
    forall b | b in bs + more ensures exists m :: Nonces.InRange(m) && m.seq_ < to && b == Nonces.Layout(m) {
      if b in bs {
        var m :| Nonces.InRange(m) && m.seq_ < bound && b == Nonces.Layout(m);
      }
    }
  }

  lemma {:induction false} IncreasingNonces(ns: seq<nat>, uses: seq<Use>, src: nat, ivIndex: nat, from: nat)
    requires Increasing(ns, from) && |ns| == |uses| && forall i :: 0 <= i < |uses| ==> ValidUse(uses[i])
    requires src < 0x10000 && ivIndex < 0x1_0000_0000
    ensures Distinct(Encryptions(ns, uses, src, ivIndex))
    ensures MadeBelow(Encryptions(ns, uses, src, ivIndex), if |ns| == 0 then 0 else ns[|ns| - 1] + 1)
  {
    if |ns| > 0 {
      hide Distinct, MadeBelow, NoncesOf, Layouts;
      var k := |ns| - 1;
      IncreasingNonces(ns[..k], uses[..k], src, ivIndex, from);
      var bs := Encryptions(ns[..k], uses[..k], src, ivIndex);
      var nonces := NoncesOf(uses[k], ns[k], src, ivIndex);
      var bound := if k == 0 then 0 else ns[k - 1] + 1;
      UseDistinct(uses[k], ns[k], src, ivIndex);
      FreshNonces(bs, bound, nonces);
      MadeMore(bs, Layouts(nonces), bound, ns[k] + 1);
    } else {
      assert Distinct(Encryptions(ns, uses, src, ivIndex));
    }
  }

  /** Whatever its numbers are spent on, no life of the component encrypts twice under one nonce. */
  lemma NonceUnique(s: State, events: seq<Event>, used: nat, uses: seq<Use>, src: nat, ivIndex: nat)
    requires Inv(s, used) && |uses| == |HandedOut(s, events)|
    requires forall i :: 0 <= i < |uses| ==> ValidUse(uses[i])
    requires src < 0x10000 && ivIndex < 0x1_0000_0000
    ensures Distinct(Encryptions(HandedOut(s, events), uses, src, ivIndex))
  {
    NeverReused(s, events, used);
    IncreasingNonces(HandedOut(s, events), uses, src, ivIndex, used);
  }

  // ----- What it costs -----

  ghost predicate Allocating(events: seq<Event>)
  {
    forall i :: 0 <= i < |events| ==> events[i].Allocate?
  }

  /** The verified saves of a run: the allocations that had to raise the reservation, and did. */
  function Saves(s: State, events: seq<Event>): nat
  {
    if |events| == 0 then 0
    else
      var before := After(s, events[..|events| - 1]);
      var (after, n) := Step(before, events[|events| - 1]);
      Saves(s, events[..|events| - 1])
      + (if n.Some? && before.process.Some? && before.process.value.reservedUntil <= n.value then 1 else 0)
  }

  /** ceil(n / block) */
  function Blocks(n: nat, block: Block): nat
  {
    (n + block - 1) / block
  }

  /** One more number takes one more block exactly when the blocks so far are used up. */
  lemma NextBlock(n: nat, block: Block)
    ensures n <= Blocks(n, block) * block
    ensures Blocks(n + 1, block) == if n == Blocks(n, block) * block then Blocks(n, block) + 1 else Blocks(n, block)
    ensures n > 0 ==> Blocks(n, block) > 0
  {
    var q, r := (n + block - 1) / block, (n + block - 1) % block;
    assert n + block - 1 == q * block + r;
    if r == block - 1 {
      assert n + block == (q + 1) * block + 0;
      Remainder(n + block, block, q + 1, 0);
    } else {
      Remainder(n + block, block, q, r + 1);
    }
  }

  /** Since its boot at `start`, the process has handed out `n` numbers for `saves` blocks. */
  ghost predicate Paid(p: Process, block: Block, start: nat, n: nat, saves: nat)
  {
    && p.next == start + n && saves == Blocks(n, block) && (n > 0 ==> p.next <= SEQUENCE_SPACE)
    && p.reservedUntil == if saves == 0 then start else Min(start + saves * block, SEQUENCE_SPACE)
  }

  lemma PaidStep(s: State, e: Event, start: nat, n: nat, saves: nat)
    requires s.process.Some? && Paid(s.process.value, s.block, start, n, saves) && e.Allocate?
    ensures var (s', handed) := Step(s, e);
            s'.process.Some? && s'.block == s.block
            && Paid(s'.process.value, s.block, start, if handed.Some? then n + 1 else n,
                    if handed.Some? && s.process.value.reservedUntil <= handed.value then saves + 1 else saves)
  {
    hide Save, Blocks;
    NextBlock(n, s.block);
    assert (saves + 1) * s.block == saves * s.block + s.block;
  }

  lemma {:induction false} PaidRun(s: State, events: seq<Event>, start: nat)
    requires s.process == Some(Process(start, start)) && Allocating(events)
    ensures var after := After(s, events);
            after.process.Some? && after.block == s.block
            && Paid(after.process.value, s.block, start, |HandedOut(s, events)|, Saves(s, events))
  {
    if |events| == 0 {
      Remainder(s.block - 1, s.block, 0, s.block - 1);
    } else {
      hide Step, Paid;
      var before, last := events[..|events| - 1], events[|events| - 1];
      PaidRun(s, before, start);
      PaidStep(After(s, before), last, start, |HandedOut(s, before)|, Saves(s, before));
    }
  }

  /** However its saves fail in between, `n` allocations since a boot cost exactly ceil(n / block) verified saves. */
  lemma SaveCost(s: State, events: seq<Event>, start: nat)
    requires s.process == Some(Process(start, start)) && Allocating(events)
    ensures Saves(s, events) == Blocks(|HandedOut(s, events)|, s.block)
  {
    PaidRun(s, events, start);
  }

  /** The disk is as the boot found it, or at most one block ahead of the process. */
  ghost predicate Close(s: State, loaded: Option<nat>, start: nat, minimum: nat)
  {
    s.process.Some?
    && var p := s.process.value;
       var now := Loaded(s.disk);
       && start <= p.next && (p.next < p.reservedUntil ==> now.Some? && p.reservedUntil <= now.value)
       && ((p == Process(start, start) && now == loaded)
           || (now.Some? && p.next <= now.value <= p.next + s.block && minimum <= p.next))
  }

  lemma {:induction false} CloseRun(s: State, events: seq<Event>, minimum: nat)
    requires Allocating(events)
    requires var start := Created(LoadedStore(s.disk), minimum, s.block);
             s.process == Some(Process(start, start))
    ensures var start := Created(LoadedStore(s.disk), minimum, s.block);
            Close(After(s, events), Loaded(s.disk), start, minimum)
            && (Loaded(s.disk).Some? ==> Loaded(After(s, events).disk).Some?
                                         && Loaded(s.disk).value <= start)
            && minimum <= start
  {
    if |events| > 0 {
      CloseRun(s, events[..|events| - 1], minimum);
      var before := After(s, events[..|events| - 1]);
      var start := Created(LoadedStore(s.disk), minimum, s.block);
      CloseStep(before, events[|events| - 1], Loaded(s.disk), start, minimum);
    }
  }

  lemma CloseStep(s: State, e: Event, loaded: Option<nat>, start: nat, minimum: nat)
    requires Close(s, loaded, start, minimum) && e.Allocate? && minimum <= start
    requires loaded.Some? ==> loaded.value <= start
    ensures Close(Step(s, e).0, loaded, start, minimum)
    ensures Loaded(s.disk).Some? ==> Loaded(Step(s, e).0.disk).Some?
  {
  }

  /**
   Restarting from the stores a boot left, whichever saves failed or reached only one of them,
   resumes at or after the next unused number and skips at most one block.
   */
  lemma RestartSkips(s: State, minimum: nat, compatibility: Option<Stored>, dual: bool, events: seq<Event>)
    requires Allocating(events)
    ensures var booted := Step(s, Boot(minimum, compatibility, dual)).0;
            var end := After(booted, events);
            var again := Step(end, Boot(minimum, end.disk.compatibility, dual)).0;
            end.process.Some?
            && end.process.value.next <= again.process.value.next <= end.process.value.next + s.block
  {
    var booted := Step(s, Boot(minimum, compatibility, dual)).0;
    CloseRun(booted, events, minimum);
    SameDual(booted, events);
  }

  lemma {:induction false} SameDual(s: State, events: seq<Event>)
    requires Allocating(events)
    ensures After(s, events).disk.dual == s.disk.dual && After(s, events).block == s.block
  {
    if |events| > 0 {
      SameDual(s, events[..|events| - 1]);
    }
  }
}
