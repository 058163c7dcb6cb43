/**
 * The OV5640 register file as seen by the driver: 16-bit addresses holding
 * 8-bit values, reached over I2C by readRegister16 / writeRegister16.
 *
 * The register file is a map; everything the driver does to the device is
 * recorded in a trace of events.  A register the map does not hold reads
 * as 0x00.  Replaying a trace over a register map gives the register map
 * after those events, so every operation of the driver can be specified by
 * the events it emits, and its effect on the registers follows from the
 * lemmas below.
 */
module Registers {
  import opened Capture

  /** A register address (uint16_t). */
  type Addr = a: int | 0 <= a < 0x10000
  /** A register value (uint8_t). */
  type Byte = bv8
  type RegisterFile = map<Addr, Byte>

  /** One observable step of the driver. */
  datatype Event =
    | Write(reg: Addr, value: Byte)  // writeRegister16
    | Delay(ms: bv16)                // a 0xFFFF entry of a register list
    | PeripheralInit                 // base-library begin()
    | BufferConfig(width: nat, height: nat, space: Colorspace, nbuf: nat, allo: Realloc)
    | SettleDelay                    // config()'s frame-settling pause
    | DmaChange                      // base-library dma_change()
    | Resume                         // base-library resume()

  /** readRegister16: the value a register reads back. */
  function Peek(m: RegisterFile, a: Addr): Byte
  {
    if a in m then m[a] else 0
  }

  predicate WritesTo(e: Event, a: Addr)
  {
    e.Write? && e.reg == a
  }

  /** The two register files agree on register `a`. */
  predicate SameAt(m1: RegisterFile, m2: RegisterFile, a: Addr)
  {
    (a in m1 <==> a in m2) && (a in m1 ==> m1[a] == m2[a])
  }

  /** The register file after one event: only a write changes it. */
  function Step(m: RegisterFile, e: Event): RegisterFile
  {
    match e
    case Write(a, v) => m[a := v]
    case _ => m
  }

  /** The register file after the events of `t`, starting from `m`. */
  function Replay(m: RegisterFile, t: seq<Event>): RegisterFile
    decreases |t|
  {
    if t == [] then m else Step(Replay(m, t[..|t| - 1]), t[|t| - 1])
  }

  /** Replaying a single event is taking that step. */
  lemma ReplaySingle(m: RegisterFile, e: Event)
    ensures Replay(m, [e]) == Step(m, e)
  {
    assert [e][..0] == [];
  }

  /** Replaying two traces one after the other is replaying their concatenation. */
  lemma {:induction false} ReplayConcat(m: RegisterFile, t1: seq<Event>, t2: seq<Event>)
    ensures Replay(m, t1 + t2) == Replay(Replay(m, t1), t2)
    decreases |t2|
  {
    if t2 == [] {
      assert t1 + t2 == t1;
    } else {
      var front := t2[..|t2| - 1];
      assert (t1 + t2)[..|t1 + t2| - 1] == t1 + front;
      assert (t1 + t2)[|t1 + t2| - 1] == t2[|t2| - 1];
      ReplayConcat(m, t1, front);
    }
  }

  /** Replaying one more event is taking one more step. */
  lemma ReplayAppend(m: RegisterFile, t: seq<Event>, e: Event)
    ensures Replay(m, t + [e]) == Step(Replay(m, t), e)
  {
    assert (t + [e])[..|t|] == t;
  }

  /** Replaying one more event of `e` is taking one more step. */
  lemma ReplayPrefixStep(m: RegisterFile, e: seq<Event>, k: nat)
    requires k < |e|
    ensures Replay(m, e[..k + 1]) == Step(Replay(m, e[..k]), e[k])
  {
    assert e[..k + 1][..k] == e[..k];
  }

  /** Appending a trace in pieces is appending the pieces joined. */
  lemma AppendAssoc(t: seq<Event>, a: seq<Event>, b: seq<Event>)
    ensures t + a + b == t + (a + b)
  {
  }

  /** Events that are not register writes leave the register file as it was. */
  lemma {:induction false} ReplayNoWrites(m: RegisterFile, t: seq<Event>)
    requires forall j :: 0 <= j < |t| ==> !t[j].Write?
    ensures Replay(m, t) == m
    decreases |t|
  {
    if t != [] {
      ReplayNoWrites(m, t[..|t| - 1]);
    }
  }

  /** The last write to a register decides what it holds. */
  lemma {:induction false} ReplayLastWrite(m: RegisterFile, t: seq<Event>, i: nat)
    requires i < |t| && t[i].Write?
    requires forall j :: i < j < |t| ==> !WritesTo(t[j], t[i].reg)
    ensures t[i].reg in Replay(m, t) && Replay(m, t)[t[i].reg] == t[i].value
    decreases |t|
  {
    if i < |t| - 1 {
      var front := t[..|t| - 1];
      assert !WritesTo(t[|t| - 1], t[i].reg);
      ReplayLastWrite(m, front, i);
    }
  }

  /** A register no event writes keeps its contents. */
  lemma {:induction false} ReplayUntouched(m: RegisterFile, t: seq<Event>, a: Addr)
    requires forall j :: 0 <= j < |t| ==> !WritesTo(t[j], a)
    ensures SameAt(Replay(m, t), m, a)
    decreases |t|
  {
    if t != [] {
      var front := t[..|t| - 1];
      assert !WritesTo(t[|t| - 1], a);
      ReplayUntouched(m, front, a);
    }
  }

  // ---------------------------------------------------------------------------
  // Register lists (writeList16)
  // ---------------------------------------------------------------------------

  /** One {address, value} row of a register list; both are uint16_t. */
  datatype Entry = Entry(addr: Addr, value: bv16)

  /** The reserved list address meaning "delay `value` milliseconds". */
  const DelayMarker: Addr := 0xFFFF

  /** writeRegister16 takes a uint8_t: a uint16_t list value loses its high byte. */
  function Truncate8(v: bv16): (b: Byte)
    ensures b as bv16 == v & 0xFF
  {
    (v & 0xFF) as Byte
  }

  function EntryEvent(e: Entry): Event
  {
    if e.addr == DelayMarker then Delay(e.value) else Write(e.addr, Truncate8(e.value))
  }

  /** writeList16: one event per list row, in list order. */
  function ListEvents(l: seq<Entry>): (t: seq<Event>)
    ensures |t| == |l|
  {
    seq(|l|, i requires 0 <= i < |l| => EntryEvent(l[i]))
  }

  /** A played list holds only register writes and delays. */
  lemma ListEventsKinds(l: seq<Entry>)
    ensures forall k :: 0 <= k < |ListEvents(l)| ==> ListEvents(l)[k].Write? || ListEvents(l)[k].Delay?
  {
  }

  /** The (register, value) pairs a trace writes, in order. */
  function WritesOf(t: seq<Event>): seq<(Addr, Byte)>
    decreases |t|
  {
    if t == [] then []
    else
      WritesOf(t[..|t| - 1]) +
      match t[|t| - 1]
      case Write(a, v) => [(a, v)]
      case _ => []
  }

  /** The writes of two traces one after the other. */
  lemma {:induction false} WritesOfConcat(t1: seq<Event>, t2: seq<Event>)
    ensures WritesOf(t1 + t2) == WritesOf(t1) + WritesOf(t2)
    decreases |t2|
  {
    if t2 == [] {
      assert t1 + t2 == t1;
    } else {
      var t := t1 + t2;
      assert t[..|t| - 1] == t1 + t2[..|t2| - 1];
      WritesOfConcat(t1, t2[..|t2| - 1]);
    }
  }

  /** The rows of a list that are register writes, with the value as written. */
  function WriteRows(l: seq<Entry>): seq<(Addr, Byte)>
    decreases |l|
  {
    if l == [] then []
    else
      var last := l[|l| - 1];
      WriteRows(l[..|l| - 1]) + (if last.addr == DelayMarker then [] else [(last.addr, Truncate8(last.value))])
  }

  /** Playing a list writes exactly its non-delay rows, in list order. */
  lemma {:induction false} ListWritesInOrder(l: seq<Entry>)
    ensures WritesOf(ListEvents(l)) == WriteRows(l)
    decreases |l|
  {
    if l != [] {
      var front := l[..|l| - 1];
      assert ListEvents(l)[..|l| - 1] == ListEvents(front);
      ListWritesInOrder(front);
    }
  }

  /** The write rows of a prefix are a prefix of the write rows. */
  lemma {:induction false} WriteRowsPrefix(l: seq<Entry>, n: nat)
    requires n <= |l|
    ensures |WriteRows(l[..n])| <= |WriteRows(l)|
    ensures WriteRows(l[..n]) == WriteRows(l)[..|WriteRows(l[..n])|]
    decreases |l|
  {
    if n < |l| {
      var front := l[..|l| - 1];
      assert l[..n] == front[..n];
      WriteRowsPrefix(front, n);
    } else {
      assert l[..n] == l;
    }
  }

  /** A list whose first row is a register write writes that row first. */
  lemma WriteRowsFirst(l: seq<Entry>)
    requires |l| >= 1 && l[0].addr != DelayMarker
    ensures |WriteRows(l)| >= 1 && WriteRows(l)[0] == (l[0].addr, Truncate8(l[0].value))
  {
    assert l[..1][..0] == [];
    assert WriteRows(l[..1]) == [(l[0].addr, Truncate8(l[0].value))];
    WriteRowsPrefix(l, 1);
  }

  /** A list played after an event that writes nothing: the writes are the
      list's rows, and the registers end as the list alone leaves them. */
  lemma ListAfter(m: RegisterFile, e: Event, l: seq<Entry>)
    requires !e.Write?
    ensures WritesOf([e] + ListEvents(l)) == WriteRows(l)
    ensures Replay(m, [e] + ListEvents(l)) == Replay(m, ListEvents(l))
  {
    WritesOfConcat([e], ListEvents(l));
    assert [e][..0] == [];
    ListWritesInOrder(l);
    ReplayConcat(m, [e], ListEvents(l));
    ReplaySingle(m, e);
  }

  /** For a register listed more than once, the last row wins. */
  lemma ListLastWins(m: RegisterFile, l: seq<Entry>, i: nat)
    requires i < |l| && l[i].addr != DelayMarker
    requires forall j :: i < j < |l| ==> l[j].addr != l[i].addr
    ensures l[i].addr in Replay(m, ListEvents(l))
    ensures Replay(m, ListEvents(l))[l[i].addr] == Truncate8(l[i].value)
  {
    ReplayLastWrite(m, ListEvents(l), i);
  }

  /** A register no row names is left as it was; delay rows write nothing. */
  lemma ListUntouched(m: RegisterFile, l: seq<Entry>, a: Addr)
    requires a == DelayMarker || forall j :: 0 <= j < |l| ==> l[j].addr != a
    ensures SameAt(Replay(m, ListEvents(l)), m, a)
  {
    ReplayUntouched(m, ListEvents(l), a);
  }

  // ---------------------------------------------------------------------------
  // Writes to a list of registers
  // ---------------------------------------------------------------------------

  /** Write vals[k] to addrs[k], for k in order. */
  function ZipWrites(addrs: seq<Addr>, vals: seq<Byte>): (t: seq<Event>)
    requires |addrs| == |vals|
    ensures |t| == |addrs|
  {
    seq(|addrs|, i requires 0 <= i < |addrs| => Write(addrs[i], vals[i]))
  }

  /** One more write at the end of a zipped prefix. */
  lemma ZipWritesSnoc(addrs: seq<Addr>, vals: seq<Byte>, i: nat)
    requires |addrs| == |vals| && i < |addrs|
    ensures ZipWrites(addrs[..i + 1], vals[..i + 1]) ==
      ZipWrites(addrs[..i], vals[..i]) + [Write(addrs[i], vals[i])]
  {
  }

  predicate Distinct(addrs: seq<Addr>)
  {
    forall i, j :: 0 <= i < j < |addrs| ==> addrs[i] != addrs[j]
  }

  /** The address `k` registers after `reg`, computed as uint16_t (wrapping). */
  function Offset(reg: Addr, k: nat): Addr
  {
    (reg + k) % 0x10000
  }

  /** `n` consecutive register addresses from `base`. */
  function Span(base: Addr, n: nat): (s: seq<Addr>)
    requires n <= 0x100
    ensures |s| == n && Distinct(s)
    ensures forall k :: 0 <= k < n ==> s[k] == Offset(base, k)
  {
    seq(n, i requires 0 <= i < n => Offset(base, i))
  }

  /** Without wrap-around a span is exactly the block base .. base+n-1, in
      order. */
  lemma SpanAt(base: Addr, n: nat, a: Addr)
    requires n <= 0x100 && base + n <= 0x10000
    ensures base <= a < base + n ==> Span(base, n)[a - base] == a
    ensures !(base <= a < base + n) ==> a !in Span(base, n)
  {
    var s := Span(base, n);
    if !(base <= a < base + n) {
      forall k | 0 <= k < n
        ensures s[k] != a
      {
        assert s[k] == base + k;
      }
    }
  }

  /** An address more than n-1 registers past `base` (counting with
      wrap-around) is not in the span of n registers from `base`. */
  lemma SpanMiss(base: Addr, n: nat, a: Addr)
    requires n <= 0x100 && (a - base) % 0x10000 >= n
    ensures a !in Span(base, n)
  {
    var s := Span(base, n);
    forall k | 0 <= k < n
      ensures s[k] != a
    {
      if base + k < 0x10000 {
        assert s[k] == base + k;
      } else {
        assert s[k] == base + k - 0x10000;
      }
    }
  }

  /** Writing distinct registers: each holds its value, all others are untouched. */
  lemma ZipEffect(m: RegisterFile, addrs: seq<Addr>, vals: seq<Byte>)
    requires |addrs| == |vals| && Distinct(addrs)
    ensures forall k :: 0 <= k < |addrs| ==>
      addrs[k] in Replay(m, ZipWrites(addrs, vals)) && Replay(m, ZipWrites(addrs, vals))[addrs[k]] == vals[k]
    ensures forall a :: a !in addrs ==> SameAt(Replay(m, ZipWrites(addrs, vals)), m, a)
  {
    var t := ZipWrites(addrs, vals);
    forall k | 0 <= k < |addrs|
      ensures addrs[k] in Replay(m, t) && Replay(m, t)[addrs[k]] == vals[k]
    {
      ReplayLastWrite(m, t, k);
    }
    forall a | a !in addrs
      ensures SameAt(Replay(m, t), m, a)
    {
      ReplayUntouched(m, t, a);
    }
  }

  // ---------------------------------------------------------------------------
  // Two 16-bit values over four 8-bit registers (_write_addr_reg)
  // ---------------------------------------------------------------------------

  function HighByte(x: bv16): Byte
  {
    ((x >> 8) & 0xFF) as Byte
  }

  function LowByte(x: bv16): Byte
  {
    (x & 0xFF) as Byte
  }

  /** The 16-bit value a high/low register pair holds. */
  function Join(hi: Byte, lo: Byte): (x: bv16)
    ensures HighByte(x) == hi && LowByte(x) == lo
  {
    (hi as bv16 << 8) | lo as bv16
  }

  /** Splitting into bytes loses nothing: high * 256 + low is the value again. */
  lemma SplitJoin(x: bv16)
    ensures Join(HighByte(x), LowByte(x)) == x
    ensures HighByte(x) as int * 256 + LowByte(x) as int == x as int
  {
  }

  function SplitPair(x: bv16, y: bv16): (b: seq<Byte>)
    ensures |b| == 4
  {
    [HighByte(x), LowByte(x), HighByte(y), LowByte(y)]
  }

  /** _write_addr_reg(reg, x, y): x then y, high byte first, into reg .. reg+3. */
  function AddrRegWrites(reg: Addr, x: bv16, y: bv16): (t: seq<Event>)
    ensures |t| == 4
  {
    ZipWrites(Span(reg, 4), SplitPair(x, y))
  }

  /** The 16-bit value held by the register pair at reg (high) and reg+1 (low). */
  function Read16(m: RegisterFile, reg: Addr): bv16
  {
    Join(Peek(m, reg), Peek(m, Offset(reg, 1)))
  }

  /** Register files that agree on a register pair read the same 16-bit value there. */
  lemma Read16Kept(m1: RegisterFile, m2: RegisterFile, reg: Addr)
    requires SameAt(m1, m2, reg) && SameAt(m1, m2, Offset(reg, 1))
    ensures Read16(m1, reg) == Read16(m2, reg)
  {
  }

  /** After _write_addr_reg the register pairs at reg and reg+2 read back x and y,
      and no register outside reg .. reg+3 has changed. */
  lemma AddrRegEffect(m: RegisterFile, reg: Addr, x: bv16, y: bv16)
    ensures var r := Replay(m, AddrRegWrites(reg, x, y));
      && reg in r && Offset(reg, 1) in r && Offset(reg, 2) in r && Offset(reg, 3) in r
      && Read16(r, reg) == x && Read16(r, Offset(reg, 2)) == y
      && r[reg] as int * 256 + r[Offset(reg, 1)] as int == x as int
      && r[Offset(reg, 2)] as int * 256 + r[Offset(reg, 3)] as int == y as int
    ensures forall a: Addr :: (a - reg) % 0x10000 >= 4 ==>
      SameAt(Replay(m, AddrRegWrites(reg, x, y)), m, a)
  {
    var addrs := Span(reg, 4);
    ZipEffect(m, addrs, SplitPair(x, y));
    assert addrs[0] == reg && addrs[1] == Offset(reg, 1);
    assert addrs[2] == Offset(reg, 2) && addrs[3] == Offset(reg, 3);
    assert Offset(Offset(reg, 2), 1) == Offset(reg, 3);
    forall a: Addr | (a - reg) % 0x10000 >= 4
      ensures a !in addrs
    {
      SpanMiss(reg, 4, a);
    }
    SplitJoin(x);
    SplitJoin(y);
  }

  /** _write_addr_reg is four register updates, one after the other. */
  lemma AddrRegApplied(m: RegisterFile, reg: Addr, x: bv16, y: bv16)
    ensures Replay(m, AddrRegWrites(reg, x, y)) ==
      m[reg := HighByte(x)][Offset(reg, 1) := LowByte(x)]
       [Offset(reg, 2) := HighByte(y)][Offset(reg, 3) := LowByte(y)]
  {
    var e := AddrRegWrites(reg, x, y);
    assert e[..0] == [] && e[..4] == e;
    ReplayPrefixStep(m, e, 0);
    ReplayPrefixStep(m, e, 1);
    ReplayPrefixStep(m, e, 2);
    ReplayPrefixStep(m, e, 3);
  }

  /** The register pairs at reg and reg+2 read back x and y after _write_addr_reg. */
  lemma AddrRegReads(m: RegisterFile, reg: Addr, x: bv16, y: bv16)
    ensures Read16(Replay(m, AddrRegWrites(reg, x, y)), reg) == x
    ensures Read16(Replay(m, AddrRegWrites(reg, x, y)), Offset(reg, 2)) == y
  {
    AddrRegEffect(m, reg, x, y);
  }

  /** A register outside reg .. reg+3 is left alone by _write_addr_reg. */
  lemma AddrRegKeeps(m: RegisterFile, reg: Addr, x: bv16, y: bv16, a: Addr)
    requires (a - reg) % 0x10000 >= 4
    ensures SameAt(Replay(m, AddrRegWrites(reg, x, y)), m, a)
  {
    AddrRegEffect(m, reg, x, y);
  }

  // ---------------------------------------------------------------------------
  // Read-modify-write of masked bits (_write_reg_bits)
  // ---------------------------------------------------------------------------

  /** The bits of a uint16_t mask that land in an 8-bit register. */
  function LowMask(mask: bv16): Byte
  {
    (mask & 0xFF) as Byte
  }

  /** The value _write_reg_bits writes back: the old value with the mask's bits
      set (enable) or cleared, computed on uint16_t and truncated to a byte. */
  function MaskBits(current: Byte, mask: bv16, enable: bool): (r: Byte)
    ensures r & LowMask(mask) == (if enable then LowMask(mask) else 0)
    ensures r & !LowMask(mask) == current & !LowMask(mask)
  {
    var v: bv16 := if enable then current as bv16 | mask else current as bv16 & !mask;
    (v & 0xFF) as Byte
  }
}
