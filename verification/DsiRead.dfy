/**
  Reading a panel register over MIPI DSI.

  The host controller keeps only the last 16 bytes of a panel's answer in its
  RDBK_DATA registers. A longer answer is read in passes: each pass raises the
  maximum return packet size and asks the panel again, from the first byte, and
  the host splices the new tail onto what it already has.
*/
module DsiRead {

  newtype byte = x: int | 0 <= x < 256

  const RX_BUF_SIZE := 4096
  const EINVAL := 22
  const ECOMM := 70

  // Data types of a panel's answer (MIPI DSI specification, peripheral-to-processor packets)
  const GENERIC_SHORT_READ_1BYTE: byte := 0x11
  const GENERIC_SHORT_READ_2BYTE: byte := 0x12
  const GENERIC_LONG_READ: byte := 0x1a
  const DCS_LONG_READ: byte := 0x1c
  const DCS_SHORT_READ_1BYTE: byte := 0x21
  const DCS_SHORT_READ_2BYTE: byte := 0x22

  /** The 16 bytes of the four RDBK_DATA registers, oldest first. */
  type Window = s: seq<byte> | |s| == 16
    witness [0, 0, 0, 0, 0, 0, 0, 0, 0, 0, 0, 0, 0, 0, 0, 0]

  /**
    What the link does at each pass: the results of sending the packet-size and
    the read command, and the register window for a given packet size.
  */
  datatype Link = Link(setMax: nat -> int, read: nat -> int, window: (nat, nat) -> Window)

  /** A panel register: its bytes, and the header and checksum of an answer of n bytes. */
  datatype Panel = Panel(payload: seq<byte>, header: nat -> seq<byte>, crc: nat -> seq<byte>)

  ghost predicate WellFormed(panel: Panel) {
    forall n: nat ::
      |panel.header(n)| == 4 && |panel.crc(n)| == 2 && panel.header(n)[0] in {GENERIC_LONG_READ, DCS_LONG_READ}
  }

  ghost function Answer(panel: Panel, n: nat): (r: seq<byte>)
    requires WellFormed(panel) && n <= |panel.payload|
    ensures |r| == n + 6
  {
    panel.header(n) + panel.payload[..n] + panel.crc(n)
  }

  /** The shift register keeps the end of the answer; a short one has stale bytes before it. */
  ghost predicate Holds(w: Window, r: seq<byte>) {
    if |r| >= 16 then w == r[|r| - 16..] else w[16 - |r|..] == r
  }

  ghost predicate AnswersLong(link: Link, panel: Panel, rxLen: nat) {
    && WellFormed(panel)
    && rxLen <= |panel.payload|
    && forall p: nat, n: nat {:trigger link.window(p, n)} ::
         0 < n <= rxLen ==> Holds(link.window(p, n), Answer(panel, n))
  }

  function Min(a: int, b: int): int { if a < b then a else b }

  function Max(a: int, b: int): int { if a < b then b else a }

  /** The number of passes: 10 payload bytes in the first, 14 in each further one. */
  function Passes(rxLen: nat): nat {
    if rxLen <= 10 then 1 else 1 + (rxLen - 10 + 13) / 14
  }

  predicate PassOk(link: Link, p: nat, txLen: nat) {
    link.setMax(p) >= 2 && link.read(p) >= txLen
  }

  function PassError(link: Link, p: nat, txLen: nat): int {
    if link.setMax(p) < 2 then -EINVAL
    else if link.read(p) < 0 then link.read(p)
    else -ECOMM
  }

  /**
    A short answer at the start of b: its data type, which tells one parameter
    from two, and then the parameters.
  */
  predicate IsShort(b: seq<byte>, params: seq<byte>) {
    && |b| >= 3
    && match |params|
       case 1 => (b[0] == 0x11 || b[0] == 0x21) && b[1] == params[0]
       case 2 => (b[0] == 0x12 || b[0] == 0x22) && b[1] == params[0] && b[2] == params[1]
       case _ => false
  }

  /** A long answer at the start of b. */
  predicate IsLong(b: seq<byte>) { |b| > 0 && (b[0] == 0x1a || b[0] == 0x1c) }

  /** No answer with parameters at the start of b: an error report, or an unknown type. */
  predicate IsOther(b: seq<byte>) {
    |b| > 0 && b[0] != 0x11 && b[0] != 0x21 && b[0] != 0x12 && b[0] != 0x22 && b[0] != 0x1a && b[0] != 0x1c
  }

  /** A panel answers a short read: the last four bytes of the window are type, parameters and ECC. */
  predicate AnswersShort(link: Link, rxLen: nat, params: seq<byte>) {
    IsShort(link.window(0, rxLen)[12..], params)
  }

  /** The caller's buffer starts with `data`; the rest is as it was. */
  predicate Stored(before: seq<byte>, after: seq<byte>, data: seq<byte>) {
    |data| <= |before| && after == data + before[|data|..]
  }

  /** What a caller gets: the return value and the bytes stored in its buffer; 0 for an error report. */
  datatype Reply = Reply(ret: int, data: seq<byte>)

  function Respond(b: seq<byte>, rxLen: nat, hasDest: bool): Reply
    requires |b| >= 4 + rxLen
  {
    if b[0] in {GENERIC_SHORT_READ_1BYTE, DCS_SHORT_READ_1BYTE} then
      if hasDest && rxLen >= 1 then Reply(1, [b[1]]) else Reply(-EINVAL, [])
    else if b[0] in {GENERIC_SHORT_READ_2BYTE, DCS_SHORT_READ_2BYTE} then
      if hasDest && rxLen >= 2 then Reply(2, [b[1], b[2]]) else Reply(-EINVAL, [])
    else if b[0] in {GENERIC_LONG_READ, DCS_LONG_READ} then
      Reply(rxLen, if hasDest then b[4..4 + rxLen] else [])
    else Reply(0, [])
  }

  /** Where in rx_buf the answer starts: after the stale bytes of a single short pass. */
  function Start(rxLen: nat): nat {
    if 3 <= rxLen < 10 then 10 - rxLen else 0
  }

  /** The bytes of rx_buf that are right once n payload bytes have been received. */
  ghost function Image(panel: Panel, n: nat): (r: seq<byte>)
    requires WellFormed(panel) && n <= |panel.payload|
    ensures |r| == n + 4
  {
    panel.header(10) + panel.payload[..n]
  }

  /** How many bytes of the window are already in rx_buf. */
  function Repeated(off: nat, rxByte: nat, pktSize: nat): int {
    var readCnt := if rxByte == 4 then 4 else pktSize + 6;
    if readCnt > 16 then off - (readCnt - 16) else 0
  }

  /** The host's copy of the registers: rxByte bytes of the window, then whatever the stack held. */
  function Registers(w: Window, stack: Window, rxByte: nat): (r: Window)
    requires rxByte in {4, 16}
  {
    if rxByte == 16 then w else w[12..] + stack[4..]
  }

  /** A pass that starts `off` bytes into the answer contributes exactly the answer's bytes from there on. */
  lemma Splice(w: Window, panel: Panel, n: nat, off: nat)
    requires WellFormed(panel) && 10 <= n <= |panel.payload|
    requires Holds(w, Answer(panel, n))
    requires n - 10 <= off <= n + 4
    ensures 0 <= Repeated(off, 16, n) <= 14 || n == 10
    ensures n > 10 ==> w[Repeated(off, 16, n)..] == Answer(panel, n)[off..]
    ensures off >= 4 && n > 10 ==> Image(panel, off - 4) + w[Repeated(off, 16, n)..] == Image(panel, n) + panel.crc(n)
  {
    var a := Answer(panel, n);
    if n > 10 {
      assert Repeated(off, 16, n) == off - (n - 10);
      assert w[off - (n - 10)..] == a[off..];
      if off >= 4 {
        assert a[off..] == panel.payload[off - 4..n] + panel.crc(n);
        assert panel.payload[..off - 4] + panel.payload[off - 4..n] == panel.payload[..n];
      }
    }
  }

  /** What rx_buf holds before pass k of a long read from a panel that answers. */
  ghost predicate Received(link: Link, panel: Panel, rxLen: nat, k: nat, b: seq<byte>) {
    AnswersLong(link, panel, rxLen) && k > 0 ==>
      14 * k - 4 <= rxLen && 14 * k <= |b| && b[..14 * k] == Image(panel, 14 * k - 4)
  }

  /** What rx_buf holds after the last pass of a long read from a panel that answers. */
  ghost predicate Complete(link: Link, panel: Panel, rxLen: nat, b: seq<byte>)
    requires |b| >= Max(16, rxLen + 6)
  {
    AnswersLong(link, panel, rxLen) ==>
      if rxLen < 10 then b[10 - rxLen..16] == Answer(panel, rxLen)
      else b[..rxLen + 6] == Image(panel, rxLen) + panel.crc(rxLen)
  }

  /** The first pass leaves the header and at most ten payload bytes. */
  lemma FirstPass(link: Link, panel: Panel, rxLen: nat, n: nat, after: seq<byte>)
    requires 3 <= rxLen && |after| >= Max(16, rxLen + 6) && n == Min(rxLen, 10)
    requires after[..16] == link.window(0, n)
    ensures n < rxLen ==> Received(link, panel, rxLen, 1, after)
    ensures n == rxLen ==> Complete(link, panel, rxLen, after)
  {
    if AnswersLong(link, panel, rxLen) {
      var a := Answer(panel, n);
      assert Holds(link.window(0, n), a);
      if n < 10 {
        assert after[10 - n..16] == after[..16][10 - n..];
      } else {
        assert a == Image(panel, 10) + panel.crc(10);
        assert after[..14] == after[..16][..14];
      }
    }
  }

  /** A later pass joins what rx_buf already holds, with no byte lost, repeated, or taken from a checksum. */
  lemma LaterPass(link: Link, panel: Panel, rxLen: nat, k: nat, n: nat, before: seq<byte>, after: seq<byte>)
    requires 10 < rxLen && |before| == |after| >= rxLen + 6
    requires 0 < k && 14 * k - 4 < rxLen && n == Min(rxLen, 10 + 14 * k)
    requires Received(link, panel, rxLen, k, before)
    requires after[..14 * k] == before[..14 * k]
    requires 0 <= Repeated(14 * k, 16, n) <= 13
    requires after[14 * k..14 * k + 16 - Repeated(14 * k, 16, n)] == link.window(k, n)[Repeated(14 * k, 16, n)..]
    ensures n < rxLen ==> Received(link, panel, rxLen, k + 1, after)
    ensures n == rxLen ==> Complete(link, panel, rxLen, after)
  {
    if AnswersLong(link, panel, rxLen) {
      var r := Repeated(14 * k, 16, n);
      var m := 14 * k + 16 - r;
      var w := link.window(k, n);
      assert Holds(w, Answer(panel, n));
      Splice(w, panel, n, 14 * k);
      assert after[..m] == after[..14 * k] + after[14 * k..m];
      assert after[..m] == Image(panel, n) + panel.crc(n) && m == n + 6;
      assert after[..n + 4] == after[..m][..n + 4] == Image(panel, n);
    }
  }

  /** The reply depends on no byte past the window of a short read. */
  lemma RespondPrefix(a: seq<byte>, b: seq<byte>, rxLen: nat, hasDest: bool)
    requires 4 + rxLen <= |a| <= |b| && a == b[..|a|]
    ensures Respond(a, rxLen, hasDest) == Respond(b, rxLen, hasDest)
  {
    assert b[4..4 + rxLen] == a[4..4 + rxLen];
  }

  /** What an answer at the start of b replies with, type by type. */
  lemma RespondIs(b: seq<byte>, rxLen: nat, hasDest: bool)
    requires |b| >= 4 + rxLen
    ensures forall params :: IsShort(b, params) ==>
              Respond(b, rxLen, hasDest) ==
              if hasDest && rxLen >= |params| then Reply(|params|, params) else Reply(-EINVAL, [])
    ensures IsLong(b) ==> Respond(b, rxLen, hasDest) == Reply(rxLen, if hasDest then b[4..4 + rxLen] else [])
    ensures IsOther(b) ==> Respond(b, rxLen, hasDest) == Reply(0, [])
  {
    forall params | IsShort(b, params)
      ensures Respond(b, rxLen, hasDest) ==
              if hasDest && rxLen >= |params| then Reply(|params|, params) else Reply(-EINVAL, [])
    {
      assert params == if |params| == 1 then [b[1]] else [b[1], b[2]];
    }
  }

  /** A short read leaves the window's last four bytes at the start of rx_buf. */
  lemma ShortWindow(w: Window, stack: Window, b: seq<byte>)
    requires |b| >= 16 && b[..16] == Registers(w, stack, 4)
    ensures forall params :: IsShort(w[12..], params) <==> IsShort(b[0..], params)
    ensures IsOther(w[12..]) <==> IsOther(b[0..])
    ensures IsLong(w[12..]) <==> IsLong(b[0..])
    ensures b[4..16] == stack[4..]
  {
    var r := Registers(w, stack, 4);
    assert r[0] == w[12] && r[1] == w[13] && r[2] == w[14];
    assert b[4..16] == b[..16][4..] == r[4..];
    assert b[0] == b[..16][0] && b[1] == b[..16][1] && b[2] == b[..16][2];
  }

  lemma SamePrefix(b: seq<byte>, stack: Window, n: nat)
    requires |b| >= 16 && b[4..16] == stack[4..] && n <= 12
    ensures b[4..4 + n] == stack[4..4 + n]
  {
    assert b[4..4 + n] == b[4..16][..n];
    assert stack[4..4 + n] == stack[4..][..n];
  }

  /** A complete answer replies with the register's bytes. */
  lemma CompleteResponds(link: Link, panel: Panel, rxLen: nat, b: seq<byte>, hasDest: bool)
    requires 3 <= rxLen && |b| >= Max(16, rxLen + 6)
    requires Complete(link, panel, rxLen, b) && AnswersLong(link, panel, rxLen)
    ensures Respond(b[Start(rxLen)..], rxLen, hasDest) == Reply(rxLen, if hasDest then panel.payload[..rxLen] else [])
  {
    var c := b[Start(rxLen)..];
    var header := panel.header(if rxLen < 10 then rxLen else 10);
    var whole := header + panel.payload[..rxLen] + panel.crc(rxLen);
    assert c[..rxLen + 6] == whole;
    assert c[4..4 + rxLen] == whole[4..4 + rxLen] == panel.payload[..rxLen];
    assert c[0] == whole[0];
  }

  /** What the copy loop leaves, as slices. */
  lemma Copied(before: seq<byte>, after: seq<byte>, g: Window, off: nat, skip: nat)
    requires |before| == |after| && skip <= 16 && off + 16 - skip <= |after|
    requires forall x :: off <= x < off + 16 - skip ==> after[x] == g[skip + (x - off)]
    requires forall x :: 0 <= x < off ==> after[x] == before[x]
    requires forall x :: off + 16 - skip <= x < |after| ==> after[x] == before[x]
    ensures after[..off] == before[..off] && after[off..off + 16 - skip] == g[skip..]
    ensures after[off + 16 - skip..] == before[off + 16 - skip..]
  {
  }

  lemma TailKept(before: seq<byte>, after: seq<byte>, m: nat, k: nat)
    requires |before| == |after| && m <= k <= |after| && after[m..] == before[m..]
    ensures after[k..] == before[k..]
  {
    assert after[k..] == after[m..][k - m..];
    assert before[k..] == before[m..][k - m..];
  }

  lemma RegistersLong(w: Window, stack: Window)
    ensures Registers(w, stack, 16) == w
  {
  }

  /** A pass repeats at most 13 bytes of the window, and what it adds ends at most 6 bytes past the answer's payload. */
  lemma RepeatedRange(off: nat, k: nat, rxLen: nat, pktSize: nat)
    requires rxLen <= 2 ==> off == k == 0 && pktSize == rxLen
    requires rxLen > 2 ==> off == 14 * k && pktSize == Min(rxLen, 10 + off) && (k > 0 ==> off - 4 < rxLen)
    ensures var r := Repeated(off, if rxLen <= 2 then 4 else 16, pktSize);
            0 <= r <= 13 && (k == 0 ==> r == 0) && off + 16 - r <= Max(16, rxLen + 6)
  {
  }

  class Host {
    const rxBuf: array<byte>

    constructor ()
      ensures fresh(rxBuf) && rxBuf.Length == RX_BUF_SIZE
    {
      rxBuf := new byte[RX_BUF_SIZE](_ => 0);
    }

    /** The registers as bytes in the order received: register i holds bytes 12 - 4 i to 15 - 4 i of the window. */
    method ReadRegisters(rxByte: nat, w: Window, stack: Window) returns (reg: array<byte>)
      requires rxByte in {4, 16}
      ensures fresh(reg) && reg[..] == Registers(w, stack, rxByte)
    {
      var cnt := (rxByte + 3) / 4;
      if cnt > 4 {
        cnt := 4;
      }
      reg := new byte[16](i requires 0 <= i < 16 => stack[i]);
      var temp := 0;
      var i := cnt;
      while i > 0
        invariant 0 <= i <= cnt && temp == 4 * (cnt - i)
        invariant forall x :: 0 <= x < temp ==> reg[x] == w[16 - 4 * cnt + x]
        invariant forall x :: 4 * cnt <= x < 16 ==> reg[x] == stack[x]
      {
        i := i - 1;
        forall x | 0 <= x < 4 {
          reg[temp + x] := w[12 - 4 * i + x];
        }
        temp := temp + 4;
      }
    }

    /** Copies the new part of the register window to rx_buf at `off`; returns the bytes copied. */
    method CmdDmaRx(off: nat, rxByte: nat, pktSize: nat, w: Window, stack: Window) returns (dlen: int)
      requires rxByte in {4, 16}
      requires 0 <= Repeated(off, rxByte, pktSize) <= 16
      requires off + 16 - Repeated(off, rxByte, pktSize) <= rxBuf.Length
      modifies rxBuf
      ensures dlen == 16 - Repeated(off, rxByte, pktSize)
      ensures rxBuf[..][..off] == old(rxBuf[..])[..off]
      ensures rxBuf[..][off..off + dlen] == Registers(w, stack, rxByte)[16 - dlen..]
      ensures rxBuf[..][off + dlen..] == old(rxBuf[..])[off + dlen..]
    {
      var readCnt := if rxByte == 4 then 4 else pktSize + 6;
      var repeatedBytes := 0;
      if readCnt > 16 {
        var bytesShifted := readCnt - 16;
        repeatedBytes := off - bytesShifted;
      }
      hide Registers;
      var reg := ReadRegisters(rxByte, w, stack);
      ghost var g := Registers(w, stack, rxByte);
      ghost var was := rxBuf[..];
      var j := 0;
      var i := repeatedBytes;
      while i < 16
        invariant repeatedBytes <= i <= 16 && j == i - repeatedBytes
        invariant reg[..] == g
        invariant forall x :: off <= x < off + j ==> rxBuf[x] == g[repeatedBytes + (x - off)]
        invariant forall x :: 0 <= x < off ==> rxBuf[x] == was[x]
        invariant forall x :: off + j <= x < rxBuf.Length ==> rxBuf[x] == was[x]
      {
        rxBuf[off + j] := reg[i];
        j := j + 1;
        i := i + 1;
      }
      dlen := j;
      Copied(was, rxBuf[..], g, off, repeatedBytes);
    }

    /** Interprets the answer at rx_buf[start..] and stores its parameters in the caller's buffer. */
    method Deliver(start: nat, rxLen: nat, dest: array?<byte>) returns (ret: int)
      requires start + 14 <= rxBuf.Length && start + 4 + rxLen <= rxBuf.Length
      requires dest != null ==> dest.Length >= rxLen && dest != rxBuf
      modifies dest
      ensures var r := Respond(rxBuf[start..], rxLen, dest != null);
              ret == r.ret && (dest != null ==> dest[..] == r.data + old(dest[..])[|r.data|..])
      ensures forall params :: IsShort(rxBuf[start..], params) ==>
                if dest != null && rxLen >= |params| then ret == |params| && Stored(old(dest[..]), dest[..], params)
                else ret == -EINVAL && (dest != null ==> dest[..] == old(dest[..]))
      ensures IsLong(rxBuf[start..]) ==>
                ret == rxLen &&
                (dest != null ==> Stored(old(dest[..]), dest[..], rxBuf[start..][4..4 + rxLen]))
      ensures IsOther(rxBuf[start..]) ==> ret == 0 && (dest != null ==> dest[..] == old(dest[..]))
    {
      hide IsShort, IsLong, IsOther;
      ghost var b := rxBuf[start..];
      RespondIs(b, rxLen, dest != null);
      var cmd := rxBuf[start];
      if cmd == GENERIC_SHORT_READ_1BYTE || cmd == DCS_SHORT_READ_1BYTE {
        ret := ShortResponse1(start, rxLen, dest);
      } else if cmd == GENERIC_SHORT_READ_2BYTE || cmd == DCS_SHORT_READ_2BYTE {
        ret := ShortResponse2(start, rxLen, dest);
      } else if cmd == GENERIC_LONG_READ || cmd == DCS_LONG_READ {
        ret := LongResponse(start, rxLen, dest);
      } else {
        ret := 0;
      }
      assert rxBuf[start..] == b;
    }

    /** A short answer with one parameter. */
    method ShortResponse1(start: nat, rxLen: nat, dest: array?<byte>) returns (ret: int)
      requires start + 2 <= rxBuf.Length && (dest != null ==> dest.Length >= rxLen && dest != rxBuf)
      modifies dest
      ensures if dest != null && rxLen >= 1 then ret == 1 && Stored(old(dest[..]), dest[..], [rxBuf[start..][1]])
              else ret == -EINVAL && (dest != null ==> dest[..] == old(dest[..]))
    {
      if dest != null && rxLen >= 1 {
        dest[0] := rxBuf[start + 1];
        return 1;
      }
      ret := -EINVAL;
    }

    /** A short answer with two parameters. */
    method ShortResponse2(start: nat, rxLen: nat, dest: array?<byte>) returns (ret: int)
      requires start + 3 <= rxBuf.Length && (dest != null ==> dest.Length >= rxLen && dest != rxBuf)
      modifies dest
      ensures if dest != null && rxLen >= 2 then
                ret == 2 && Stored(old(dest[..]), dest[..], [rxBuf[start..][1], rxBuf[start..][2]])
              else ret == -EINVAL && (dest != null ==> dest[..] == old(dest[..]))
    {
      if dest != null && rxLen >= 2 {
        dest[0] := rxBuf[start + 1];
        dest[1] := rxBuf[start + 2];
        return 2;
      }
      ret := -EINVAL;
    }

    /** A long answer, without its header. */
    method LongResponse(start: nat, rxLen: nat, dest: array?<byte>) returns (ret: int)
      requires start + 4 + rxLen <= rxBuf.Length && (dest != null ==> dest.Length >= rxLen && dest != rxBuf)
      modifies dest
      ensures ret == rxLen && (dest != null ==> Stored(old(dest[..]), dest[..], rxBuf[start..][4..4 + rxLen]))
    {
      if dest != null {
        ghost var data := rxBuf[start..][4..4 + rxLen];
        forall x | 0 <= x < rxLen {
          dest[x] := rxBuf[start + 4 + x];
        }
        assert forall x :: 0 <= x < rxLen ==> dest[x] == data[x];
        assert rxBuf[start..][4..4 + rxLen] == data;
      }
      ret := rxLen;
    }

    /**
      The passes of a read. `passes` counts the completed ones; `error` is the
      error of the pass that failed, or 0. A long read from a panel that answers
      leaves the whole answer in rx_buf, from `start` on.
    */
    method ReadPasses(link: Link, txLen: nat, rxLen: nat, stack: Window, ghost panel: Panel)
      returns (error: int, passes: nat, start: nat)
      requires rxBuf.Length == RX_BUF_SIZE && rxLen + 6 <= RX_BUF_SIZE
      modifies rxBuf
      ensures passes <= Passes(rxLen) && forall p :: 0 <= p < passes ==> PassOk(link, p, txLen)
      ensures passes < Passes(rxLen) ==> !PassOk(link, passes, txLen) && error == PassError(link, passes, txLen)
      ensures passes == Passes(rxLen) ==> error == 0 && start == Start(rxLen)
      ensures passes == Passes(rxLen) && 3 <= rxLen ==> Complete(link, panel, rxLen, rxBuf[..])
      ensures passes == Passes(rxLen) && rxLen <= 2 ==> rxBuf[..16] == Registers(link.window(0, rxLen), stack, 4)
      ensures rxBuf[Max(16, rxLen + 6)..] == old(rxBuf[Max(16, rxLen + 6)..])
    {
      var rlen, pktSize, rxByte, shortResponse := rxLen, rxLen, 4, true;
      var dataByte := 10;
      if rlen > 2 {
        shortResponse := false;
        pktSize := if rlen < dataByte then rlen else dataByte;
        rxByte := dataByte + 6;
      }

      var off := 0;
      var end := false;
      error, passes, start := 0, 0, 0;
      while !end
        invariant passes <= Passes(rxLen) && forall p :: 0 <= p < passes ==> PassOk(link, p, txLen)
        invariant shortResponse == (rxLen <= 2) && rxByte == (if shortResponse then 4 else 16)
        invariant shortResponse ==> passes == 0 && off == 0 && pktSize == rxLen && !end
        invariant !end && !shortResponse ==> off == 14 * passes && pktSize == Min(rxLen, 10 + off)
        invariant !end ==> dataByte == (if passes == 0 then 10 else 14)
        invariant !end ==> rlen == (if passes == 0 then rxLen else rxLen + 4 - off) && (passes > 0 ==> rlen > 0)
        invariant !end ==> passes < Passes(rxLen) && Received(link, panel, rxLen, passes, rxBuf[..])
        invariant end ==> passes == Passes(rxLen) && pktSize == rxLen && (rxLen < 10 ==> rlen == rxLen)
        invariant end ==> Complete(link, panel, rxLen, rxBuf[..])
        invariant rxBuf[Max(16, rxLen + 6)..] == old(rxBuf[Max(16, rxLen + 6)..])
        decreases if end then 0 else rlen + 1
      {
        if link.setMax(passes) < 2 {
          return -EINVAL, passes, 0;
        }
        var ret := link.read(passes);
        if ret < 0 {
          return ret, passes, 0;
        } else if ret < txLen {
          return -ECOMM, passes, 0;
        }

        var dlen := Pass(link, panel, rxLen, passes, off, rxByte, pktSize, stack);
        passes := passes + 1;
        if shortResponse {
          break;
        }

        var diff := 0;
        if rlen <= dataByte {
          diff := dataByte - rlen;
          end := true;
        } else {
          rlen := rlen - dataByte;
        }
        if !end {
          dlen := dlen - 2;
          dlen := dlen - diff;
          off := off + dlen;
          dataByte := 14;
          pktSize := pktSize + if rlen < dataByte then rlen else dataByte;
        }
      }

      start := if pktSize < 10 && !shortResponse then 10 - rlen else 0;
    }

    /** Reads the registers in pass k of a read; never all 16 bytes are old. */
    method Pass(link: Link, ghost panel: Panel, rxLen: nat, k: nat, off: nat, rxByte: nat, pktSize: nat, stack: Window)
      returns (dlen: int)
      requires rxBuf.Length == RX_BUF_SIZE && rxLen + 6 <= RX_BUF_SIZE
      requires rxByte == if rxLen <= 2 then 4 else 16
      requires rxLen <= 2 ==> off == k == 0 && pktSize == rxLen
      requires rxLen > 2 ==> off == 14 * k && pktSize == Min(rxLen, 10 + off) && (k > 0 ==> off - 4 < rxLen)
      requires Received(link, panel, rxLen, k, rxBuf[..])
      modifies rxBuf
      ensures 0 <= Repeated(off, rxByte, pktSize) <= 13 && dlen == 16 - Repeated(off, rxByte, pktSize)
      ensures rxLen <= 2 ==> rxBuf[..16] == Registers(link.window(0, rxLen), stack, 4)
      ensures rxLen > 2 && pktSize < rxLen ==> Received(link, panel, rxLen, k + 1, rxBuf[..])
      ensures rxLen > 2 && pktSize == rxLen ==> Complete(link, panel, rxLen, rxBuf[..])
      ensures rxBuf[Max(16, rxLen + 6)..] == old(rxBuf[Max(16, rxLen + 6)..])
    {
      RepeatedRange(off, k, rxLen, pktSize);
      hide Received, Complete, Registers, Repeated;
      ghost var before := rxBuf[..];
      var w := link.window(k, pktSize);
      dlen := CmdDmaRx(off, rxByte, pktSize, w, stack);
      // at least 3 bytes are new, so the source's exit on dlen <= 0 is never taken
      ghost var after := rxBuf[..];
      TailKept(before, after, off + dlen, Max(16, rxLen + 6));
      if k == 0 {
        assert after[..16] == after[0..16];
      }
      if rxLen > 2 {
        RegistersLong(w, stack);
        if k == 0 {
          FirstPass(link, panel, rxLen, pktSize, after);
        } else {
          LaterPass(link, panel, rxLen, k, pktSize, before, after);
        }
      }
    }

    /**
      Reads rxLen bytes of a panel register into `dest`. `passes` counts the
      passes completed. A pass that fails ends the read with its error; else the
      answer in rx_buf decides. From a panel that answers every pass of a long
      read, the caller gets exactly the first rxLen bytes of the register; from one
      that answers a short read with a short packet, exactly its parameters. A long
      packet in answer to a short read gives the caller whatever the stack held.
    */
    method CmdRx(link: Link, txLen: nat, rxLen: nat, dest: array?<byte>, stack: Window, ghost panel: Panel)
      returns (ret: int, passes: nat)
      requires rxBuf.Length == RX_BUF_SIZE && rxLen + 6 <= RX_BUF_SIZE
      requires dest != null ==> dest.Length >= rxLen && dest != rxBuf
      modifies rxBuf, dest
      ensures passes <= Passes(rxLen) && forall p :: 0 <= p < passes ==> PassOk(link, p, txLen)
      ensures passes < Passes(rxLen) ==> !PassOk(link, passes, txLen) && ret == PassError(link, passes, txLen)
      ensures passes < Passes(rxLen) && dest != null ==> dest[..] == old(dest[..])
      ensures passes < Passes(rxLen) && link.setMax(passes) < 2 ==> ret == -EINVAL
      ensures passes < Passes(rxLen) && link.setMax(passes) >= 2 ==>
                ret == if link.read(passes) < 0 then link.read(passes) else -ECOMM
      ensures passes == Passes(rxLen) && rxLen <= 2 ==>
                forall params :: AnswersShort(link, rxLen, params) ==>
                  if dest != null && rxLen >= |params| then ret == |params| && Stored(old(dest[..]), dest[..], params)
                  else ret == -EINVAL && (dest != null ==> dest[..] == old(dest[..]))
      ensures passes == Passes(rxLen) && rxLen <= 2 && IsOther(link.window(0, rxLen)[12..]) ==>
                ret == 0 && (dest != null ==> dest[..] == old(dest[..]))
      ensures passes == Passes(rxLen) && rxLen <= 2 && IsLong(link.window(0, rxLen)[12..]) ==>
                ret == rxLen && (dest != null ==> Stored(old(dest[..]), dest[..], stack[4..4 + rxLen]))
      ensures passes == Passes(rxLen) && 3 <= rxLen && AnswersLong(link, panel, rxLen) ==>
                ret == rxLen && (dest != null ==> dest[..] == panel.payload[..rxLen] + old(dest[..])[rxLen..])
      ensures passes == Passes(rxLen) && rxLen <= 2 ==>
                var r := Respond(Registers(link.window(0, rxLen), stack, 4), rxLen, dest != null);
                ret == r.ret && (dest != null ==> dest[..] == r.data + old(dest[..])[|r.data|..])
      ensures passes == Passes(rxLen) ==> ret == Respond(rxBuf[Start(rxLen)..], rxLen, dest != null).ret
      ensures rxBuf[Max(16, rxLen + 6)..] == old(rxBuf[Max(16, rxLen + 6)..])
    {
      var error, start;
      error, passes, start := ReadPasses(link, txLen, rxLen, stack, panel);
      if error != 0 {
        return error, passes;
      }
      ghost var b := rxBuf[..];
      ret := Deliver(start, rxLen, dest);
      assert rxBuf[..] == b;
      if rxLen <= 2 {
        RespondPrefix(b[..16], b, rxLen, dest != null);
        ShortWindow(link.window(0, rxLen), stack, b);
        SamePrefix(b, stack, rxLen);
      } else if AnswersLong(link, panel, rxLen) {
        CompleteResponds(link, panel, rxLen, b, dest != null);
      }
    }
  }
}
