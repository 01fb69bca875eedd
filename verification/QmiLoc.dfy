/**
  The QMI location client's messages: a header and a list of tag-length-value
  entries (TLVs), built by one loop and taken apart by another.
*/
module QmiLoc {

  newtype byte = x: int | 0 <= x < 256

  /** The longest datagram recv reads; the rest of a longer one is lost. */
  const RECV_MAX := 65536

  datatype Tlv = Tlv(tag: nat, value: seq<byte>)

  type Dict = map<nat, seq<byte>>

  /** None is Python's struct.error. */
  datatype Packed = None | Some(packet: seq<byte>)

  datatype Received = Nothing | Qmi(kind: nat, txn: nat, msgId: nat, tlvs: Dict)

  function Le16(n: nat): (r: seq<byte>)
    requires n < 65536
    ensures |r| == 2
  {
    [(n % 256) as byte, (n / 256) as byte]
  }

  function UnLe16(data: seq<byte>, i: nat): nat
    requires i + 1 < |data|
  {
    data[i] as int + 256 * (data[i + 1] as int)
  }

  // ---------- encoding ----------

  predicate Fits(t: Tlv) { t.tag < 256 && |t.value| < 65536 }

  predicate AllFit(tlvs: seq<Tlv>) { forall k :: 0 <= k < |tlvs| ==> Fits(tlvs[k]) }

  function Entry(t: Tlv): (r: seq<byte>)
    requires Fits(t)
    ensures |r| == 3 + |t.value|
  {
    [t.tag as byte] + Le16(|t.value|) + t.value
  }

  function Body(tlvs: seq<Tlv>): seq<byte>
    requires AllFit(tlvs)
  {
    if tlvs == [] then [] else Entry(tlvs[0]) + Body(tlvs[1..])
  }

  function Packet(txn: nat, msgId: nat, body: seq<byte>): (r: seq<byte>)
    requires txn < 65536 && msgId < 65536 && |body| < 65536
    ensures |r| == 7 + |body|
  {
    [0] + Le16(txn) + Le16(msgId) + Le16(|body|) + body
  }

  // ---------- decoding ----------

  /** Python's slice: an end past the data is the end of the data. */
  function Slice(data: seq<byte>, from: nat, to: nat): seq<byte> {
    if from >= |data| then [] else data[from..if to < from then from else if to < |data| then to else |data|]
  }

  /** The parser's loop from position i on; a later entry replaces an earlier one. */
  function ParseFrom(data: seq<byte>, i: nat, end: nat, m: Dict): Dict
    requires end <= |data|
    decreases if i < end then end - i else 0
  {
    if i + 3 > end then m
    else
      var n := UnLe16(data, i + 1);
      ParseFrom(data, i + 3 + n, end, m[data[i] as int := Slice(data, i + 3, i + 3 + n)])
  }

  function Parse(datagram: seq<byte>): Received {
    var data := if |datagram| > RECV_MAX then datagram[..RECV_MAX] else datagram;
    if |data| < 7 then Nothing
    else
      var length := UnLe16(data, 5);
      var end := if |data| < 7 + length then |data| else 7 + length;
      Qmi(data[0] as int, UnLe16(data, 1), UnLe16(data, 3), ParseFrom(data, 7, end, map[]))
  }

  // ---------- round trip ----------

  /** The dictionary a list of entries makes, the last of a tag winning. */
  function Store(m: Dict, tlvs: seq<Tlv>): Dict
    decreases |tlvs|
  {
    if tlvs == [] then m else Store(m[tlvs[0].tag := tlvs[0].value], tlvs[1..])
  }

  predicate DistinctTags(tlvs: seq<Tlv>) {
    forall i, j :: 0 <= i < j < |tlvs| ==> tlvs[i].tag != tlvs[j].tag
  }

  lemma Le16RoundTrip(n: nat)
    requires n < 65536
    ensures UnLe16(Le16(n), 0) == n
  {
  }

  /** The parser's loop over an entry that is all there. */
  lemma StepWhole(data: seq<byte>, i: nat, t: Tlv, m: Dict)
    requires Fits(t) && i + 3 + |t.value| <= |data| && data[i..i + 3 + |t.value|] == Entry(t)
    ensures ParseFrom(data, i, |data|, m) == ParseFrom(data, i + 3 + |t.value|, |data|, m[t.tag := t.value])
  {
    var e := data[i..i + 3 + |t.value|];
    Le16RoundTrip(|t.value|);
    assert e[0] == data[i] && e[1] == data[i + 1] && e[2] == data[i + 2];
    assert e[1] == Le16(|t.value|)[0] && e[2] == Le16(|t.value|)[1];
    assert data[i + 3..i + 3 + |t.value|] == e[3..] == t.value;
  }

  /** Where the middle of three pieces lies, also when the whole is cut at n. */
  lemma Middle(pre: seq<byte>, e: seq<byte>, post: seq<byte>, n: nat)
    requires |pre| <= n <= |pre| + |e| + |post|
    ensures var data := (pre + (e + post))[..n];
            if n >= |pre| + |e| then data[|pre|..|pre| + |e|] == e else data[|pre|..] == e[..n - |pre|]
    ensures pre + (e + post) == pre + e + post
  {
  }

  lemma ParseEnd(data: seq<byte>, m: Dict)
    ensures ParseFrom(data, |data|, |data|, m) == m
  {
  }

  lemma {:induction false} ParsesBody(pre: seq<byte>, tlvs: seq<Tlv>, m: Dict)
    requires AllFit(tlvs)
    ensures var data := pre + Body(tlvs); ParseFrom(data, |pre|, |data|, m) == Store(m, tlvs)
    decreases |tlvs|
  {
    hide ParseFrom, Entry;
    var data := pre + Body(tlvs);
    if tlvs == [] {
      ParseEnd(data, m);
    } else {
      var t := tlvs[0];
      var next := pre + Entry(t);
      Middle(pre, Entry(t), Body(tlvs[1..]), |data|);
      assert data[..|data|] == data;
      StepWhole(data, |pre|, t, m);
      ParsesBody(next, tlvs[1..], m[t.tag := t.value]);
    }
  }

  /** With distinct tags, the dictionary holds exactly the entries. */
  lemma {:induction false} StoresAll(m: Dict, tlvs: seq<Tlv>)
    requires DistinctTags(tlvs)
    ensures forall k :: 0 <= k < |tlvs| ==>
              tlvs[k].tag in Store(m, tlvs) && Store(m, tlvs)[tlvs[k].tag] == tlvs[k].value
    ensures forall x :: x in Store(m, tlvs) ==> x in m || exists k :: 0 <= k < |tlvs| && tlvs[k].tag == x
    ensures forall x :: x in m && (forall k :: 0 <= k < |tlvs| ==> tlvs[k].tag != x) ==>
              x in Store(m, tlvs) && Store(m, tlvs)[x] == m[x]
    decreases |tlvs|
  {
    if tlvs != [] {
      var rest := tlvs[1..];
      var m' := m[tlvs[0].tag := tlvs[0].value];
      StoresAll(m', rest);
      forall k | 0 <= k < |tlvs|
        ensures tlvs[k].tag in Store(m, tlvs) && Store(m, tlvs)[tlvs[k].tag] == tlvs[k].value
      {
        if k > 0 {
          assert rest[k - 1] == tlvs[k];
        }
      }
      forall x | x in Store(m, tlvs) && x !in m
        ensures exists k :: 0 <= k < |tlvs| && tlvs[k].tag == x
      {
        if x == tlvs[0].tag {
          assert tlvs[0].tag == x;
        } else {
          assert x in Store(m', rest) && x !in m';
          var k :| 0 <= k < |rest| && rest[k].tag == x;
          assert tlvs[k + 1].tag == x;
        }
      }
    }
  }

  /** The parser's loop over an entry that is cut short ends, with at most a shorter value. */
  lemma StepCut(data: seq<byte>, i: nat, t: Tlv, m: Dict)
    requires Fits(t) && i <= |data| < i + 3 + |t.value| && data[i..] == Entry(t)[..|data| - i]
    ensures var r := ParseFrom(data, i, |data|, m);
            r == m || exists v :: r == m[t.tag := v] && |v| < |t.value|
  {
    if i + 3 <= |data| {
      var e := data[i..];
      Le16RoundTrip(|t.value|);
      assert e[0] == data[i] && e[1] == data[i + 1] && e[2] == data[i + 2];
      assert e[1] == Le16(|t.value|)[0] && e[2] == Le16(|t.value|)[1];
      var v := Slice(data, i + 3, i + 3 + |t.value|);
      assert ParseFrom(data, i, |data|, m) == m[t.tag := v];
    }
  }

  /** A body cut short never gives back its last entry whole. */
  lemma {:induction false} CutLosesLast(pre: seq<byte>, tlvs: seq<Tlv>, m: Dict, n: nat)
    requires AllFit(tlvs) && DistinctTags(tlvs) && tlvs != []
    requires |pre| <= n < |pre| + |Body(tlvs)| && tlvs[|tlvs| - 1].tag !in m
    ensures var last := tlvs[|tlvs| - 1];
            var r := ParseFrom((pre + Body(tlvs))[..n], |pre|, n, m);
            last.tag !in r || r[last.tag] != last.value
    decreases |tlvs|
  {
    hide ParseFrom, Entry;
    var t := tlvs[0];
    var rest := tlvs[1..];
    var next := pre + Entry(t);
    var data := (pre + Body(tlvs))[..n];
    Middle(pre, Entry(t), Body(rest), n);
    if n >= |next| {
      StepWhole(data, |pre|, t, m);
      assert rest != [];
      assert rest[|rest| - 1] == tlvs[|tlvs| - 1];
      CutLosesLast(next, rest, m[t.tag := t.value], n);
    } else {
      StepCut(data, |pre|, t, m);
    }
  }

  predicate Recovered(r: Received, txn: nat, msgId: nat, tlvs: seq<Tlv>) {
    r == Qmi(0, txn, msgId, Store(map[], tlvs))
  }

  lemma ParsesHeader(txn: nat, msgId: nat, body: seq<byte>, n: nat)
    requires txn < 65536 && msgId < 65536 && |body| < 65536 && 7 <= n <= 7 + |body|
    ensures var d := Packet(txn, msgId, body)[..n];
            d[0] == 0 && UnLe16(d, 1) == txn && UnLe16(d, 3) == msgId && UnLe16(d, 5) == |body|
  {
    Le16RoundTrip(txn);
    Le16RoundTrip(msgId);
    Le16RoundTrip(|body|);
    var p := Packet(txn, msgId, body);
    assert p[1..3] == Le16(txn) && p[3..5] == Le16(msgId) && p[5..7] == Le16(|body|);
  }

  /**
    Parsing undoes encoding exactly when the whole packet fits the receive
    buffer: a body of at most 65529 bytes. A longer one, which the 16-bit length
    still allows, loses its last entry.
  */
  lemma RoundTrip(txn: nat, msgId: nat, tlvs: seq<Tlv>)
    requires AllFit(tlvs) && DistinctTags(tlvs) && txn < 65536 && msgId < 65536 && |Body(tlvs)| < 65536
    ensures Recovered(Parse(Packet(txn, msgId, Body(tlvs))), txn, msgId, tlvs) <==> |Body(tlvs)| <= 65529
  {
    var body := Body(tlvs);
    var packet := Packet(txn, msgId, body);
    var head := packet[..7];
    assert packet == head + body;
    if |body| <= RECV_MAX - 7 {
      ParsesHeader(txn, msgId, body, |packet|);
      assert packet[..|packet|] == packet;
      ParsesBody(head, tlvs, map[]);
    } else {
      ParsesHeader(txn, msgId, body, RECV_MAX);
      CutLosesLast(head, tlvs, map[], RECV_MAX);
      StoresAll(map[], tlvs);
    }
  }

  /** What recovery means for the caller: every entry under its tag, and no other tag. */
  lemma RecoversEntries(txn: nat, msgId: nat, tlvs: seq<Tlv>)
    requires AllFit(tlvs) && DistinctTags(tlvs) && txn < 65536 && msgId < 65536 && |Body(tlvs)| <= RECV_MAX - 7
    ensures var r := Parse(Packet(txn, msgId, Body(tlvs)));
            r.Qmi? && r.txn == txn && r.msgId == msgId &&
            (forall k :: 0 <= k < |tlvs| ==> tlvs[k].tag in r.tlvs && r.tlvs[tlvs[k].tag] == tlvs[k].value) &&
            (forall x :: x in r.tlvs ==> exists k :: 0 <= k < |tlvs| && tlvs[k].tag == x)
  {
    RoundTrip(txn, msgId, tlvs);
    StoresAll(map[], tlvs);
  }

  // ---------- the format ----------

  /** Where entry k of a body starts. */
  function EntryAt(tlvs: seq<Tlv>, k: nat): nat
    requires k <= |tlvs|
  {
    if k == 0 then 0 else EntryAt(tlvs, k - 1) + 3 + |tlvs[k - 1].value|
  }

  /** Entry k at its place: the tag, the length with the low byte first, the value. */
  predicate EntryLies(data: seq<byte>, at: nat, t: Tlv) {
    && at + 3 + |t.value| <= |data|
    && data[at] as int == t.tag
    && data[at + 1] as int + 256 * (data[at + 2] as int) == |t.value|
    && data[at + 3..at + 3 + |t.value|] == t.value
  }

  predicate BodyLies(data: seq<byte>, at: nat, tlvs: seq<Tlv>) {
    forall k :: 0 <= k < |tlvs| ==> EntryLies(data, at + EntryAt(tlvs, k), tlvs[k])
  }

  lemma {:induction false} BodyFormat(pre: seq<byte>, tlvs: seq<Tlv>)
    requires AllFit(tlvs)
    ensures |Body(tlvs)| == EntryAt(tlvs, |tlvs|) && BodyLies(pre + Body(tlvs), |pre|, tlvs)
    decreases |tlvs|
  {
    if tlvs != [] {
      var n := |tlvs| - 1;
      var rest, t := tlvs[..n], tlvs[n];
      assert tlvs == rest + [t];
      BodyAppend(rest, t);
      BodyFormat(pre, rest);
      hide BodyLies, Body, Entry;
      EntryAtPrefix(tlvs, n, n);
      assert pre + Body(tlvs) == (pre + Body(rest)) + Entry(t);
      OneMore(pre + Body(rest), |pre|, tlvs);
    }
  }

  lemma OneMore(data: seq<byte>, at: nat, tlvs: seq<Tlv>)
    requires tlvs != [] && Fits(tlvs[|tlvs| - 1]) && BodyLies(data, at, tlvs[..|tlvs| - 1])
    requires |data| == at + EntryAt(tlvs, |tlvs| - 1)
    ensures BodyLies(data + Entry(tlvs[|tlvs| - 1]), at, tlvs)
  {
    hide EntryLies, Entry, EntryAt;
    var n := |tlvs| - 1;
    forall k | 0 <= k < |tlvs|
      ensures EntryLies(data + Entry(tlvs[n]), at + EntryAt(tlvs, k), tlvs[k])
    {
      if k < n {
        EntryAtPrefix(tlvs, n, k);
        LiesLonger(data, Entry(tlvs[n]), at + EntryAt(tlvs[..n], k), tlvs[k]);
      } else {
        EntryAtEnd(data, tlvs[n]);
      }
    }
  }

  lemma EntryAtEnd(pre: seq<byte>, t: Tlv)
    requires Fits(t)
    ensures EntryLies(pre + Entry(t), |pre|, t)
  {
    var d := pre + Entry(t);
    assert d[|pre|..] == Entry(t);
    assert d[|pre|] == Entry(t)[0] && d[|pre| + 1] == Entry(t)[1] && d[|pre| + 2] == Entry(t)[2];
    assert d[|pre| + 3..|pre| + 3 + |t.value|] == Entry(t)[3..] == t.value;
  }

  lemma LiesLonger(data: seq<byte>, more: seq<byte>, at: nat, t: Tlv)
    requires EntryLies(data, at, t)
    ensures EntryLies(data + more, at, t)
  {
    assert (data + more)[at + 3..at + 3 + |t.value|] == data[at + 3..at + 3 + |t.value|];
  }

  lemma {:induction false} EntryAtPrefix(tlvs: seq<Tlv>, n: nat, k: nat)
    requires k <= n <= |tlvs|
    ensures EntryAt(tlvs[..n], k) == EntryAt(tlvs, k)
  {
    if k > 0 {
      EntryAtPrefix(tlvs, n, k - 1);
    }
  }

  /**
    What is on the wire: a zero byte, transaction number, message id and length of
    the rest, each two bytes with the low one first, then the entries in order.
  */
  lemma WireFormat(txn: nat, msgId: nat, tlvs: seq<Tlv>)
    requires AllFit(tlvs) && txn < 65536 && msgId < 65536 && |Body(tlvs)| < 65536
    ensures var p := Packet(txn, msgId, Body(tlvs));
            && |p| == 7 + EntryAt(tlvs, |tlvs|) && p[0] == 0
            && p[1] as int + 256 * (p[2] as int) == txn
            && p[3] as int + 256 * (p[4] as int) == msgId
            && p[5] as int + 256 * (p[6] as int) == |p| - 7
            && forall k :: 0 <= k < |tlvs| ==> EntryLies(p, 7 + EntryAt(tlvs, k), tlvs[k])
  {
    hide Body, EntryLies, Packet, EntryAt;
    var p := Packet(txn, msgId, Body(tlvs));
    HeaderFormat(txn, msgId, Body(tlvs));
    BodyFormat(p[..7], tlvs);
  }

  lemma HeaderFormat(txn: nat, msgId: nat, body: seq<byte>)
    requires txn < 65536 && msgId < 65536 && |body| < 65536
    ensures var p := Packet(txn, msgId, body);
            && p == p[..7] + body && p[0] == 0
            && p[1] as int + 256 * (p[2] as int) == txn
            && p[3] as int + 256 * (p[4] as int) == msgId
            && p[5] as int + 256 * (p[6] as int) == |body|
  {
    var p := Packet(txn, msgId, body);
    ParsesHeader(txn, msgId, body, |p|);
    assert p[..|p|] == p;
  }

  /** The parser's loop over an entry that ends before `end`, whatever follows. */
  lemma StepBefore(data: seq<byte>, i: nat, end: nat, t: Tlv, m: Dict)
    requires i + 3 + |t.value| <= end <= |data| && EntryLies(data, i, t)
    ensures ParseFrom(data, i, end, m) == ParseFrom(data, i + 3 + |t.value|, end, m[t.tag := t.value])
  {
  }

  lemma ParseStops(data: seq<byte>, end: nat, m: Dict)
    requires end <= |data|
    ensures ParseFrom(data, end, end, m) == m
  {
  }

  lemma {:induction false} ParsesUpTo(pre: seq<byte>, tlvs: seq<Tlv>, junk: seq<byte>, m: Dict)
    requires AllFit(tlvs)
    ensures var data := pre + Body(tlvs) + junk;
            ParseFrom(data, |pre|, |pre| + |Body(tlvs)|, m) == Store(m, tlvs)
    decreases |tlvs|
  {
    hide ParseFrom, Entry, EntryLies;
    var data := pre + Body(tlvs) + junk;
    if tlvs == [] {
      ParseStops(data, |pre|, m);
    } else {
      var t := tlvs[0];
      var next := pre + Entry(t);
      EntryAtEnd(pre, t);
      LiesLonger(next, Body(tlvs[1..]) + junk, |pre|, t);
      assert data == next + (Body(tlvs[1..]) + junk) == next + Body(tlvs[1..]) + junk;
      StepBefore(data, |pre|, |pre| + |Body(tlvs)|, t, m);
      ParsesUpTo(next, tlvs[1..], junk, m[t.tag := t.value]);
    }
  }

  /** What comes after the declared length is ignored, for any list of entries. */
  lemma IgnoresTrailing(txn: nat, msgId: nat, tlvs: seq<Tlv>, junk: seq<byte>)
    requires AllFit(tlvs) && txn < 65536 && msgId < 65536 && |Body(tlvs)| + |junk| <= RECV_MAX - 7
    requires |Body(tlvs)| < 65536
    ensures Parse(Packet(txn, msgId, Body(tlvs)) + junk) == Qmi(0, txn, msgId, Store(map[], tlvs))
  {
    var body := Body(tlvs);
    var packet := Packet(txn, msgId, body);
    var head, data := packet[..7], packet + junk;
    assert packet == head + body && packet[..|packet|] == packet;
    ParsesHeader(txn, msgId, body, |packet|);
    assert forall k :: 0 <= k < 7 ==> data[k] == packet[k];
    ParsesUpTo(head, tlvs, junk, map[]);
    assert head + body + junk == data;
  }

  /** A value, though, may run past the declared length: the parser checks only the entry's first three bytes. */
  lemma RunsPastEnd(txn: nat, msgId: nat, t: Tlv)
    requires Fits(t) && txn < 65536 && msgId < 65536 && |t.value| <= RECV_MAX - 10
    ensures var datagram := Packet(txn, msgId, Entry(t)[..3]) + t.value;
            Parse(datagram) == Qmi(0, txn, msgId, map[t.tag := t.value])
  {
    var body := Entry(t)[..3];
    var packet := Packet(txn, msgId, body);
    var data := packet + t.value;
    var head := packet[..7];
    ParsesHeader(txn, msgId, body, |packet|);
    assert packet[..|packet|] == packet;
    assert forall k :: 0 <= k < 10 ==> data[k] == packet[k];
    assert Entry(t) == body + t.value;
    assert data == head + Entry(t);
    EntryAtEnd(head, t);
    assert ParseFrom(data, 7, 10, map[]) == map[t.tag := t.value];
  }

  // ---------- transaction numbers ----------

  function NextTxn(txn: nat): nat { txn % 0xffff + 1 }

  /** The transaction number after k requests. */
  function TxnAfter(txn: nat, k: nat): nat {
    if k == 0 then txn else NextTxn(TxnAfter(txn, k - 1))
  }

  lemma NextRemainder(t: nat)
    ensures (t % 0xffff + 1) % 0xffff == (t + 1) % 0xffff
  {
    assert t == 0xffff * (t / 0xffff) + t % 0xffff;
  }

  lemma {:induction false} TxnClosed(txn: nat, k: nat)
    requires k >= 1
    ensures TxnAfter(txn, k) == (txn + k - 1) % 0xffff + 1
  {
    if k > 1 {
      TxnClosed(txn, k - 1);
      NextRemainder(txn + k - 2);
    }
  }

  lemma SameRemainder(x: nat, y: nat)
    requires x <= y
    ensures x % 0xffff == y % 0xffff <==> (y - x) % 0xffff == 0
  {
    assert x == 0xffff * (x / 0xffff) + x % 0xffff;
    assert y == 0xffff * (y / 0xffff) + y % 0xffff;
  }

  /**
    Transaction numbers are 1 to 65535, and two requests share one exactly when a
    multiple of 65535 lies between them.
  */
  lemma TxnDistinct(txn: nat, a: nat, b: nat)
    requires 1 <= a < b
    ensures 1 <= TxnAfter(txn, a) <= 0xffff
    ensures TxnAfter(txn, a) == TxnAfter(txn, b) <==> (b - a) % 0xffff == 0
  {
    TxnClosed(txn, a);
    TxnClosed(txn, b);
    SameRemainder(txn + a - 1, txn + b - 1);
  }

  // ---------- the client ----------

  class Loc {
    var txn: nat
    var sent: seq<seq<byte>>

    constructor ()
      ensures txn == 0 && sent == []
    {
      txn, sent := 0, [];
    }

    /** Numbers and sends a request; a value that does not fit its field raises after the number is used up. */
    method Request(msgId: nat, tlvs: seq<Tlv>) returns (r: Packed)
      modifies this
      ensures txn == NextTxn(old(txn))
      ensures r.Some? <==> msgId < 65536 && AllFit(tlvs) && |Body(tlvs)| < 65536
      ensures r.Some? ==> r.packet == Packet(txn, msgId, Body(tlvs)) && sent == old(sent) + [r.packet]
      ensures r.None? ==> sent == old(sent)
    {
      txn := txn % 0xffff + 1;
      var body: seq<byte> := [];
      var k := 0;
      while k < |tlvs|
        invariant 0 <= k <= |tlvs|
        invariant AllFit(tlvs[..k]) && body == Body(tlvs[..k])
        invariant txn == NextTxn(old(txn)) && sent == old(sent)
      {
        if tlvs[k].tag >= 256 || |tlvs[k].value| >= 65536 {
          return None;
        }
        BodyAppend(tlvs[..k], tlvs[k]);
        assert tlvs[..k + 1] == tlvs[..k] + [tlvs[k]];
        body := body + Entry(tlvs[k]);
        k := k + 1;
      }
      assert tlvs[..k] == tlvs;
      if msgId >= 65536 || |body| >= 65536 {
        return None;
      }
      var packet := [0] + Le16(txn) + Le16(msgId) + Le16(|body|) + body;
      sent := sent + [packet];
      r := Some(packet);
    }

    /** Takes a datagram from the service apart; the loop ends on any bytes. */
    method Recv(datagram: seq<byte>) returns (r: Received)
      ensures r == Parse(datagram)
    {
      hide Slice;
      var data := if |datagram| > RECV_MAX then datagram[..RECV_MAX] else datagram;
      if |data| < 7 {
        return Nothing;
      }
      var length := UnLe16(data, 5);
      var end := if |data| < 7 + length then |data| else 7 + length;
      var tlvs: Dict := map[];
      var i := 7;
      while i + 3 <= end
        invariant 7 <= i
        invariant ParseFrom(data, i, end, tlvs) == ParseFrom(data, 7, end, map[])
        decreases end - i
      {
        var n := UnLe16(data, i + 1);
        tlvs := tlvs[data[i] as int := Slice(data, i + 3, i + 3 + n)];
        i := i + 3 + n;
      }
      r := Qmi(data[0] as int, UnLe16(data, 1), UnLe16(data, 3), tlvs);
    }
  }

  lemma {:induction false} BodyAppend(tlvs: seq<Tlv>, t: Tlv)
    requires AllFit(tlvs) && Fits(t)
    ensures AllFit(tlvs + [t]) && Body(tlvs + [t]) == Body(tlvs) + Entry(t)
    decreases |tlvs|
  {
    hide Entry;
    var all := tlvs + [t];
    if tlvs == [] {
      assert all[1..] == [];
      assert Body(all) == Entry(t) + [] == Entry(t);
    } else {
      BodyAppend(tlvs[1..], t);
      assert all[1..] == tlvs[1..] + [t];
      assert Body(all) == Entry(tlvs[0]) + (Body(tlvs[1..]) + Entry(t));
    }
  }
}
