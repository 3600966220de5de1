/**
 The Internet checksum (RFC 1071) as the TCP server computes it, and the frames it sends.
 */
module Checksum {
  import opened Common

  function Word(hi: Byte, lo: Byte): (w: nat)
    ensures w <= 0xFFFF
  {
    hi * 256 + lo
  }

  /** Sum of the big-endian 16-bit words; a last odd byte counts as the high half of a word. */
  function WordSum(s: seq<Byte>): nat {
    if |s| == 0 then 0
    else if |s| == 1 then s[0] * 256
    else Word(s[0], s[1]) + WordSum(s[2..])
  }

  /** Fold the carries back in until 16 bits are left. */
  function Fold(sum: nat): (r: nat)
    ensures r <= 0xFFFF
    ensures r % 0xFFFF == sum % 0xFFFF && (r == 0 <==> sum == 0)
    decreases sum
  {
    if sum <= 0xFFFF then sum
    else
      FoldStep(sum);
      Fold(sum % 0x10000 + sum / 0x10000)
  }

  lemma FoldStep(sum: nat)
    requires sum > 0xFFFF
    ensures 0 < sum % 0x10000 + sum / 0x10000 < sum
    ensures (sum % 0x10000 + sum / 0x10000) % 0xFFFF == sum % 0xFFFF
  {
    var h, l := sum / 0x10000, sum % 0x10000;
    assert sum == h * 0xFFFF + (h + l);
    ModShift(h, h + l);
  }

  lemma {:induction false} ModShift(k: nat, x: nat)
    ensures (k * 0xFFFF + x) % 0xFFFF == x % 0xFFFF
    decreases k
  {
    if k > 0 {
      ModShift(k - 1, x);
      assert k * 0xFFFF + x == (k - 1) * 0xFFFF + x + 0xFFFF;
    }
  }

  /** The receiver's test: with the checksum in place everything sums to all ones. */
  predicate Passes(sum: nat) {
    Fold(sum) == 0xFFFF
  }

  function Complement(sum: nat): (c: nat)
    ensures c <= 0xFFFF
  {
    0xFFFF - Fold(sum)
  }

  /** Adding the complement of a sum to that sum passes the test. */
  lemma ComplementPasses(sum: nat)
    ensures Passes(sum + Complement(sum))
  {
    var r := Fold(sum);
    SumsToZero(sum, r);
    var t := sum + Complement(sum);
    assert Fold(t) % 0xFFFF == 0 && Fold(t) > 0;
  }

  lemma SumsToZero(sum: nat, r: nat)
    requires r <= 0xFFFF && r % 0xFFFF == sum % 0xFFFF && (r == 0 <==> sum == 0)
    ensures (sum + (0xFFFF - r)) % 0xFFFF == 0 && sum + (0xFFFF - r) > 0
  {
    var q, q' := sum / 0xFFFF, r / 0xFFFF;
    assert sum - r == (q - q') * 0xFFFF;
    var k := q - q' + 1;
    assert sum + (0xFFFF - r) == k * 0xFFFF;
    ModShift(k, 0);
  }

  /** Putting a word into an even position of zeros adds it to the sum. */
  lemma {:induction false} WordSumPut(s: seq<Byte>, k: nat, hi: Byte, lo: Byte)
    requires k % 2 == 0 && k + 1 < |s| && s[k] == 0 && s[k + 1] == 0
    ensures WordSum(s[k := hi][k + 1 := lo]) == WordSum(s) + Word(hi, lo)
    decreases |s|
  {
    var t := s[k := hi][k + 1 := lo];
    if k == 0 {
      assert t[2..] == s[2..];
    } else {
      WordSumPut(s[2..], k - 2, hi, lo);
      assert t[2..] == s[2..][k - 2 := hi][k - 1 := lo];
    }
  }

  /** The accumulating loop over a buffer. */
  method SumBytes(start: nat, s: seq<Byte>) returns (sum: nat)
    ensures sum == start + WordSum(s)
  {
    sum := start;
    var i := 0;
    assert s[0..] == s;
    while i + 1 < |s|
      invariant 0 <= i <= |s| && sum + WordSum(s[i..]) == start + WordSum(s)
    {
      assert s[i..][2..] == s[i + 2..];
      sum := sum + Word(s[i], s[i + 1]);
      i := i + 2;
    }
    if i < |s| {
      sum := sum + Word(s[i], 0);
    }
  }

  method FoldAll(start: nat) returns (sum: nat)
    ensures sum == Fold(start)
  {
    sum := start;
    while sum > 0xFFFF
      invariant Fold(sum) == Fold(start)
      decreases sum
    {
      FoldStep(sum);
      sum := sum % 0x10000 + sum / 0x10000;
    }
  }

  method IpChecksum(data: seq<Byte>) returns (c: nat)
    ensures c == Complement(WordSum(data)) && c <= 0xFFFF
  {
    var sum := SumBytes(0, data);
    sum := FoldAll(sum);
    c := 0xFFFF - sum;
  }

  /** What the pseudo-header of RFC 793 adds: both addresses, the protocol number and the length. */
  function PseudoSum(src: seq<Byte>, dst: seq<Byte>, len: nat): nat {
    WordSum(src) + WordSum(dst) + 6 + len
  }

  /** It is the sum of the pseudo-header's bytes: addresses, a zero, the protocol number and the length. */
  lemma PseudoHeader(src: seq<Byte>, dst: seq<Byte>, len: nat)
    requires |src| == 4 && |dst| == 4 && len <= 0xFFFF
    ensures PseudoSum(src, dst, len) == WordSum(src + dst + [0, 6] + Be16(len))
  {
    var tail := [0, 6] + Be16(len);
    assert src + dst + [0, 6] + Be16(len) == src + (dst + tail);
    WordSumPlus(src, dst + tail);
    WordSumPlus(dst, tail);
    assert tail[2..] == Be16(len) && Be16(len)[2..] == [];
    assert WordSum(Be16(len)) == len;
  }

  /** Sums of even stretches add up; an odd last byte counts as if a zero followed. */
  lemma {:induction false} WordSumPlus(a: seq<Byte>, b: seq<Byte>)
    requires |a| % 2 == 0
    ensures WordSum(a + b) == WordSum(a) + WordSum(b)
  {
    if |a| == 0 {
      assert a + b == b;
    } else {
      WordSumPlus(a[2..], b);
      assert (a + b)[2..] == a[2..] + b;
    }
  }

  lemma {:induction false} OddLast(s: seq<Byte>)
    requires |s| % 2 == 1
    ensures WordSum(s) == WordSum(s + [0])
  {
    if |s| == 1 {
      assert (s + [0])[2..] == [];
    } else {
      OddLast(s[2..]);
      assert (s + [0])[2..] == s[2..] + [0];
    }
  }

  method TcpChecksum(src: seq<Byte>, dst: seq<Byte>, tcp: seq<Byte>) returns (c: nat)
    requires |src| == 4 && |dst| == 4
    ensures c == Complement(PseudoSum(src, dst, |tcp|) + WordSum(tcp)) && c <= 0xFFFF
  {
    var sum := SumBytes(0, src);
    sum := SumBytes(sum, dst);
    sum := SumBytes(sum + 6 + |tcp|, tcp);
    sum := FoldAll(sum);
    c := 0xFFFF - sum;
  }

  // ---------- frames ----------

  /** Addresses and numbers of one connection, as they go into a segment. */
  datatype Ends = Ends(myMac: seq<Byte>, peerMac: seq<Byte>, myIp: seq<Byte>, peerIp: seq<Byte>,
                       myPort: nat, peerPort: nat, mySeq: nat, peerSeq: nat)

  predicate EndsOk(e: Ends) {
    && |e.myMac| == 6 && |e.peerMac| == 6 && |e.myIp| == 4 && |e.peerIp| == 4
  }

  function Be16(v: nat): (r: seq<Byte>)
    ensures |r| == 2
  {
    [v / 0x100 % 0x100, v % 0x100]
  }

  function Be32(v: nat): (r: seq<Byte>)
    ensures |r| == 4
  {
    [v / 0x1000000 % 0x100, v / 0x10000 % 0x100, v / 0x100 % 0x100, v % 0x100]
  }

  /** Ports and numbers read back, modulo their width. */
  lemma BigEndian(v: nat)
    ensures Word(Be16(v)[0], Be16(v)[1]) == v % 0x1_0000
    ensures 0x1_0000 * Word(Be32(v)[0], Be32(v)[1]) + Word(Be32(v)[2], Be32(v)[3]) == v % 0x1_0000_0000
  {
    Halves(v);
    Halves(v / 0x1_0000);
    assert v / 0x1_0000 / 0x100 == v / 0x100_0000;
  }

  lemma Halves(v: nat)
    ensures v / 0x100 % 0x100 * 0x100 + v % 0x100 == v % 0x1_0000
    ensures v / 0x1_0000 % 0x1_0000 * 0x1_0000 + v % 0x1_0000 == v % 0x1_0000_0000
  {
  }

  const MAXFRAME: nat := 1518

  /** A big-endian word stored at `k`. */
  function Store16(s: seq<Byte>, k: nat, v: nat): (r: seq<Byte>)
    requires k + 1 < |s| && v <= 0xFFFF
    ensures |r| == |s|
  {
    s[k := v / 0x100][k + 1 := v % 0x100]
  }

  /** A stretch of words whose checksum field, at the even offset `k`, was filled from the rest. */
  lemma FilledPasses(s: seq<Byte>, k: nat, extra: nat)
    requires k % 2 == 0 && k + 1 < |s| && s[k] == 0 && s[k + 1] == 0
    ensures Passes(extra + WordSum(Store16(s, k, Complement(extra + WordSum(s)))))
  {
    hide WordSum, Complement, Passes;
    var c := Complement(extra + WordSum(s));
    WordSumPut(s, k, c / 0x100, c % 0x100);
    ComplementPasses(extra + WordSum(s));
  }

  /** The IP header and the TCP segment before their checksums are filled in. */
  function IpHeader(e: Ends, payload: seq<Byte>): seq<Byte> {
    [0x45, 0] + Be16(40 + |payload|) + [0, 0, 0, 0, 64, 6, 0, 0] + e.myIp + e.peerIp
  }

  function Unsigned(e: Ends, flags: Byte, payload: seq<Byte>): seq<Byte> {
    Be16(e.myPort) + Be16(e.peerPort) + Be32(e.mySeq) + Be32(e.peerSeq) + [0x50, flags, 0x20, 0, 0, 0, 0, 0] + payload
  }

  lemma HeadersAre(e: Ends, flags: Byte, payload: seq<Byte>)
    requires EndsOk(e) && 54 + |payload| <= MAXFRAME
    ensures var h := IpHeader(e, payload);
            && |h| == 20 && h[10] == 0 && h[11] == 0 && h[12..16] == e.myIp && h[16..20] == e.peerIp
            && Word(h[2], h[3]) == 40 + |payload| && h[0] == 0x45 && h[1] == 0 && h[4..8] == [0, 0, 0, 0] && h[8] == 64 && h[9] == 6
    ensures var g := Unsigned(e, flags, payload);
            && |g| == 20 + |payload| && g[16] == 0 && g[17] == 0 && g[12..14] == [0x50, flags] && g[14..16] == [0x20, 0]
            && g[18..20] == [0, 0] && g[20..] == payload
            && g[0..2] == Be16(e.myPort) && g[2..4] == Be16(e.peerPort)
            && g[4..8] == Be32(e.mySeq) && g[8..12] == Be32(e.peerSeq)
  {
    hide Be32;
    TcpHeaderIs(e, flags, payload);
  }

  lemma TcpHeaderIs(e: Ends, flags: Byte, payload: seq<Byte>)
    ensures var g := Unsigned(e, flags, payload);
            && |g| == 20 + |payload| && g[16] == 0 && g[17] == 0 && g[12..14] == [0x50, flags] && g[14..16] == [0x20, 0]
            && g[18..20] == [0, 0] && g[20..] == payload
            && g[0..2] == Be16(e.myPort) && g[2..4] == Be16(e.peerPort)
            && g[4..8] == Be32(e.mySeq) && g[8..12] == Be32(e.peerSeq)
  {
    hide Be32;
  }

  /** Storing a word leaves everything else where it was. */
  lemma Stored(s: seq<Byte>, k: nat, v: nat)
    requires k + 1 < |s| && v <= 0xFFFF
    ensures forall i, j :: 0 <= i <= j <= k ==> Store16(s, k, v)[i..j] == s[i..j]
    ensures forall i, j :: k + 2 <= i <= j <= |s| ==> Store16(s, k, v)[i..j] == s[i..j]
    ensures forall i :: 0 <= i < |s| && i != k && i != k + 1 ==> Store16(s, k, v)[i] == s[i]
  {
  }

  /**
   One segment on the wire, or nothing if it would be longer than an Ethernet frame. Whatever the
   payload, its IP header and its TCP segment pass the receiver's checksum tests, and every other
   field of the three headers, the payload and the padding are where the receiver looks for them.
   */
  method BuildFrame(e: Ends, flags: Byte, payload: seq<Byte>) returns (frame: seq<Byte>)
    requires EndsOk(e)
    ensures |frame| == 0 <==> 54 + |payload| > MAXFRAME
    ensures |frame| > 0 ==>
      && |frame| == (if 54 + |payload| < 60 then 60 else 54 + |payload|)
      && frame[0..6] == e.peerMac && frame[6..12] == e.myMac && frame[12..14] == [0x08, 0x00]
      && frame[14] == 0x45 && frame[15] == 0 && Word(frame[16], frame[17]) == 40 + |payload|
      && frame[18..22] == [0, 0, 0, 0] && frame[22] == 64 && frame[23] == 6
      && frame[26..30] == e.myIp && frame[30..34] == e.peerIp
      && frame[34..36] == Be16(e.myPort) && frame[36..38] == Be16(e.peerPort)
      && frame[38..42] == Be32(e.mySeq) && frame[42..46] == Be32(e.peerSeq)
      && frame[46..48] == [0x50, flags] && frame[48..50] == [0x20, 0] && frame[52..54] == [0, 0]
      && frame[54..54 + |payload|] == payload && (forall k :: 54 + |payload| <= k < |frame| ==> frame[k] == 0)
      && Passes(WordSum(frame[14..34]))
      && Passes(PseudoSum(frame[26..30], frame[30..34], 20 + |payload|) + WordSum(frame[34..54 + |payload|]))
  {
    hide WordSum, Fold, Passes, Complement, Store16, IpHeader, Unsigned, Be32, PseudoSum;
    if 54 + |payload| > MAXFRAME {
      return [];
    }
    HeadersAre(e, flags, payload);
    var ih := IpHeader(e, payload);
    var ipsum := IpChecksum(ih);
    FilledPasses(ih, 10, 0);
    ih := Store16(ih, 10, ipsum);
    Stored(IpHeader(e, payload), 10, ipsum);
    var seg := Unsigned(e, flags, payload);
    var ucs := TcpChecksum(e.myIp, e.peerIp, seg);
    FilledPasses(seg, 16, PseudoSum(e.myIp, e.peerIp, |seg|));
    seg := Store16(seg, 16, ucs);
    Stored(Unsigned(e, flags, payload), 16, ucs);
    var eth: seq<Byte> := e.peerMac + e.myMac + [0x08, 0x00];
    var pad: seq<Byte> := [];
    while 34 + |seg| + |pad| < 60
      invariant |pad| == 0 || 34 + |seg| + |pad| <= 60
      invariant forall k :: 0 <= k < |pad| ==> pad[k] == 0
      decreases 60 - |pad|
    {
      pad := pad + [0];
    }
    frame := eth + ih + seg + pad;
    Laid(eth, ih, seg, pad);
    assert seg[20..] == seg[20..|seg|] && Unsigned(e, flags, payload)[20..] == Unsigned(e, flags, payload)[20..|seg|];
  }

  /** Where the parts of a frame are. */
  lemma Laid(eth: seq<Byte>, ih: seq<Byte>, seg: seq<Byte>, pad: seq<Byte>)
    requires |eth| == 14 && |ih| == 20 && |seg| >= 20
    ensures var f := eth + ih + seg + pad;
            && f[0..6] == eth[0..6] && f[6..12] == eth[6..12] && f[12..14] == eth[12..14]
            && f[14..34] == ih && (forall k :: 0 <= k < 20 ==> f[14 + k] == ih[k]) && f[18..22] == ih[4..8]
            && f[26..30] == ih[12..16] && f[30..34] == ih[16..20]
            && f[34..34 + |seg|] == seg && f[34..36] == seg[0..2] && f[36..38] == seg[2..4]
            && f[38..42] == seg[4..8] && f[42..46] == seg[8..12] && f[46..48] == seg[12..14] && f[48..50] == seg[14..16]
            && f[52..54] == seg[18..20] && f[54..34 + |seg|] == seg[20..]
            && forall k :: 34 + |seg| <= k < |f| ==> f[k] == pad[k - 34 - |seg|]
  {
  }
}
