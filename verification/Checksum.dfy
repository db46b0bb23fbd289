/**
 The Internet checksum (section 1 of RFC 1071) and the repair the relay makes to IPv4 packets, whose
 checksums an offloading network stack may have left unfinished.
 */
module Checksum {
  import opened Bytes

  /** The sum of the 16-bit words of a part, an odd last octet padded with zero. */
  function WordSum(part: seq<Byte>): (n: nat) {
    if |part| == 0 then 0
    else if |part| == 1 then 256 * part[0] as int
    else 256 * part[0] as int + part[1] + WordSum(part[2..])
  }

  function TotalSum(parts: seq<seq<Byte>>): (n: nat) {
    if parts == [] then 0 else WordSum(parts[0]) + TotalSum(parts[1..])
  }

  /** Ones' complement folding: the 16-bit number congruent to `n` modulo 65535 that is zero only for zero. */
  function Fold(n: nat): (r: nat)
    ensures r <= 0xffff && r % 0xffff == n % 0xffff && (r == 0 <==> n == 0)
  {
    if n == 0 then 0 else 1 + (n - 1) % 0xffff
  }

  lemma FoldUnique(n: nat, r: nat)
    requires r <= 0xffff && r % 0xffff == n % 0xffff && (r == 0 <==> n == 0)
    ensures r == Fold(n)
  {
  }

  /** The checksum of the words of all parts. */
  function Checksum16(parts: seq<seq<Byte>>): (c: U16) {
    0xffff - Fold(TotalSum(parts))
  }

  /** Folding the carry back in after every word keeps the running total folded. */
  lemma FoldStep(n: nat, word: nat)
    requires word <= 0xffff
    ensures
      var total := Fold(n) + word;
      total % 0x1_0000 + total / 0x1_0000 == Fold(n + word)
  {
    hide Fold;
    var total := Fold(n) + word;
    var folded := total % 0x1_0000 + total / 0x1_0000;
    CarryOnce(total);
    SameRemainder(Fold(n), n, word, folded);
    FoldUnique(n + word, folded);
  }

  lemma CarryOnce(total: nat)
    requires total <= 0x1_fffe
    ensures total % 0x1_0000 + total / 0x1_0000 == if total <= 0xffff then total else total - 0xffff
  {
  }

  lemma SameRemainder(r: nat, n: nat, word: nat, folded: nat)
    requires r % 0xffff == n % 0xffff && (folded == r + word || folded == r + word - 0xffff)
    ensures folded % 0xffff == (n + word) % 0xffff
  {
    assert r == 0xffff * (r / 0xffff) + r % 0xffff && n == 0xffff * (n / 0xffff) + n % 0xffff;
    Multiple(n + word, folded, r / 0xffff - n / 0xffff - (if folded == r + word then 0 else 1));
  }

  lemma Multiple(a: nat, b: nat, k: int)
    requires b == a + 0xffff * k
    ensures b % 0xffff == a % 0xffff
  {
  }

  lemma {:induction false} WordSumSplit(part: seq<Byte>, i: nat)
    requires i <= |part| && i % 2 == 0
    ensures WordSum(part) == WordSum(part[..i]) + WordSum(part[i..])
  {
    if i == 0 {
      assert part[0..] == part;
    } else {
      WordSumSplit(part[2..], i - 2);
      assert part[2..][..i - 2] == part[..i][2..] && part[2..][i - 2..] == part[i..];
    }
  }

  lemma {:induction false} TotalSumAppend(parts: seq<seq<Byte>>, part: seq<Byte>)
    ensures TotalSum(parts + [part]) == TotalSum(parts) + WordSum(part)
  {
    if parts == [] {
      assert [] + [part] == [part] && [part][1..] == [];
    } else {
      assert (parts + [part])[1..] == parts[1..] + [part];
      TotalSumAppend(parts[1..], part);
    }
  }

  lemma OneMoreWord(n: nat, part: seq<Byte>, idx: nat)
    requires idx % 2 == 0 && idx + 2 <= |part|
    ensures
      var total := Fold(n + WordSum(part[..idx])) + 256 * part[idx] as int + part[idx + 1];
      total % 0x1_0000 + total / 0x1_0000 == Fold(n + WordSum(part[..idx + 2]))
  {
    hide Fold;
    var word := 256 * part[idx] as int + part[idx + 1];
    FoldStep(n + WordSum(part[..idx]), word);
    WordSumSplit(part[..idx + 2], idx);
    assert part[..idx + 2][..idx] == part[..idx] && part[..idx + 2][idx..] == [part[idx], part[idx + 1]];
    assert WordSum([part[idx], part[idx + 1]]) == word;
  }

  /** Pads one part, adds its words, and folds the carry after each. */
  method AddPart(total: nat, ghost n: nat, unpadded: seq<Byte>) returns (total': nat)
    requires total == Fold(n)
    ensures total' == Fold(n + WordSum(unpadded))
  {
    hide Fold, WordSum;
    Padded(unpadded);
    var part := if |unpadded| % 2 == 1 then unpadded + [0] else unpadded;
    total' := total;
    var idx := 0;
    Empty(part);
    while idx < |part|
      invariant idx % 2 == 0 && idx <= |part| && |part| % 2 == 0
      invariant total' == Fold(n + WordSum(part[..idx]))
    {
      OneMoreWord(n, part, idx);
      total' := total' + 256 * part[idx] as int + part[idx + 1];
      total' := total' % 0x1_0000 + total' / 0x1_0000;
      idx := idx + 2;
    }
    assert part[..|part|] == part;
  }

  lemma Empty(part: seq<Byte>)
    ensures WordSum(part[..0]) == 0
  {
  }

  /** The accumulating loop over all parts. */
  method ComputeChecksum16(parts: seq<seq<Byte>>) returns (c: U16)
    ensures c == Checksum16(parts)
  {
    hide WordSum;
    var total := 0;
    for p := 0 to |parts|
      invariant total == Fold(TotalSum(parts[..p]))
    {
      total := AddPart(total, TotalSum(parts[..p]), parts[p]);
      assert parts[..p + 1] == parts[..p] + [parts[p]];
      TotalSumAppend(parts[..p], parts[p]);
    }
    assert parts[..|parts|] == parts;
    return 0xffff - total;
  }

  lemma {:induction false} Padded(part: seq<Byte>)
    ensures |part| % 2 == 1 ==> WordSum(part + [0]) == WordSum(part)
  {
    if |part| >= 2 {
      Padded(part[2..]);
      assert (part + [0])[2..] == part[2..] + [0];
    } else if |part| == 1 {
      assert (part + [0])[2..] == [];
    }
  }

  // The checksum as a remainder of one big number

  /** The octets padded to whole 16-bit words. */
  function Even(s: seq<Byte>): (t: seq<Byte>)
    ensures |t| % 2 == 0
  {
    if |s| % 2 == 1 then s + [0] else s
  }

  lemma {:induction false} WordsResidue(s: seq<Byte>)
    requires |s| % 2 == 0
    ensures WordSum(s) % 0xffff == FromBE(s) % 0xffff && (WordSum(s) == 0 <==> FromBE(s) == 0)
    decreases |s|
  {
    if s != [] {
      var n := |s| - 2;
      var front, a, b := s[..n], s[n], s[n + 1];
      var word := 256 * a as int + b;
      WordsResidue(front);
      WordSumSplit(s, n);
      assert s[n..] == [a, b] && WordSum([a, b]) == word;
      assert s[..n + 1][..n] == front;
      assert FromBE(s) == 0x1_0000 * FromBE(front) + word;
      ResidueStep(WordSum(front), FromBE(front), word);
    }
  }

  lemma ResidueStep(w: nat, f: nat, word: nat)
    requires w % 0xffff == f % 0xffff
    ensures (w + word) % 0xffff == (0x1_0000 * f + word) % 0xffff
  {
    SameRemainder(w, f, word, w + word);
    Multiple(f + word, 0x1_0000 * f + word, f);
  }

  /** Read as one big-endian number, the octets leave the complement of their checksum modulo 65535. */
  lemma ChecksumResidue(s: seq<Byte>)
    ensures (0xffff - Checksum16([s])) % 0xffff == FromBE(Even(s)) % 0xffff
    ensures Checksum16([s]) == 0xffff <==> FromBE(Even(s)) == 0
  {
    hide Fold, WordSum, FromBE;
    Padded(s);
    WordsResidue(Even(s));
    OnePart(s);
  }

  lemma OnePart(s: seq<Byte>)
    ensures TotalSum([s]) == WordSum(s)
  {
    hide WordSum;
    assert [s][1..] == [];
  }

  /** Parts of whole words are summed as one string. */
  lemma ChecksumJoins(a: seq<Byte>, b: seq<Byte>)
    requires |a| % 2 == 0
    ensures Checksum16([a, b]) == Checksum16([a + b])
  {
    hide Fold, WordSum;
    assert [a, b][1..] == [b];
    OnePart(b);
    OnePart(a + b);
    WordSumSplit(a + b, |a|);
    assert (a + b)[..|a|] == a && (a + b)[|a|..] == b;
  }

  // A checksum field

  /** The octets with a 16-bit field overwritten. */
  function Put16(s: seq<Byte>, i: nat, value: U16): (s': seq<Byte>)
    requires i + 2 <= |s|
    ensures |s'| == |s|
  {
    s[i := value / 256][i + 1 := value % 256]
  }

  /** A field at an even offset contributes its value to the sum. */
  lemma {:induction false} FieldAdds(s: seq<Byte>, i: nat, value: U16)
    requires i + 2 <= |s| && i % 2 == 0
    ensures WordSum(Put16(s, i, value)) == WordSum(Put16(s, i, 0)) + value
  {
    var v, z := Put16(s, i, value), Put16(s, i, 0);
    if i > 0 {
      FieldAdds(s[2..], i - 2, value);
      assert v[2..] == Put16(s[2..], i - 2, value) && z[2..] == Put16(s[2..], i - 2, 0);
    } else {
      assert v[2..] == z[2..];
    }
  }

  /** Writing the checksum computed over a zeroed field makes the whole sum to zero. */
  lemma ChecksumRepairs(pseudo: seq<seq<Byte>>, s: seq<Byte>, i: nat)
    requires i + 2 <= |s| && i % 2 == 0
    ensures Checksum16(pseudo + [Put16(s, i, Checksum16(pseudo + [Put16(s, i, 0)]))]) == 0
  {
    hide Put16, Fold, WordSum, TotalSum;
    var c := Checksum16(pseudo + [Put16(s, i, 0)]);
    var n := TotalSum(pseudo + [Put16(s, i, 0)]);
    TotalSumAppend(pseudo, Put16(s, i, 0));
    TotalSumAppend(pseudo, Put16(s, i, c));
    FieldAdds(s, i, c);
    assert TotalSum(pseudo + [Put16(s, i, c)]) == n + c;
    FoldUnique(n + c, 0xffff);
  }

  // IPv4 packets

  function HeaderLength(p: seq<Byte>): (n: nat)
    requires |p| >= 20
  {
    p[0] % 16 * 4
  }

  function TotalLength(p: seq<Byte>): (n: nat)
    requires |p| >= 20
  {
    256 * p[2] as int + p[3]
  }

  /** The packets the repair touches. */
  predicate IPv4(p: seq<Byte>) {
    && |p| >= 20 && p[0] / 16 == 4
    && 20 <= HeaderLength(p) <= |p| && HeaderLength(p) <= TotalLength(p)
  }

  function Truncated(p: seq<Byte>): (b: seq<Byte>)
    requires IPv4(p)
    ensures |b| >= HeaderLength(p)
  {
    p[..if |p| <= TotalLength(p) then |p| else TotalLength(p)]
  }

  const TCP: Byte := 6
  const UDP: Byte := 17
  const ICMP: Byte := 1

  /** Where the payload keeps its checksum, when it is long enough to have one. */
  function FieldOffset(protocol: Byte, length: nat): (offset: nat)
    ensures offset % 2 == 0 && (offset > 0 ==> offset + 2 <= length)
  {
    if protocol == TCP && length >= 20 then 16
    else if protocol == UDP && length >= 8 then 6
    else if protocol == ICMP && length >= 4 then 2
    else 0
  }

  /** What is summed ahead of the payload: the pseudo header for TCP and UDP, nothing for ICMP. */
  function Pseudo(b: seq<Byte>, length: nat): (parts: seq<seq<Byte>>)
    requires |b| >= 20 && length <= 0xffff
  {
    if b[9] == ICMP then [] else [b[12..16] + b[16..20] + [0, b[9]] + [length / 256, length % 256]]
  }

  function FixHeader(b: seq<Byte>, ihl: nat): (b': seq<Byte>)
    requires 20 <= ihl <= |b|
    ensures |b'| == |b|
  {
    Put16(b, 10, Checksum16([Put16(b, 10, 0)[..ihl]]))
  }

  function FixPayload(b: seq<Byte>, ihl: nat): (b': seq<Byte>)
    requires 20 <= ihl <= |b| <= 0xffff
    ensures |b'| == |b|
  {
    var offset := FieldOffset(b[9], |b| - ihl);
    if offset == 0 then b
    else Put16(b, ihl + offset, Checksum16(Pseudo(b, |b| - ihl) + [Put16(b[ihl..], offset, 0)]))
  }

  /** The packet with its checksums recomputed, cut to the length it declares; anything else as it was. */
  function Normalize(p: seq<Byte>): (r: seq<Byte>)
    ensures |r| <= |p|
  {
    if !IPv4(p) then p else FixPayload(FixHeader(Truncated(p), HeaderLength(p)), HeaderLength(p))
  }

  // The imperative form

  method WriteField(buf: array<Byte>, i: nat, value: U16)
    requires i + 2 <= buf.Length
    modifies buf
    ensures buf[..] == Put16(old(buf[..]), i, value)
  {
    buf[i] := value / 256;
    buf[i + 1] := value % 256;
  }

  /** Recomputes a transport checksum in place over a copy of the segment with its field cleared. */
  method NormalizeL4Checksum(buf: array<Byte>, ihl: nat, protocol: Byte, offset: nat)
    requires 20 <= ihl <= buf.Length <= 0xffff && protocol == buf[9] && protocol != ICMP
    requires offset > 0 && offset == FieldOffset(protocol, buf.Length - ihl)
    modifies buf
    ensures buf[..] == FixPayload(old(buf[..]), ihl)
  {
    var segment := new Byte[buf.Length - ihl](k requires 0 <= k < buf.Length - ihl reads buf => buf[ihl + k]);
    assert segment[..] == buf[ihl..];
    segment[offset] := 0;
    segment[offset + 1] := 0;
    assert segment[..] == Put16(buf[..][ihl..], offset, 0);
    var pseudo := buf[12..16] + buf[16..20] + [0, protocol] + [segment.Length / 256, segment.Length % 256];
    var csum := ComputeChecksum16([pseudo, segment[..]]);
    assert [pseudo, segment[..]] == [pseudo] + [segment[..]];
    assert pseudo == Pseudo(buf[..], segment.Length)[0];
    WriteField(buf, ihl + offset, csum);
  }

  method NormalizeIcmpChecksum(buf: array<Byte>, ihl: nat)
    requires 20 <= ihl && ihl + 4 <= buf.Length <= 0xffff && buf[9] == ICMP
    modifies buf
    ensures buf[..] == FixPayload(old(buf[..]), ihl)
  {
    hide Checksum16;
    var payload := new Byte[buf.Length - ihl](k requires 0 <= k < buf.Length - ihl reads buf => buf[ihl + k]);
    assert payload[..] == buf[..][ihl..];
    payload[2] := 0;
    payload[3] := 0;
    assert payload[..] == Put16(buf[..][ihl..], 2, 0);
    var icmpCsum := ComputeChecksum16([payload[..]]);
    assert [payload[..]] == Pseudo(buf[..], payload.Length) + [payload[..]];
    WriteField(buf, ihl + 2, icmpCsum);
  }

  method NormalizeHeaderChecksum(buf: array<Byte>, ihl: nat)
    requires 20 <= ihl <= buf.Length
    modifies buf
    ensures buf[..] == FixHeader(old(buf[..]), ihl)
  {
    hide Checksum16;
    WriteField(buf, 10, 0);
    assert buf[..ihl] == buf[..][..ihl];
    var csum := ComputeChecksum16([buf[..ihl]]);
    WriteField(buf, 10, csum);
  }

  method NormalizeIpv4Checksums(packet: seq<Byte>) returns (r: seq<Byte>)
    ensures r == Normalize(packet)
  {
    hide Checksum16, Pseudo;
    if |packet| < 20 {
      return packet;
    }
    var version := packet[0] / 16;
    var ihl := packet[0] % 16 * 4;
    if version != 4 || ihl < 20 || |packet| < ihl {
      return packet;
    }
    var totalLen := 256 * packet[2] as int + packet[3];
    if totalLen < ihl {
      return packet;
    }
    var packetLen := if |packet| <= totalLen then |packet| else totalLen;
    var buf := new Byte[packetLen](k requires 0 <= k < packetLen => packet[k]);
    assert buf[..] == Truncated(packet);
    NormalizeHeaderChecksum(buf, ihl);
    assert buf[..] == FixHeader(Truncated(packet), ihl);
    var protocol := buf[9];
    assert buf[..][9] == protocol;
    var length := packetLen - ihl;
    if protocol == TCP && length >= 20 {
      NormalizeL4Checksum(buf, ihl, protocol, 16);
    } else if protocol == UDP && length >= 8 {
      NormalizeL4Checksum(buf, ihl, protocol, 6);
    } else if protocol == ICMP && length >= 4 {
      NormalizeIcmpChecksum(buf, ihl);
    }
    return buf[..];
  }

  // What the repair achieves

  /** The octets the repair may change. */
  predicate IsChecksumOctet(b: seq<Byte>, ihl: nat, i: nat)
    requires 20 <= ihl <= |b|
  {
    var offset := FieldOffset(b[9], |b| - ihl);
    i == 10 || i == 11 || (offset > 0 && (i == ihl + offset || i == ihl + offset + 1))
  }

  /** Two packets of one length that agree but for their checksum fields. */
  predicate SameButChecksums(b: seq<Byte>, b': seq<Byte>, ihl: nat)
    requires 20 <= ihl <= |b|
  {
    |b'| == |b| && forall i | 0 <= i < |b| && !IsChecksumOctet(b, ihl, i) :: b'[i] == b[i]
  }

  /** Only checksum octets differ from the packet cut to its declared length. */
  lemma OnlyChecksumsChange(p: seq<Byte>)
    requires IPv4(p)
    ensures SameButChecksums(Truncated(p), Normalize(p), HeaderLength(p))
    ensures IPv4(Normalize(p)) && HeaderLength(Normalize(p)) == HeaderLength(p)
    ensures Truncated(Normalize(p)) == Normalize(p)
  {
    hide Checksum16, Pseudo;
    assert Normalize(p)[9] == p[9];
  }

  /** Repairing depends on nothing but the octets it leaves alone. */
  lemma RepairForgets(b: seq<Byte>, b': seq<Byte>, ihl: nat)
    requires 20 <= ihl <= |b| <= 0xffff && SameButChecksums(b, b', ihl)
    ensures FixPayload(FixHeader(b', ihl), ihl) == FixPayload(FixHeader(b, ihl), ihl)
  {
    hide FixHeader, FixPayload;
    HeaderForgets(b, b', ihl);
    PayloadForgets(FixHeader(b, ihl), FixHeader(b', ihl), ihl);
  }

  /** The octets agree outside the two from `at` on, or everywhere if `at` is 0. */
  predicate AgreeBut(b: seq<Byte>, b': seq<Byte>, at: nat) {
    |b'| == |b| && forall i | 0 <= i < |b| && (at > 0 ==> i != at && i != at + 1) :: b'[i] == b[i]
  }

  lemma HeaderForgets(b: seq<Byte>, b': seq<Byte>, ihl: nat)
    requires 20 <= ihl <= |b| && SameButChecksums(b, b', ihl)
    ensures var offset := FieldOffset(b[9], |b| - ihl);
            AgreeBut(FixHeader(b, ihl), FixHeader(b', ihl), if offset == 0 then 0 else ihl + offset)
    ensures FixHeader(b, ihl)[9] == b[9]
  {
    hide Checksum16, FieldOffset;
    assert Put16(b', 10, 0)[..ihl] == Put16(b, 10, 0)[..ihl];
  }

  lemma PayloadForgets(h: seq<Byte>, h': seq<Byte>, ihl: nat)
    requires 20 <= ihl <= |h| <= 0xffff
    requires var offset := FieldOffset(h[9], |h| - ihl); AgreeBut(h, h', if offset == 0 then 0 else ihl + offset)
    ensures FixPayload(h', ihl) == FixPayload(h, ihl)
  {
    hide Checksum16;
    var offset := FieldOffset(h[9], |h| - ihl);
    if offset == 0 {
      assert h == h';
    } else {
      assert h[12..16] == h'[12..16] && h[16..20] == h'[16..20];
      assert Put16(h[ihl..], offset, 0) == Put16(h'[ihl..], offset, 0);
      var v := Checksum16(Pseudo(h, |h| - ihl) + [Put16(h[ihl..], offset, 0)]);
      assert Put16(h, ihl + offset, v) == Put16(h', ihl + offset, v);
    }
  }

  /** Repairing twice is repairing once. */
  lemma NormalizeIdempotent(p: seq<Byte>)
    ensures Normalize(Normalize(p)) == Normalize(p)
  {
    if IPv4(p) {
      hide FixHeader, FixPayload, Truncated;
      OnlyChecksumsChange(p);
      RepairForgets(Truncated(p), Normalize(p), HeaderLength(p));
    }
  }

  /** Which packets are repaired: version 4 with at least five header words, all of them there and declared. */
  lemma RepairedWhen(p: seq<Byte>)
    ensures IPv4(p) <==> && |p| >= 20 && 0x45 <= p[0] <= 0x4f
                         && |p| >= 4 * (p[0] as int - 0x40) && FromBE(p[2..4]) >= 4 * (p[0] as int - 0x40)
    ensures IPv4(p) ==> HeaderLength(p) == 4 * (p[0] as int - 0x40)
    ensures IPv4(p) ==> |Normalize(p)| == if |p| <= FromBE(p[2..4]) then |p| else FromBE(p[2..4])
    ensures !IPv4(p) ==> Normalize(p) == p
  {
    hide FixHeader, FixPayload;
    if |p| >= 20 {
      assert p[2..4][..1] == [p[2]] && FromBE([p[2]]) == p[2];
      assert FromBE(p[2..4]) == 256 * p[2] as int + p[3];
    }
  }

  /** Every octet but those of the header's checksum and of the TCP, UDP or ICMP checksum is the packet's own. */
  lemma RepairedWhere(p: seq<Byte>, i: nat)
    requires IPv4(p) && i < |Normalize(p)|
    ensures |Normalize(p)| <= |p|
    ensures
      var ihl, length := HeaderLength(p), |Normalize(p)| - HeaderLength(p);
      || Normalize(p)[i] == p[i] || i == 10 || i == 11
      || (p[9] == 6 && length >= 20 && (i == ihl + 16 || i == ihl + 17))
      || (p[9] == 17 && length >= 8 && (i == ihl + 6 || i == ihl + 7))
      || (p[9] == 1 && length >= 4 && (i == ihl + 2 || i == ihl + 3))
  {
    hide FixHeader, FixPayload;
    OnlyChecksumsChange(p);
    hide Normalize;
  }

  /** A receiver finds its sums zero: of the header; of a TCP segment or UDP datagram behind source address,
      destination address, protocol and length; of an ICMP message alone. */
  lemma NormalizeVerifies(p: seq<Byte>)
    requires IPv4(p)
    ensures
      var r, ihl := Normalize(p), HeaderLength(p);
      var length := |r| - ihl;
      && 20 <= ihl <= |r| <= 0xffff
      && Checksum16([r[..ihl]]) == 0
      && ((r[9] == 6 && length >= 20) || (r[9] == 17 && length >= 8) ==>
            Checksum16([r[12..16] + r[16..20] + [0, r[9]] + BE16(length), r[ihl..]]) == 0)
      && (r[9] == 1 && length >= 4 ==> Checksum16([r[ihl..]]) == 0)
  {
    hide Checksum16, FixHeader, FixPayload, BE16;
    var r, ihl := Normalize(p), HeaderLength(p);
    SumsVanish(p);
    OnlyChecksumsChange(p);
    hide Normalize;
    var length := |r| - ihl;
    BE16Octets(length);
    assert [r[12..16] + r[16..20] + [0, r[9]] + BE16(length)] + [r[ihl..]]
        == [r[12..16] + r[16..20] + [0, r[9]] + BE16(length), r[ihl..]];
    assert [] + [r[ihl..]] == [r[ihl..]];
  }

  lemma BE16Octets(x: U16)
    ensures BE16(x) == [x / 256, x % 256]
  {
    assert ToBE(x / 256, 1) == [x / 256 % 256];
  }

  /** The same in numbers: each of them, read as one big-endian number, is a multiple of 65535. */
  lemma NormalizeDivides(p: seq<Byte>)
    requires IPv4(p)
    ensures
      var r, ihl := Normalize(p), HeaderLength(p);
      var length := |r| - ihl;
      && 20 <= ihl <= |r| <= 0xffff
      && FromBE(r[..ihl]) % 0xffff == 0
      && ((r[9] == 6 && length >= 20) || (r[9] == 17 && length >= 8) ==>
            FromBE(Even(r[12..16] + r[16..20] + [0, r[9]] + BE16(length) + r[ihl..])) % 0xffff == 0)
      && (r[9] == 1 && length >= 4 ==> FromBE(Even(r[ihl..])) % 0xffff == 0)
  {
    hide Checksum16, Normalize, FromBE, BE16;
    NormalizeVerifies(p);
    var r, ihl := Normalize(p), HeaderLength(p);
    var pseudo := r[12..16] + r[16..20] + [0, r[9]] + BE16(|r| - ihl);
    ZeroSum(r[..ihl]);
    ZeroSum(r[ihl..]);
    ZeroSum(pseudo + r[ihl..]);
    ChecksumJoins(pseudo, r[ihl..]);
    hide Even;
  }

  lemma ZeroSum(s: seq<Byte>)
    ensures Checksum16([s]) == 0 ==> FromBE(Even(s)) % 0xffff == 0
    ensures |s| % 2 == 0 ==> Even(s) == s
  {
    hide Checksum16, FromBE;
    ChecksumResidue(s);
  }

  lemma SumsVanish(p: seq<Byte>)
    requires IPv4(p)
    ensures
      var r, ihl := Normalize(p), HeaderLength(p);
      && |r| == |Truncated(p)|
      && Checksum16([r[..ihl]]) == 0
      && (FieldOffset(r[9], |r| - ihl) > 0 ==> Checksum16(Pseudo(r, |r| - ihl) + [r[ihl..]]) == 0)
  {
    var ihl := HeaderLength(p);
    var b := Truncated(p);
    var h := FixHeader(b, ihl);
    var r := FixPayload(h, ihl);
    HeaderSums(b, ihl);
    hide Checksum16;
    assert r[..ihl] == h[..ihl];
    var offset := FieldOffset(h[9], |h| - ihl);
    if offset > 0 {
      ChecksumRepairs(Pseudo(h, |h| - ihl), h[ihl..], offset);
      assert r[12..16] == h[12..16] && r[16..20] == h[16..20] && r[9] == h[9];
      assert r[ihl..] == Put16(h[ihl..], offset, Checksum16(Pseudo(h, |h| - ihl) + [Put16(h[ihl..], offset, 0)]));
    }
  }

  lemma HeaderSums(b: seq<Byte>, ihl: nat)
    requires 20 <= ihl <= |b|
    ensures Checksum16([FixHeader(b, ihl)[..ihl]]) == 0
  {
    ChecksumRepairs([], b[..ihl], 10);
    hide Checksum16;
    assert Put16(b, 10, 0)[..ihl] == Put16(b[..ihl], 10, 0);
    var c := Checksum16([Put16(b[..ihl], 10, 0)]);
    assert FixHeader(b, ihl)[..ihl] == Put16(b[..ihl], 10, c);
    assert forall x: seq<Byte> :: [] + [x] == [x];
  }
}
