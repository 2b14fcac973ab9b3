/**
 * The blacklist filter of samples/bpf/xdp_ddos01_blacklist_kern.c on one CPU: the parser over the bytes
 * of a frame, and the counters in the maps.  The host is little-endian.
 */
module XdpFilter {
  import opened Runs
  import opened Words

  const TWO64 := TWO32 * TWO32

  type byte = x: int | 0 <= x < 256
  type u64 = x: int | 0 <= x < TWO64

  const XDP_ABORTED := 0
  const XDP_DROP := 1
  const XDP_PASS := 2
  const XDP_TX := 3
  const XDP_ACTION_MAX := XDP_TX + 1

  const ETH_P_802_3_MIN := 0x0600
  const ETH_P_IP := 0x0800
  const ETH_P_8021Q := 0x8100
  const ETH_P_8021AD := 0x88A8
  const IPPROTO_TCP := 6
  const IPPROTO_UDP := 17

  // Header lengths: Ethernet, 802.1Q tag, IPv4 without options (section 3.1 of RFC 791), UDP, TCP
  // without options (section 3.1 of RFC 793).
  const ETH_HLEN := 14
  const VLAN_HLEN := 4
  const IP_HLEN := 20
  const UDP_HLEN := 8
  const TCP_HLEN := 20

  datatype Filter = TCP | UDP

  // ---- What a frame is ----

  datatype Frame =
    | Unparsed                                          // too short for layer 2, or not Ethernet II
    | NotIp
    | IpTruncated
    | Ip(src: u32, l4: L4)

  datatype L4 = OtherProto | L4Truncated | Port(fproto: Filter, dport: nat)

  function Byte(pkt: seq<byte>, at: nat): (r: int)
    requires at < |pkt|
    ensures 0 <= r < 256
  {
    pkt[at]
  }

  // Two bytes in network order, as ntohs gives them.
  function Be16(pkt: seq<byte>, at: nat): (r: nat)
    requires at + 2 <= |pkt|
    ensures r < 65536
  {
    256 * Byte(pkt, at) + Byte(pkt, at + 1)
  }

  // Four bytes as a little-endian host loads them: iph->saddr is used as it is.
  function Raw32(pkt: seq<byte>, at: nat): u32
    requires at + 4 <= |pkt|
  {
    Byte(pkt, at) + 0x100 * Byte(pkt, at + 1) + 0x1_0000 * Byte(pkt, at + 2) + 0x100_0000 * Byte(pkt, at + 3)
  }

  predicate Tagged(pkt: seq<byte>)
    requires |pkt| >= ETH_HLEN
  {
    Be16(pkt, 12) == ETH_P_8021Q || Be16(pkt, 12) == ETH_P_8021AD
  }

  // The offset and the protocol of layer 3, behind at most one VLAN tag.
  function L3Of(pkt: seq<byte>): (off: nat)
    requires |pkt| >= ETH_HLEN
  {
    if Tagged(pkt) then ETH_HLEN + VLAN_HLEN else ETH_HLEN
  }

  predicate Accepted(pkt: seq<byte>) {
    |pkt| >= ETH_HLEN && Be16(pkt, 12) >= ETH_P_802_3_MIN && L3Of(pkt) <= |pkt|
  }

  function Layer4(pkt: seq<byte>, proto: byte, at: nat): L4 {
    if proto == IPPROTO_UDP then (if at + UDP_HLEN <= |pkt| then Port(UDP, Be16(pkt, at + 2)) else L4Truncated)
    else if proto == IPPROTO_TCP then (if at + TCP_HLEN <= |pkt| then Port(TCP, Be16(pkt, at + 2)) else L4Truncated)
    else OtherProto
  }

  function Classify(pkt: seq<byte>): Frame {
    if !Accepted(pkt) then Unparsed
    else
      var l3 := L3Of(pkt);
      if Be16(pkt, l3 - 2) != ETH_P_IP then NotIp
      else if l3 + IP_HLEN > |pkt| then IpTruncated
      else Ip(Raw32(pkt, l3 + 12), Layer4(pkt, pkt[l3 + 9], l3 + IP_HLEN))
  }

  // ---- The maps ----

  datatype Maps = Maps(
    blacklist: map<u32, u64>,
    verdictCnt: map<nat, u64>,
    portBlacklist: map<nat, u32>,
    dropTcp: map<nat, u64>,
    dropUdp: map<nat, u64>)

  // Array maps have every key from the start.
  ghost predicate ArrayMaps(m: Maps) {
    && (forall k :: k in m.verdictCnt <==> 0 <= k < XDP_ACTION_MAX)
    && (forall k :: k in m.portBlacklist <==> 0 <= k < 65536)
    && (forall k :: k in m.dropTcp <==> 0 <= k < 65536)
    && (forall k :: k in m.dropUdp <==> 0 <= k < 65536)
  }

  function Bit(fproto: Filter): nat {
    if fproto == TCP then 1 else 2
  }

  predicate PortBlocked(m: Maps, fproto: Filter, dport: nat) {
    dport in m.portBlacklist && BitAnd(m.portBlacklist[dport], Bit(fproto)) != 0
  }

  /** The verdict on a frame, or none when it is not counted. */
  function Action(m: Maps, f: Frame): nat {
    match f
    case Unparsed => XDP_PASS
    case NotIp => XDP_PASS
    case IpTruncated => XDP_ABORTED
    case Ip(src, l4) =>
      if src in m.blacklist then XDP_DROP
      else if l4 == L4Truncated then XDP_ABORTED
      else if l4.Port? && PortBlocked(m, l4.fproto, l4.dport) then XDP_DROP
      else XDP_PASS
  }

  // *value += 1 on a u64
  function Up64(x: u64): u64 {
    (x + 1) % TWO64
  }

  // *drops += 1 through a u32 pointer to a u64: only the low word counts
  function UpLow(x: u64): u64 {
    (x / TWO32) * TWO32 + (x % TWO32 + 1) % TWO32
  }

  function CountDrop(m: Maps, f: Frame): Maps {
    if !f.Ip? then m
    else if f.src in m.blacklist then m.(blacklist := m.blacklist[f.src := Up64(m.blacklist[f.src])])
    else CountPort(m, f.l4)
  }

  // What a port that is blocked leaves in the maps.
  function CountPort(m: Maps, l4: L4): Maps {
    if !l4.Port? || !PortBlocked(m, l4.fproto, l4.dport) then m
    else if l4.fproto == TCP then
      (if l4.dport in m.dropTcp then m.(dropTcp := m.dropTcp[l4.dport := UpLow(m.dropTcp[l4.dport])]) else m)
    else
      (if l4.dport in m.dropUdp then m.(dropUdp := m.dropUdp[l4.dport := UpLow(m.dropUdp[l4.dport])]) else m)
  }

  function CountVerdict(m: Maps, action: nat): Maps {
    if action in m.verdictCnt then m.(verdictCnt := m.verdictCnt[action := Up64(m.verdictCnt[action])]) else m
  }

  /** What the program leaves in the maps. */
  function Processed(m: Maps, pkt: seq<byte>): Maps {
    var f := Classify(pkt);
    if f == Unparsed then m else CountVerdict(CountDrop(m, f), Action(m, f))
  }

  lemma UnparsedIff(pkt: seq<byte>)
    ensures Classify(pkt) == Unparsed <==> !Accepted(pkt)
  {
  }

  lemma UnparsedPasses(m: Maps)
    ensures Action(m, Unparsed) == XDP_PASS
  {
  }

  lemma CountDropKeepsArrays(m: Maps, f: Frame)
    requires ArrayMaps(m)
    ensures ArrayMaps(CountDrop(m, f))
  {
    hide UpLow, Up64, PortBlocked;
  }

  lemma CountVerdictKeepsArrays(m: Maps, action: nat)
    requires ArrayMaps(m)
    ensures ArrayMaps(CountVerdict(m, action))
  {
    hide Up64;
  }

  // ---- What the program does with a frame, byte by byte ----

  // Bit `bit` of the word for this port is set.
  predicate BitSet(ports: map<nat, u32>, port: nat, bit: nat) {
    port in ports && (ports[port] / (if bit == 0 then 1 else 2)) % 2 == 1
  }

  // The low word of the port's counter has gone up by one.
  function DropCounted(drops: map<nat, u64>, port: nat): map<nat, u64> {
    if port in drops then
      drops[port := drops[port] - drops[port] % 0x1_0000_0000 + (drops[port] % 0x1_0000_0000 + 1) % 0x1_0000_0000]
    else drops
  }

  /** From the layer 4 header at h on: the verdict, 0 aborted, 1 drop or 2 pass, and the maps before and after. */
  ghost predicate PortChecked(m: Maps, m': Maps, pkt: seq<byte>, proto: nat, h: nat, action: nat) {
    if proto == 6 && h + 20 <= |pkt| then
      var port := 256 * (pkt[h + 2] as int) + pkt[h + 3] as int;
      if BitSet(m.portBlacklist, port, 0) then action == 1 && m' == m.(dropTcp := DropCounted(m.dropTcp, port))
      else action == 2 && m' == m
    else if proto == 17 && h + 8 <= |pkt| then
      var port := 256 * (pkt[h + 2] as int) + pkt[h + 3] as int;
      if BitSet(m.portBlacklist, port, 1) then action == 1 && m' == m.(dropUdp := DropCounted(m.dropUdp, port))
      else action == 2 && m' == m
    else
      m' == m && action == if proto == 6 || proto == 17 then 0 else 2
  }

  /** From the IPv4 header at l3 on. */
  ghost predicate IpChecked(m: Maps, m': Maps, pkt: seq<byte>, l3: nat, action: nat) {
    if l3 + 20 > |pkt| then action == 0 && m' == m
    else
      var src := (pkt[l3 + 12] as int) + 0x100 * (pkt[l3 + 13] as int) + 0x1_0000 * (pkt[l3 + 14] as int)
                 + 0x100_0000 * (pkt[l3 + 15] as int);
      if src in m.blacklist then
        action == 1 && m' == m.(blacklist := m.blacklist[src := (m.blacklist[src] as int + 1) % 0x1_0000_0000_0000_0000])
      else PortChecked(m, m', pkt, pkt[l3 + 9], l3 + 20, action)
  }

  predicate HasTag(pkt: seq<byte>) {
    |pkt| >= 14 && ((pkt[12] == 0x81 && pkt[13] == 0) || (pkt[12] == 0x88 && pkt[13] == 0xA8))
  }

  /**
   * The whole frame: passed without a trace when it is too short or not Ethernet II; otherwise the verdict
   * is counted, and IPv4 is looked into.
   */
  ghost predicate FrameChecked(m: Maps, m': Maps, pkt: seq<byte>, action: nat) {
    var l3 := if HasTag(pkt) then 18 else 14;
    if |pkt| < l3 || pkt[12] < 6 then action == 2 && m' == m
    else
      var uncounted := m'.(verdictCnt := m.verdictCnt);
      && (if pkt[l3 - 2] == 8 && pkt[l3 - 1] == 0 then IpChecked(m, uncounted, pkt, l3, action)
          else action == 2 && uncounted == m)
      && action in m.verdictCnt
      && m'.verdictCnt == m.verdictCnt[action := (m.verdictCnt[action] as int + 1) % 0x1_0000_0000_0000_0000]
  }

  lemma LowBits(x: u32)
    ensures BitAnd(x, 1) != 0 <==> x % 2 == 1
    ensures BitAnd(x, 2) != 0 <==> (x / 2) % 2 == 1
  {
    BitByHalves(x, 1);
    BitByHalves(x, 2);
    BitByHalves(x / 2, 1);
  }

  lemma BitByHalves(x: nat, y: nat)
    ensures BitAnd(x, y) == 2 * BitAnd(x / 2, y / 2) + (x % 2) * (y % 2)
    ensures BitAnd(x, 0) == 0
  {
  }

  lemma BlockedByBit(m: Maps, fproto: Filter, port: nat)
    ensures PortBlocked(m, fproto, port) <==> BitSet(m.portBlacklist, port, if fproto == TCP then 0 else 1)
  {
    hide BitAnd;
    if port in m.portBlacklist { LowBits(m.portBlacklist[port]); }
  }

  lemma LowWordUp(drops: map<nat, u64>, port: nat)
    ensures DropCounted(drops, port) == if port in drops then drops[port := UpLow(drops[port])] else drops
  {
  }

  // What the parser makes of the layer 4 header is what its bytes say.
  lemma PortByBytes(m: Maps, pkt: seq<byte>, proto: byte, h: nat)
    ensures var l4 := Layer4(pkt, proto, h);
      PortChecked(m, CountPort(m, l4), pkt, proto, h,
                  if l4 == L4Truncated then XDP_ABORTED
                  else if l4.Port? && PortBlocked(m, l4.fproto, l4.dport) then XDP_DROP else XDP_PASS)
  {
    hide BitSet, PortBlocked, DropCounted, UpLow;
    var l4 := Layer4(pkt, proto, h);
    if l4.Port? {
      BlockedByBit(m, l4.fproto, l4.dport);
      LowWordUp(m.dropTcp, l4.dport);
      LowWordUp(m.dropUdp, l4.dport);
    }
  }

  lemma IpByBytes(m: Maps, pkt: seq<byte>, l3: nat)
    ensures var f := if l3 + IP_HLEN > |pkt| then IpTruncated
                     else Ip(Raw32(pkt, l3 + 12), Layer4(pkt, pkt[l3 + 9], l3 + IP_HLEN));
      IpChecked(m, CountDrop(m, f), pkt, l3, Action(m, f))
  {
    hide PortChecked, CountPort, Layer4, PortBlocked;
    if l3 + IP_HLEN <= |pkt| { PortByBytes(m, pkt, pkt[l3 + 9], l3 + IP_HLEN); }
  }

  /** The verdict and the maps after a frame are those that its bytes call for. */
  lemma FrameByBytes(m: Maps, pkt: seq<byte>)
    requires ArrayMaps(m)
    ensures FrameChecked(m, Processed(m, pkt), pkt, Action(m, Classify(pkt)))
  {
    hide IpChecked, Layer4, PortBlocked, UpLow;
    if Accepted(pkt) {
      var f := Classify(pkt);
      IpByBytes(m, pkt, L3Of(pkt));
      CountsNoVerdict(m, f);
    }
  }

  // Counting a drop leaves the verdicts alone, and a verdict is one of the four.
  lemma CountsNoVerdict(m: Maps, f: Frame)
    ensures CountDrop(m, f).verdictCnt == m.verdictCnt && Action(m, f) < XDP_ACTION_MAX
  {
  }

  // Two frames that agree in every byte that is looked at.
  ghost predicate AgreeWhereRead(a: seq<byte>, b: seq<byte>) {
    && |a| == |b|
    && (|a| >= 14 ==>
          var l3 := if HasTag(a) then 18 else 14;
          && a[12..14] == b[12..14] && (|a| >= l3 ==> a[l3 - 2..l3] == b[l3 - 2..l3])
          && (|a| >= l3 + 20 ==> a[l3 + 9] == b[l3 + 9] && a[l3 + 12..l3 + 16] == b[l3 + 12..l3 + 16])
          && (|a| >= l3 + 24 ==> a[l3 + 22..l3 + 24] == b[l3 + 22..l3 + 24]))
  }

  /** Nothing but these bytes matters: not the source port, say, nor the length fields. */
  lemma OtherBytesIgnored(m: Maps, a: seq<byte>, b: seq<byte>)
    requires AgreeWhereRead(a, b)
    ensures Classify(a) == Classify(b) && Processed(m, a) == Processed(m, b)
  {
    hide CountDrop, CountVerdict, Action, Layer4, Raw32;
    if |a| >= 14 { SamePart(a, b, 12, 2); }
    if Accepted(a) {
      var l3 := L3Of(a);
      SamePart(a, b, l3 - 2, 2);
      if |a| >= l3 + 20 { SameIp(a, b, l3); }
    }
  }

  lemma SameIp(a: seq<byte>, b: seq<byte>, l3: nat)
    requires |a| == |b| >= l3 + 20 && a[l3 + 9] == b[l3 + 9] && a[l3 + 12..l3 + 16] == b[l3 + 12..l3 + 16]
    requires |a| >= l3 + 24 ==> a[l3 + 22..l3 + 24] == b[l3 + 22..l3 + 24]
    ensures Raw32(a, l3 + 12) == Raw32(b, l3 + 12)
    ensures Layer4(a, a[l3 + 9], l3 + 20) == Layer4(b, b[l3 + 9], l3 + 20)
  {
    SamePart(a, b, l3 + 12, 4);
    if |a| >= l3 + 24 { SamePart(a, b, l3 + 22, 2); }
  }

  lemma SamePart(a: seq<byte>, b: seq<byte>, at: nat, n: nat)
    requires at + n <= |a| == |b| && a[at..at + n] == b[at..at + n]
    ensures forall i :: at <= i < at + n ==> a[i] == b[i]
  {
    forall i | at <= i < at + n ensures a[i] == b[i] {
      assert a[i] == a[at..at + n][i - at] && b[i] == b[at..at + n][i - at];
    }
  }

  // ---- The program ----

  class Program {
    var blacklist: map<u32, u64>
    var verdictCnt: map<nat, u64>
    var portBlacklist: map<nat, u32>
    var portBlacklistDropCountTcp: map<nat, u64>
    var portBlacklistDropCountUdp: map<nat, u64>

    function State(): Maps
      reads this
    {
      Maps(blacklist, verdictCnt, portBlacklist, portBlacklistDropCountTcp, portBlacklistDropCountUdp)
    }

    method StatsActionVerdict(action: nat)
      requires ArrayMaps(State())
      modifies this
      ensures State() == CountVerdict(old(State()), action)
    {
      if action >= XDP_ACTION_MAX { return; }
      if action in verdictCnt { verdictCnt := verdictCnt[action := Up64(verdictCnt[action])]; }
    }

    method ParseEth(pkt: seq<byte>) returns (ok: bool, ethProto: nat, l3Offset: nat)
      ensures ok <==> Accepted(pkt)
      ensures ok ==> l3Offset == L3Of(pkt) && 2 <= l3Offset <= |pkt| && ethProto == Be16(pkt, l3Offset - 2)
    {
      ethProto, l3Offset := 0, 0;
      var offset := ETH_HLEN;
      if offset > |pkt| { return false, 0, 0; }
      var ethType := Be16(pkt, 12);
      if ethType < ETH_P_802_3_MIN { return false, 0, 0; }
      if ethType == ETH_P_8021Q || ethType == ETH_P_8021AD {
        var vlanHdr := offset;
        offset := offset + VLAN_HLEN;
        if offset > |pkt| { return false, 0, 0; }
        ethType := Be16(pkt, vlanHdr + 2);
      }
      return true, ethType, offset;
    }

    method ParsePort(pkt: seq<byte>, proto: byte, hdr: nat) returns (action: nat)
      modifies this
      ensures var m, l4 := old(State()), Layer4(pkt, proto, hdr);
        && action == (if l4 == L4Truncated then XDP_ABORTED
                      else if l4.Port? && PortBlocked(m, l4.fproto, l4.dport) then XDP_DROP else XDP_PASS)
        && State() == CountPort(m, l4)
      ensures PortChecked(old(State()), State(), pkt, proto, hdr, action)
    {
      PortByBytes(State(), pkt, proto, hdr);
      var dport, fproto;
      if proto == IPPROTO_UDP {
        if hdr + UDP_HLEN > |pkt| { return XDP_ABORTED; }
        dport, fproto := Be16(pkt, hdr + 2), UDP;
      } else if proto == IPPROTO_TCP {
        if hdr + TCP_HLEN > |pkt| { return XDP_ABORTED; }
        dport, fproto := Be16(pkt, hdr + 2), TCP;
      } else {
        return XDP_PASS;
      }
      if dport in portBlacklist {
        if BitAnd(portBlacklist[dport], Bit(fproto)) != 0 {
          // drop_count_by_fproto
          if fproto == UDP {
            if dport in portBlacklistDropCountUdp {
              portBlacklistDropCountUdp := portBlacklistDropCountUdp[dport := UpLow(portBlacklistDropCountUdp[dport])];
            }
          } else {
            if dport in portBlacklistDropCountTcp {
              portBlacklistDropCountTcp := portBlacklistDropCountTcp[dport := UpLow(portBlacklistDropCountTcp[dport])];
            }
          }
          return XDP_DROP;
        }
      }
      return XDP_PASS;
    }

    method ParseIpv4(pkt: seq<byte>, l3Offset: nat) returns (action: nat)
      modifies this
      ensures var f := if l3Offset + IP_HLEN > |pkt| then IpTruncated
                       else Ip(Raw32(pkt, l3Offset + 12), Layer4(pkt, pkt[l3Offset + 9], l3Offset + IP_HLEN));
        action == Action(old(State()), f) && State() == CountDrop(old(State()), f)
      ensures IpChecked(old(State()), State(), pkt, l3Offset, action)
    {
      IpByBytes(State(), pkt, l3Offset);
      if l3Offset + IP_HLEN > |pkt| { return XDP_ABORTED; }
      var ipSrc := Raw32(pkt, l3Offset + 12);
      if ipSrc in blacklist {
        blacklist := blacklist[ipSrc := Up64(blacklist[ipSrc])];
        return XDP_DROP;
      }
      action := ParsePort(pkt, pkt[l3Offset + 9], l3Offset + IP_HLEN);
    }

    method HandleEthProtocol(pkt: seq<byte>, ethProto: nat, l3Offset: nat) returns (action: nat)
      requires Accepted(pkt) && l3Offset == L3Of(pkt) && ethProto == Be16(pkt, l3Offset - 2)
      modifies this
      ensures action == Action(old(State()), Classify(pkt)) && State() == CountDrop(old(State()), Classify(pkt))
    {
      if ethProto == ETH_P_IP {
        action := ParseIpv4(pkt, l3Offset);
      } else {
        action := XDP_PASS;
      }
    }

    /** The verdict on a frame, and the counters it moves. */
    method XdpProgram(pkt: seq<byte>) returns (action: nat)
      requires ArrayMaps(State())
      modifies this
      ensures action == Action(old(State()), Classify(pkt))
      ensures State() == Processed(old(State()), pkt) && ArrayMaps(State())
      ensures FrameChecked(old(State()), State(), pkt, action)
    {
      FrameByBytes(State(), pkt);
      hide Classify, Accepted, CountDrop, CountVerdict, Action, ArrayMaps, L3Of, Be16;
      UnparsedIff(pkt);
      ghost var m, f := State(), Classify(pkt);
      CountDropKeepsArrays(m, f);
      CountVerdictKeepsArrays(CountDrop(m, f), Action(m, f));
      UnparsedPasses(m);
      var ok, ethProto, l3Offset := ParseEth(pkt);
      if !ok { return XDP_PASS; }
      action := HandleEthProtocol(pkt, ethProto, l3Offset);
      StatsActionVerdict(action);
    }
  }

  // ---- Sums over maps ----

  ghost function SumMap<K>(m: map<K, u64>): nat {
    if m == map[] then 0
    else
      var k :| k in m;
      m[k] + SumMap(m - {k})
  }

  lemma {:induction false} SumRemove<K>(m: map<K, u64>, k: K)
    requires k in m
    ensures SumMap(m) == m[k] + SumMap(m - {k})
    decreases |m|
  {
    var d :| d in m && SumMap(m) == m[d] + SumMap(m - {d});
    if d != k {
      SumRemove(m - {d}, k);
      SumRemove(m - {k}, d);
      assert m - {d} - {k} == m - {k} - {d};
    }
  }

  lemma SumUpdate<K>(m: map<K, u64>, k: K, v: u64)
    ensures SumMap(m[k := v]) + (if k in m then m[k] else 0) == SumMap(m) + v
  {
    SumRemove(m[k := v], k);
    if k in m {
      SumRemove(m, k);
      assert m[k := v] - {k} == m - {k};
    } else {
      assert m[k := v] - {k} == m;
    }
  }

  // ---- The counters over a run ----

  /** The verdicts add up to the frames counted, and the drop verdicts to the drops counted by cause. */
  ghost predicate Balanced(m: Maps, accepted: nat) {
    && ArrayMaps(m) && SumMap(m.verdictCnt) == accepted
    && m.verdictCnt[XDP_DROP] == SumMap(m.blacklist) + SumMap(m.dropTcp) + SumMap(m.dropUdp)
  }

  // No counter that the frame moves is at its limit: 2^64 - 1, or 2^32 - 1 in the low word of a port's.
  predicate BelowLimits(m: Maps, pkt: seq<byte>) {
    var f := Classify(pkt);
    && (f != Unparsed ==> Action(m, f) in m.verdictCnt ==> m.verdictCnt[Action(m, f)] < TWO64 - 1)
    && (f.Ip? && f.src in m.blacklist ==> m.blacklist[f.src] < TWO64 - 1)
    && (f.Ip? && f.src !in m.blacklist && f.l4.Port? && PortBlocked(m, f.l4.fproto, f.l4.dport) ==>
          var drops := if f.l4.fproto == TCP then m.dropTcp else m.dropUdp;
          f.l4.dport in drops ==> drops[f.l4.dport] % TWO32 < TWO32 - 1)
  }

  lemma Up64By(x: u64)
    ensures Up64(x) == x + 1 <==> x < TWO64 - 1
    ensures x == TWO64 - 1 ==> Up64(x) == 0
  {
  }

  lemma UpLowBy(x: u64)
    ensures UpLow(x) == x + 1 <==> x % TWO32 < TWO32 - 1
    ensures x % TWO32 == TWO32 - 1 ==> UpLow(x) == x - (TWO32 - 1)
  {
    var h := x / TWO32;
    assert x == h * TWO32 + x % TWO32;
  }

  // How the sum of the drop counters changes with a frame: by one when it is dropped below the limits.
  lemma DropSum(m: Maps, f: Frame)
    requires ArrayMaps(m)
    ensures var was := SumMap(m.blacklist) + SumMap(m.dropTcp) + SumMap(m.dropUdp);
      var m' := CountDrop(m, f);
      && ArrayMaps(m') && m'.verdictCnt == m.verdictCnt
      && SumMap(m'.blacklist) + SumMap(m'.dropTcp) + SumMap(m'.dropUdp) - was ==
         (if !f.Ip? then 0
          else if f.src in m.blacklist then Up64(m.blacklist[f.src]) - m.blacklist[f.src]
          else if f.l4.Port? && PortBlocked(m, f.l4.fproto, f.l4.dport) && f.l4.dport in m.dropTcp then
            (if f.l4.fproto == TCP then UpLow(m.dropTcp[f.l4.dport]) - m.dropTcp[f.l4.dport]
             else UpLow(m.dropUdp[f.l4.dport]) - m.dropUdp[f.l4.dport])
          else 0)
  {
    hide SumMap, UpLow, Up64, BitAnd;
    if f.Ip? {
      if f.src in m.blacklist {
        SumUpdate(m.blacklist, f.src, Up64(m.blacklist[f.src]));
      } else if f.l4.Port? && PortBlocked(m, f.l4.fproto, f.l4.dport) {
        var dport := f.l4.dport;
        if f.l4.fproto == TCP { SumUpdate(m.dropTcp, dport, UpLow(m.dropTcp[dport])); }
        else { SumUpdate(m.dropUdp, dport, UpLow(m.dropUdp[dport])); }
      }
    }
  }

  lemma VerdictSum(m: Maps, action: nat)
    requires ArrayMaps(m) && action < XDP_ACTION_MAX
    ensures var m' := CountVerdict(m, action);
      && ArrayMaps(m') && m' == m.(verdictCnt := m'.verdictCnt)
      && SumMap(m'.verdictCnt) - SumMap(m.verdictCnt) == Up64(m.verdictCnt[action]) - m.verdictCnt[action]
      && m'.verdictCnt[XDP_DROP] == if action == XDP_DROP then Up64(m.verdictCnt[XDP_DROP]) else m.verdictCnt[XDP_DROP]
  {
    SumUpdate(m.verdictCnt, action, Up64(m.verdictCnt[action]));
  }

  /** A frame keeps the counters balanced exactly when none that it moves is at its limit. */
  lemma FrameBalancedIff(m: Maps, accepted: nat, pkt: seq<byte>)
    requires Balanced(m, accepted)
    ensures Balanced(Processed(m, pkt), if Accepted(pkt) then accepted + 1 else accepted) <==> BelowLimits(m, pkt)
  {
    hide SumMap, UpLow, Up64, BitAnd, Classify, Accepted, CountDrop, CountVerdict;
    UnparsedIff(pkt);
    var f := Classify(pkt);
    if f != Unparsed {
      var a := Action(m, f);
      DropSum(m, f);
      VerdictSum(CountDrop(m, f), a);
      Up64By(m.verdictCnt[a]);
      if f.Ip? && f.src in m.blacklist { Up64By(m.blacklist[f.src]); }
      else if f.Ip? && f.l4.Port? && PortBlocked(m, f.l4.fproto, f.l4.dport) {
        UpLowBy(m.dropTcp[f.l4.dport]);
        UpLowBy(m.dropUdp[f.l4.dport]);
      }
    }
  }

  lemma SumMember<K>(m: map<K, u64>, k: K)
    requires k in m
    ensures m[k] <= SumMap(m)
  {
    SumRemove(m, k);
  }

  /** No counter is near its limit while fewer than 2^32 - 1 frames have been counted. */
  lemma FewFramesBelowLimits(m: Maps, accepted: nat, pkt: seq<byte>)
    requires Balanced(m, accepted) && accepted < TWO32 - 1
    ensures BelowLimits(m, pkt)
  {
    hide SumMap, BitAnd, Classify, Accepted;
    var f := Classify(pkt);
    SumMember(m.verdictCnt, XDP_DROP);
    if f != Unparsed { SumMember(m.verdictCnt, Action(m, f)); }
    if f.Ip? {
      if f.src in m.blacklist {
        SumMember(m.blacklist, f.src);
      } else if f.l4.Port? && PortBlocked(m, f.l4.fproto, f.l4.dport) {
        SumMember(m.dropTcp, f.l4.dport);
        SumMember(m.dropUdp, f.l4.dport);
      }
    }
  }

  // A frame arrives, or user space adds a source or sets a port's bits.  Nothing is deleted.
  datatype Event = Arrives(pkt: seq<byte>) | AddSource(src: u32) | SetPort(dport: nat, bits: u32)

  datatype Run = Run(maps: Maps, accepted: nat)

  function Happen(r: Run, e: Event): Run {
    match e
    case Arrives(pkt) => Run(Processed(r.maps, pkt), if Accepted(pkt) then r.accepted + 1 else r.accepted)
    case AddSource(src) =>
      if src in r.maps.blacklist then r else r.(maps := r.maps.(blacklist := r.maps.blacklist[src := 0]))
    case SetPort(dport, bits) =>
      if dport !in r.maps.portBlacklist then r
      else r.(maps := r.maps.(portBlacklist := r.maps.portBlacklist[dport := bits]))
  }

  ghost predicate Start(r: Run) {
    && ArrayMaps(r.maps) && r.maps.blacklist == map[] && r.accepted == 0
    && (forall k :: k in r.maps.verdictCnt ==> r.maps.verdictCnt[k] == 0)
    && (forall k :: k in r.maps.dropTcp ==> r.maps.dropTcp[k] == 0)
    && (forall k :: k in r.maps.dropUdp ==> r.maps.dropUdp[k] == 0)
  }

  ghost predicate Next(r: Run, r': Run) {
    exists e: Event :: (e.Arrives? ==> BelowLimits(r.maps, e.pkt)) && r' == Happen(r, e)
  }

  ghost predicate InBalance(r: Run) {
    Balanced(r.maps, r.accepted)
  }

  lemma {:induction false} ZeroSum<K>(m: map<K, u64>)
    requires forall k :: k in m ==> m[k] == 0
    ensures SumMap(m) == 0
    decreases |m|
  {
    if m != map[] {
      var k :| k in m && SumMap(m) == m[k] + SumMap(m - {k});
      ZeroSum(m - {k});
    }
  }

  lemma StartBalanced(r: Run)
    requires Start(r)
    ensures InBalance(r)
  {
    ZeroSum(r.maps.verdictCnt);
    ZeroSum(r.maps.dropTcp);
    ZeroSum(r.maps.dropUdp);
  }

  lemma EventBalanced(r: Run, e: Event)
    requires InBalance(r) && (e.Arrives? ==> BelowLimits(r.maps, e.pkt))
    ensures InBalance(Happen(r, e))
  {
    if e.Arrives? { FrameBalancedIff(r.maps, r.accepted, e.pkt); }
    if e.AddSource? { SumUpdate(r.maps.blacklist, e.src, 0); }
  }

  /**
   * Over every run that stays below the limits of the counters: the verdicts add up to the frames that
   * parse_eth accepted, and the drop verdicts to the blacklist, TCP and UDP drop counters together.
   */
  lemma CountersBalance(r: Run, n: nat)
    requires Reach(Start, Next, r, n)
    ensures Balanced(r.maps, r.accepted)
  {
    forall a | Start(a) ensures InBalance(a) { StartBalanced(a); }
    forall a, b | InBalance(a) && Next(a, b) ensures InBalance(b) {
      var e: Event :| (e.Arrives? ==> BelowLimits(a.maps, e.pkt)) && b == Happen(a, e);
      EventBalanced(a, e);
    }
    Induct(Start, Next, InBalance, r, n);
  }

  function After(r: Run, events: seq<Event>): Run {
    if events == [] then r else Happen(After(r, events[..|events| - 1]), events[|events| - 1])
  }

  /** In particular over every sequence of events with fewer than 2^32 accepted frames. */
  lemma {:induction false} FewFramesBalance(r: Run, events: seq<Event>)
    requires Start(r) && After(r, events).accepted < TWO32
    ensures Balanced(After(r, events).maps, After(r, events).accepted)
    decreases |events|
  {
    if events == [] {
      StartBalanced(r);
    } else {
      var before, e := After(r, events[..|events| - 1]), events[|events| - 1];
      FewFramesBalance(r, events[..|events| - 1]);
      if e.Arrives? && Accepted(e.pkt) { FewFramesBelowLimits(before.maps, before.accepted, e.pkt); }
      EventBalanced(before, e);
    }
  }
}
