/** The tc filter builder of tc.py: `mask`, `range_from_mask` and
    `make_filter`.

    Ports are integers below 2^16 and masks are 16-bit values. The bitwise
    operators are Python's, from the Bits module; on a 16-bit mask,
    `~mask & 0xffff` is `0xffff - mask` and `(mask << 1) & 0xffff` is
    `(mask * 2) % 0x10000`. */
module Tc {
  import opened Outcomes
  import opened Text
  import opened Bits

  /** A TCP or UDP port number. */
  type Port = p: nat | p < 0x10000

  /** A tc u32 key `value mask` matches a port exactly when the port agrees
      with the value on every bit the mask sets. */
  predicate RuleMatches(value: nat, mask: nat, p: nat)
  {
    And(p, mask) == And(value, mask)
  }

  /** `range_from_mask(n, mask)`: the range reported for a rule anchored at
      `n`, from `n` itself up to `n` with every bit the mask leaves free
      set. */
  function RangeFromMask(n: nat, mask: nat): (r: (nat, nat))
    requires mask <= 0xFFFF
    ensures r.0 == n <= r.1
    ensures n < 0x10000 ==> r.1 < 0x10000
  {
    OrAtLeast(n, 0xFFFF - mask);
    var hi := Or(n, 0xFFFF - mask);
    assert n < 0x10000 ==> hi < 0x10000 by {
      if n < 0x10000 {
        Pow2Of16();
        OrBelow(n, 0xFFFF - mask, 16);
      }
    }
    (n, hi)
  }

  lemma Pow2Of16()
    ensures Pow2(11) == 0x800 && Pow2(15) == 0x8000 && Pow2(16) == 0x10000
  {
    assert Pow2(2) == 4;
    assert Pow2(4) == 16 by { assert Pow2(3) == 8; }
    assert Pow2(6) == 64 by { assert Pow2(5) == 32; }
    assert Pow2(8) == 256 by { assert Pow2(7) == 128; }
    assert Pow2(10) == 1024 by { assert Pow2(9) == 512; }
    assert Pow2(13) == 0x2000 by { assert Pow2(12) == 0x1000; }
    assert Pow2(15) == 0x8000 by { assert Pow2(14) == 0x4000; }
  }

  /** The 16-bit mask that leaves the low `free` bits of a port free and
      fixes the others: 0x8000 for 15 free bits, 0xffff for none, 0 for
      all 16. */
  function RunMask(free: nat): (m: nat)
    requires free <= 16
    ensures m <= 0xFFFF
  {
    Pow2Of16();
    Run(16, free)
  }

  /** The range reported for a run mask ends at `n` with its free bits set. */
  lemma RangeOfRunMask(n: nat, free: nat)
    requires free <= 16
    ensures RangeFromMask(n, RunMask(free)) == (n, SetLow(n, free))
  {
    Pow2Of16();
    OrSetsLow(n, free);
  }

  /** The loop body `mask = mask | (mask >> 1)` fixes one more bit. */
  lemma GrowMask(free: nat)
    requires 1 <= free <= 15
    ensures Or(RunMask(free), RunMask(free) / 2) == RunMask(free - 1)
  {
    var m := RunMask(free);
    RunHalf(16, free);
    assert m / 2 == Run(15, free - 1);
    GrowRun(16, free);
  }

  /** `(mask << 1) & 0xffff` frees one more bit; 0x8000 becomes 0. */
  lemma ShiftMask(free: nat)
    requires free <= 15
    ensures (RunMask(free) * 2) % 0x10000 == RunMask(free + 1)
  {
    Pow2Of16();
    Pow2Monotone(free + 1, 16);
    assert Pow2(free + 1) == 2 * Pow2(free);
  }

  /** The loop guard of `mask`, for the mask with `free` free bits: the range
      reported for `start` still ends above `end`. */
  predicate Continues(start: nat, end: nat, free: nat)
  {
    SetLow(start, free) > end
  }

  /** The loop of `mask` entered with `free` free bits, returning the number
      of free bits of the mask it returns after relaxing it by one bit. The
      range of the mask with no free bit is `start` alone, so the loop stops
      there at the latest when `start <= end`. */
  function Relaxed(start: nat, end: nat, free: nat): nat
    requires start <= end && free <= 15
    decreases free
  {
    if Continues(start, end, free) then Relaxed(start, end, free - 1) else free + 1
  }

  /** The number of free bits of the mask `mask(start, end)` returns. */
  function FinalFree(start: nat, end: nat): (free: nat)
    requires start <= end
    ensures IsResult(start, end, free)
  {
    RelaxedIsResult(start, end, 15);
    Relaxed(start, end, 15)
  }

  /** The numeric mask `mask(start, end)` returns (before `hex`). */
  function FinalMask(start: nat, end: nat): nat
    requires start <= end
  {
    RunMask(FinalFree(start, end))
  }

  /** What `mask` computes, characterised without running its loop: with
      one bit fewer free the reported range does not pass `end`, and unless
      every bit is free it does with `free` bits free. */
  predicate IsResult(start: nat, end: nat, free: nat)
  {
    1 <= free <= 16 && !Continues(start, end, free - 1) && (free == 16 || Continues(start, end, free))
  }

  lemma {:induction false} RelaxedIsResult(start: nat, end: nat, free: nat)
    requires start <= end && free <= 15
    requires free == 15 || Continues(start, end, free + 1)
    ensures IsResult(start, end, Relaxed(start, end, free))
    decreases free
  {
    if Continues(start, end, free) {
      RelaxedIsResult(start, end, free - 1);
    }
  }

  /** There is only one result: the ranges grow with the number of free
      bits. */
  lemma ResultIsUnique(start: nat, end: nat, f1: nat, f2: nat)
    requires IsResult(start, end, f1) && IsResult(start, end, f2)
    ensures f1 == f2
  {
    if f1 < f2 {
      SetLowMonotone(start, f1, f2 - 1);
    } else if f2 < f1 {
      SetLowMonotone(start, f2, f1 - 1);
    }
  }

  /** `mask(start, end)`: grows a run of fixed high bits from 0x8000 while the
      range reported for `start` still ends above `end`, then frees the last
      bit again; returns the mask as `hex` prints it and the reported range.
      The loop does not end when `start > end`. */
  method Mask(start: Port, end: Port) returns (hexMask: string, range: (nat, nat))
    requires start <= end
    ensures hexMask == MaskText(FinalMask(start, end))
    ensures range == RangeFromMask(start, FinalMask(start, end))
  {
    var mask: nat := 0x8000;
    ghost var free: nat := 15;
    Pow2Of16();
    RangeOfRunMask(start, free);
    while RangeFromMask(start, mask).1 > end
      invariant free <= 15 && mask == RunMask(free)
      invariant RangeFromMask(start, mask).1 == SetLow(start, free)
      invariant Relaxed(start, end, free) == FinalFree(start, end)
      decreases free
    {
      GrowMask(free);
      mask := Or(mask, mask / 2);
      free := free - 1;
      RangeOfRunMask(start, free);
    }
    ShiftMask(free);
    mask := (mask * 2) % 0x10000;
    hexMask := MaskText(mask);
    range := RangeFromMask(start, mask);
  }

  /** The reported range never falls short: it reaches `end`. */
  lemma MaskCoversEnd(start: Port, end: Port)
    requires start <= end
    ensures RangeFromMask(start, FinalMask(start, end)).1 >= end
  {
    var f := FinalFree(start, end);
    RangeOfRunMask(start, f);
    if f == 16 {
      Pow2Of16();
      SetLowFull(start, 16);
    }
  }

  /** The mask always leaves at least one bit free, so its rule never
      matches a single port; with one bit fewer free the range would not
      pass `end`; and when the loop body never runs the mask is 0, a rule
      that matches every port. */
  lemma MaskFreesABit(start: Port, end: Port)
    requires start <= end
    ensures 1 <= FinalFree(start, end) <= 16
    ensures FinalMask(start, end) == RunMask(FinalFree(start, end))
    ensures SetLow(start, FinalFree(start, end) - 1) <= end
    ensures !Continues(start, end, 15) ==> FinalMask(start, end) == 0
  {
    var f := FinalFree(start, end);
    if f < 16 {
      SetLowMonotone(start, f, 15);
    }
  }

  /** Once the loop body has run, the reported range overshoots `end`: the
      relaxed mask is one whose range the loop had already found too wide. */
  lemma MaskOvershootsEnd(start: Port, end: Port)
    requires start <= end && Continues(start, end, 15)
    ensures RangeFromMask(start, FinalMask(start, end)).1 > end
  {
    var f := FinalFree(start, end);
    RangeOfRunMask(start, f);
  }

  /** The ports a rule with a run mask matches: those that agree with the
      value above the free bits, that is, from the value with its free bits
      cleared up to the value with them set. This is the range
      `range_from_mask` is meant to report. */
  function MatchedRange(value: Port, free: nat): (r: (nat, nat))
    requires free <= 16
    ensures r.0 <= value <= r.1
    ensures forall p: Port {:trigger RuleMatches(value, RunMask(free), p)} ::
      RuleMatches(value, RunMask(free), p) <==> r.0 <= p <= r.1
  {
    Pow2Of16();
    ClearSetBounds(value, free);
    forall p: Port
      ensures RuleMatches(value, RunMask(free), p) <==> ClearLow(value, free) <= p <= SetLow(value, free)
    {
      AndClearsLow(p, 16, free);
      AndClearsLow(value, 16, free);
      SameHighBits(p, value, free);
    }
    (ClearLow(value, free), SetLow(value, free))
  }

  /** The reported range is matched by the rule and ends where the matched
      range ends; only its lower bound can differ, and it is never below
      the matched one. */
  lemma ReportedWithinMatched(start: Port, end: Port)
    requires start <= end
    ensures var m := MatchedRange(start, FinalFree(start, end));
      var r := RangeFromMask(start, FinalMask(start, end));
      m.0 <= r.0 && r.1 == m.1
  {
    MaskFreesABit(start, end);
    RangeOfRunMask(start, FinalFree(start, end));
  }

  /** Every port of the reported range is matched by the rule `start mask`. */
  lemma ReportedRangeIsMatched(start: Port, end: Port, p: Port)
    requires start <= end
    requires RangeFromMask(start, FinalMask(start, end)).0 <= p <= RangeFromMask(start, FinalMask(start, end)).1
    ensures RuleMatches(start, FinalMask(start, end), p)
  {
    ReportedWithinMatched(start, end);
    var m := MatchedRange(start, FinalFree(start, end));
    assert RuleMatches(start, RunMask(FinalFree(start, end)), p);
  }

  /** 5000 with its low 10 or 11 bits cleared is 4096, computed a bit at a
      time. */
  lemma ClearLowOf5000()
    ensures ClearLow(5000, 10) == 4096 && ClearLow(5000, 11) == 4096
  {
    ClearLowOf5000By(10);
    ClearLowOf5000By(11);
  }

  lemma ClearLowOf5000By(k: nat)
    requires k == 10 || k == 11
    ensures ClearLow(5000, k) == 4096
  {
    var n := [5000, 2500, 1250, 625, 312, 156, 78, 39, 19, 9, 4, 2];
    var c := [4096, 2048, 1024, 512, 256, 128, 64, 32, 16, 8, 4, 2];
    var i := k;
    assert ClearLow(n[i], 0) == c[i];
    while i > 0
      invariant 0 <= i <= k && ClearLow(n[i], k - i) == c[i]
    {
      i := i - 1;
      assert n[i] / 2 == n[i + 1] && c[i] == 2 * c[i + 1];
    }
  }

  /** The example of the docstring of `mask`, as the code computes it: the
      loop stops with 10 free bits, so the mask keeps 11 bits free. */
  lemma MaskExampleFree()
    ensures FinalFree(5000, 6000) == 11
  {
    Pow2Of16();
    ClearLowOf5000();
    SetIsClearPlusOnes(5000, 10);
    SetIsClearPlusOnes(5000, 11);
    assert IsResult(5000, 6000, 11);
    ResultIsUnique(5000, 6000, 11, FinalFree(5000, 6000));
  }

  /** So the rule is `5000 0xf800`, `mask` returns the text "0xf800", and
      the reported range is 5000..6143. */
  lemma MaskExample()
    ensures FinalMask(5000, 6000) == 0xF800
    ensures MaskText(FinalMask(5000, 6000)) == "0xf800"
    ensures RangeFromMask(5000, FinalMask(5000, 6000)) == (5000, 6143)
  {
    MaskExampleFree();
    Pow2Of16();
    RangeOfRunMask(5000, 11);
    ClearLowOf5000();
    SetIsClearPlusOnes(5000, 11);
    assert Digits(0xF, 16) == "f";
    assert Digits(0xF8, 16) == "f8";
    assert Digits(0xF80, 16) == "f80";
  }

  /** `range_from_mask` reports `start` as the lower bound, but the rule also
      matches ports below `start`: for `mask(5000, 6000)` the rule
      `5000 0xf800` matches port 4096, outside the reported 5000..6143, and
      the range it matches is 4096..6143. */
  lemma ReportedRangeMissesMatches()
    ensures RuleMatches(5000, FinalMask(5000, 6000), 4096)
    ensures 4096 < RangeFromMask(5000, FinalMask(5000, 6000)).0
    ensures MatchedRange(5000, FinalFree(5000, 6000)) == (4096, 6143)
  {
    MaskExampleFree();
    MaskExample();
    Pow2Of16();
    ClearLowOf5000();
    SetIsClearPlusOnes(5000, 11);
    var m := MatchedRange(5000, 11);
    assert RuleMatches(5000, RunMask(11), 4096);
  }

  /** The IP protocol number `make_filter` puts in the rule. */
  function ProtocolNumber(protocol: string): (r: Result<nat>)
    ensures r.Ok? <==> protocol == "tcp" || protocol == "udp"
  {
    if protocol == "tcp" then Ok(6)
    else if protocol == "udp" then Ok(17)
    else Err(Exception("unknown protocol " + protocol + ", must be (tcp|udp)"))
  }

  /** A filter built by `make_filter`: the tc invocation and the port ranges
      its rule reports for source and destination. */
  datatype FilterRule = FilterRule(command: string, srcRange: (nat, nat), dstRange: (nat, nat))

  /** The indentation the f-string of `make_filter` carries on every line;
      each backslash-newline joins the lines with it. */
  const Indent := "        "

  /** One line of the f-string: indented, its text, and the space before
      the backslash that joins it to the next. */
  function Line(text: string): string
  {
    Indent + text + " "
  }

  /** The pieces of the tc invocation, one per source line of the f-string. */
  function CommandParts(proto: nat, srcIp: string, dstIp: string,
                        sport: string, sportMask: string, dport: string, dportMask: string): seq<string>
  {
    [Line("sudo tc filter add dev 10gp1"),
     Line("parent 1:"),
     Line("protocol ip prio 6"),
     Line("u32"),
     Line("protocol " + IntToString(proto) + " 0xff"),
     Line("match ip src " + srcIp),
     Line("match ip dst " + dstIp),
     Line("match ip sport " + sport + " " + sportMask),
     Line("match dport " + dport + " " + dportMask),
     Indent + "flowid 1:2"]
  }

  /** A port as the f-string prints it. */
  function PortText(p: Port): string
  {
    IntToString(p)
  }

  /** A mask as `mask` returns it, through `hex`. */
  function MaskText(m: nat): string
  {
    Hex(m)
  }

  /** The tc invocation for a protocol number, the two addresses, and the
      start and mask of each port range. */
  function FilterCommand(proto: nat, srcIp: string, dstIp: string,
                         sport: Port, sportMask: nat, dport: Port, dportMask: nat): string
  {
    Join("", CommandParts(proto, srcIp, dstIp, PortText(sport), MaskText(sportMask),
                          PortText(dport), MaskText(dportMask)))
  }

  /** `make_filter(src_ip, dst_ip, protocol, src_portrange, dst_portrange)`
      as a value. The port ranges must be ordered whenever the protocol is
      accepted, since `mask` does not return otherwise. */
  function Filter(srcIp: string, dstIp: string, protocol: string,
                  src: (Port, Port), dst: (Port, Port)): (r: Result<FilterRule>)
    requires ProtocolNumber(protocol).Ok? ==> src.0 <= src.1 && dst.0 <= dst.1
    ensures r.Ok? <==> protocol == "tcp" || protocol == "udp"
    ensures r.Err? ==> r.error == Exception("unknown protocol " + protocol + ", must be (tcp|udp)")
    ensures r.Ok? ==> r.value.srcRange.0 == src.0 && src.1 <= r.value.srcRange.1
    ensures r.Ok? ==> r.value.dstRange.0 == dst.0 && dst.1 <= r.value.dstRange.1
  {
    match ProtocolNumber(protocol)
    case Err(e) => Err(e)
    case Ok(proto) =>
      MaskCoversEnd(src.0, src.1);
      MaskCoversEnd(dst.0, dst.1);
      var sportMask := FinalMask(src.0, src.1);
      var dportMask := FinalMask(dst.0, dst.1);
      Ok(FilterRule(
        FilterCommand(proto, srcIp, dstIp, src.0, sportMask, dst.0, dportMask),
        RangeFromMask(src.0, sportMask),
        RangeFromMask(dst.0, dportMask)))
  }

  /** `make_filter`: picks the protocol number, computes both masks with
      `mask`, and formats the tc invocation. */
  method MakeFilter(srcIp: string, dstIp: string, protocol: string,
                    src: (Port, Port), dst: (Port, Port)) returns (r: Result<FilterRule>)
    requires ProtocolNumber(protocol).Ok? ==> src.0 <= src.1 && dst.0 <= dst.1
    ensures r == Filter(srcIp, dstIp, protocol, src, dst)
  {
    var proto: nat;
    if protocol == "tcp" {
      proto := 6;
    } else if protocol == "udp" {
      proto := 17;
    } else {
      return Err(Exception("unknown protocol " + protocol + ", must be (tcp|udp)"));
    }
    var s, d := src.0, src.1;
    var sportMask, sportRange := Mask(s, d);
    var sport := s;
    s, d := dst.0, dst.1;
    var dportMask, dportRange := Mask(s, d);
    var dport := s;
    var filterStr := Join("", CommandParts(proto, srcIp, dstIp, PortText(sport), sportMask, PortText(dport), dportMask));
    r := Ok(FilterRule(filterStr, sportRange, dportRange));
  }

  /** `make_filter` rejects every protocol but tcp and udp, with the
      message the source gives. */
  lemma FilterRejectsUnknownProtocol(srcIp: string, dstIp: string, protocol: string,
                                      src: (Port, Port), dst: (Port, Port))
    requires protocol != "tcp" && protocol != "udp"
    ensures Filter(srcIp, dstIp, protocol, src, dst)
      == Err(Exception("unknown protocol " + protocol + ", must be (tcp|udp)"))
  {}

  /** An accepted filter reports the ranges `mask` computes for each
      direction; by MaskCoversEnd they start at the requested starts and
      reach the requested ends. */
  lemma FilterRanges(srcIp: string, dstIp: string, protocol: string,
                     src: (Port, Port), dst: (Port, Port))
    requires protocol == "tcp" || protocol == "udp"
    requires src.0 <= src.1 && dst.0 <= dst.1
    ensures Filter(srcIp, dstIp, protocol, src, dst).Ok?
    ensures Filter(srcIp, dstIp, protocol, src, dst).value.srcRange == RangeFromMask(src.0, FinalMask(src.0, src.1))
    ensures Filter(srcIp, dstIp, protocol, src, dst).value.dstRange == RangeFromMask(dst.0, FinalMask(dst.0, dst.1))
  {}

  /** An accepted filter's command uses protocol number 6 for tcp and 17
      for udp, and the start and computed mask of each range. */
  lemma FilterCommandFor(srcIp: string, dstIp: string, protocol: string,
                         src: (Port, Port), dst: (Port, Port))
    requires protocol == "tcp" || protocol == "udp"
    requires src.0 <= src.1 && dst.0 <= dst.1
    ensures Filter(srcIp, dstIp, protocol, src, dst).Ok?
    ensures Filter(srcIp, dstIp, protocol, src, dst).value.command ==
      FilterCommand(if protocol == "tcp" then 6 else 17, srcIp, dstIp,
                    src.0, FinalMask(src.0, src.1), dst.0, FinalMask(dst.0, dst.1))
  {}

  /** The command carries the protocol number, as tc's `protocol N 0xff`. */
  lemma CommandNamesProtocol(proto: nat, srcIp: string, dstIp: string,
                             sport: Port, sportMask: nat, dport: Port, dportMask: nat)
    ensures Contains(FilterCommand(proto, srcIp, dstIp, sport, sportMask, dport, dportMask),
                     "protocol " + IntToString(proto) + " 0xff")
  {
    var parts := CommandParts(proto, srcIp, dstIp, PortText(sport), MaskText(sportMask),
                              PortText(dport), MaskText(dportMask));
    PartIsContained(parts, 4, "protocol " + IntToString(proto) + " 0xff");
  }

  /** The command carries both addresses. */
  lemma CommandNamesAddresses(proto: nat, srcIp: string, dstIp: string,
                              sport: Port, sportMask: nat, dport: Port, dportMask: nat)
    ensures Contains(FilterCommand(proto, srcIp, dstIp, sport, sportMask, dport, dportMask),
                     "match ip src " + srcIp)
    ensures Contains(FilterCommand(proto, srcIp, dstIp, sport, sportMask, dport, dportMask),
                     "match ip dst " + dstIp)
  {
    var parts := CommandParts(proto, srcIp, dstIp, PortText(sport), MaskText(sportMask),
                              PortText(dport), MaskText(dportMask));
    PartIsContained(parts, 5, "match ip src " + srcIp);
    PartIsContained(parts, 6, "match ip dst " + dstIp);
  }

  /** The command carries the fixed parts of the rule: the `ip` protocol at
      priority 6, and the class `flowid 1:2` it steers matches to. */
  lemma CommandNamesClass(proto: nat, srcIp: string, dstIp: string,
                          sport: Port, sportMask: nat, dport: Port, dportMask: nat)
    ensures Contains(FilterCommand(proto, srcIp, dstIp, sport, sportMask, dport, dportMask),
                     "protocol ip prio 6")
    ensures Contains(FilterCommand(proto, srcIp, dstIp, sport, sportMask, dport, dportMask),
                     "flowid 1:2")
  {
    var parts := CommandParts(proto, srcIp, dstIp, PortText(sport), MaskText(sportMask),
                              PortText(dport), MaskText(dportMask));
    PartIsContained(parts, 2, "protocol ip prio 6");
    JoinOccurs("", parts, 9);
    assert Indent + "flowid 1:2" + "" == parts[9];
    assert Contains(Join("", parts), parts[9]);
    ContainsWithin(Join("", parts), Indent, "flowid 1:2", "");
  }

  /** The command carries the source port with its mask in hexadecimal. */
  lemma CommandNamesSourcePort(proto: nat, srcIp: string, dstIp: string,
                               sport: Port, sportMask: nat, dport: Port, dportMask: nat)
    ensures Contains(FilterCommand(proto, srcIp, dstIp, sport, sportMask, dport, dportMask),
                     "match ip sport " + PortText(sport) + " " + MaskText(sportMask))
  {
    var parts := CommandParts(proto, srcIp, dstIp, PortText(sport), MaskText(sportMask),
                              PortText(dport), MaskText(dportMask));
    PartIsContained(parts, 7, "match ip sport " + PortText(sport) + " " + MaskText(sportMask));
  }

  /** The command carries the destination port with its mask in
      hexadecimal, under `match dport` (without the `ip` selector the other
      matches carry). */
  lemma CommandNamesDestinationPort(proto: nat, srcIp: string, dstIp: string,
                                    sport: Port, sportMask: nat, dport: Port, dportMask: nat)
    ensures Contains(FilterCommand(proto, srcIp, dstIp, sport, sportMask, dport, dportMask),
                     "match dport " + PortText(dport) + " " + MaskText(dportMask))
  {
    var parts := CommandParts(proto, srcIp, dstIp, PortText(sport), MaskText(sportMask),
                              PortText(dport), MaskText(dportMask));
    PartIsContained(parts, 8, "match dport " + PortText(dport) + " " + MaskText(dportMask));
  }

  /** The text of an indented piece occurs in the concatenation. */
  lemma PartIsContained(parts: seq<string>, i: nat, text: string)
    requires i < |parts| && parts[i] == Line(text)
    ensures Contains(Join("", parts), text)
  {
    JoinOccurs("", parts, i);
    ContainsWithin(Join("", parts), Indent, text, " ");
  }

  /** What occurs in an occurrence of `before + sub + after` occurs too. */
  lemma ContainsWithin(text: string, before: string, sub: string, after: string)
    requires Contains(text, before + sub + after)
    ensures Contains(text, sub)
  {
    var piece := before + sub + after;
    var i :| 0 <= i <= |text| - |piece| && OccursAt(text, piece, i);
    var j := i + |before|;
    forall k | 0 <= k < |sub|
      ensures text[j + k] == sub[k]
    {
      assert text[j + k] == text[i..i + |piece|][|before| + k];
      assert piece[|before| + k] == sub[k];
    }
    assert text[j..j + |sub|] == sub;
    assert OccursAt(text, sub, j);
  }

  /** The mask text in the rule reads back as the mask: `hex` loses nothing. */
  lemma HexMaskReadsBack(m: nat)
    ensures |MaskText(m)| >= 3 && MaskText(m)[..2] == "0x"
    ensures ValueOf(MaskText(m)[2..], 16) == m
  {
    assert MaskText(m)[2..] == Digits(m, 16);
    DigitsRoundTrip(m, 16);
  }
}
