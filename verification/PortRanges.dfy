/** What configured ports and ranges come to, entry by entry, in the notation they are configured in. */
module PortRanges {
  import opened GoValues
  import opened PortTexts
  import opened PortIterators

  /** a, a + 1, ..., b. */
  function Upto(a: nat, b: nat): seq<uint16>
    requires a <= b + 1 && b <= 65535
  {
    seq(b + 1 - a, i requires 0 <= i < b + 1 - a => a + i)
  }

  function RangeEntry(a: nat, b: nat): IntOrString {
    Text(RangeText(a, b))
  }

  /** Validation takes a written range exactly if it ascends within the ports there are. */
  lemma RangeIsValidIff(a: nat, b: nat)
    ensures ValidSpec(Declared(RangeEntry(a, b))) <==> 0 < a < b <= 65535
    ensures 0 < a < b <= 65535 ==> Declared(RangeEntry(a, b)) == Range(a, b)
  {
    HalvesOfRange(a, b);
    ParsersReadNumbers(a);
    ParsersReadNumbers(b);
  }

  lemma RangeIsSeen(a: nat, b: nat)
    requires a <= 65535 && b <= 65535
    ensures Seen(RangeEntry(a, b)) == Range(a, b)
  {
    HalvesOfRange(a, b);
    ParsersReadNumbers(a);
    ParsersReadNumbers(b);
  }

  /** A single port is valid exactly if it is one. */
  lemma PortIsValidIff(v: int)
    ensures ValidSpec(Declared(Int(v))) <==> 0 < v <= 65535
  {}

  // ---------- Enumeration ----------

  /** One entry further back in a longer list. */
  lemma {:induction false} Further(long: seq<PortSpec>, rest: seq<PortSpec>, index: nat, subindex: nat)
    requires |long| == |rest| + 1 && index <= |rest|
    requires forall i :: 0 <= i < |rest| ==> long[i + 1] == rest[i]
    ensures Remaining(long, index + 1, subindex) == Remaining(rest, index, subindex)
    decreases |rest| - index, 0x1_0000 - subindex
  {
    if index < |rest| {
      var spec := rest[index];
      assert long[index + 1] == spec;
      if spec.Single? || (spec.Range? && spec.first + subindex == spec.last) {
        Further(long, rest, index + 1, 0);
      } else if spec.Range? && spec.first + subindex < 0x1_0000 {
        Further(long, rest, index, subindex + 1);
      }
    }
  }

  lemma Shifted(first: PortSpec, rest: seq<PortSpec>)
    ensures Remaining([first] + rest, 1, 0) == Remaining(rest, 0, 0)
  {
    Further([first] + rest, rest, 0, 0);
  }

  lemma SeenSplit(e: IntOrString, later: seq<IntOrString>)
    ensures SeenAll([e] + later) == [Seen(e)] + SeenAll(later)
  {}

  /** A port comes once, before everything later. */
  lemma PortEnumerated(v: int, later: seq<IntOrString>)
    requires 0 < v <= 65535
    ensures Enumerated([Int(v)] + later) == [v] + Enumerated(later)
  {
    SeenSplit(Int(v), later);
    Shifted(Single(v), SeenAll(later));
  }

  lemma RangeStep(ports: seq<PortSpec>, a: nat, b: nat, k: nat)
    requires ports != [] && a <= 65535 && b <= 65535 && ports[0] == Range(a, b) && 0 < a + k <= 65535
    ensures Remaining(ports, 0, k) ==
      [a + k] + if a + k == b then Remaining(ports, 1, 0) else Remaining(ports, 0, k + 1)
  {}

  lemma UptoStep(a: nat, b: nat)
    requires a <= b <= 65535
    ensures Upto(a, b) == [a] + Upto(a + 1, b)
    ensures Upto(b + 1, b) == []
  {}

  lemma {:induction false} WithinRange(ports: seq<PortSpec>, a: nat, b: nat, k: nat)
    requires ports != [] && 0 < a && a + k <= b <= 65535 && ports[0] == Range(a, b)
    ensures Remaining(ports, 0, k) == Upto(a + k, b) + Remaining(ports, 1, 0)
    decreases b - a - k
  {
    RangeStep(ports, a, b, k);
    UptoStep(a + k, b);
    var tail := Remaining(ports, 1, 0);
    if a + k < b {
      WithinRange(ports, a, b, k + 1);
      assert [a + k] + (Upto(a + k + 1, b) + tail) == [a + k] + Upto(a + k + 1, b) + tail;
    }
  }

  /** A range comes as its ports in ascending order, both ends included, before everything later. */
  lemma RangeEnumerated(a: nat, b: nat, later: seq<IntOrString>)
    requires 0 < a <= b <= 65535
    ensures Enumerated([RangeEntry(a, b)] + later) == Upto(a, b) + Enumerated(later)
  {
    RangeIsSeen(a, b);
    SeenSplit(RangeEntry(a, b), later);
    Shifted(Range(a, b), SeenAll(later));
    WithinRange([Seen(RangeEntry(a, b))] + SeenAll(later), a, b, 0);
  }

  lemma {:induction false} RunsOut(ports: seq<PortSpec>, a: nat, b: nat, k: nat)
    requires ports != [] && b < a <= 65535 && a + k <= 65536 && ports[0] == Range(a, b)
    ensures Remaining(ports, 0, k) == Upto(a + k, 65535)
    decreases 65536 - a - k
  {
    if a + k <= 65535 {
      RangeStep(ports, a, b, k);
      RunsOut(ports, a, b, k + 1);
      UptoStep(a + k, 65535);
    }
  }

  /** A range the wrong way round, which validation rejects, never meets its end: all ports above follow, and nothing of
      what is configured later. */
  lemma BackwardRangeRunsOut(a: nat, b: nat, later: seq<IntOrString>)
    requires b < a <= 65535
    ensures Enumerated([RangeEntry(a, b)] + later) == Upto(a, 65535)
  {
    RangeIsSeen(a, b);
    SeenSplit(RangeEntry(a, b), later);
    RunsOut([Seen(RangeEntry(a, b))] + SeenAll(later), a, b, 0);
  }
}
