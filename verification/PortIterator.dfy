/** The iterator over the ports of the system configuration. */
module PortIterators {
  import opened GoValues
  import opened PortTexts

  type uint16 = n: nat | n < 0x1_0000

  const INVALID_PORT: uint16 := 0

  /** One entry of the list, as configured. */
  datatype IntOrString = Int(value: int) | Text(text: string)

  /** One entry as one of its readers takes it. */
  datatype PortSpec =
    | Single(value: int)
    | Range(first: uint16, last: uint16)
    | Unparsable

  /** How the iterator reads an entry. */
  function Seen(e: IntOrString): PortSpec {
    match e
    case Int(v) => Single(v)
    case Text(t) =>
      match Halves(t)
      case None => Unparsable
      case Some((a, b)) =>
        if ParseUint16(a).None? || ParseUint16(b).None? then Unparsable
        else Range(ParseUint16(a).value, ParseUint16(b).value)
  }

  /** How validation reads it; Unparsable if it objects. */
  function Declared(e: IntOrString): PortSpec {
    match e
    case Int(v) => if 0 < v <= MAX_PORT then Single(v) else Unparsable
    case Text(t) =>
      match Halves(t)
      case None => Unparsable
      case Some((a, b)) =>
        if Atoi(a).None? || Atoi(b).None? || !(0 < Atoi(a).value < Atoi(b).value <= MAX_PORT) then Unparsable
        else Range(Atoi(a).value, Atoi(b).value)
  }

  /** The ports still to come, up to the first zero, which ends the caller's loop. */
  function Remaining(ports: seq<PortSpec>, index: nat, subindex: nat): seq<uint16>
    requires index <= |ports|
    decreases |ports| - index, 0x1_0000 - subindex
  {
    if index == |ports| then [] else
    match ports[index]
    case Unparsable => []
    case Single(v) =>
      var p := v % 0x1_0000;
      if p == 0 then [] else [p] + Remaining(ports, index + 1, 0)
    case Range(first, last) =>
      var p := first + subindex;
      if p == 0 || p >= 0x1_0000 then []
      else if p == last then [p] + Remaining(ports, index + 1, 0)
      else [p] + Remaining(ports, index, subindex + 1)
  }

  function SeenAll(entries: seq<IntOrString>): seq<PortSpec> {
    seq(|entries|, i requires 0 <= i < |entries| => Seen(entries[i]))
  }

  function DeclaredAll(entries: seq<IntOrString>): seq<PortSpec> {
    seq(|entries|, i requires 0 <= i < |entries| => Declared(entries[i]))
  }

  /** What a new iterator hands out. */
  function Enumerated(entries: seq<IntOrString>): seq<uint16> {
    Remaining(SeenAll(entries), 0, 0)
  }

  /** Accepts a list exactly if every entry is a port or an ascending range of ports. */
  method Validate(ports: seq<IntOrString>) returns (ok: bool)
    ensures ok <==> forall i :: 0 <= i < |ports| ==> ValidSpec(Declared(ports[i]))
  {
    for i := 0 to |ports|
      invariant forall k :: 0 <= k < i ==> ValidSpec(Declared(ports[k]))
    {
      match ports[i]
      case Int(v) =>
        if v <= 0 || v > MAX_PORT {
          return false;
        }
      case Text(t) =>
        var parsed := Halves(t);
        if parsed.None? {
          return false;
        }
        var start := Atoi(parsed.value.0);
        if start.None? || start.value <= 0 || start.value > MAX_PORT {
          return false;
        }
        var end := Atoi(parsed.value.1);
        if end.None? || end.value <= 0 || end.value > MAX_PORT {
          return false;
        }
        if start.value >= end.value {
          return false;
        }
    }
    return true;
  }

  class PortIterator {
    const ports: seq<IntOrString>
    var index: nat
    var subindex: nat

    ghost predicate Valid()
      reads this
    {
      && index <= |ports|
      && (index < |ports| && Seen(ports[index]).Range? ==> Seen(ports[index]).first + subindex <= 0x1_0000)
    }

    ghost function Rest(): seq<uint16>
      requires Valid()
      reads this
    {
      Remaining(SeenAll(ports), index, subindex)
    }

    constructor (ports: seq<IntOrString>)
      ensures Valid() && this.ports == ports && Rest() == Enumerated(ports)
    {
      this.ports := ports;
      index, subindex := 0, 0;
    }

    /** Hands out the enumeration one port at a time, and zero once it is exhausted. */
    method Next() returns (port: uint16)
      requires Valid()
      modifies this`index, this`subindex
      ensures port == INVALID_PORT <==> old(Rest()) == []
      ensures port != INVALID_PORT ==> Valid() && [port] + Rest() == old(Rest())
    {
      if index >= |ports| {
        return INVALID_PORT;
      }
      var current := ports[index];
      if current.Int? {
        index := index + 1;
        subindex := 0;
        return current.value % 0x1_0000;
      }
      var parsed := Halves(current.text);
      if parsed.None? {
        return INVALID_PORT;
      }
      var first := ParseUint16(parsed.value.0);
      if first.None? {
        return INVALID_PORT;
      }
      var last := ParseUint16(parsed.value.1);
      if last.None? {
        return INVALID_PORT;
      }
      var next := first.value + subindex;
      subindex := subindex + 1;
      if next == last.value {
        index := index + 1;
        subindex := 0;
      }
      return next % 0x1_0000;
    }
  }

  // ---------- What the iterator covers ----------

  predicate ValidSpec(p: PortSpec) {
    match p
    case Single(v) => 0 < v < 0x1_0000
    case Range(first, last) => 0 < first < last
    case Unparsable => false
  }

  predicate Covers(p: PortSpec, port: uint16) {
    match p
    case Single(v) => port == v
    case Range(first, last) => first <= port <= last
    case Unparsable => false
  }

  predicate Distinct(s: seq<uint16>) {
    forall i, j :: 0 <= i < j < |s| ==> s[i] != s[j]
  }

  /** Ports an iterator in this position has still to cover. */
  ghost predicate StillCovers(ports: seq<PortSpec>, index: nat, subindex: nat, port: uint16) {
    exists i :: index <= i < |ports| && Covers(ports[i], port)
                && (i == index && ports[i].Range? ==> ports[i].first + subindex <= port)
  }

  ghost predicate OnCourse(ports: seq<PortSpec>, index: nat, subindex: nat) {
    && index <= |ports|
    && (forall i :: 0 <= i < |ports| ==> ValidSpec(ports[i]))
    && (index < |ports| && ports[index].Range? ==> ports[index].first + subindex <= ports[index].last)
  }

  /** Stepping past the head of the list: (index', subindex') is where `Next` leaves the iterator. */
  ghost predicate StepsTo(ports: seq<PortSpec>, index: nat, subindex: nat, index': nat, subindex': nat, p: uint16) {
    && index < |ports| && ValidSpec(ports[index])
    && (ports[index].Range? ==> ports[index].first + subindex <= ports[index].last)
    && match ports[index]
       case Single(v) => p == v && index' == index + 1 && subindex' == 0
       case Range(first, last) =>
         && p == first + subindex
         && (p == last ==> index' == index + 1 && subindex' == 0)
         && (p != last ==> index' == index && subindex' == subindex + 1)
       case Unparsable => false
  }

  lemma NextStep(ports: seq<PortSpec>, index: nat, subindex: nat) returns (p: uint16, index': nat, subindex': nat)
    requires OnCourse(ports, index, subindex) && index < |ports|
    ensures StepsTo(ports, index, subindex, index', subindex', p) && OnCourse(ports, index', subindex')
    ensures index' > index || (index' == index && subindex < subindex' < 0x1_0000)
  {
    var s := ports[index];
    var last := s.Single? || s.first + subindex == s.last;
    p := if s.Single? then s.value else s.first + subindex;
    index', subindex' := if last then index + 1 else index, if last then 0 else subindex + 1;
  }

  lemma RemainingStep(ports: seq<PortSpec>, index: nat, subindex: nat, index': nat, subindex': nat, p: uint16)
    requires StepsTo(ports, index, subindex, index', subindex', p)
    ensures Remaining(ports, index, subindex) == [p] + Remaining(ports, index', subindex')
  {}

  lemma CoversStep(
    ports: seq<PortSpec>, index: nat, subindex: nat, index': nat, subindex': nat, p: uint16, port: uint16)
    requires StepsTo(ports, index, subindex, index', subindex', p)
    ensures StillCovers(ports, index, subindex, port) <==> port == p || StillCovers(ports, index', subindex', port)
  {
    if StillCovers(ports, index, subindex, port) && port != p {
      var i :| index <= i < |ports| && Covers(ports[i], port)
               && (i == index && ports[i].Range? ==> ports[i].first + subindex <= port);
      assert index' <= i;
    }
    if StillCovers(ports, index', subindex', port) {
      var i :| index' <= i < |ports| && Covers(ports[i], port)
               && (i == index' && ports[i].Range? ==> ports[i].first + subindex' <= port);
      assert index <= i;
    }
    if port == p {
      assert Covers(ports[index], port);
    }
  }

  lemma {:induction false} RemainingCovers(ports: seq<PortSpec>, index: nat, subindex: nat, port: uint16)
    requires OnCourse(ports, index, subindex)
    ensures port in Remaining(ports, index, subindex) <==> StillCovers(ports, index, subindex, port)
    decreases |ports| - index, 0x1_0000 - subindex
  {
    if index < |ports| {
      var p, index', subindex' := NextStep(ports, index, subindex);
      RemainingStep(ports, index, subindex, index', subindex', p);
      RemainingCovers(ports, index', subindex', port);
      CoversStep(ports, index, subindex, index', subindex', p, port);
    }
  }

  lemma AllCovered(ports: seq<PortSpec>, port: uint16)
    requires forall i :: 0 <= i < |ports| ==> ValidSpec(ports[i])
    ensures port in Remaining(ports, 0, 0) <==> exists i :: 0 <= i < |ports| && Covers(ports[i], port)
  {
    RemainingCovers(ports, 0, 0, port);
    assert StillCovers(ports, 0, 0, port) <==> exists i :: 0 <= i < |ports| && Covers(ports[i], port);
  }

  /** No port is still to come from two entries of the list. */
  ghost predicate NoOverlapFrom(ports: seq<PortSpec>, index: nat, subindex: nat) {
    forall i, j, port: uint16 :: index <= i < j < |ports| && Covers(ports[j], port) && Covers(ports[i], port)
      ==> i == index && ports[i].Range? && port < ports[i].first + subindex
  }

  ghost predicate NoOverlap(ports: seq<PortSpec>) {
    forall i, j, port: uint16 :: 0 <= i < j < |ports| && Covers(ports[i], port) ==> !Covers(ports[j], port)
  }

  lemma {:induction false} RemainingDistinct(ports: seq<PortSpec>, index: nat, subindex: nat)
    requires OnCourse(ports, index, subindex)
    ensures Distinct(Remaining(ports, index, subindex)) <==> NoOverlapFrom(ports, index, subindex)
    decreases |ports| - index, 0x1_0000 - subindex
  {
    if index < |ports| {
      var p, index', subindex' := NextStep(ports, index, subindex);
      RemainingStep(ports, index, subindex, index', subindex', p);
      RemainingDistinct(ports, index', subindex');
      RemainingCovers(ports, index', subindex', p);
      DistinctCons(p, Remaining(ports, index', subindex'));
      HeadOverlap(ports, index, subindex, index', subindex', p);
    }
  }

  lemma DistinctCons(p: uint16, rest: seq<uint16>)
    ensures Distinct([p] + rest) <==> p !in rest && Distinct(rest)
  {
    var s := [p] + rest;
    assert rest == s[1..];
    if p !in rest && Distinct(rest) {
      forall i, j | 0 <= i < j < |s| ensures s[i] != s[j] {
        if i > 0 { assert rest[i - 1] != rest[j - 1]; } else { assert s[j] in rest; }
      }
    }
    if Distinct(s) {
      forall i | 0 <= i < |rest| ensures rest[i] != p { assert s[i + 1] != s[0]; }
      forall i, j | 0 <= i < j < |rest| ensures rest[i] != rest[j] { assert s[i + 1] != s[j + 1]; }
    }
  }

  lemma HeadOverlap(ports: seq<PortSpec>, index: nat, subindex: nat, index': nat, subindex': nat, p: uint16)
    requires StepsTo(ports, index, subindex, index', subindex', p)
    ensures NoOverlapFrom(ports, index, subindex) <==>
            NoOverlapFrom(ports, index', subindex') && !StillCovers(ports, index', subindex', p)
  {
    assert Covers(ports[index], p);
    if NoOverlapFrom(ports, index, subindex) {
      assert forall j :: index < j < |ports| ==> !Covers(ports[j], p);
    }
    if NoOverlapFrom(ports, index', subindex') && !StillCovers(ports, index', subindex', p) {
      forall i, j, port: uint16 | index <= i < j < |ports| && Covers(ports[j], port) && Covers(ports[i], port)
        ensures i == index && ports[i].Range? && port < ports[i].first + subindex
      {
        assert index' <= j && (j == index' && ports[j].Range? ==> ports[j].first + subindex' <= port)
            ==> StillCovers(ports, index', subindex', port);
      }
    }
  }

  lemma AllDistinctIff(ports: seq<PortSpec>)
    requires forall i :: 0 <= i < |ports| ==> ValidSpec(ports[i])
    ensures Distinct(Remaining(ports, 0, 0)) <==> NoOverlap(ports)
  {
    RemainingDistinct(ports, 0, 0);
    if NoOverlapFrom(ports, 0, 0) {
      forall i, j, port: uint16 | 0 <= i < j < |ports| && Covers(ports[i], port) ensures !Covers(ports[j], port) {}
    }
  }

  // ---------- Validated configurations ----------

  ghost predicate Validated(entries: seq<IntOrString>) {
    forall i :: 0 <= i < |entries| ==> ValidSpec(Declared(entries[i]))
  }

  /** A range with a plus sign before one of its numbers. */
  predicate Signed(e: IntOrString) {
    e.Text? && Halves(e.text).Some? && (HasPlus(Halves(e.text).value.0) || HasPlus(Halves(e.text).value.1))
  }

  /** The iterator reads a validated entry as validation does exactly if it carries no sign, and a signed one not at
      all. */
  lemma SeenAsDeclaredIff(e: IntOrString)
    requires ValidSpec(Declared(e))
    ensures Seen(e) == if Signed(e) then Unparsable else Declared(e)
  {
    if e.Text? {
      var (a, b) := Halves(e.text).value;
      ParsersAgreeIff(a);
      ParsersAgreeIff(b);
    }
  }

  /** So what the iterator can read as a port or an ascending range is exactly what validation accepts without a sign,
      and both read the same numbers. */
  lemma ReadIffUnsigned(e: IntOrString)
    ensures ValidSpec(Seen(e)) <==> ValidSpec(Declared(e)) && !Signed(e)
    ensures ValidSpec(Seen(e)) ==> Seen(e) == Declared(e)
  {
    if ValidSpec(Declared(e)) {
      SeenAsDeclaredIff(e);
    }
    if e.Text? && ValidSpec(Seen(e)) {
      var (a, b) := Halves(e.text).value;
      ParseUintMeans(a);
      ParseUintMeans(b);
    }
  }

  function FirstSigned(entries: seq<IntOrString>, i: nat): (k: nat)
    requires i <= |entries|
    ensures i <= k <= |entries| && (k < |entries| ==> Signed(entries[k]))
    ensures forall j :: i <= j < k ==> !Signed(entries[j])
    decreases |entries| - i
  {
    if i == |entries| || Signed(entries[i]) then i else FirstSigned(entries, i + 1)
  }

  /** The entries before the first signed one. */
  function Usable(entries: seq<IntOrString>): seq<IntOrString> {
    entries[..FirstSigned(entries, 0)]
  }

  /** Nothing after an entry that cannot be read is ever reached. */
  lemma {:induction false} CutOff(ports: seq<PortSpec>, cut: seq<PortSpec>, index: nat, subindex: nat)
    requires OnCourse(cut, index, subindex) && |cut| < |ports| && ports[|cut|].Unparsable?
    requires forall i :: 0 <= i < |cut| ==> cut[i] == ports[i]
    ensures Remaining(ports, index, subindex) == Remaining(cut, index, subindex)
    decreases |cut| - index, 0x1_0000 - subindex
  {
    if index < |cut| {
      var p, index', subindex' := NextStep(cut, index, subindex);
      RemainingStep(cut, index, subindex, index', subindex', p);
      RemainingStep(ports, index, subindex, index', subindex', p);
      CutOff(ports, cut, index', subindex');
    }
  }

  /** Under a validated configuration the iterator hands out the ports of the entries before the first signed one. */
  lemma EnumeratesTheUsableEntries(entries: seq<IntOrString>)
    requires Validated(entries)
    ensures Validated(Usable(entries))
    ensures Enumerated(entries) == Remaining(DeclaredAll(Usable(entries)), 0, 0)
  {
    var k := FirstSigned(entries, 0);
    forall i | 0 <= i < |entries|
      ensures Seen(entries[i]) == if Signed(entries[i]) then Unparsable else Declared(entries[i])
    {
      SeenAsDeclaredIff(entries[i]);
    }
    var seen := SeenAll(entries);
    assert seen[..k] == DeclaredAll(Usable(entries));
    if k < |entries| {
      CutOff(seen, DeclaredAll(Usable(entries)), 0, 0);
    }
    assert k == |entries| ==> seen[..k] == seen;
  }

  ghost predicate CoveredBy(entries: seq<IntOrString>, port: uint16) {
    exists i :: 0 <= i < |entries| && Covers(Declared(entries[i]), port)
  }

  lemma EnumeratesExactlyTheCoveredPorts(entries: seq<IntOrString>, port: uint16)
    requires Validated(entries)
    ensures port in Enumerated(entries) <==> CoveredBy(Usable(entries), port)
  {
    EnumeratesTheUsableEntries(entries);
    var usable := DeclaredAll(Usable(entries));
    AllCovered(usable, port);
    assert forall i :: 0 <= i < |usable| ==> usable[i] == Declared(Usable(entries)[i]);
    if i :| 0 <= i < |usable| && Covers(usable[i], port) {
      assert CoveredBy(Usable(entries), port);
    }
  }

  /** A valid configuration lists every port once exactly when no two of its usable entries overlap. */
  lemma DistinctIffNoOverlap(entries: seq<IntOrString>)
    requires Validated(entries)
    ensures Distinct(Enumerated(entries)) <==> NoOverlap(DeclaredAll(Usable(entries)))
  {
    EnumeratesTheUsableEntries(entries);
    AllDistinctIff(DeclaredAll(Usable(entries)));
  }

  /** Every further valid entry adds at least one port. */
  lemma {:induction false} MoreEntriesMorePorts(ports: seq<PortSpec>, cut: seq<PortSpec>, index: nat, subindex: nat)
    requires index <= |cut| < |ports| && OnCourse(ports, index, subindex)
    requires forall i :: 0 <= i < |cut| ==> cut[i] == ports[i]
    ensures |Remaining(cut, index, subindex)| < |Remaining(ports, index, subindex)|
    decreases |cut| - index, 0x1_0000 - subindex
  {
    var p, index', subindex' := NextStep(ports, index, subindex);
    RemainingStep(ports, index, subindex, index', subindex', p);
    if index < |cut| {
      RemainingStep(cut, index, subindex, index', subindex', p);
      MoreEntriesMorePorts(ports, cut, index', subindex');
    }
  }

  /** The iterator hands out everything a validated configuration declares exactly if no entry is signed. */
  lemma HandsOutAllIffUnsigned(entries: seq<IntOrString>)
    requires Validated(entries)
    ensures Enumerated(entries) == Remaining(DeclaredAll(entries), 0, 0) <==> forall e :: e in entries ==> !Signed(e)
  {
    var k := FirstSigned(entries, 0);
    EnumeratesTheUsableEntries(entries);
    if k == |entries| {
      assert Usable(entries) == entries;
      assert forall i :: 0 <= i < |entries| ==> !Signed(entries[i]);
    } else {
      assert entries[k] in entries;
      MoreEntriesMorePorts(DeclaredAll(entries), DeclaredAll(Usable(entries)), 0, 0);
    }
  }

  /** Where the entries do not overlap, every port that validation accepts is handed out exactly if no entry is
      signed. */
  lemma CoversAllIffUnsigned(entries: seq<IntOrString>)
    requires Validated(entries) && NoOverlap(DeclaredAll(entries))
    ensures (forall port: uint16 :: CoveredBy(entries, port) ==> port in Enumerated(entries)) <==>
      forall e :: e in entries ==> !Signed(e)
  {
    var k := FirstSigned(entries, 0);
    forall port: uint16 ensures port in Enumerated(entries) <==> CoveredBy(Usable(entries), port) {
      EnumeratesExactlyTheCoveredPorts(entries, port);
    }
    if k == |entries| {
      assert Usable(entries) == entries;
      assert forall i :: 0 <= i < |entries| ==> !Signed(entries[i]);
    } else {
      assert entries[k] in entries;
      var all := DeclaredAll(entries);
      var lost: uint16 := all[k].first;
      assert Covers(Declared(entries[k]), lost);
      assert CoveredBy(entries, lost);
      forall i | 0 <= i < k ensures !Covers(Declared(entries[i]), lost) {
        assert all[i] == Declared(entries[i]) && Covers(all[k], lost);
      }
      assert !CoveredBy(Usable(entries), lost);
    }
  }

  /** A plus sign in front of a range means nothing to validation and hides the range, and all that follows, from the
      iterator. */
  lemma SignHidesTheRest(t: string, later: seq<IntOrString>)
    requires ValidSpec(Declared(Text(t))) && !Signed(Text(t)) && Validated(later)
    ensures var entries := [Text("+" + t)] + later;
      Validated(entries) && Declared(entries[0]) == Declared(Text(t)) && Enumerated(entries) == []
  {
    var entries := [Text("+" + t)] + later;
    var (a, b) := Halves(t).value;
    HalvesOfSigned(t);
    assert ("+" + a)[1..] == a;
    forall i | 0 <= i < |entries| ensures ValidSpec(Declared(entries[i])) {
      if i > 0 { assert entries[i] == later[i - 1]; }
    }
    SeenAsDeclaredIff(entries[0]);
    assert SeenAll(entries)[0] == Unparsable;
  }

  lemma OneToTwo()
    ensures Declared(Text("1-2")) == Range(1, 2) && !Signed(Text("1-2"))
  {
    var t := "1-2";
    assert DashFrom(t, 1) == 1 && t[..1] == "1" && t[2..] == "2";
    assert "1"[..0] == "" && "2"[..0] == "";
    assert Value("1") == 1 && Value("2") == 2;
  }

  /** A configuration that validation accepts and that yields no port at all. */
  lemma AcceptedAndEmpty()
    ensures Validated([Text("+1-2")]) && Declared(Text("+1-2")) == Range(1, 2) && Enumerated([Text("+1-2")]) == []
  {
    OneToTwo();
    SignHidesTheRest("1-2", []);
    assert "+" + "1-2" == "+1-2" && [Text("+1-2")] + [] == [Text("+1-2")];
  }
}
