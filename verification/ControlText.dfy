/** The text of control-group files: whitespace fields, 64-bit decimal numbers,
    and CPU lists such as 0-3,8 with their bitmap parser. */
module ControlText {
  import opened Common

  const MAX_CPUS := 4096
  const MAX_SCALAR := 4096

  predicate Space(c: char) {
    || c == ' ' || '\t' <= c <= '\r' || c == '\U{85}' || c == '\U{A0}' || c == '\U{1680}'
    || '\U{2000}' <= c <= '\U{200A}' || c == '\U{2028}' || c == '\U{2029}'
    || c == '\U{202F}' || c == '\U{205F}' || c == '\U{3000}'
  }

  function SkipSpace(s: string): (r: string)
    ensures |r| <= |s| && (r != [] ==> !Space(r[0]))
  {
    if s != [] && Space(s[0]) then SkipSpace(s[1..]) else s
  }

  function Word(s: string): (r: string)
    ensures r <= s && (s != [] && !Space(s[0]) ==> |r| > 0)
  {
    if s == [] || Space(s[0]) then [] else [s[0]] + Word(s[1..])
  }

  /** Whitespace-separated fields. */
  function Fields(s: string): seq<string>
    decreases |s|
  {
    var t := SkipSpace(s);
    if t == [] then [] else [Word(t)] + Fields(t[|Word(t)|..])
  }

  function TrimRight(s: string): string {
    if s != [] && Space(s[|s| - 1]) then TrimRight(s[..|s| - 1]) else s
  }

  function TrimSpace(s: string): string { TrimRight(SkipSpace(s)) }

  predicate Digits(s: string) { forall i :: 0 <= i < |s| ==> '0' <= s[i] <= '9' }

  function Decimal(s: string): nat
    requires Digits(s)
  {
    if s == [] then 0 else Decimal(s[..|s| - 1]) * 10 + (s[|s| - 1] as int - '0' as int)
  }

  function ParseUint(s: string): Option<nat> {
    if s != [] && Digits(s) && Decimal(s) < 0x1_0000_0000_0000_0000 then Some(Decimal(s)) else None
  }

  /** A signed 64-bit number; both signs may be written. */
  function ParseInt(s: string): Option<int> {
    var negative := s != [] && s[0] == '-';
    var t := if s != [] && (s[0] == '-' || s[0] == '+') then s[1..] else s;
    if t == [] || !Digits(t) then None
    else if negative then
      if Decimal(t) <= 0x8000_0000_0000_0000 then Some(0 - Decimal(t)) else None
    else
      if Decimal(t) < 0x8000_0000_0000_0000 then Some(Decimal(t)) else None
  }

  // ---------------------------------------------------------------- splitting

  function Split(s: string, c: char): (r: seq<string>)
    ensures |r| >= 1
  {
    if s == [] then [[]]
    else
      var rest := Split(s[1..], c);
      if s[0] == c then [[]] + rest else [[s[0]] + rest[0]] + rest[1..]
  }

  function Join(parts: seq<string>, c: char): string
    requires |parts| >= 1
  {
    if |parts| == 1 then parts[0] else parts[0] + [c] + Join(parts[1..], c)
  }

  /** Splitting loses nothing and leaves no separator inside a part. */
  lemma {:induction false} SplitInverts(s: string, c: char)
    ensures Join(Split(s, c), c) == s
    ensures forall i :: 0 <= i < |Split(s, c)| ==> c !in Split(s, c)[i]
  {
    if s != [] {
      SplitInverts(s[1..], c);
      var rest := Split(s[1..], c);
      assert s == [s[0]] + s[1..];
      if s[0] == c {
        assert ([[]] + rest)[1..] == rest;
      } else {
        assert ([[s[0]] + rest[0]] + rest[1..])[1..] == rest[1..];
      }
    }
  }

  // ---------------------------------------------------------------- CPU lists

  /** One item: a CPU number, or two joined by a hyphen in order. */
  function ParseItem(item: string): (r: Option<(nat, nat)>)
    ensures r.Some? ==> r.value.0 <= r.value.1 < MAX_CPUS
  {
    var bounds := Split(item, '-');
    if |bounds| > 2 || bounds[0] == "" then None
    else
      var start := ParseInt(bounds[0]);
      if start.None? || start.value < 0 || start.value >= MAX_CPUS then None
      else if |bounds| == 1 then Some((start.value, start.value))
      else
        var end := ParseInt(bounds[1]);
        if bounds[1] == "" || end.None? || end.value < start.value || end.value >= MAX_CPUS then None
        else Some((start.value, end.value))
  }

  /** The numbers from lo up to, not including, hi. */
  function Interval(lo: nat, hi: nat): (r: set<nat>)
    requires lo <= hi
    ensures forall c: nat :: c in r <==> lo <= c < hi
    ensures |r| == hi - lo
    decreases hi - lo
  {
    if lo == hi then {} else Interval(lo, hi - 1) + {hi - 1}
  }

  /** The CPUs one item names. */
  function CPUs(item: string): set<nat> {
    match ParseItem(item)
    case None => {}
    case Some(bounds) => Interval(bounds.0, bounds.1 + 1)
  }

  /** Every item reads, and no CPU is named by two of them. */
  predicate WellFormed(items: seq<string>) {
    && (forall i :: 0 <= i < |items| ==> ParseItem(items[i]).Some?)
    && (forall i, j :: 0 <= i < j < |items| ==> CPUs(items[i]) !! CPUs(items[j]))
  }

  function Named(items: seq<string>): set<nat> {
    if items == [] then {} else Named(items[..|items| - 1]) + CPUs(items[|items| - 1])
  }

  /** A CPU is named exactly when some item names it. */
  lemma {:induction false} NamedByAnItem(items: seq<string>, cpu: nat)
    ensures cpu in Named(items) <==> exists i :: 0 <= i < |items| && cpu in CPUs(items[i])
  {
    hide CPUs;
    if items != [] {
      var n := |items| - 1;
      NamedByAnItem(items[..n], cpu);
      assert forall i :: 0 <= i < n ==> items[..n][i] == items[i];
    }
  }

  predicate ReadableSet(text: string) {
    var value := TrimSpace(text);
    value != "" && |value| <= MAX_SCALAR && |Split(value, ',')| <= MAX_CPUS && WellFormed(Split(value, ','))
  }

  function CPUSet(text: string): set<nat> { Named(Split(TrimSpace(text), ',')) }

  /** One item is compatible with the ones before it exactly when it names none
      of their CPUs. */
  lemma WellFormedGrows(items: seq<string>, n: nat)
    requires n < |items|
    ensures WellFormed(items[..n + 1]) <==>
            WellFormed(items[..n]) && ParseItem(items[n]).Some? && Named(items[..n]) !! CPUs(items[n])
  {
    hide CPUs, ParseItem;
    var before, after := items[..n], items[..n + 1];
    assert forall i :: 0 <= i < n ==> before[i] == after[i];
    assert after[n] == items[n];
    forall cpu: nat ensures cpu in Named(before) <==> exists i :: 0 <= i < n && cpu in CPUs(before[i]) {
      NamedByAnItem(before, cpu);
    }
    if WellFormed(after) {
      forall cpu | cpu in Named(before) ensures cpu !in CPUs(items[n]) {
        var i :| 0 <= i < n && cpu in CPUs(before[i]);
        assert CPUs(after[i]) !! CPUs(after[n]);
      }
    } else if WellFormed(before) && ParseItem(items[n]).Some? {
      var i, j :| 0 <= i < j <= n && !(CPUs(after[i]) !! CPUs(after[j]));
      assert j == n;
      var cpu :| cpu in CPUs(after[i]) && cpu in CPUs(after[n]);
      assert cpu in CPUs(before[i]);
    }
  }

  lemma PrefixesAreWellFormed(items: seq<string>, n: nat)
    requires n <= |items| && WellFormed(items)
    ensures WellFormed(items[..n])
  {
    assert forall i :: 0 <= i < n ==> items[..n][i] == items[i];
  }

  /** The bitmap holds exactly the CPUs seen. */
  ghost predicate Marks(observed: array<bool>, seen: set<nat>)
    reads observed
  {
    observed.Length == MAX_CPUS && forall c: nat :: c < MAX_CPUS ==> (observed[c] <==> c in seen)
  }

  /** Marks the CPUs of one range in the bitmap; it stops at one already seen. */
  method MarkRange(observed: array<bool>, start: nat, end: nat, count: nat, ghost seen: set<nat>)
    returns (ok: bool, total: nat)
    requires start <= end < MAX_CPUS && Marks(observed, seen)
    modifies observed
    ensures ok <==> seen !! Interval(start, end + 1)
    ensures ok ==> total == count + |Interval(start, end + 1)|
    ensures ok ==> Marks(observed, seen + Interval(start, end + 1))
  {
    var cpu := start;
    total := count;
    while cpu <= end
      invariant start <= cpu <= end + 1 && total == count + (cpu - start)
      invariant forall c: nat :: start <= c < cpu ==> c !in seen
      invariant forall c: nat :: c < MAX_CPUS ==> (observed[c] <==> c in seen || start <= c < cpu)
    {
      if observed[cpu] {
        assert cpu in seen && cpu in Interval(start, end + 1);
        return false, 0;
      }
      observed[cpu] := true;
      total := total + 1;
      cpu := cpu + 1;
    }
    return true, total;
  }

  /** Reads one more item and marks its CPUs. */
  method AddItem(observed: array<bool>, items: seq<string>, n: nat, count: nat) returns (ok: bool, total: nat)
    requires n < |items| && WellFormed(items[..n])
    requires Marks(observed, Named(items[..n])) && count == |Named(items[..n])|
    modifies observed
    ensures ok <==> WellFormed(items[..n + 1])
    ensures ok ==> Marks(observed, Named(items[..n + 1])) && total == |Named(items[..n + 1])|
  {
    hide WellFormed, Interval, ParseItem, CPUs, Named, Marks;
    OneMore(items, n);
    var bounds := ParseItem(items[n]);
    if bounds.None? { return false, 0; }
    OneItem(items[n]);
    ok, total := MarkRange(observed, bounds.value.0, bounds.value.1, count, Named(items[..n]));
  }

  method ParseItems(items: seq<string>) returns (r: Option<nat>)
    ensures r.Some? <==> WellFormed(items)
    ensures r.Some? ==> r.value == |Named(items)|
  {
    hide WellFormed, Named;
    var observed := new bool[MAX_CPUS](_ => false);
    var count := 0;
    NothingYet(items);
    assert Marks(observed, Named(items[..0]));
    hide Marks;
    var n := 0;
    while n < |items|
      invariant 0 <= n <= |items|
      invariant WellFormed(items[..n])
      invariant Marks(observed, Named(items[..n])) && count == |Named(items[..n])|
    {
      var ok, total := AddItem(observed, items, n, count);
      if !ok {
        if WellFormed(items) { PrefixesAreWellFormed(items, n + 1); }
        return None;
      }
      count := total;
      n := n + 1;
    }
    assert items[..n] == items;
    return Some(count);
  }

  /** The parser accepts exactly the readable lists and returns how many CPUs
      they name. */
  method ParseCPUSet(text: string) returns (r: Option<nat>)
    ensures r.Some? <==> ReadableSet(text)
    ensures r.Some? ==> r.value == |CPUSet(text)|
  {
    hide WellFormed, Named, Split, TrimSpace;
    var value := TrimSpace(text);
    if value == "" || |value| > MAX_SCALAR { return None; }
    var items := Split(value, ',');
    if |items| > MAX_CPUS { return None; }
    r := ParseItems(items);
  }

  /** What the next item adds to the ones before it. */
  lemma OneMore(items: seq<string>, n: nat)
    requires n < |items| && WellFormed(items[..n])
    ensures WellFormed(items[..n + 1]) <==> ParseItem(items[n]).Some? && Named(items[..n]) !! CPUs(items[n])
    ensures Named(items[..n + 1]) == Named(items[..n]) + CPUs(items[n])
    ensures Named(items[..n]) !! CPUs(items[n]) ==> |Named(items[..n + 1])| == |Named(items[..n])| + |CPUs(items[n])|
  {
    hide WellFormed, Named, CPUs, ParseItem;
    WellFormedGrows(items, n);
    NamedGrows(items, n);
    if Named(items[..n]) !! CPUs(items[n]) { DisjointSizes(Named(items[..n]), CPUs(items[n])); }
  }

  lemma OneItem(item: string)
    requires ParseItem(item).Some?
    ensures CPUs(item) == Interval(ParseItem(item).value.0, ParseItem(item).value.1 + 1)
  {
  }

  lemma DisjointSizes(a: set<nat>, b: set<nat>)
    requires a !! b
    ensures |a + b| == |a| + |b|
  {
  }

  lemma NothingYet(items: seq<string>)
    ensures WellFormed(items[..0]) && Named(items[..0]) == {}
  {
  }

  lemma NamedGrows(items: seq<string>, n: nat)
    requires n < |items|
    ensures Named(items[..n + 1]) == Named(items[..n]) + CPUs(items[n])
  {
    assert items[..n + 1][..n] == items[..n];
  }

  /** A readable list names at least one CPU and at most the supported number. */
  lemma ReadableSetsAreBounded(text: string)
    requires ReadableSet(text)
    ensures 0 < |CPUSet(text)| <= MAX_CPUS
  {
    hide ParseItem, TrimSpace, Split, CPUs, Named, Interval;
    var items := Split(TrimSpace(text), ',');
    OneItem(items[0]);
    var first := ParseItem(items[0]).value.0;
    assert first in CPUs(items[0]);
    NamedByAnItem(items, first);
    forall cpu | cpu in Named(items) ensures cpu in Interval(0, MAX_CPUS) {
      NamedByAnItem(items, cpu);
      var i :| 0 <= i < |items| && cpu in CPUs(items[i]);
      OneItem(items[i]);
    }
    SubsetSize(Named(items), Interval(0, MAX_CPUS));
  }
}
