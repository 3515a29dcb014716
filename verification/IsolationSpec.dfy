/** Turning a container's limits into its isolation: the CPU quota in 64-bit
    arithmetic, and the rewriting in place of the writable tmpfs mounts so that
    together they fit the disk limit. */
module IsolationSpec {
  import opened Common
  import opened ControlText

  const TWO64 := 0x1_0000_0000_0000_0000
  const TWO63 := 0x8000_0000_0000_0000
  const PERIOD := 100_000
  const NANOS_PER_MILLI := 1_000_000
  const PAGE := 4096
  const MAX_CPU_MILLIS := 24 * 3600 * 1000
  const MAX_MEMORY := 0x100_0000_0000
  const MAX_DISK := 16 * 0x100_0000_0000
  const MAX_PIDS := 0x10_0000
  const MAX_NANOS := 3600 * 1000 * NANOS_PER_MILLI
  const MAX_OUTPUT := 16 * 1024 * 1024

  type Uint64 = n: nat | n < TWO64
  type Int64 = n: int | -TWO63 <= n < TWO63

  // --------------------------------------------------------------- CPU quota

  /** Division that truncates toward zero. */
  function Truncate(a: int, b: nat): int
    requires b > 0
  {
    if a >= 0 then a / b else -((-a) / b)
  }

  /** Whole milliseconds of run time, converted to an unsigned 64-bit number. */
  function WallMillis(nanos: Int64): Uint64 { Truncate(nanos, NANOS_PER_MILLI) % TWO64 }

  /** The quota per period, computed as the code does with sums modulo 2^64. */
  function CPUQuota(cpuMillis: Uint64, nanos: Int64): Option<nat> {
    var wall := WallMillis(nanos);
    if wall == 0 || cpuMillis > (TWO64 - 1) / PERIOD then None
    else
      var quota := ((cpuMillis * PERIOD) % TWO64 + wall - 1) % TWO64 / wall;
      if quota < 1000 || quota >= TWO63 then None else Some(quota)
  }

  /** The least quota that grants the budget over the wall time. */
  predicate TightQuota(quota: int, cpuMillis: nat, wall: nat) {
    (quota - 1) * wall < cpuMillis * PERIOD <= quota * wall
  }

  lemma RoundsUp(work: nat, wall: nat)
    requires wall > 0
    ensures var q := (work + wall - 1) / wall; (q - 1) * wall < work <= q * wall
  {
    var q := (work + wall - 1) / wall;
    assert work + wall - 1 == q * wall + (work + wall - 1) % wall;
    assert (q - 1) * wall == q * wall - wall;
  }

  /** A sum that wraps leaves less than one wall time, hence a quota of zero. */
  lemma WrappedQuotaIsZero(work: nat, wall: nat)
    requires 0 < wall < TWO64 && work < TWO64 <= work + wall - 1
    ensures (work + wall - 1) % TWO64 / wall == 0
  {
    assert (work + wall - 1) % TWO64 == work + wall - 1 - TWO64;
    SmallDividend(work + wall - 1 - TWO64, wall);
  }

  lemma SmallDividend(a: nat, b: nat)
    requires a < b
    ensures a / b == 0
  {
  }

  /** Whatever the inputs, a quota that is returned is exact: the sum may wrap,
      but then no quota is returned. */
  lemma QuotaIsExactCeiling(cpuMillis: Uint64, nanos: Int64)
    requires CPUQuota(cpuMillis, nanos).Some?
    ensures var q := CPUQuota(cpuMillis, nanos).value;
            TightQuota(q, cpuMillis, WallMillis(nanos)) && 1000 <= q < TWO63
  {
    hide WallMillis;
    var wall, work := WallMillis(nanos), cpuMillis * PERIOD;
    assert work < TWO64;
    RoundsUp(work, wall);
    if work + wall - 1 >= TWO64 { WrappedQuotaIsZero(work, wall); }
  }

  datatype Limits = Limits(cpuMillis: Uint64, memory: Uint64, disk: Uint64, pids: nat, nanos: Int64, output: Uint64,
                           gpus: nat)

  predicate WithinBounds(l: Limits) {
    && 0 < l.cpuMillis <= MAX_CPU_MILLIS && 0 < l.memory <= MAX_MEMORY
    && 3 * PAGE <= l.disk <= MAX_DISK && 0 < l.pids <= MAX_PIDS
    && 0 < l.nanos <= MAX_NANOS && 0 < l.output <= MAX_OUTPUT
  }

  /** Within the driver's bounds a quota exists exactly when the run lasts a
      millisecond and the budget exceeds 0.999 percent of one
      CPU over it; nothing else is refused. */
  lemma QuotaExistsExactly(l: Limits)
    requires WithinBounds(l)
    ensures CPUQuota(l.cpuMillis, l.nanos).Some? <==>
            l.nanos >= NANOS_PER_MILLI && l.cpuMillis * PERIOD > 999 * (l.nanos / NANOS_PER_MILLI)
  {
    var wall, work := l.nanos / NANOS_PER_MILLI, l.cpuMillis * PERIOD;
    assert WallMillis(l.nanos) == wall;
    if wall > 0 {
      var q := (work + wall - 1) / wall;
      RoundsUp(work, wall);
      assert work % TWO64 == work && (work + wall - 1) % TWO64 == work + wall - 1;
      QuotaReaches(q, work, wall);
    }
  }

  lemma QuotaReaches(q: int, work: nat, wall: nat)
    requires wall > 0 && (q - 1) * wall < work <= q * wall && work < TWO63
    ensures q >= 1000 <==> work > 999 * wall
    ensures q < TWO63
  {
    if q >= 1000 { Grows(999, q - 1, wall); } else { Grows(q, 999, wall); }
    if q >= TWO63 { Grows(TWO63 - 1, q - 1, wall); }
  }

  lemma Grows(a: int, b: int, c: nat)
    requires a <= b
    ensures a * c <= b * c
  {
  }

  /** The driver's own admission of limits. */
  method ValidateLimits(l: Limits, permitGPU: bool) returns (ok: bool)
    ensures ok <==> && WithinBounds(l) && permitGPU == (l.gpus > 0)
                    && l.nanos >= NANOS_PER_MILLI && l.cpuMillis * PERIOD > 999 * (l.nanos / NANOS_PER_MILLI)
  {
    if l.cpuMillis == 0 || l.memory == 0 || l.disk < 3 * PAGE || l.pids == 0 || l.nanos <= 0 || l.output == 0
       || l.cpuMillis > MAX_CPU_MILLIS || l.memory > MAX_MEMORY || l.disk > MAX_DISK || l.pids > MAX_PIDS
       || l.nanos > MAX_NANOS || l.output > MAX_OUTPUT {
      return false;
    }
    if permitGPU != (l.gpus > 0) { return false; }
    QuotaExistsExactly(l);
    hide CPUQuota;
    return CPUQuota(l.cpuMillis, l.nanos).Some?;
  }

  // ------------------------------------------------------------ tmpfs mounts

  datatype Mount = Mount(kind: string, destination: string, options: seq<string>)

  const SIZE := "size="

  function Format(n: nat): (r: string)
    ensures r != [] && Digits(r)
  {
    var digit := ('0' as int + n % 10) as char;
    if n < 10 then [digit] else Format(n / 10) + [digit]
  }

  /** Reading a formatted number gives it back. */
  lemma {:induction false} FormatInverts(n: nat)
    ensures Decimal(Format(n)) == n
  {
    var digit := ('0' as int + n % 10) as char;
    assert digit as int - '0' as int == n % 10;
    if n < 10 {
      assert Decimal([]) == 0 && [digit][..0] == [];
    } else {
      FormatInverts(n / 10);
      var s := Format(n / 10) + [digit];
      assert s[..|s| - 1] == Format(n / 10) && s[|s| - 1] == digit;
    }
  }

  predicate Writable(destination: string, workspace: bool) {
    destination in Destinations(workspace)
  }

  function Destinations(workspace: bool): set<string> {
    {"/dev", "/dev/shm", "/run"} + if workspace then {"/workspace"} else {}
  }

  function Expected(workspace: bool): nat { if workspace then 4 else 3 }

  predicate Bounded(m: Mount, workspace: bool) { m.kind == "tmpfs" && Writable(m.destination, workspace) }

  function WithoutSizes(options: seq<string>): seq<string> {
    if options == [] then []
    else WithoutSizes(options[..|options| - 1]) + if SIZE <= options[|options| - 1] then []
        else [options[|options| - 1]]
  }

  function Sizes(options: seq<string>): seq<string> {
    if options == [] then []
    else Sizes(options[..|options| - 1]) + if SIZE <= options[|options| - 1] then [options[|options| - 1]] else []
  }

  function Bind(m: Mount, size: nat): Mount {
    var kept := WithoutSizes(m.options);
    var flags := if m.destination != "/workspace" && "noexec" !in kept then kept + ["noexec"] else kept;
    m.(options := flags + [SIZE + Format(size)])
  }

  lemma {:induction false} WithoutSizesHasNone(options: seq<string>)
    ensures Sizes(WithoutSizes(options)) == []
  {
    if options != [] {
      var rest, last := options[..|options| - 1], options[|options| - 1];
      WithoutSizesHasNone(rest);
      if SIZE <= last {
        assert WithoutSizes(options) == WithoutSizes(rest);
      } else {
        SizesAppend(WithoutSizes(rest), last);
      }
    }
  }

  lemma SizesAppend(options: seq<string>, o: string)
    ensures Sizes(options + [o]) == Sizes(options) + if SIZE <= o then [o] else []
  {
    assert (options + [o])[..|options|] == options;
  }

  /** The size a mount declares: the number in its only size option. */
  function DeclaredSize(m: Mount): Option<nat> {
    var sizes := Sizes(m.options);
    if |sizes| == 1 && SIZE <= sizes[0] then ParseUint(sizes[0][5..]) else None
  }

  /** A bound mount declares exactly its share, whatever sizes it had before,
      keeps its other options in order, and cannot execute files unless it is the
      workspace. */
  lemma BindDeclares(m: Mount, size: nat)
    requires size < TWO64
    ensures DeclaredSize(Bind(m, size)) == Some(size)
    ensures WithoutSizes(m.options) <= Bind(m, size).options
    ensures m.destination != "/workspace" ==> "noexec" in Bind(m, size).options
    ensures Bind(m, size).kind == m.kind && Bind(m, size).destination == m.destination
  {
    OneSize(m, size);
    SizeReadsBack(size);
    hide Sizes, WithoutSizes, Format, ParseUint;
  }

  lemma OneSize(m: Mount, size: nat)
    ensures Sizes(Bind(m, size).options) == [SIZE + Format(size)]
  {
    hide Format;
    var kept := WithoutSizes(m.options);
    WithoutSizesHasNone(m.options);
    assert "noexec"[0] == 'n' && SIZE[0] == 's' && SIZE <= SIZE + Format(size);
    SizesAppend(kept, "noexec");
    SizesAppend(kept, SIZE + Format(size));
    SizesAppend(kept + ["noexec"], SIZE + Format(size));
    hide Sizes, WithoutSizes;
  }

  lemma SizeReadsBack(size: nat)
    requires size < TWO64
    ensures SIZE <= SIZE + Format(size) && ParseUint((SIZE + Format(size))[5..]) == Some(size)
  {
    assert (SIZE + Format(size))[5..] == Format(size);
    FormatInverts(size);
  }

  function Count(mounts: seq<Mount>, workspace: bool): nat {
    if mounts == [] then 0
    else Count(mounts[..|mounts| - 1], workspace) + if Bounded(mounts[|mounts| - 1], workspace) then 1 else 0
  }

  /** Bytes the writable mounts may hold together; an unsized one has no bound. */
  function Capacity(mounts: seq<Mount>, workspace: bool): Option<nat> {
    if mounts == [] then Some(0)
    else
      var rest, last := Capacity(mounts[..|mounts| - 1], workspace), mounts[|mounts| - 1];
      if !Bounded(last, workspace) then rest
      else if rest.None? || DeclaredSize(last).None? then None
      else Some(rest.value + DeclaredSize(last).value)
  }

  function BindAll(mounts: seq<Mount>, size: nat, workspace: bool): (r: seq<Mount>)
    ensures |r| == |mounts|
  {
    seq(|mounts|, i requires 0 <= i < |mounts| => if Bounded(mounts[i], workspace) then Bind(mounts[i], size)
        else mounts[i])
  }

  method KeepOptions(options: seq<string>) returns (kept: seq<string>)
    ensures kept == WithoutSizes(options)
  {
    kept := [];
    var i := 0;
    while i < |options|
      invariant 0 <= i <= |options| && kept == WithoutSizes(options[..i])
    {
      assert options[..i + 1][..i] == options[..i];
      if !(SIZE <= options[i]) { kept := kept + [options[i]]; }
      i := i + 1;
    }
    assert options[..i] == options;
  }

  /** The rewriting in place. A limit too small for a page each is refused before
      anything is touched; a wrong number of mounts is refused only after the
      ones that were found have been rewritten. */
  method BoundTmpfs(mounts: array<Mount>, total: Uint64, workspace: bool) returns (ok: bool)
    modifies mounts
    ensures var share := total / Expected(workspace);
            && ok == (share >= PAGE && Count(old(mounts[..]), workspace) == Expected(workspace))
            && mounts[..] == if share < PAGE then old(mounts[..]) else BindAll(old(mounts[..]), share, workspace)
  {
    hide Bounded, Bind;
    var expected := 3;
    if workspace { expected := expected + 1; }
    var share := total / expected;
    if share < PAGE { return false; }
    ghost var was := mounts[..];
    var found := 0;
    var index := 0;
    while index < mounts.Length
      invariant 0 <= index <= mounts.Length && mounts.Length == |was|
      invariant found == Count(was[..index], workspace)
      invariant forall k :: 0 <= k < index ==>
                  mounts[k] == if Bounded(was[k], workspace) then Bind(was[k], share) else was[k]
      invariant forall k :: index <= k < mounts.Length ==> mounts[k] == was[k]
    {
      assert was[..index + 1][..index] == was[..index];
      if Bounded(mounts[index], workspace) {
        var bound := BindMount(mounts[index], share);
        mounts[index] := bound;
        found := found + 1;
      }
      index := index + 1;
    }
    assert was[..index] == was;
    assert mounts[..] == BindAll(was, share, workspace);
    return found == expected;
  }

  method BindMount(m: Mount, size: nat) returns (r: Mount)
    ensures r == Bind(m, size)
  {
    var options := KeepOptions(m.options);
    if m.destination != "/workspace" && "noexec" !in options { options := options + ["noexec"]; }
    options := options + [SIZE + Format(size)];
    r := m.(options := options);
  }

  lemma {:induction false} CapacityOfBound(mounts: seq<Mount>, size: nat, workspace: bool)
    requires size < TWO64
    ensures Capacity(BindAll(mounts, size, workspace), workspace) == Some(Count(mounts, workspace) * size)
  {
    if mounts != [] {
      var n := |mounts| - 1;
      CapacityOfBound(mounts[..n], size, workspace);
      var all := BindAll(mounts, size, workspace);
      BindAllSteps(mounts, size, workspace);
      LastMount(mounts[n], size, workspace);
      hide Bind, DeclaredSize, Bounded, BindAll;
      Distribute(Count(mounts[..n], workspace), size);
    }
  }

  lemma BindAllSteps(mounts: seq<Mount>, size: nat, workspace: bool)
    requires mounts != []
    ensures var n, all := |mounts| - 1, BindAll(mounts, size, workspace);
            && all[..n] == BindAll(mounts[..n], size, workspace)
            && all[n] == if Bounded(mounts[n], workspace) then Bind(mounts[n], size) else mounts[n]
  {
    hide Bind, Bounded;
  }

  lemma LastMount(m: Mount, size: nat, workspace: bool)
    requires size < TWO64
    ensures DeclaredSize(Bind(m, size)) == Some(size)
    ensures Bounded(Bind(m, size), workspace) == Bounded(m, workspace)
  {
    BindDeclares(m, size);
  }

  lemma Distribute(a: nat, b: nat)
    ensures (a + 1) * b == a * b + b
  {
  }

  /** After a successful rewriting the writable mounts together hold at most the
      disk limit, and fall short of it by less than one byte per mount. */
  lemma TmpfsFitsDisk(mounts: seq<Mount>, total: Uint64, workspace: bool)
    requires Count(mounts, workspace) == Expected(workspace)
    ensures var share := total / Expected(workspace);
            var capacity := Capacity(BindAll(mounts, share, workspace), workspace);
            capacity.Some? && total - Expected(workspace) < capacity.value <= total
  {
    CapacityOfBound(mounts, total / Expected(workspace), workspace);
  }

  /** The code counts mounts without telling them apart: two at the same place
      stand in for a missing one, which then has no bounded mount at all. */
  lemma CountDoesNotIdentify()
    ensures exists mounts: seq<Mount> ::
              Count(mounts, false) == Expected(false) && forall i :: 0 <= i < |mounts| ==>
                mounts[i].destination != "/run"
  {
    var a, b := Mount("tmpfs", "/dev", []), Mount("tmpfs", "/dev/shm", []);
    var mounts := [a, a, b];
    assert mounts[..2] == [a, a] && [a, a][..1] == [a] && [a][..0] == [];
    assert Count([a], false) == 1;
    assert Count([a, a], false) == 2;
    assert Count(mounts, false) == 3;
  }

  predicate DistinctPlaces(mounts: seq<Mount>, workspace: bool) {
    forall i, j :: 0 <= i < j < |mounts| && Bounded(mounts[i], workspace) && Bounded(mounts[j], workspace) ==>
      mounts[i].destination != mounts[j].destination
  }

  function Places(mounts: seq<Mount>, workspace: bool): set<string> {
    if mounts == [] then {}
    else
      var rest, last := Places(mounts[..|mounts| - 1], workspace), mounts[|mounts| - 1];
      if Bounded(last, workspace) then rest + {last.destination} else rest
  }

  lemma {:induction false} PlacesAre(mounts: seq<Mount>, workspace: bool, d: string)
    ensures d in Places(mounts, workspace) <==>
            exists i :: 0 <= i < |mounts| && Bounded(mounts[i], workspace) && mounts[i].destination == d
  {
    hide Bounded;
    if mounts != [] {
      var n := |mounts| - 1;
      PlacesAre(mounts[..n], workspace, d);
      assert forall i :: 0 <= i < n ==> mounts[..n][i] == mounts[i];
    }
  }

  lemma {:induction false} DistinctCount(mounts: seq<Mount>, workspace: bool)
    requires DistinctPlaces(mounts, workspace)
    ensures Count(mounts, workspace) == |Places(mounts, workspace)|
    ensures Places(mounts, workspace) <= Destinations(workspace)
  {
    hide Destinations;
    if mounts != [] {
      var n := |mounts| - 1;
      assert forall i :: 0 <= i < n ==> mounts[..n][i] == mounts[i];
      DistinctCount(mounts[..n], workspace);
      PlacesAre(mounts[..n], workspace, mounts[n].destination);
    }
  }

  lemma DestinationCount(workspace: bool)
    ensures |Destinations(workspace)| == Expected(workspace)
  {
    assert "/dev" != "/run" && |"/dev/shm"| == 8 && |"/workspace"| == 10;
  }

  lemma FullSubset(a: set<string>, b: set<string>)
    requires a <= b
    ensures |a| == |b| <==> a == b
  {
    if a != b {
      assert b == a + (b - a) && a !! b - a;
      assert |b - a| > 0;
    }
  }

  /** When no two tmpfs mounts share a place, the count is right exactly when
      every place that must be bounded has its mount. */
  lemma DistinctMountsAreComplete(mounts: seq<Mount>, workspace: bool)
    requires DistinctPlaces(mounts, workspace)
    ensures Count(mounts, workspace) == Expected(workspace) <==>
            forall d :: d in Destinations(workspace) ==>
              exists i :: 0 <= i < |mounts| && Bounded(mounts[i], workspace) && mounts[i].destination == d
  {
    DistinctCount(mounts, workspace);
    DestinationCount(workspace);
    hide Destinations, Bounded, Places, Count;
    FullSubset(Places(mounts, workspace), Destinations(workspace));
    forall d ensures d in Places(mounts, workspace) <==>
                     exists i :: 0 <= i < |mounts| && Bounded(mounts[i], workspace) && mounts[i].destination == d {
      PlacesAre(mounts, workspace, d);
    }
  }

  /** Counting mounts counts places, and counts some place twice exactly when two
      mounts share one. */
  lemma {:induction false} PlacesBoundCount(mounts: seq<Mount>, workspace: bool)
    ensures |Places(mounts, workspace)| <= Count(mounts, workspace)
    ensures |Places(mounts, workspace)| == Count(mounts, workspace) ==> DistinctPlaces(mounts, workspace)
    ensures Places(mounts, workspace) <= Destinations(workspace)
  {
    hide Destinations;
    if mounts != [] {
      var n := |mounts| - 1;
      PlacesBoundCount(mounts[..n], workspace);
      assert forall i :: 0 <= i < n ==> mounts[..n][i] == mounts[i];
      PlacesAre(mounts[..n], workspace, mounts[n].destination);
      hide Bounded;
      if |Places(mounts, workspace)| == Count(mounts, workspace) {
        assert DistinctPlaces(mounts[..n], workspace);
      }
    }
  }

  ghost predicate EveryPlaceBounded(mounts: seq<Mount>, workspace: bool) {
    forall d :: d in Destinations(workspace) ==>
      exists i :: 0 <= i < |mounts| && Bounded(mounts[i], workspace) && mounts[i].destination == d
  }

  /** On an accepted mount list every expected place is bounded if and only if no
      two writable mounts share a place. */
  lemma AcceptedCompleteExactly(mounts: seq<Mount>, workspace: bool)
    requires Count(mounts, workspace) == Expected(workspace)
    ensures EveryPlaceBounded(mounts, workspace) <==> DistinctPlaces(mounts, workspace)
  {
    if DistinctPlaces(mounts, workspace) {
      DistinctMountsAreComplete(mounts, workspace);
    }
    if EveryPlaceBounded(mounts, workspace) {
      PlacesBoundCount(mounts, workspace);
      DestinationCount(workspace);
      hide Destinations, Bounded, Places, Count, DistinctPlaces;
      forall d | d in Destinations(workspace) ensures d in Places(mounts, workspace) {
        PlacesAre(mounts, workspace, d);
      }
      assert Places(mounts, workspace) == Destinations(workspace);
    }
  }
}
