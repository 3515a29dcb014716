/** Exclusive GPU leases: a first-fit allocator over a fixed, sorted list of
    device aliases, used by concurrent runs. */
module GpuLease {
  import opened Common
  import opened Sorting

  const MAX_DEVICES := 64

  datatype Lease = Lease(owner: string, devices: seq<string>)

  /** The allocator and the runs that currently hold a lease. */
  datatype State = State(devices: seq<string>, leased: map<string, string>, runs: map<nat, Lease>)

  datatype Event = Acquire(call: nat, owner: string, count: int) | Release(call: nat)

  function AliasKey(a: string): string { a }

  predicate ValidAlias(a: string) {
    && 3 <= |a| <= 64
    && (forall i :: 0 < i < |a| ==> !(a[i - 1] == '.' && a[i] == '.'))
    && forall i :: 0 <= i < |a| ==> 'a' <= a[i] <= 'z' || '0' <= a[i] <= '9' || a[i] == '-'
  }

  /** The first `n` free aliases, in device order. */
  function FirstFree(devices: seq<string>, leased: map<string, string>, n: nat): seq<string> {
    if n == 0 || devices == [] then []
    else if devices[0] in leased then FirstFree(devices[1..], leased, n)
    else [devices[0]] + FirstFree(devices[1..], leased, n - 1)
  }

  function Taken(leased: map<string, string>, ds: seq<string>, owner: string): map<string, string> {
    leased + map d | d in ds :: owner
  }

  /** The result of an acquisition: nothing, or the devices handed out. */
  function Grant(devices: seq<string>, leased: map<string, string>, owner: string, count: int): Option<seq<string>> {
    if count < 0 || count > |devices| - |leased| then None
    else if count == 0 then Some([])
    else if owner in leased.Values then None
    else Some(FirstFree(devices, leased, count))
  }

  function Freed(leased: map<string, string>, ds: seq<string>, owner: string): map<string, string> {
    map d | d in leased && !(d in ds && leased[d] == owner) :: leased[d]
  }

  function Step(s: State, e: Event): State {
    match e
    case Acquire(call, owner, count) =>
      var g := Grant(s.devices, s.leased, owner, count);
      if call in s.runs || g.None? then s
      else s.(leased := Taken(s.leased, g.value, owner), runs := s.runs[call := Lease(owner, g.value)])
    case Release(call) =>
      if call !in s.runs then s
      else s.(leased := Freed(s.leased, s.runs[call].devices, s.runs[call].owner), runs := s.runs - {call})
  }

  function Run(s: State, events: seq<Event>): State {
    if events == [] then s else Step(Run(s, events[..|events| - 1]), events[|events| - 1])
  }

  // ---------------------------------------------------------- the allocation

  ghost predicate Distinct(xs: seq<string>) { forall i, j :: 0 <= i < j < |xs| ==> xs[i] != xs[j] }

  /** All free devices, in device order. */
  function FreeList(devices: seq<string>, leased: map<string, string>): seq<string> {
    if devices == [] then []
    else if devices[0] in leased then FreeList(devices[1..], leased)
    else [devices[0]] + FreeList(devices[1..], leased)
  }

  /** First fit: the grant is the beginning of the list of free devices. */
  lemma {:induction false} FirstFreeIsPrefix(devices: seq<string>, leased: map<string, string>, n: nat)
    ensures FirstFree(devices, leased, n) <= FreeList(devices, leased)
    ensures |FirstFree(devices, leased, n)|
        == (if n < |FreeList(devices, leased)| then n else |FreeList(devices, leased)|)
  {
    if devices != [] {
      if devices[0] in leased {
        FirstFreeIsPrefix(devices[1..], leased, n);
      } else if n > 0 {
        FirstFreeIsPrefix(devices[1..], leased, n - 1);
      }
    }
  }

  lemma {:induction false} FreeListMembers(devices: seq<string>, leased: map<string, string>)
    requires Distinct(devices)
    ensures forall d :: d in FreeList(devices, leased) <==> d in devices && d !in leased
    ensures Distinct(FreeList(devices, leased))
  {
    if devices != [] {
      var rest := devices[1..];
      assert Distinct(rest) && devices == [devices[0]] + rest;
      FreeListMembers(rest, leased);
      assert devices[0] !in rest;
    }
  }

  lemma {:induction false} DistinctSize(xs: seq<string>)
    requires Distinct(xs)
    ensures |set x | x in xs| == |xs|
  {
    if xs != [] {
      var rest := xs[..|xs| - 1];
      DistinctSize(rest);
      assert xs == rest + [xs[|xs| - 1]];
      assert (set x | x in xs) == (set x | x in rest) + {xs[|xs| - 1]};
    }
  }

  /** What is free and what is taken add up to the device list. */
  lemma FreeCount(devices: seq<string>, leased: map<string, string>)
    requires Distinct(devices) && forall d :: d in leased ==> d in devices
    ensures |FreeList(devices, leased)| == |devices| - |leased|
  {
    FreeListMembers(devices, leased);
    DistinctSize(devices);
    DistinctSize(FreeList(devices, leased));
    var all := set x | x in devices;
    var free := set x | x in FreeList(devices, leased);
    assert free == all - leased.Keys && leased.Keys <= all;
  }

  /** What a positive grant hands out. */
  lemma GrantedDevices(devices: seq<string>, leased: map<string, string>, n: nat)
    requires Distinct(devices) && (forall d :: d in leased ==> d in devices) && n <= |devices| - |leased|
    ensures var f := FirstFree(devices, leased, n);
            |f| == n && Distinct(f) && f <= FreeList(devices, leased) && forall d :: d in f ==>
              d in devices && d !in leased
  {
    FirstFreeIsPrefix(devices, leased, n);
    FreeListMembers(devices, leased);
    FreeCount(devices, leased);
    var f := FirstFree(devices, leased, n);
    forall d | d in f ensures d in devices && d !in leased { assert d in FreeList(devices, leased); }
  }

  // ---------------------------------------------------------------- invariant

  /** A lease repeats no device, and the allocator books each one to its owner. */
  ghost predicate Booked(leased: map<string, string>, l: Lease) {
    Distinct(l.devices) && forall d :: d in l.devices ==> d in leased && leased[d] == l.owner
  }

  ghost predicate Held(runs: map<nat, Lease>, d: string) {
    exists c :: c in runs && d in runs[c].devices
  }

  ghost predicate Inv(s: State) {
    && Distinct(s.devices)
    && (forall d :: d in s.leased ==> d in s.devices)
    && (forall c :: c in s.runs ==> Booked(s.leased, s.runs[c]))
    && (forall d :: d in s.leased ==> Held(s.runs, d))
    && (forall b, c :: b in s.runs && c in s.runs && b != c && s.runs[b].devices != [] && s.runs[c].devices != [] ==>
          s.runs[b].owner != s.runs[c].owner)
  }

  lemma TakeKeeps(s: State, call: nat, owner: string, f: seq<string>)
    requires Inv(s) && call !in s.runs && Distinct(f) && (forall d :: d in f ==> d in s.devices && d !in s.leased)
    requires f == [] || owner !in s.leased.Values
    ensures Inv(s.(leased := Taken(s.leased, f, owner), runs := s.runs[call := Lease(owner, f)]))
  {
    var t := s.(leased := Taken(s.leased, f, owner), runs := s.runs[call := Lease(owner, f)]);
    TakeOwners(s, owner, f);
    TakeCovers(s, t, call, f);
    forall c | c in t.runs ensures Booked(t.leased, t.runs[c]) {
      if c != call { assert Booked(s.leased, s.runs[c]); }
    }
  }

  lemma TakeOwners(s: State, owner: string, f: seq<string>)
    requires Inv(s) && (f == [] || owner !in s.leased.Values)
    ensures forall c :: c in s.runs && s.runs[c].devices != [] && f != [] ==> s.runs[c].owner != owner
  {
    forall c | c in s.runs && s.runs[c].devices != [] && f != [] ensures s.runs[c].owner != owner {
      assert Booked(s.leased, s.runs[c]) && s.runs[c].devices[0] in s.runs[c].devices;
      assert s.leased[s.runs[c].devices[0]] == s.runs[c].owner;
      assert s.runs[c].owner in s.leased.Values;
    }
  }

  lemma TakeCovers(s: State, t: State, call: nat, f: seq<string>)
    requires Inv(s) && call !in s.runs && call in t.runs && t.runs == s.runs[call := t.runs[call]]
             && t.runs[call].devices == f
    requires t.leased.Keys == s.leased.Keys + set d | d in f
    ensures forall d :: d in t.leased ==> Held(t.runs, d)
  {
    forall d | d in t.leased ensures Held(t.runs, d) {
      if d in f {
        assert call in t.runs;
      } else {
        assert Held(s.runs, d);
        var c :| c in s.runs && d in s.runs[c].devices;
        assert c in t.runs && t.runs[c] == s.runs[c];
      }
    }
  }

  lemma AcquireKeeps(s: State, call: nat, owner: string, count: int)
    requires Inv(s)
    ensures Inv(Step(s, Acquire(call, owner, count)))
  {
    hide Inv, FirstFree;
    var g := Grant(s.devices, s.leased, owner, count);
    if call !in s.runs && g.Some? {
      if count > 0 { InvGrant(s, count); }
      TakeKeeps(s, call, owner, g.value);
    }
  }

  lemma InvGrant(s: State, count: nat)
    requires Inv(s) && count <= |s.devices| - |s.leased|
    ensures var f := FirstFree(s.devices, s.leased, count); Distinct(f) && forall d :: d in f ==>
              d in s.devices && d !in s.leased
  {
    GrantedDevices(s.devices, s.leased, count);
  }

  lemma ReleaseKeeps(s: State, call: nat)
    requires Inv(s)
    ensures Inv(Step(s, Release(call)))
  {
    var t := Step(s, Release(call));
    if call in s.runs {
      forall c | c in t.runs ensures Booked(t.leased, t.runs[c]) {
        assert Booked(s.leased, s.runs[c]) && Booked(s.leased, s.runs[call]);
      }
      forall d | d in t.leased ensures Held(t.runs, d) {
        assert Held(s.runs, d);
        var c :| c in s.runs && d in s.runs[c].devices;
        assert c != call && c in t.runs;
      }
    }
  }

  lemma {:induction false} RunKeeps(devices: seq<string>, events: seq<Event>)
    requires Distinct(devices)
    ensures Inv(Run(State(devices, map[], map[]), events))
            && Run(State(devices, map[], map[]), events).devices == devices
  {
    if events != [] {
      RunKeeps(devices, events[..|events| - 1]);
      var s := Run(State(devices, map[], map[]), events[..|events| - 1]);
      match events[|events| - 1]
      case Acquire(call, owner, count) => AcquireKeeps(s, call, owner, count);
      case Release(call) => ReleaseKeeps(s, call);
    }
  }

  // ----------------------------------------------------------------- theorems

  ghost function SumLeases(runs: map<nat, Lease>): nat
    decreases |runs|
  {
    if runs == map[] then 0
    else
      var c :| c in runs;
      |runs[c].devices| + SumLeases(runs - {c})
  }

  lemma LeasesAreDisjoint(s: State, b: nat, c: nat, d: string)
    requires Inv(s) && b in s.runs && c in s.runs && b != c && d in s.runs[b].devices
    ensures d !in s.runs[c].devices
  {
    assert Booked(s.leased, s.runs[b]) && Booked(s.leased, s.runs[c]);
  }

  lemma FreedSize(leased: map<string, string>, f: seq<string>, owner: string)
    requires Distinct(f) && forall d :: d in f ==> d in leased && leased[d] == owner
    ensures |Freed(leased, f, owner)| + |f| == |leased|
  {
    DistinctSize(f);
    var mine := set x | x in f;
    assert Freed(leased, f, owner).Keys == leased.Keys - mine && mine <= leased.Keys;
  }

  lemma ReleaseSize(s: State, c: nat)
    requires Inv(s) && c in s.runs
    ensures |Step(s, Release(c)).leased| + |s.runs[c].devices| == |s.leased|
  {
    hide Freed;
    assert Booked(s.leased, s.runs[c]);
    FreedSize(s.leased, s.runs[c].devices, s.runs[c].owner);
  }

  /** The leases add up to what the allocator counts as taken. */
  lemma {:induction false} LeasesAddUp(s: State)
    requires Inv(s)
    ensures SumLeases(s.runs) == |s.leased|
    decreases |s.runs|
  {
    if s.runs == map[] {
      forall d ensures d !in s.leased { assert d in s.leased ==> Held(s.runs, d); }
      assert s.leased.Keys == {};
    } else {
      hide Inv;
      var c :| c in s.runs && SumLeases(s.runs) == |s.runs[c].devices| + SumLeases(s.runs - {c});
      ReleaseKeeps(s, c);
      ReleaseSize(s, c);
      assert (s.runs - {c}).Keys == s.runs.Keys - {c};
      LeasesAddUp(Step(s, Release(c)));
    }
  }

  /** In every interleaving: outstanding leases are disjoint sets of fixed devices,
      together they are exactly the taken ones, and when no run is left every
      device is free. */
  lemma LeasesPartitionTheDevices(devices: seq<string>, events: seq<Event>)
    requires Distinct(devices)
    ensures var s := Run(State(devices, map[], map[]), events);
            && (forall b, c, d :: b in s.runs && c in s.runs && b != c && d in s.runs[b].devices ==>
                d !in s.runs[c].devices)
            && (forall c, d :: c in s.runs && d in s.runs[c].devices ==> d in devices)
            && (|devices| - |s.leased|) + SumLeases(s.runs) == |devices|
            && |FreeList(devices, s.leased)| == |devices| - |s.leased|
            && (s.runs == map[] ==> s.leased == map[])
  {
    RunKeeps(devices, events);
    var s := Run(State(devices, map[], map[]), events);
    forall b, c, d | b in s.runs && c in s.runs && b != c && d in s.runs[b].devices ensures d !in s.runs[c].devices {
      LeasesAreDisjoint(s, b, c, d);
    }
    forall c, d | c in s.runs && d in s.runs[c].devices ensures d in devices { assert Booked(s.leased, s.runs[c]); }
    LeasesAddUp(s);
    FreeCount(devices, s.leased);
    if s.runs == map[] { assert s.leased.Keys == {}; }
  }

  /** Some run of this owner has devices. */
  ghost predicate Holding(runs: map<nat, Lease>, owner: string) {
    exists c :: c in runs && runs[c].owner == owner && runs[c].devices != []
  }

  /** A granted lease has exactly the requested number of devices and is the
      beginning of the free list in device order; a request is refused exactly when
      it is negative, exceeds what is free, or its owner already holds devices. */
  lemma GrantIsExact(devices: seq<string>, events: seq<Event>, owner: string, count: int)
    requires Distinct(devices)
    ensures var s := Run(State(devices, map[], map[]), events);
            var g := Grant(devices, s.leased, owner, count);
            && (g.None? <==> count < 0 || count > |FreeList(devices, s.leased)|
                             || (count > 0 && Holding(s.runs, owner)))
            && (g.Some? ==> |g.value| == count && g.value <= FreeList(devices, s.leased))
  {
    hide FirstFree, FreeList;
    RunKeeps(devices, events);
    var s := Run(State(devices, map[], map[]), events);
    FreeCount(devices, s.leased);
    if 0 < count <= |devices| - |s.leased| { GrantedDevices(devices, s.leased, count); }
    OwnersHold(s, owner);
  }

  /** Between taking and giving back anything may interleave: giving back frees
      exactly the devices of this run and leaves every other lease alone. */
  lemma ReleaseReturnsExactly(devices: seq<string>, events: seq<Event>, call: nat)
    requires Distinct(devices)
    ensures var s := Run(State(devices, map[], map[]), events);
            var t := Step(s, Release(call));
            call in s.runs ==>
              && t.runs == s.runs - {call}
              && (forall d :: d in t.leased <==> d in s.leased && d !in s.runs[call].devices)
              && (forall d :: d in t.leased ==> t.leased[d] == s.leased[d])
              && (forall c, d :: c in t.runs && d in t.runs[c].devices ==> d in t.leased)
  {
    RunKeeps(devices, events);
    var s := Run(State(devices, map[], map[]), events);
    if call in s.runs {
      assert Booked(s.leased, s.runs[call]);
      ReleaseKeeps(s, call);
      var t := Step(s, Release(call));
      forall c, d | c in t.runs && d in t.runs[c].devices ensures d in t.leased { assert Booked(t.leased, t.runs[c]); }
    }
  }

  lemma OwnersHold(s: State, owner: string)
    requires Inv(s)
    ensures owner in s.leased.Values <==> exists c :: c in s.runs && s.runs[c].owner == owner && s.runs[c].devices != []
  {
    if owner in s.leased.Values {
      var d :| d in s.leased && s.leased[d] == owner;
      assert Held(s.runs, d);
      var c :| c in s.runs && d in s.runs[c].devices;
      assert Booked(s.leased, s.runs[c]);
      assert s.runs[c].owner == owner && s.runs[c].devices != [];
    }
    if c :| c in s.runs && s.runs[c].owner == owner && s.runs[c].devices != [] {
      var d := s.runs[c].devices[0];
      assert Booked(s.leased, s.runs[c]) && d in s.runs[c].devices && s.leased[d] == owner;
    }
  }

  // --------------------------------------------------------------- the object

  /** The fixed device list: every alias valid, none repeated, in sorted order. */
  method NewDevices(aliases: seq<string>) returns (r: Option<seq<string>>)
    ensures r.Some? <==>
              0 < |aliases| <= MAX_DEVICES && DistinctBy(aliases, AliasKey) && forall a :: a in aliases ==>
                ValidAlias(a)
    ensures r.Some? ==> SameElements(r.value, aliases) && SortedBy(r.value, AliasKey) && Distinct(r.value)
  {
    if |aliases| == 0 || |aliases| > MAX_DEVICES { return None; }
    var devices := SortedCopy(aliases, AliasKey);
    NeighboursSuffice(devices, AliasKey);
    for i := 0 to |devices|
      invariant forall k :: 0 <= k < i ==> ValidAlias(devices[k])
      invariant forall k :: 0 < k < i ==> AliasKey(devices[k - 1]) != AliasKey(devices[k])
    {
      if !ValidAlias(devices[i]) || (i > 0 && devices[i - 1] == devices[i]) {
        assert devices[i] in devices;
        assert i > 0 ==> AliasKey(devices[i - 1]) == devices[i - 1] && AliasKey(devices[i]) == devices[i];
        return None;
      }
    }
    assert forall i, j :: 0 <= i < j < |devices| ==> AliasKey(devices[i]) != AliasKey(devices[j]);
    r := Some(devices);
  }

  /** What the scan has taken so far, completed by what it still has to find, is
      the whole grant. */
  ghost predicate Remaining(devices: seq<string>, leased: map<string, string>, taken: seq<string>, i: nat, count: nat) {
    i <= |devices| && |taken| <= count
    && taken + FirstFree(devices[i..], leased, count - |taken|) == FirstFree(devices, leased, count)
  }

  lemma StepRemaining(devices: seq<string>, leased: map<string, string>, taken: seq<string>, i: nat, count: nat)
    requires i < |devices| && |taken| < count && Remaining(devices, leased, taken, i, count)
    ensures devices[i] in leased ==> Remaining(devices, leased, taken, i + 1, count)
    ensures devices[i] !in leased ==> Remaining(devices, leased, taken + [devices[i]], i + 1, count)
  {
    assert devices[i..][0] == devices[i] && devices[i..][1..] == devices[i + 1..];
  }

  lemma RemainingEnds(devices: seq<string>, leased: map<string, string>, taken: seq<string>, i: nat, count: nat)
    requires Remaining(devices, leased, taken, i, count) && (i == |devices| || |taken| == count)
    ensures taken == FirstFree(devices, leased, count)
  {
  }

  lemma TakenStep(leased: map<string, string>, taken: seq<string>, owner: string, alias: string)
    requires alias !in taken
    ensures alias in Taken(leased, taken, owner) <==> alias in leased
    ensures Taken(leased, taken + [alias], owner) == Taken(leased, taken, owner)[alias := owner]
  {
  }

  lemma NotYetTaken(devices: seq<string>, taken: seq<string>, i: nat)
    requires Distinct(devices) && i < |devices| && forall d :: d in taken ==> d in devices[..i]
    ensures devices[i] !in taken
  {
    assert forall k :: 0 <= k < i ==> devices[..i][k] == devices[k] && devices[k] != devices[i];
  }

  lemma TakenThenFreed(leased: map<string, string>, f: seq<string>, owner: string)
    requires forall d :: d in f ==> d !in leased
    ensures Freed(Taken(leased, f, owner), f, owner) == leased
  {
  }

  datatype BackendOutcome = Finished(ok: bool) | Panicked

  class Client {
    const devices: seq<string>
    var leased: map<string, string>

    constructor (devices: seq<string>)
      ensures this.devices == devices && leased == map[]
    {
      this.devices := devices;
      leased := map[];
    }

    method Acquire(owner: string, count: int) returns (r: Option<seq<string>>)
      requires Distinct(devices) && forall d :: d in leased ==> d in devices
      modifies this
      ensures r == Grant(devices, old(leased), owner, count)
      ensures leased == if r.Some? then Taken(old(leased), r.value, owner) else old(leased)
    {
      if count < 0 || count > |devices| - |leased| { return None; }
      if count == 0 { return Some([]); }
      if owner in leased.Values { return None; }
      var taken := Scan(owner, count);
      r := Some(taken);
    }

    /** Walks the device list and takes free devices until there are enough. */
    method Scan(owner: string, count: nat) returns (taken: seq<string>)
      requires Distinct(devices) && count > 0
      modifies this
      ensures taken == FirstFree(devices, old(leased), count) && leased == Taken(old(leased), taken, owner)
    {
      hide FirstFree, Taken, Remaining;
      taken := [];
      NothingTaken(devices, leased, owner, count);
      for i := 0 to |devices|
        invariant |taken| < count
        invariant forall d :: d in taken ==> d in devices[..i]
        invariant leased == Taken(old(leased), taken, owner)
        invariant Remaining(devices, old(leased), taken, i, count)
      {
        var alias := devices[i];
        NotYetTaken(devices, taken, i);
        StepRemaining(devices, old(leased), taken, i, count);
        TakenStep(old(leased), taken, owner, alias);
        assert devices[..i + 1] == devices[..i] + [alias];
        if alias !in leased {
          leased := leased[alias := owner];
          taken := taken + [alias];
          if |taken| == count {
            RemainingEnds(devices, old(leased), taken, i + 1, count);
            return;
          }
        }
      }
      RemainingEnds(devices, old(leased), taken, |devices|, count);
    }

    static lemma NothingTaken(devices: seq<string>, leased: map<string, string>, owner: string, count: nat)
      ensures Taken(leased, [], owner) == leased && Remaining(devices, leased, [], 0, count)
    {
      assert devices[0..] == devices;
    }

    method Release(owner: string, ds: seq<string>)
      modifies this
      ensures leased == Freed(old(leased), ds, owner)
    {
      for i := 0 to |ds|
        invariant leased == Freed(old(leased), ds[..i], owner)
      {
        assert ds[..i + 1] == ds[..i] + [ds[i]];
        if ds[i] in leased && leased[ds[i]] == owner { leased := leased - {ds[i]}; }
      }
      assert ds[..|ds|] == ds;
    }

    method Available() returns (n: int)
      ensures n == |devices| - |leased|
    {
      n := |devices| - |leased|;
    }

    /** One run: whatever the backend does, including a panic, the lease is back
        in place afterwards, and a result is reported only for a success that the
        caller did not cancel meanwhile. */
    method RunIsolated(valid: bool, cancelled: bool, owner: string, allowGPU: bool, count: nat, outcome: BackendOutcome,
                       cancelledLate: bool)
      returns (ran: bool, ok: bool)
      requires Distinct(devices) && forall d :: d in leased ==> d in devices
      modifies this
      ensures leased == old(leased)
      ensures ran <==> && valid && !cancelled && allowGPU == (count > 0)
                       && Grant(devices, old(leased), owner, count).Some?
      ensures ok <==> ran && outcome == Finished(true) && !cancelledLate
    {
      if !valid || cancelled || allowGPU != (count > 0) { return false, false; }
      var granted := Acquire(owner, count);
      if granted.None? { return false, false; }
      hide FirstFree;
      if count > 0 { GrantedDevices(devices, old(leased), count); }
      TakenThenFreed(old(leased), granted.value, owner);
      ok := outcome == Finished(true) && !cancelledLate;
      Release(owner, granted.value);
      ran := true;
    }
  }
}
