/** Effective memory and CPU count of a process under Linux control groups. A
    directory is the sequence of its path components; a snapshot of the control
    files maps a directory and a file name to what reading the file gives. */
module Cgroup {
  import opened ControlText

  const MAX_DEPTH := 128
  const MAX_PATH := 4096

  type Dir = seq<string>
  datatype Reading = Missing | Unreadable | Text(text: string)
  type Files = (Dir, string) -> Reading

  /** What a directory, or a whole hierarchy, says about one resource. */
  datatype Limit = Bad | Unlimited | AtMost(value: nat)

  /** Which control file is read, and how. */
  datatype Control = MemoryV1 | MemoryV2 | QuotaV1 | QuotaV2

  // ------------------------------------------------------------ one directory

  function ParseMemory(text: string, allowMax: bool): Limit {
    var fields := Fields(text);
    if |fields| != 1 then Bad
    else if allowMax && fields[0] == "max" then Unlimited
    else
      match ParseUint(fields[0])
      case None => Bad
      case Some(value) => if value == 0 then Bad else AtMost(value)
  }

  datatype Quota = BadQuota | NoQuota | Quota(quota: nat, period: nat)

  function ParseQuotaV2(text: string): (r: Quota)
    ensures r.Quota? ==> r.quota > 0 && r.period > 0
  {
    var fields := Fields(text);
    if |fields| != 2 then BadQuota
    else
      match ParseUint(fields[1])
      case None => BadQuota
      case Some(period) =>
        if period == 0 then BadQuota
        else if fields[0] == "max" then NoQuota
        else
          match ParseUint(fields[0])
          case None => BadQuota
          case Some(quota) => if quota == 0 then BadQuota else Quota(quota, period)
  }

  function ParseQuotaV1(quotaText: string, periodText: string): (r: Quota)
    ensures r.Quota? ==> r.quota > 0 && r.period > 0
  {
    var quotas, periods := Fields(quotaText), Fields(periodText);
    if |quotas| != 1 || |periods| != 1 then BadQuota
    else
      var quota, period := ParseInt(quotas[0]), ParseUint(periods[0]);
      if quota.None? || quota.value == 0 || quota.value < -1 then BadQuota
      else if period.None? || period.value == 0 then BadQuota
      else if quota.value == -1 then NoQuota
      else Quota(quota.value, period.value)
  }

  /** The quota a directory sets. Version 1 must have both files. */
  function QuotaAt(files: Files, v2: bool, d: Dir): (r: Quota)
    ensures r.Quota? ==> r.quota > 0 && r.period > 0
  {
    if v2 then
      match files(d, "cpu.max")
      case Missing => NoQuota
      case Unreadable => BadQuota
      case Text(text) => ParseQuotaV2(text)
    else
      var quota, period := files(d, "cpu.cfs_quota_us"), files(d, "cpu.cfs_period_us");
      if quota.Text? && period.Text? then ParseQuotaV1(quota.text, period.text) else BadQuota
  }

  function Ceiling(quota: nat, period: nat): nat
    requires period > 0
  {
    quota / period + if quota % period != 0 then 1 else 0
  }

  /** Whole CPUs a quota is worth: at least one, at most the supported number. */
  function QuotaCPUs(quota: nat, period: nat): (r: nat)
    requires period > 0
    ensures 1 <= r <= MAX_CPUS
  {
    var count := Ceiling(quota, period);
    if count == 0 then 1 else if count > MAX_CPUS then MAX_CPUS else count
  }

  /** What one directory says. No directory states a limit of zero. */
  function At(files: Files, control: Control, d: Dir): (r: Limit)
    ensures r.AtMost? ==> r.value > 0
  {
    match control
    case MemoryV1 => (
      match files(d, "memory.limit_in_bytes")
      case Text(text) => ParseMemory(text, false)
      case Missing => Bad
      case Unreadable => Bad
    )
    case MemoryV2 => (
      match files(d, "memory.max")
      case Text(text) => ParseMemory(text, true)
      case Missing => Unlimited
      case Unreadable => Bad
    )
    case QuotaV1 => Worth(QuotaAt(files, false, d))
    case QuotaV2 => Worth(QuotaAt(files, true, d))
  }

  function Worth(q: Quota): Limit
    requires q.Quota? ==> q.period > 0
  {
    match q
    case BadQuota => Bad
    case NoQuota => Unlimited
    case Quota(quota, period) => AtMost(QuotaCPUs(quota, period))
  }

  // ------------------------------------------------------- the ancestor chain

  function Tighter(a: Limit, b: Limit): Limit {
    if a.Bad? || b.Bad? then Bad
    else if a.Unlimited? then b
    else if b.Unlimited? then a
    else AtMost(if a.value < b.value then a.value else b.value)
  }

  /** The tightest limit from a directory up to its mount point. */
  function Least(files: Files, control: Control, current: Dir, point: Dir): Limit
    requires point <= current
    decreases |current|
  {
    if current == point then At(files, control, current)
    else Tighter(At(files, control, current), Least(files, control, current[..|current| - 1], point))
  }

  /** The directory k components deep on the chain, for k from the mount point
      down to the process's own directory. */
  predicate OnChain(current: Dir, point: Dir, k: int) { |point| <= k <= |current| }

  /** The chain fails when one directory does; otherwise its limit is one that a
      directory states and no directory states a smaller one. */
  lemma {:induction false} LeastIsExact(files: Files, control: Control, current: Dir, point: Dir)
    requires point <= current
    ensures var r := Least(files, control, current, point);
            && (r.Bad? <==> exists k :: OnChain(current, point, k) && At(files, control, current[..k]).Bad?)
            && (r.AtMost? ==> exists k :: OnChain(current, point, k) && At(files, control, current[..k]) == r)
            && (r.AtMost? ==> forall k :: OnChain(current, point, k) && At(files, control, current[..k]).AtMost? ==>
                  r.value <= At(files, control, current[..k]).value)
            && (r.Unlimited? ==> forall k :: OnChain(current, point, k) ==> At(files, control, current[..k]).Unlimited?)
    decreases |current|
  {
    hide At;
    var n := |current|;
    assert current[..n] == current && OnChain(current, point, n);
    if current == point {
      assert forall k :: OnChain(current, point, k) ==> k == n;
    } else {
      var parent := current[..n - 1];
      LeastIsExact(files, control, parent, point);
      assert forall k :: OnChain(parent, point, k) ==> OnChain(current, point, k) && parent[..k] == current[..k];
      assert forall k :: OnChain(current, point, k) ==> k == n || OnChain(parent, point, k);
    }
  }

  /** The limit of a hierarchy: an error unless the mount point is an ancestor
      within the depth bound. */
  function Hierarchy(files: Files, control: Control, current: Dir, point: Dir): (r: Limit)
    ensures r.AtMost? ==> r.value > 0
  {
    if point <= current && |current| - |point| <= MAX_DEPTH then
      PositiveLimits(files, control, current, point);
      Least(files, control, current, point)
    else Bad
  }

  lemma PositiveLimits(files: Files, control: Control, current: Dir, point: Dir)
    requires point <= current
    ensures var r := Least(files, control, current, point); r.AtMost? ==> r.value > 0
  {
    LeastIsExact(files, control, current, point);
  }

  /** The walk as it runs, with zero standing for "no limit yet". The sentinel
      never hides a limit, because no directory states a limit of zero. */
  method WalkAncestors(files: Files, control: Control, start: Dir, point: Dir) returns (ok: bool, minimum: nat)
    ensures var r := Hierarchy(files, control, start, point);
            ok == !r.Bad? && (ok ==> minimum == if r.AtMost? then r.value else 0)
  {
    hide At;
    if !(point <= start) { return false, 0; }
    minimum := 0;
    var current := start;
    var depth := 0;
    while depth <= MAX_DEPTH
      invariant 0 <= depth <= MAX_DEPTH + 1 && point <= current <= start && |current| == |start| - depth
      invariant depth > 0 ==>
                  Least(files, control, start, point)
                  == Tighter(if minimum == 0 then Unlimited else AtMost(minimum), Least(files, control, current, point))
      invariant depth == 0 ==> minimum == 0 && current == start
    {
      var limit := At(files, control, current);
      if limit.Bad? { return false, 0; }
      if limit.AtMost? && (minimum == 0 || limit.value < minimum) { minimum := limit.value; }
      if current == point { return true, minimum; }
      current := current[..|current| - 1];
      depth := depth + 1;
    }
    return false, 0;
  }

  // ----------------------------------------------------------- CPU quota laws

  lemma CeilingIsTight(quota: nat, period: nat)
    requires quota > 0 && period > 0
    ensures (Ceiling(quota, period) - 1) * period < quota <= Ceiling(quota, period) * period
  {
    var n := quota / period;
    assert quota == n * period + quota % period;
    assert (n + 1) * period == n * period + period;
    assert (n - 1) * period == n * period - period;
  }

  lemma Scale(a: nat, b: nat, c: nat)
    requires a <= b
    ensures a * c <= b * c
  {
  }

  lemma ScaleStrictly(a: nat, b: nat, c: nat)
    requires a < b && c > 0
    ensures a * c < b * c
  {
  }

  /** A tight bound respects the order of ratios. */
  lemma BoundIsMonotone(c: nat, q: nat, p: nat, c': nat, q': nat, p': nat)
    requires p > 0 && p' > 0 && (c - 1) * p < q && q' <= c' * p' && q * p' <= q' * p
    ensures c <= c'
  {
    assert c' * p * p' == c' * p' * p;
    if c > c' {
      Scale(c', c - 1, p);
      ScaleStrictly(c' * p, q, p');
      Scale(q', c' * p', p);
      assert false;
    }
  }

  lemma CeilingIsMonotone(q: nat, p: nat, q': nat, p': nat)
    requires q > 0 && p > 0 && q' > 0 && p' > 0 && q * p' <= q' * p
    ensures QuotaCPUs(q, p) <= QuotaCPUs(q', p')
  {
    hide Ceiling;
    CeilingIsTight(q, p);
    CeilingIsTight(q', p');
    BoundIsMonotone(Ceiling(q, p), q, p, Ceiling(q', p'), q', p');
  }

  /** The first quota grants no more per period than the second. */
  predicate NotAbove(a: Quota, b: Quota) {
    a.Quota? && b.Quota? && a.quota * b.period <= b.quota * a.period
  }

  lemma NotAboveOrders(a: Quota, b: Quota, c: Quota)
    requires a.Quota? && b.Quota? && b.period > 0
    ensures NotAbove(a, b) || NotAbove(b, a)
    ensures NotAbove(a, b) && NotAbove(b, c) ==> NotAbove(a, c)
  {
    if NotAbove(a, b) && NotAbove(b, c) {
      RatioTransitive(a.quota, a.period, b.quota, b.period, c.quota, c.period);
    }
  }

  /** Ratios q/p compare transitively. */
  lemma RatioTransitive(q: nat, p: nat, q': nat, p': nat, q'': nat, p'': nat)
    requires p' > 0 && q * p' <= q' * p && q' * p'' <= q'' * p'
    ensures q * p'' <= q'' * p
  {
    Scale(q * p', q' * p, p'');
    Scale(q' * p'', q'' * p', p);
    assert (q * p'') * p' == q * p' * p'' && q' * p * p'' == q' * p'' * p && q'' * p' * p == (q'' * p) * p';
    if q * p'' > q'' * p { ScaleStrictly(q'' * p, q * p'', p'); }
  }

  ghost predicate SmallestRatio(files: Files, v2: bool, current: Dir, point: Dir, k: int)
  {
    && OnChain(current, point, k)
    && QuotaAt(files, v2, current[..k]).Quota?
    && forall l :: OnChain(current, point, l) && QuotaAt(files, v2, current[..l]).Quota? ==>
         NotAbove(QuotaAt(files, v2, current[..k]), QuotaAt(files, v2, current[..l]))
  }

  /** Rounding each directory up and taking the least count is the same as
      rounding up the smallest quota-to-period ratio on the chain. */
  lemma SmallestRatioDecides(files: Files, v2: bool, current: Dir, point: Dir, k: int)
    requires SmallestRatio(files, v2, current, point, k) && point <= current
    requires !Least(files, if v2 then QuotaV2 else QuotaV1, current, point).Bad?
    ensures Least(files, if v2 then QuotaV2 else QuotaV1, current, point) == Worth(QuotaAt(files, v2, current[..k]))
  {
    hide QuotaAt, QuotaCPUs;
    var control := if v2 then QuotaV2 else QuotaV1;
    var least := Least(files, control, current, point);
    LeastIsExact(files, control, current, point);
    var q := QuotaAt(files, v2, current[..k]);
    assert At(files, control, current[..k]) == AtMost(QuotaCPUs(q.quota, q.period));
    var l :| OnChain(current, point, l) && At(files, control, current[..l]) == least;
    var q' := QuotaAt(files, v2, current[..l]);
    CeilingIsMonotone(q.quota, q.period, q'.quota, q'.period);
  }

  /** A chain with a quota has a directory with the smallest ratio. */
  lemma {:induction false} SmallestRatioExists(files: Files, v2: bool, current: Dir, point: Dir, l: int)
    requires point <= current && OnChain(current, point, l) && QuotaAt(files, v2, current[..l]).Quota?
    ensures exists k :: SmallestRatio(files, v2, current, point, k)
    decreases |current|
  {
    hide QuotaAt, NotAbove;
    var n := |current|;
    assert current[..n] == current;
    NotAboveItself(QuotaAt(files, v2, current));
    if j :| OnChain(current, point, j) && j < n && QuotaAt(files, v2, current[..j]).Quota? {
      var parent := current[..n - 1];
      assert parent[..j] == current[..j];
      SmallestRatioExists(files, v2, parent, point, j);
      var k :| SmallestRatio(files, v2, parent, point, k);
      BestOfTwo(files, v2, current, point, k);
    } else {
      assert SmallestRatio(files, v2, current, point, n);
    }
  }

  lemma NotAboveItself(a: Quota)
    ensures a.Quota? ==> NotAbove(a, a)
  {
  }

  lemma BestOfTwo(files: Files, v2: bool, current: Dir, point: Dir, k: int)
    requires point < current && SmallestRatio(files, v2, current[..|current| - 1], point, k)
    ensures exists k :: SmallestRatio(files, v2, current, point, k)
  {
    hide QuotaAt, NotAbove;
    var n := |current|;
    var parent := current[..n - 1];
    assert current[..n] == current && parent[..k] == current[..k];
    var a, b := QuotaAt(files, v2, current[..k]), QuotaAt(files, v2, current);
    var best := if b.Quota? && NotAbove(b, a) then n else k;
    forall l | OnChain(current, point, l) && QuotaAt(files, v2, current[..l]).Quota?
      ensures NotAbove(QuotaAt(files, v2, current[..best]), QuotaAt(files, v2, current[..l]))
    {
      var c := QuotaAt(files, v2, current[..l]);
      if l < n {
        assert parent[..l] == current[..l];
        assert NotAbove(a, c);
        if best == n { NotAboveOrders(b, a, c); }
      } else {
        NotAboveItself(c);
        NotAboveOrders(a, b, b);
      }
    }
    assert SmallestRatio(files, v2, current, point, best);
  }

  /** The CPU limit of a chain, whichever version: none without a quota, otherwise
      what the smallest ratio is worth. */
  lemma QuotaIsSmallestRatio(files: Files, v2: bool, current: Dir, point: Dir)
    requires point <= current && !Least(files, if v2 then QuotaV2 else QuotaV1, current, point).Bad?
    ensures var least := Least(files, if v2 then QuotaV2 else QuotaV1, current, point);
            && (least.Unlimited? ==> forall l :: OnChain(current, point, l) ==>
                QuotaAt(files, v2, current[..l]).NoQuota?)
            && (least.AtMost? ==> exists k :: SmallestRatio(files, v2, current, point, k))
            && (forall k :: SmallestRatio(files, v2, current, point, k) ==>
                least == Worth(QuotaAt(files, v2, current[..k])))
  {
    hide QuotaAt, QuotaCPUs;
    var control := if v2 then QuotaV2 else QuotaV1;
    var least := Least(files, control, current, point);
    LeastIsExact(files, control, current, point);
    if least.AtMost? {
      var l :| OnChain(current, point, l) && At(files, control, current[..l]) == least;
      SmallestRatioExists(files, v2, current, point, l);
    } else {
      forall l | OnChain(current, point, l) ensures QuotaAt(files, v2, current[..l]).NoQuota? {
        assert At(files, control, current[..l]).Unlimited?;
      }
    }
    forall k | SmallestRatio(files, v2, current, point, k) ensures least == Worth(QuotaAt(files, v2, current[..k])) {
      SmallestRatioDecides(files, v2, current, point, k);
    }
  }

  // ------------------------------------------------------- version 1 CPU sets

  /** What one directory's CPU list says; blank defers to the parent. */
  function SetAt(reading: Reading): Limit {
    match reading
    case Missing => Bad
    case Unreadable => Bad
    case Text(text) =>
      if TrimSpace(text) == "" then Unlimited
      else if ReadableSet(text) then AtMost(|CPUSet(text)|)
      else Bad
  }

  /** The nearest directory with a list decides; an error further up is not
      reached. */
  function NearestSet(files: Files, current: Dir, point: Dir): Limit
    requires point <= current
    decreases |current|
  {
    var here := SetAt(files(current, "cpuset.cpus"));
    if !here.Unlimited? || current == point then here
    else NearestSet(files, current[..|current| - 1], point)
  }

  lemma {:induction false} NearestSetIsNearest(files: Files, current: Dir, point: Dir, k: nat)
    requires point <= current && OnChain(current, point, k)
    requires forall l :: k < l <= |current| ==> SetAt(files(current[..l], "cpuset.cpus")).Unlimited?
    requires !SetAt(files(current[..k], "cpuset.cpus")).Unlimited?
    ensures NearestSet(files, current, point) == SetAt(files(current[..k], "cpuset.cpus"))
    decreases |current|
  {
    hide SetAt;
    var n := |current|;
    assert current[..n] == current;
    if k < n {
      var parent := current[..n - 1];
      assert forall l :: 0 <= l < n ==> parent[..l] == current[..l];
      NearestSetIsNearest(files, parent, point, k);
    }
  }

  function SetHierarchy(files: Files, current: Dir, point: Dir): Limit {
    if point <= current && |current| - |point| <= MAX_DEPTH then NearestSet(files, current, point) else Bad
  }

  method WalkCPUSets(files: Files, start: Dir, point: Dir) returns (ok: bool, count: nat, found: bool)
    ensures ok == !SetHierarchy(files, start, point).Bad?
    ensures ok ==> SetHierarchy(files, start, point) == if found then AtMost(count) else Unlimited
  {
    hide ReadableSet, CPUSet, TrimSpace;
    count, found := 0, false;
    if !(point <= start) { return false, 0, false; }
    var current := start;
    var depth := 0;
    while depth <= MAX_DEPTH
      invariant 0 <= depth <= MAX_DEPTH + 1 && point <= current <= start && |current| == |start| - depth
      invariant NearestSet(files, start, point) == if found then AtMost(count) else NearestSet(files, current, point)
    {
      if !found {
        var reading := files(current, "cpuset.cpus");
        if !reading.Text? {
          return false, 0, false;
        }
        if TrimSpace(reading.text) != "" {
          var parsed := ParseCPUSet(reading.text);
          if parsed.None? { return false, 0, false; }
          count, found := parsed.value, true;
        }
      }
      if current == point { return true, count, found; }
      current := current[..|current| - 1];
      depth := depth + 1;
    }
    return false, 0, false;
  }
}
