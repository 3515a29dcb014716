/** The resource monitor: judging one observation of the host, and the hysteresis
    that turns a history of observations into readiness for new work. */
module ResourceGuard {
  const MAX_UINT64 := 0xFFFF_FFFF_FFFF_FFFF
  const MIN_OBSERVED_RAM := 64 * 1024 * 1024
  const MAX_THRESHOLD := 10
  const MILLISECOND := 1_000_000
  const SECOND := 1000 * MILLISECOND

  type Uint64 = n: nat | n <= MAX_UINT64

  datatype Device = Device(vram: Uint64, used: Uint64)
  datatype Report = Report(memory: Uint64, gpu: string, driver: string, devices: seq<Device>)
  /** Durations are in nanoseconds. */
  datatype Config = Config(
    interval: int, timeout: int, failureThreshold: int, recoveryThreshold: int, ram: Uint64, vram: Uint64,
        sampler: bool)
  datatype Health = Health(ready: bool, status: string, gpu: string)

  // --------------------------------------------------------- one observation

  predicate KnownGPU(status: string) {
    status in {"available", "degraded", "unavailable", "no-devices", "unknown"}
  }

  function Total(devices: seq<Device>): nat {
    if devices == [] then 0 else Total(devices[..|devices| - 1]) + devices[|devices| - 1].vram
  }

  /** The observation still carries the capacity that was promised: three
      quarters of memory covers the required RAM, and the devices are sound,
      their memory adds up within 64 bits and covers the required VRAM. */
  predicate Safe(config: Config, report: Report) {
    && report.memory >= MIN_OBSERVED_RAM
    && config.ram <= report.memory - report.memory / 4
    && (config.vram == 0 ||
        (&& report.gpu == "available" && report.driver != "" && report.devices != []
         && (forall i :: 0 <= i < |report.devices| ==>
             0 < report.devices[i].vram && report.devices[i].used <= report.devices[i].vram)
         && config.vram <= Total(report.devices) <= MAX_UINT64))
  }

  lemma {:induction false} PrefixTotals(devices: seq<Device>, n: nat)
    requires n <= |devices|
    ensures Total(devices[..n]) <= Total(devices)
    decreases |devices| - n
  {
    if n < |devices| {
      assert devices[..n + 1][..n] == devices[..n];
      PrefixTotals(devices, n + 1);
    } else {
      assert devices[..n] == devices;
    }
  }

  /** The check as it runs, in 64-bit arithmetic: it never wraps. */
  method Evaluate(config: Config, report: Report) returns (ok: bool, health: Health)
    ensures ok == Safe(config, report)
    ensures health == Health(true, "ready", if KnownGPU(report.gpu) then report.gpu else "unknown")
  {
    hide KnownGPU;
    health := Health(true, "ready", report.gpu);
    if !KnownGPU(health.gpu) { health := health.(gpu := "unknown"); }
    if report.memory < MIN_OBSERVED_RAM { return false, health; }
    var maximum: Uint64 := report.memory - report.memory / 4;
    if config.ram > maximum { return false, health; }
    if config.vram == 0 { return true, health; }
    if report.gpu != "available" || report.driver == "" || |report.devices| == 0 { return false, health; }
    var total: Uint64 := 0;
    var index := 0;
    while index < |report.devices|
      invariant 0 <= index <= |report.devices|
      invariant total == Total(report.devices[..index])
      invariant forall i :: 0 <= i < index ==>
                  0 < report.devices[i].vram && report.devices[i].used <= report.devices[i].vram
    {
      var device := report.devices[index];
      assert report.devices[..index + 1][..index] == report.devices[..index];
      PrefixTotals(report.devices, index + 1);
      if device.vram == 0 || device.used > device.vram || MAX_UINT64 - total < device.vram { return false, health; }
      total := total + device.vram;
      index := index + 1;
    }
    assert report.devices[..index] == report.devices;
    return config.vram <= total, health;
  }

  // -------------------------------------------------------------- hysteresis

  /** One reading: the report, and whether the sampler itself failed. */
  datatype Sample = Sample(report: Report, failed: bool)

  datatype State = State(health: Health, failures: int, recoveries: int)

  predicate Good(config: Config, sample: Sample) { !sample.failed && Safe(config, sample.report) }

  function Record(config: Config, s: State, sample: Sample): State {
    var gpu := sample.report.gpu;
    if Good(config, sample) then
      var shown := if KnownGPU(gpu) then gpu else "unknown";
      if s.health.ready then State(s.health.(gpu := shown), 0, 0)
      else if s.recoveries + 1 >= config.recoveryThreshold then State(Health(true, "ready", shown), 0, 0)
      else State(s.health.(gpu := shown), 0, s.recoveries + 1)
    else
      var shown := if KnownGPU(gpu) then gpu else s.health.gpu;
      if s.failures + 1 >= config.failureThreshold then
        State(Health(false, "degraded", shown), config.failureThreshold, 0)
      else State(s.health.(gpu := shown), s.failures + 1, 0)
  }

  predicate Accepted(config: Config, initial: Report) {
    && SECOND <= config.interval <= 300 * SECOND && 100 * MILLISECOND <= config.timeout <= 30 * SECOND
    && config.timeout <= config.interval && config.sampler
    && 0 < config.failureThreshold <= MAX_THRESHOLD && 0 < config.recoveryThreshold <= MAX_THRESHOLD
    && config.ram > 0 && Safe(config, initial)
  }

  function Start(initial: Report): State {
    State(Health(true, "ready", if KnownGPU(initial.gpu) then initial.gpu else "unknown"), 0, 0)
  }

  function Run(config: Config, initial: Report, history: seq<Sample>): State {
    if history == [] then Start(initial)
    else Record(config, Run(config, initial, history[..|history| - 1]), history[|history| - 1])
  }

  class Guard {
    const config: Config
    var health: Health
    var failures: int
    var recoveries: int

    ghost function View(): State
      reads this
    {
      State(health, failures, recoveries)
    }

    constructor (config: Config, initial: Report)
      requires Accepted(config, initial)
      ensures this.config == config && View() == Start(initial)
    {
      this.config := config;
      health := Health(true, "ready", if KnownGPU(initial.gpu) then initial.gpu else "unknown");
      failures, recoveries := 0, 0;
    }

    method Observe(report: Report, failed: bool)
      modifies this
      ensures View() == Record(config, old(View()), Sample(report, failed))
    {
      hide KnownGPU, Safe;
      var ok, next := Evaluate(config, report);
      if !failed && ok {
        failures := 0;
        health := health.(gpu := next.gpu);
        if health.ready {
          recoveries := 0;
          return;
        }
        recoveries := recoveries + 1;
        if recoveries >= config.recoveryThreshold {
          health := next;
          recoveries := 0;
        }
        return;
      }
      recoveries := 0;
      failures := failures + 1;
      if KnownGPU(report.gpu) { health := health.(gpu := report.gpu); }
      if failures >= config.failureThreshold {
        health := health.(ready := false, status := "degraded");
        failures := config.failureThreshold;
      }
    }
  }

  /** A monitor starts only with usable settings and a safe first report. */
  method NewGuard(config: Config, initial: Report) returns (g: Guard?)
    ensures g != null <==> Accepted(config, initial)
    ensures g != null ==> fresh(g) && g.config == config && g.View() == Start(initial)
  {
    if config.interval < SECOND || config.interval > 300 * SECOND
       || config.timeout < 100 * MILLISECOND || config.timeout > 30 * SECOND || config.timeout > config.interval
       || config.failureThreshold <= 0 || config.failureThreshold > MAX_THRESHOLD
       || config.recoveryThreshold <= 0 || config.recoveryThreshold > MAX_THRESHOLD
       || config.ram == 0 || !config.sampler {
      return null;
    }
    var ok, _ := Evaluate(config, initial);
    if !ok { return null; }
    g := new Guard(config, initial);
  }

  // ---------------------------------------------------------- whole histories

  /** The n samples that end just before position i all have this quality. */
  predicate RunOf(config: Config, history: seq<Sample>, i: int, n: int, good: bool) {
    0 <= n <= i <= |history| && forall k :: i - n <= k < i ==> Good(config, history[k]) == good
  }

  /** A full run of failures has not been answered by a full run of recoveries. */
  ghost predicate Degraded(config: Config, history: seq<Sample>) {
    exists i ::
      && RunOf(config, history, i, config.failureThreshold, false)
      && forall j :: i <= j <= |history| ==> !RunOf(config, history, j, config.recoveryThreshold, true)
  }

  /** The counters measure the current run, and only as far as it matters. */
  ghost predicate Counts(config: Config, history: seq<Sample>, s: State) {
    && 0 <= s.failures <= config.failureThreshold && 0 <= s.recoveries < config.recoveryThreshold
    && RunOf(config, history, |history|, s.failures, false)
    && RunOf(config, history, |history|, s.recoveries, true)
    && (s.failures < config.failureThreshold ==> !RunOf(config, history, |history|, s.failures + 1, false))
    && (s.health.ready ==> s.recoveries == 0 && s.failures < config.failureThreshold)
    && (!s.health.ready ==> !RunOf(config, history, |history|, s.recoveries + 1, true))
    && s.health.status == (if s.health.ready then "ready" else "degraded")
    && KnownGPU(s.health.gpu)
  }

  lemma RunsOfPrefix(config: Config, history: seq<Sample>, i: int, n: int, good: bool)
    requires history != [] && i < |history|
    ensures RunOf(config, history, i, n, good) <==> RunOf(config, history[..|history| - 1], i, n, good)
  {
    hide Good;
    var before := history[..|history| - 1];
    assert forall k :: 0 <= k < |before| ==> before[k] == history[k];
  }

  lemma RunExtends(config: Config, history: seq<Sample>, n: int, good: bool)
    requires history != [] && n >= 0
    ensures RunOf(config, history, |history|, n + 1, good) <==>
            Good(config, history[|history| - 1]) == good
            && RunOf(config, history[..|history| - 1], |history| - 1, n, good)
  {
    hide Good;
    var last := |history| - 1;
    assert forall k :: 0 <= k < last ==> history[..last][k] == history[k];
  }

  lemma {:induction false} CountsAreExact(config: Config, initial: Report, history: seq<Sample>)
    requires Accepted(config, initial)
    ensures Counts(config, history, Run(config, initial, history))
  {
    if history == [] {
    } else {
      CountsAreExact(config, initial, history[..|history| - 1]);
      CountsStep(config, history, Run(config, initial, history[..|history| - 1]));
    }
  }

  lemma CountsStep(config: Config, history: seq<Sample>, s: State)
    requires history != [] && config.failureThreshold > 0 && config.recoveryThreshold > 0
    requires Counts(config, history[..|history| - 1], s)
    ensures Counts(config, history, Record(config, s, history[|history| - 1]))
  {
    var before, last := history[..|history| - 1], history[|history| - 1];
    RunExtends(config, history, s.failures, false);
    RunExtends(config, history, s.failures + 1, false);
    RunExtends(config, history, s.recoveries, true);
    RunExtends(config, history, s.recoveries + 1, true);
    RunExtends(config, history, 0, false);
    RunExtends(config, history, 0, true);
    assert RunOf(config, history, |history|, 0, true) && RunOf(config, history, |history|, 0, false);
    RunExtends(config, history, config.failureThreshold, false);
    assert KnownGPU("unknown");
    if s.failures == config.failureThreshold { ShorterRun(config, before, s.failures); }
    hide Good, KnownGPU;
    if s.failures > 0 { RunExtends(config, history, s.failures - 1, false); }
  }

  lemma ShorterRun(config: Config, history: seq<Sample>, n: int)
    requires 0 < n && RunOf(config, history, |history|, n, false)
    ensures RunOf(config, history, |history|, n - 1, false)
  {
  }

  /** Readiness after any history: work is refused exactly while a full run of
      consecutive bad samples has not been followed by a full run of consecutive
      good ones. The status text agrees. */
  lemma {:induction false} ReadinessIsHysteresis(config: Config, initial: Report, history: seq<Sample>)
    requires Accepted(config, initial)
    ensures Run(config, initial, history).health.ready <==> !Degraded(config, history)
    ensures Run(config, initial, history).health.status
            == (if Degraded(config, history) then "degraded" else "ready")
  {
    hide Good;
    CountsAreExact(config, initial, history);
    if history == [] {
      assert forall i :: !RunOf(config, history, i, config.failureThreshold, false);
    } else {
      var before := history[..|history| - 1];
      ReadinessIsHysteresis(config, initial, before);
      CountsAreExact(config, initial, before);
      HysteresisStep(config, history, Run(config, initial, before));
    }
  }

  lemma HysteresisStep(config: Config, history: seq<Sample>, s: State)
    requires history != [] && config.failureThreshold > 0 && config.recoveryThreshold > 0
    requires var before := history[..|history| - 1];
             Counts(config, before, s) && (s.health.ready <==> !Degraded(config, before))
    ensures Record(config, s, history[|history| - 1]).health.ready <==> !Degraded(config, history)
  {
    var n, before, last := |history|, history[..|history| - 1], history[|history| - 1];
    var now := Record(config, s, last);
    CountsStep(config, history, s);
    FullRunsEnd(config, history, s);
    hide Good, Counts, KnownGPU;
    forall i, m, good | i < n ensures RunOf(config, history, i, m, good) <==> RunOf(config, before, i, m, good) {
      RunsOfPrefix(config, history, i, m, good);
    }
    if RunOf(config, history, n, config.failureThreshold, false) {
      NotBoth(config, history);
    } else if RunOf(config, history, n, config.recoveryThreshold, true) {
    } else if Degraded(config, before) {
      var i :| RunOf(config, before, i, config.failureThreshold, false)
            && forall j :: i <= j <= |before| ==> !RunOf(config, before, j, config.recoveryThreshold, true);
      assert RunOf(config, history, i, config.failureThreshold, false);
      assert forall j :: i <= j < n ==> !RunOf(config, history, j, config.recoveryThreshold, true);
    }
  }

  lemma NotBoth(config: Config, history: seq<Sample>)
    requires config.failureThreshold > 0 && config.recoveryThreshold > 0
    requires RunOf(config, history, |history|, config.failureThreshold, false)
    ensures !RunOf(config, history, |history|, config.recoveryThreshold, true)
  {
    hide Good;
    var k := |history| - 1;
    assert !Good(config, history[k]);
  }

  /** What the newest sample does: a full run of failures ends readiness, a full
      run of recoveries restores it, and anything shorter leaves it alone. */
  lemma FullRunsEnd(config: Config, history: seq<Sample>, s: State)
    requires history != [] && config.failureThreshold > 0 && config.recoveryThreshold > 0
    requires Counts(config, history[..|history| - 1], s)
    ensures var now := Record(config, s, history[|history| - 1]);
            now.health.ready ==
              (if RunOf(config, history, |history|, config.failureThreshold, false) then false
               else if RunOf(config, history, |history|, config.recoveryThreshold, true) then true
               else s.health.ready)
  {
    RunExtends(config, history, config.failureThreshold - 1, false);
    RunExtends(config, history, config.recoveryThreshold - 1, true);
    LongerNeedsShorter(config, history[..|history| - 1], s.failures + 1, config.failureThreshold - 1, false);
    LongerNeedsShorter(config, history[..|history| - 1], s.recoveries + 1, config.recoveryThreshold - 1, true);
    LongerNeedsShorter(config, history[..|history| - 1], config.failureThreshold - 1, s.failures, false);
    LongerNeedsShorter(config, history[..|history| - 1], config.recoveryThreshold - 1, s.recoveries, true);
  }

  lemma LongerNeedsShorter(config: Config, history: seq<Sample>, short: int, long: int, good: bool)
    ensures 0 <= short <= long && RunOf(config, history, |history|, long, good) ==>
              RunOf(config, history, |history|, short, good)
  {
  }
}
