/** Lifecycle of the container backend. Every atomic section of concurrent runs,
    readiness probes and the single Close is one step, in any interleaving. */
module Backend {

  /** Where a run is: registered, inside the engine, back from it, or already
      removed from the active map but not yet counted as done. */
  datatype Phase = Registered | InEngine | Returned | Removed
  datatype RunCall = RunCall(digest: string, phase: Phase, cancelled: bool)

  /** How far Close has come. */
  datatype Closing = Idle | Cancelling(todo: set<nat>) | DrainProbes | DrainRuns | Closed

  datatype State = State(
    maximum: nat, active: map<string, nat>, closed: bool, probes: nat, waiting: nat,
    runs: map<nat, RunCall>, closing: Closing, engineCloses: nat)

  datatype Event =
    | Admit(call: nat, digest: string, valid: bool)
    | EnterEngine(call: nat)
    | LeaveEngine(call: nat)
    | Remove(call: nat)
    | Done(call: nat)
    | ProbeBegin(valid: bool)
    | ProbeEnd
    | CloseBegin
    | CancelOne(call: nat)
    | CancelsFinished
    | ProbesDrained
    | RunsDrained

  function Initial(maximum: nat): State {
    State(maximum, map[], false, 0, 0, map[], Idle, 0)
  }

  predicate At(s: State, call: nat, phase: Phase) { call in s.runs && s.runs[call].phase == phase }

  function Move(s: State, call: nat, phase: Phase): State
    requires call in s.runs
  {
    s.(runs := s.runs[call := s.runs[call].(phase := phase)])
  }

  function StepAdmit(s: State, call: nat, digest: string, valid: bool): State {
    if !valid || s.closed || |s.active| >= s.maximum || digest in s.active || call in s.runs then s
    else s.(active := s.active[digest := call], waiting := s.waiting + 1,
            runs := s.runs[call := RunCall(digest, Registered, false)])
  }

  /** The deferred clean-up: cancel the run's context, then unregister it. */
  function StepRemove(s: State, call: nat): State {
    if !At(s, call, Returned) then s
    else s.(active := s.active - {s.runs[call].digest},
            runs := s.runs[call := s.runs[call].(phase := Removed, cancelled := true)])
  }

  function StepDone(s: State, call: nat): State {
    if !At(s, call, Removed) || s.waiting == 0 then s else s.(runs := s.runs - {call}, waiting := s.waiting - 1)
  }

  function StepCloseBegin(s: State): State {
    if s.closing != Idle then s
    else s.(closed := true, closing := Cancelling(set d | d in s.active :: s.active[d]))
  }

  function StepCancelOne(s: State, call: nat): State {
    if !s.closing.Cancelling? || call !in s.closing.todo then s
    else
      s.(closing := Cancelling(s.closing.todo - {call}),
         runs := if call in s.runs then s.runs[call := s.runs[call].(cancelled := true)] else s.runs)
  }

  function Step(s: State, e: Event): State {
    match e
    case Admit(call, digest, valid) => StepAdmit(s, call, digest, valid)
    case EnterEngine(call) => if At(s, call, Registered) then Move(s, call, InEngine) else s
    case LeaveEngine(call) => if At(s, call, InEngine) then Move(s, call, Returned) else s
    case Remove(call) => StepRemove(s, call)
    case Done(call) => StepDone(s, call)
    case ProbeBegin(valid) => if !valid || s.closed then s else s.(probes := s.probes + 1)
    case ProbeEnd => if s.probes == 0 then s else s.(probes := s.probes - 1)
    case CloseBegin => StepCloseBegin(s)
    case CancelOne(call) => StepCancelOne(s, call)
    case CancelsFinished => if s.closing == Cancelling({}) then s.(closing := DrainProbes) else s
    case ProbesDrained => if s.closing == DrainProbes && s.probes == 0 then s.(closing := DrainRuns) else s
    case RunsDrained =>
      if s.closing == DrainRuns && s.waiting == 0 then s.(closing := Closed, engineCloses := s.engineCloses + 1) else s
  }

  function Run(s: State, events: seq<Event>): State {
    if events == [] then s else Step(Run(s, events[..|events| - 1]), events[|events| - 1])
  }

  // ---------------------------------------------------------------- invariant

  /** The active entry of `d` is a live run of that digest. */
  predicate Registers(s: State, d: string) {
    d in s.active && s.active[d] in s.runs && s.runs[s.active[d]].digest == d && s.runs[s.active[d]].phase != Removed
  }

  /** A live run is the active entry of its digest. */
  predicate Listed(s: State, c: nat) {
    c in s.runs && (s.runs[c].phase != Removed ==> s.runs[c].digest in s.active && s.active[s.runs[c].digest] == c)
  }

  ghost predicate RegistryInv(s: State) {
    && |s.active| <= s.maximum
    && (forall d {:trigger Registers(s, d)} :: d in s.active ==> Registers(s, d))
    && (forall c {:trigger Listed(s, c)} :: c in s.runs ==> Listed(s, c))
    && s.waiting == |s.runs|
  }

  predicate ClosingInv(s: State) {
    && (s.closed <==> s.closing != Idle)
    && (s.closing.Cancelling? ==> forall c :: c in s.runs ==> s.runs[c].cancelled || c in s.closing.todo)
    && (s.closing.DrainProbes? || s.closing.DrainRuns? ==> forall c :: c in s.runs ==> s.runs[c].cancelled)
    && (s.closing.DrainRuns? || s.closing.Closed? ==> s.probes == 0)
    && (s.closing.Closed? ==> s.runs == map[])
    && (forall c :: c in s.runs && s.runs[c].phase == Removed ==> s.runs[c].cancelled)
    && s.engineCloses == if s.closing.Closed? then 1 else 0
  }

  ghost predicate Inv(s: State) { RegistryInv(s) && ClosingInv(s) }

  /** Live runs carry pairwise different digests. */
  lemma LiveRunsDiffer(s: State, b: nat, c: nat)
    requires RegistryInv(s) && b in s.runs && c in s.runs && b != c && s.runs[b].phase != Removed
             && s.runs[c].phase != Removed
    ensures s.runs[b].digest != s.runs[c].digest
  {
    assert Listed(s, b) && Listed(s, c);
  }

  lemma AddedSize<K, V>(m: map<K, V>, k: K, v: V)
    requires k !in m
    ensures |m[k := v]| == |m| + 1
  {
    assert m[k := v].Keys == m.Keys + {k};
  }

  lemma AdmitKeeps(s: State, call: nat, digest: string, valid: bool)
    requires RegistryInv(s)
    ensures RegistryInv(StepAdmit(s, call, digest, valid))
  {
    var t := StepAdmit(s, call, digest, valid);
    if t != s {
      AddedSize(s.active, digest, call);
      AddedSize(s.runs, call, RunCall(digest, Registered, false));
      forall d | d in t.active ensures Registers(t, d) {
        if d != digest { assert Registers(s, d); }
      }
      forall c | c in t.runs ensures Listed(t, c) {
        if c != call { assert Listed(s, c); }
      }
    }
  }

  lemma UpdateKeeps(s: State, call: nat, r: RunCall)
    requires RegistryInv(s) && call in s.runs && r.digest == s.runs[call].digest
    requires r.phase == Removed <==> s.runs[call].phase == Removed
    ensures RegistryInv(s.(runs := s.runs[call := r]))
  {
    var t := s.(runs := s.runs[call := r]);
    assert t.runs.Keys == s.runs.Keys;
    forall d | d in t.active ensures Registers(t, d) { assert Registers(s, d); }
    forall c | c in t.runs ensures Listed(t, c) { assert Listed(s, c); }
  }

  lemma RemoveKeeps(s: State, call: nat)
    requires RegistryInv(s)
    ensures RegistryInv(StepRemove(s, call))
  {
    var t := StepRemove(s, call);
    if At(s, call, Returned) {
      assert t.runs.Keys == s.runs.Keys && t.active.Keys == s.active.Keys - {s.runs[call].digest};
      assert Listed(s, call);
      forall d | d in t.active ensures Registers(t, d) { assert Registers(s, d); }
      forall c | c in t.runs ensures Listed(t, c) { assert Listed(s, c); }
    }
  }

  lemma DoneKeeps(s: State, call: nat)
    requires RegistryInv(s)
    ensures RegistryInv(StepDone(s, call))
  {
    var t := StepDone(s, call);
    if At(s, call, Removed) && s.waiting > 0 {
      assert t.runs.Keys == s.runs.Keys - {call};
      forall d | d in t.active ensures Registers(t, d) { assert Registers(s, d); }
      forall c | c in t.runs ensures Listed(t, c) { assert Listed(s, c); }
    }
  }

  lemma SameRegistry(s: State, t: State)
    requires RegistryInv(s)
    ensures (t.maximum, t.active, t.runs, t.waiting) == (s.maximum, s.active, s.runs, s.waiting) ==> RegistryInv(t)
  {
    if (t.maximum, t.active, t.runs, t.waiting) == (s.maximum, s.active, s.runs, s.waiting) {
      forall d | d in t.active ensures Registers(t, d) { assert Registers(s, d); }
      forall c | c in t.runs ensures Listed(t, c) { assert Listed(s, c); }
    }
  }

  lemma StepKeepsRegistry(s: State, e: Event)
    requires Inv(s)
    ensures RegistryInv(Step(s, e)) && Step(s, e).maximum == s.maximum
  {
    match e
    case Admit(call, digest, valid) => AdmitKeeps(s, call, digest, valid);
    case EnterEngine(call) => if At(s, call, Registered) { UpdateKeeps(s, call, s.runs[call].(phase := InEngine)); }
    case LeaveEngine(call) => if At(s, call, InEngine) { UpdateKeeps(s, call, s.runs[call].(phase := Returned)); }
    case Remove(call) => RemoveKeeps(s, call);
    case Done(call) => DoneKeeps(s, call);
    case CancelOne(call) =>
      if call in s.runs { UpdateKeeps(s, call, s.runs[call].(cancelled := true)); }
      SameRegistry(if call in s.runs then s.(runs := s.runs[call := s.runs[call].(cancelled := true)])
                   else s, Step(s, e));
    case _ => SameRegistry(s, Step(s, e));
  }

  lemma StepKeepsClosing(s: State, e: Event)
    requires Inv(s)
    ensures ClosingInv(Step(s, e))
  {
    if e.RunsDrained? && s.waiting == 0 { assert s.runs.Keys == {}; }
    if e.CloseBegin? && s.closing == Idle {
      var t := Step(s, e);
      forall c | c in t.runs ensures t.runs[c].cancelled || c in t.closing.todo {
        assert Listed(s, c);
        if s.runs[c].phase != Removed {
          assert s.active[s.runs[c].digest] == c;
        }
      }
    }
  }

  lemma {:induction false} RunKeeps(maximum: nat, events: seq<Event>)
    ensures Inv(Run(Initial(maximum), events)) && Run(Initial(maximum), events).maximum == maximum
  {
    if events != [] {
      RunKeeps(maximum, events[..|events| - 1]);
      StepKeepsRegistry(Run(Initial(maximum), events[..|events| - 1]), events[|events| - 1]);
      StepKeepsClosing(Run(Initial(maximum), events[..|events| - 1]), events[|events| - 1]);
    }
  }

  // ----------------------------------------------------------------- theorems

  /** In every interleaving: the active set stays within the maximum, no digest is
      registered or inside the engine twice, and once Close has sent its
      cancellations every remaining run has been cancelled. */
  lemma ActiveRunsAreBounded(maximum: nat, events: seq<Event>)
    ensures var s := Run(Initial(maximum), events);
            && |s.active| <= maximum
            && (forall b, c ::
                  (b in s.runs && c in s.runs && b != c && s.runs[b].phase != Removed && s.runs[c].phase != Removed) ==>
                    s.runs[b].digest != s.runs[c].digest)
            && (s.closing.DrainProbes? || s.closing.DrainRuns? ==> forall c :: c in s.runs ==> s.runs[c].cancelled)
  {
    RunKeeps(maximum, events);
    var s := Run(Initial(maximum), events);
    forall b, c | b in s.runs && c in s.runs && b != c && s.runs[b].phase != Removed && s.runs[c].phase != Removed
      ensures s.runs[b].digest != s.runs[c].digest
    {
      LiveRunsDiffer(s, b, c);
    }
  }

  /** The engine is closed at most once, and only when neither a run nor a probe
      is in flight. */
  lemma EngineClosesOnceAndIdle(maximum: nat, events: seq<Event>)
    ensures var s := Run(Initial(maximum), events);
            s.engineCloses <= 1 && (s.engineCloses == 1 ==> s.runs == map[] && s.probes == 0 && s.closed)
  {
    RunKeeps(maximum, events);
  }

  /** Nothing begins after the engine was closed. */
  lemma {:induction false} NothingBeginsAfterClose(maximum: nat, events: seq<Event>, i: nat, j: nat)
    requires i <= j <= |events| && Run(Initial(maximum), events[..i]).engineCloses == 1
    ensures var s := Run(Initial(maximum), events[..j]);
            s.engineCloses == 1 && s.runs == map[] && s.active == map[] && s.probes == 0
    decreases j
  {
    hide Step, RegistryInv;
    RunKeeps(maximum, events[..j]);
    if i < j {
      NothingBeginsAfterClose(maximum, events, i, j - 1);
      RunKeeps(maximum, events[..j - 1]);
      ClosedStays(Run(Initial(maximum), events[..j - 1]), events[j - 1]);
      assert events[..j][..j - 1] == events[..j - 1];
    }
    NoActiveWithoutRuns(Run(Initial(maximum), events[..j]));
  }

  lemma NoActiveWithoutRuns(s: State)
    requires RegistryInv(s) && s.runs == map[]
    ensures s.active == map[]
  {
    forall d ensures d !in s.active { assert d in s.active ==> Registers(s, d); }
    assert s.active.Keys == {};
  }

  lemma ClosedStays(s: State, e: Event)
    requires Inv(s) && s.closing.Closed?
    ensures Step(s, e).closing.Closed?
  {
  }

  // --------------------------------------------------------------- the object

  class ContainerBackend {
    const maximum: nat
    var active: map<string, nat>
    var closed: bool
    var probes: nat
    var waiting: nat
    var runs: map<nat, RunCall>
    var closing: Closing
    ghost var engineCloses: nat

    ghost function View(): State
      reads this
    {
      State(maximum, active, closed, probes, waiting, runs, closing, engineCloses)
    }

    constructor (maximum: nat)
      ensures View() == Initial(maximum)
    {
      this.maximum := maximum;
      active, closed, probes, waiting, runs, closing := map[], false, 0, 0, map[], Idle;
      engineCloses := 0;
    }

    /** The admission section of a run. */
    method Register(call: nat, digest: string, valid: bool) returns (ok: bool)
      requires call !in runs
      modifies this
      ensures View() == Step(old(View()), Admit(call, digest, valid))
      ensures ok <==> valid && !old(closed) && |old(active)| < maximum && digest !in old(active)
    {
      if !valid { return false; }
      if closed { return false; }
      if |active| >= maximum { return false; }
      if digest in active { return false; }
      active := active[digest := call];
      waiting := waiting + 1;
      runs := runs[call := RunCall(digest, Registered, false)];
      ok := true;
    }

    method Unregister(call: nat)
      requires At(View(), call, Returned)
      modifies this
      ensures View() == Step(old(View()), Event.Remove(call))
    {
      active := active - {runs[call].digest};
      runs := runs[call := runs[call].(phase := Removed, cancelled := true)];
    }

    method Finish(call: nat)
      requires Inv(View()) && At(View(), call, Removed)
      modifies this
      ensures View() == Step(old(View()), Event.Done(call)) && call !in runs
    {
      assert |runs| > 0;
      runs := runs - {call};
      waiting := waiting - 1;
    }

    method ProbeStart(valid: bool) returns (ok: bool)
      modifies this
      ensures View() == Step(old(View()), Event.ProbeBegin(valid)) && ok == (valid && !old(closed))
    {
      if !valid || closed { return false; }
      probes := probes + 1;
      ok := true;
    }

    /** The first section of Close; later calls find it already begun. */
    method BeginClose()
      modifies this
      ensures View() == Step(old(View()), Event.CloseBegin)
    {
      if closing != Idle { return; }
      closed := true;
      var cancels: set<nat> := {};
      var rest := active.Keys;
      while rest != {}
        invariant rest <= active.Keys && closed && closing == Idle
        invariant (active, probes, waiting, runs, engineCloses) == old((active, probes, waiting, runs, engineCloses))
        invariant cancels == set d | d in active.Keys - rest :: active[d]
        decreases |rest|
      {
        var d :| d in rest;
        cancels := cancels + {active[d]};
        rest := rest - {d};
      }
      assert cancels == set d | d in active :: active[d];
      closing := Cancelling(cancels);
    }
  }
}
