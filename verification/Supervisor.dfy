/** The supervised backend: a bounded slot channel in front of a driver. A slot is
    given back only after the digest was unregistered, and Close closes the driver
    before it waits for the runs. */
module Supervisor {
  import opened Common

  datatype Phase = Registered | InDriver | Returned | Removed | Released
  datatype RunCall = RunCall(digest: string, phase: Phase)
  datatype Closing = Idle | DrainProbes | DrainRuns | Closed

  datatype State = State(
    capacity: nat, slots: nat, active: set<string>, closed: bool, probes: nat, waiting: nat,
    runs: map<nat, RunCall>, closing: Closing, driverCloses: nat)

  datatype Event =
    | Admit(call: nat, digest: string, valid: bool)
    | EnterDriver(call: nat)
    | LeaveDriver(call: nat)
    | Remove(call: nat)
    | Release(call: nat)
    | Done(call: nat)
    | ProbeBegin(valid: bool)
    | ProbeEnd
    | CloseBegin
    | ProbesDrained
    | RunsDrained

  function Initial(capacity: nat): State {
    State(capacity, 0, {}, false, 0, 0, map[], Idle, 0)
  }

  predicate At(s: State, call: nat, phase: Phase) { call in s.runs && s.runs[call].phase == phase }

  function Move(s: State, call: nat, phase: Phase): State
    requires call in s.runs
  {
    s.(runs := s.runs[call := s.runs[call].(phase := phase)])
  }

  function StepAdmit(s: State, call: nat, digest: string, valid: bool): State {
    if !valid || s.closed || digest in s.active || s.slots >= s.capacity || call in s.runs then s
    else s.(slots := s.slots + 1, active := s.active + {digest}, waiting := s.waiting + 1,
            runs := s.runs[call := RunCall(digest, Registered)])
  }

  function Step(s: State, e: Event): State {
    match e
    case Admit(call, digest, valid) => StepAdmit(s, call, digest, valid)
    case EnterDriver(call) => if At(s, call, Registered) then Move(s, call, InDriver) else s
    case LeaveDriver(call) => if At(s, call, InDriver) then Move(s, call, Returned) else s
    case Remove(call) =>
      if At(s, call, Returned) then Move(s, call, Removed).(active := s.active - {s.runs[call].digest}) else s
    case Release(call) => if At(s, call, Removed) && s.slots > 0
        then Move(s, call, Released).(slots := s.slots - 1) else s
    case Done(call) =>
      if At(s, call, Released) && s.waiting > 0 then s.(runs := s.runs - {call}, waiting := s.waiting - 1) else s
    case ProbeBegin(valid) => if !valid || s.closed then s else s.(probes := s.probes + 1)
    case ProbeEnd => if s.probes == 0 then s else s.(probes := s.probes - 1)
    case CloseBegin => if s.closing == Idle then s.(closed := true, closing := DrainProbes) else s
    case ProbesDrained =>
      if s.closing == DrainProbes && s.probes == 0
          then s.(closing := DrainRuns, driverCloses := s.driverCloses + 1) else s
    case RunsDrained => if s.closing == DrainRuns && s.waiting == 0 then s.(closing := Closed) else s
  }

  function Run(s: State, events: seq<Event>): State {
    if events == [] then s else Step(Run(s, events[..|events| - 1]), events[|events| - 1])
  }

  // ---------------------------------------------------------------- invariant

  predicate Live(r: RunCall) { r.phase == Registered || r.phase == InDriver || r.phase == Returned }
  predicate HoldsSlot(r: RunCall) { Live(r) || r.phase == Removed }

  function LiveCalls(runs: map<nat, RunCall>): set<nat> { set c | c in runs && Live(runs[c]) }
  function Holders(runs: map<nat, RunCall>): set<nat> { set c | c in runs && HoldsSlot(runs[c]) }

  /** Each live run has its digest registered, and no two share one. */
  ghost predicate Matched(runs: map<nat, RunCall>, active: set<string>) {
    && (forall c :: c in runs && Live(runs[c]) ==> runs[c].digest in active)
    && (forall b, c :: b in runs && c in runs && b != c && Live(runs[b]) && Live(runs[c]) ==>
        runs[b].digest != runs[c].digest)
  }

  ghost predicate Counted(s: State) {
    && |s.active| == |LiveCalls(s.runs)|
    && s.slots == |Holders(s.runs)| && s.slots <= s.capacity
    && s.waiting == |s.runs|
  }

  ghost predicate ClosingInv(s: State) {
    && (s.closed <==> s.closing != Idle)
    && (s.closing.DrainRuns? || s.closing.Closed? ==> s.probes == 0)
    && (s.closing.Closed? ==> s.runs == map[])
    && s.driverCloses == if s.closing.DrainRuns? || s.closing.Closed? then 1 else 0
  }

  ghost predicate Inv(s: State) { Matched(s.runs, s.active) && Counted(s) && ClosingInv(s) }

  lemma AddLive(runs: map<nat, RunCall>, call: nat, r: RunCall)
    requires call !in runs && Live(r)
    ensures |LiveCalls(runs[call := r])| == |LiveCalls(runs)| + 1
  {
    assert LiveCalls(runs[call := r]) == LiveCalls(runs) + {call};
  }

  lemma AddHolder(runs: map<nat, RunCall>, call: nat, r: RunCall)
    requires call !in runs && HoldsSlot(r)
    ensures |Holders(runs[call := r])| == |Holders(runs)| + 1
  {
    assert Holders(runs[call := r]) == Holders(runs) + {call};
  }

  lemma AddRun(runs: map<nat, RunCall>, call: nat, r: RunCall)
    requires call !in runs
    ensures |runs[call := r]| == |runs| + 1
  {
    assert runs[call := r].Keys == runs.Keys + {call};
  }

  lemma AdmitKeeps(s: State, call: nat, digest: string, valid: bool)
    requires Inv(s)
    ensures Inv(StepAdmit(s, call, digest, valid))
  {
    if call !in s.runs && digest !in s.active {
      AddLive(s.runs, call, RunCall(digest, Registered));
      AddHolder(s.runs, call, RunCall(digest, Registered));
      AddRun(s.runs, call, RunCall(digest, Registered));
      AdmitMatched(s.runs, s.active, call, digest);
    }
    hide LiveCalls, Holders, Matched;
  }

  lemma AdmitMatched(runs: map<nat, RunCall>, active: set<string>, call: nat, digest: string)
    requires Matched(runs, active) && call !in runs && digest !in active
    ensures Matched(runs[call := RunCall(digest, Registered)], active + {digest})
  {
  }

  /** Replacing a run in place moves it in or out of the two sets, no other. */
  lemma Rephased(runs: map<nat, RunCall>, call: nat, r: RunCall)
    requires call in runs
    ensures |runs[call := r]| == |runs|
    ensures LiveCalls(runs[call := r]) == if Live(r) then LiveCalls(runs) + {call} else LiveCalls(runs) - {call}
    ensures Holders(runs[call := r]) == if HoldsSlot(r) then Holders(runs) + {call} else Holders(runs) - {call}
    ensures call in LiveCalls(runs) <==> Live(runs[call])
    ensures call in Holders(runs) <==> HoldsSlot(runs[call])
  {
    assert runs[call := r].Keys == runs.Keys;
  }

  lemma RephasedMatched(runs: map<nat, RunCall>, active: set<string>, call: nat, phase: Phase)
    requires call in runs && Matched(runs, active)
    requires Live(runs[call].(phase := phase)) ==> Live(runs[call])
    ensures Matched(runs[call := runs[call].(phase := phase)], active)
    ensures Live(runs[call]) && !Live(runs[call].(phase := phase)) ==>
              runs[call].digest in active
              && Matched(runs[call := runs[call].(phase := phase)], active - {runs[call].digest})
  {
  }

  lemma {:induction false} SetSizes(a: set<nat>, call: nat)
    ensures call in a ==> a + {call} == a && |a - {call}| == |a| - 1
    ensures call !in a ==> a - {call} == a
  {
  }

  lemma MoveKeeps(s: State, call: nat, phase: Phase)
    requires Inv(s) && call in s.runs && Live(s.runs[call]) && Live(s.runs[call].(phase := phase))
    ensures Inv(Move(s, call, phase))
  {
    RephasedMatched(s.runs, s.active, call, phase);
    Rephased(s.runs, call, s.runs[call].(phase := phase));
    hide LiveCalls, Holders, Matched;
    SetSizes(LiveCalls(s.runs), call);
    SetSizes(Holders(s.runs), call);
  }

  lemma RemoveKeeps(s: State, call: nat)
    requires Inv(s) && At(s, call, Returned)
    ensures Inv(Step(s, Remove(call)))
  {
    RephasedMatched(s.runs, s.active, call, Removed);
    Rephased(s.runs, call, s.runs[call].(phase := Removed));
    hide LiveCalls, Holders, Matched;
    SetSizes(LiveCalls(s.runs), call);
    SetSizes(Holders(s.runs), call);
  }

  lemma ReleaseKeeps(s: State, call: nat)
    requires Inv(s) && At(s, call, Removed)
    ensures Inv(Step(s, Release(call)))
  {
    RephasedMatched(s.runs, s.active, call, Released);
    Rephased(s.runs, call, s.runs[call].(phase := Released));
    hide LiveCalls, Holders, Matched;
    SetSizes(LiveCalls(s.runs), call);
    SetSizes(Holders(s.runs), call);
  }

  lemma DoneKeeps(s: State, call: nat)
    requires Inv(s) && At(s, call, Released)
    ensures Inv(Step(s, Done(call)))
  {
    var t := Step(s, Done(call));
    assert call in s.runs.Keys;
    assert t.runs.Keys == s.runs.Keys - {call} && LiveCalls(t.runs) == LiveCalls(s.runs)
           && Holders(t.runs) == Holders(s.runs);
  }

  lemma StepKeeps(s: State, e: Event)
    requires Inv(s)
    ensures Inv(Step(s, e)) && Step(s, e).capacity == s.capacity
  {
    hide Matched, Counted;
    match e
    case Admit(call, digest, valid) => AdmitKeeps(s, call, digest, valid);
    case EnterDriver(call) => if At(s, call, Registered) { MoveKeeps(s, call, InDriver); }
    case LeaveDriver(call) => if At(s, call, InDriver) { MoveKeeps(s, call, Returned); }
    case Remove(call) => if At(s, call, Returned) { RemoveKeeps(s, call); }
    case Release(call) => if At(s, call, Removed) { ReleaseKeeps(s, call); }
    case Done(call) => if At(s, call, Released) { DoneKeeps(s, call); }
    case _ => OthersKeep(s, e);
  }

  lemma OthersKeep(s: State, e: Event)
    requires Inv(s) && (e.ProbeBegin? || e.ProbeEnd? || e.CloseBegin? || e.ProbesDrained? || e.RunsDrained?)
    ensures Inv(Step(s, e))
  {
    if e.RunsDrained? && s.waiting == 0 { assert s.runs.Keys == {}; }
  }

  lemma {:induction false} RunKeeps(capacity: nat, events: seq<Event>)
    ensures Inv(Run(Initial(capacity), events)) && Run(Initial(capacity), events).capacity == capacity
  {
    if events != [] {
      RunKeeps(capacity, events[..|events| - 1]);
      StepKeeps(Run(Initial(capacity), events[..|events| - 1]), events[|events| - 1]);
    } else {
      assert LiveCalls(map[]) == {} && Holders(map[]) == {};
    }
  }

  /** In every interleaving: active digests, slots in use and capacity are ordered,
      and no digest is inside the driver twice. */
  lemma SlotsBoundActive(capacity: nat, events: seq<Event>)
    ensures var s := Run(Initial(capacity), events);
            && |s.active| <= s.slots <= capacity
            && (forall b, c :: b in s.runs && c in s.runs && b != c && Live(s.runs[b]) && Live(s.runs[c]) ==>
                  s.runs[b].digest != s.runs[c].digest)
  {
    RunKeeps(capacity, events);
    var s := Run(Initial(capacity), events);
    SubsetSize(LiveCalls(s.runs), Holders(s.runs));
  }

  /** The driver is closed at most once and only with no probe in flight, no probe
      begins afterwards, and Close has returned only when no run is left. */
  lemma CloseDrainsInOrder(capacity: nat, events: seq<Event>)
    ensures var s := Run(Initial(capacity), events);
            && s.driverCloses <= 1
            && (s.driverCloses == 1 ==> s.probes == 0 && s.closed)
            && (s.closing.Closed? ==> s.driverCloses == 1 && s.runs == map[] && s.slots == 0 && s.active == {})
  {
    RunKeeps(capacity, events);
    var s := Run(Initial(capacity), events);
    if s.runs == map[] { assert Holders(s.runs) == {} && LiveCalls(s.runs) == {}; }
  }

  // --------------------------------------------------------------- the object

  class SupervisedBackend {
    const capacity: nat
    var slots: nat
    var active: set<string>
    var closed: bool
    var probes: nat
    var waiting: nat
    var runs: map<nat, RunCall>
    var closing: Closing
    ghost var driverCloses: nat

    ghost function View(): State
      reads this
    {
      State(capacity, slots, active, closed, probes, waiting, runs, closing, driverCloses)
    }

    constructor (capacity: nat)
      ensures View() == Initial(capacity)
    {
      this.capacity := capacity;
      slots, active, closed, probes, waiting, runs, closing := 0, {}, false, 0, 0, map[], Idle;
      driverCloses := 0;
    }

    method Register(call: nat, digest: string, valid: bool) returns (ok: bool)
      requires call !in runs
      modifies this
      ensures View() == Step(old(View()), Admit(call, digest, valid))
      ensures ok <==> valid && !old(closed) && digest !in old(active) && old(slots) < capacity
    {
      if !valid { return false; }
      if closed { return false; }
      if digest in active { return false; }
      if slots >= capacity { return false; }
      slots := slots + 1;
      active := active + {digest};
      waiting := waiting + 1;
      runs := runs[call := RunCall(digest, Registered)];
      ok := true;
    }

    method Unregister(call: nat)
      requires At(View(), call, Returned)
      modifies this
      ensures View() == Step(old(View()), Event.Remove(call))
    {
      active := active - {runs[call].digest};
      runs := runs[call := runs[call].(phase := Removed)];
    }

    /** Receiving from the slot channel never blocks: the run holds a slot. */
    method ReleaseSlot(call: nat)
      requires Inv(View()) && At(View(), call, Removed)
      modifies this
      ensures View() == Step(old(View()), Event.Release(call)) && slots == old(slots) - 1
    {
      assert call in Holders(runs);
      slots := slots - 1;
      runs := runs[call := runs[call].(phase := Released)];
    }

    method BeginClose()
      modifies this
      ensures View() == Step(old(View()), Event.CloseBegin)
    {
      if closing != Idle { return; }
      closed := true;
      closing := DrainProbes;
    }
  }
}
