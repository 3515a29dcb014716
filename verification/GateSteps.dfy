/** Each atomic section keeps the Gate invariant and only grows records. */
module GateSteps {
  import opened Common
  import opened ExecutionPlan
  import opened Gate
  import opened GateInvariant

  ghost predicate Kept(env: Env, s: GateState, t: GateState) {
    Inv(env, t) && Grows(s.records, t.records)
  }

  lemma OpenKeeps(env: Env, s: GateState, names: seq<string>, writes: seq<Write>)
    requires Inv(env, s)
    ensures Kept(env, s, StepOpen(env, s, names, writes).0)
  {
    if !s.open && Listing(s.records, names) {
      RecoverKeeps(env, s.records, names, writes);
      RecordsGrow(env, s, Recover(env, s.records, names, writes).0);
      var t := s.(records := Recover(env, s.records, names, writes).0);
      AnswersAreFree(env, t, t.answered, map[]);
      assert StepOpen(env, s, names, writes).0
          == t.(open := Recover(env, s.records, names, writes).1, replays := map[]);
    }
  }

  lemma CreateKeeps(env: Env, s: GateState, path: string, file: File)
    requires Inv(env, s) && path !in s.records
    requires file.Stored? ==> RecordInv(env, path, file.rec)
    ensures Kept(env, s, s.(records := s.records[path := file]))
  {
    RecordsGrow(env, s, s.records[path := file]);
  }

  lemma PrepareKeeps(env: Env, s: GateState, plan: Plan, fence: Fence, lifetime: nat, action: Action,
                     at: Moment, secret: Option<string>, create: Create)
    requires Inv(env, s)
    ensures Kept(env, s, StepPrepare(env, s, plan, fence, lifetime, action, at, secret, create).0)
  {
    hide PathOf;
    var t := StepPrepare(env, s, plan, fence, lifetime, action, at, secret, create).0;
    if t != s {
      PreparedFacts(env.codec, plan, fence);
      var path := PathOf(Prepare(env.codec, plan, fence).value.0.executionID);
      CreateKeeps(env, s, path, t.records[path]);
    }
  }

  lemma StartedGrows(env: Env, path: string, r: Record, action: Action)
    requires RecordInv(env, path, r) && r.state == Prepared
    ensures RecordInv(env, path, Started(r, action)) && RecordGrows(r, Started(r, action))
  {
  }

  lemma MovedGrows(env: Env, path: string, r: Record, next: ExecState, outcome: string)
    requires RecordInv(env, path, r)
    requires (r.state == Starting && next == Running) || (r.state == Running && TerminalState(next))
    ensures RecordInv(env, path, Moved(r, next, outcome)) && RecordGrows(r, Moved(r, next, outcome))
  {
  }

  lemma SubmissionGrows(env: Env, path: string, r: Record, effectID: string, action: Action)
    requires RecordInv(env, path, r) && r.state == Running
    requires effectID !in r.effects && FindEffect(r.plan.effects, effectID).Some?
    ensures RecordInv(env, path, WithSubmission(r, effectID, action))
            && RecordGrows(r, WithSubmission(r, effectID, action))
  {
    hide PathOf, FindEffect, SumRevisions, SlotOf;
    SumUpdate(r.effects, effectID, WithSubmission(r, effectID, action).effects[effectID]);
  }

  lemma TerminalGrows(env: Env, path: string, r: Record, effectID: string, status: nat, digest: string)
    requires RecordInv(env, path, r) && effectID in r.effects && r.effects[effectID].state == Submitted
    ensures RecordInv(env, path, WithTerminal(r, effectID, status, digest))
    ensures RecordGrows(r, WithTerminal(r, effectID, status, digest))
  {
    hide PathOf, FindEffect, SumRevisions, SlotOf;
    SumUpdate(r.effects, effectID, WithTerminal(r, effectID, status, digest).effects[effectID]);
  }

  lemma StartKeeps(env: Env, s: GateState, ticket: Ticket, fence: Fence, action: Action, at: Moment, filesOk: bool,
                   write: Write)
    requires Inv(env, s)
    ensures Kept(env, s, StepStart(env, s, ticket, fence, action, at, filesOk, write).0)
  {
    hide PathOf, Readable, RecordGrows, SentInv, CallsInv;
    var path := PathOf(ticket.executionID);
    var t := StepStart(env, s, ticket, fence, action, at, filesOk, write).0;
    if t.records != s.records {
      var r := s.records[path].rec;
      assert RecordInv(env, path, r);
      StartedGrows(env, path, r, action);
      ReplaceKeeps(env, s, path, Started(r, action), write);
    }
  }

  lemma TransitionKeeps(env: Env, s: GateState, launch: Launch, expected: ExecState, next: ExecState, outcome: string,
                        write: Write)
    requires Inv(env, s)
    requires (expected == Starting && next == Running) || (expected == Running && TerminalState(next))
    ensures Kept(env, s, StepTransition(env, s, launch, expected, next, outcome, write).0)
  {
    hide PathOf, Readable, RecordGrows, SentInv, CallsInv;
    var path := PathOf(launch.executionID);
    var t := StepTransition(env, s, launch, expected, next, outcome, write).0;
    if t.records != s.records {
      var r := s.records[path].rec;
      assert RecordInv(env, path, r);
      MovedGrows(env, path, r, next, outcome);
      ReplaceKeeps(env, s, path, Moved(r, next, outcome), write);
    }
  }

  lemma AddCall(env: Env, s: GateState, call: nat, c: Call)
    requires Inv(env, s) && s.open && call !in s.calls && CallInv(s.records, c)
    requires forall i :: i in s.calls ==> (s.calls[i].executionID, s.calls[i].effectID) != (c.executionID, c.effectID)
    requires (c.executionID, c.effectID) !in s.sent
    ensures Inv(env, s.(calls := s.calls[call := c]))
  {
    hide PathOf, RecordInv;
  }

  lemma RecordFacts(env: Env, s: GateState, path: string)
    requires Inv(env, s) && path in s.records && s.records[path].Stored?
    ensures RecordInv(env, path, s.records[path].rec) && PathOf(s.records[path].rec.plan.executionID) == path
  {
  }

  lemma SubmitKeeps(env: Env, s: GateState, call: nat, launch: Launch, request: Request, action: Action,
                    fence: Fence, at: Moment, write: Write)
    requires Inv(env, s)
    ensures Kept(env, s, StepSubmit(env, s, call, launch, request, action, fence, at, write).0)
  {
    hide PathOf, Readable, RecordGrows, RecordInv, Replace;
    var path := PathOf(launch.executionID);
    SubmitShape(env, s, call, launch, request, action, fence, at, write);
    var t := StepSubmit(env, s, call, launch, request, action, fence, at, write).0;
    hide StepSubmit;
    if t != s.(replays := t.replays) {
      var r := s.records[path].rec;
      var id := request.planEffectID;
      RecordFacts(env, s, path);
      hide Inv;
      SubmissionGrows(env, path, r, id, action);
      NothingPending(env, s, r.plan.executionID, id);
      ReplaceKeeps(env, s, path, WithSubmission(r, id, action), write);
      if write == Written {
        SubmittedCall(s, path, id, action, t.calls[call]);
        AddCall(env, s.(records := t.records), call, t.calls[call]);
      }
    } else {
      AnswersAreFree(env, s, s.answered, t.replays);
    }
  }

  /** A submission changes nothing but the replays, or records the effect and, once
      that is durable, starts the call. */
  lemma SubmitShape(env: Env, s: GateState, call: nat, launch: Launch, request: Request, action: Action,
                    fence: Fence, at: Moment, write: Write)
    ensures var t := StepSubmit(env, s, call, launch, request, action, fence, at, write).0;
            var path := PathOf(launch.executionID);
            t == s.(replays := t.replays)
            || (&& s.open && call !in s.calls && path in s.records && s.records[path].Stored?
                && var r := s.records[path].rec;
                && r.state == Running && request.planEffectID !in r.effects
                && FindEffect(r.plan.effects, request.planEffectID).Some?
                && t == s.(records := Replace(s.records, path, WithSubmission(r, request.planEffectID, action), write),
                           calls := t.calls)
                && (write != Written ==> t.calls == s.calls)
                && (write == Written ==>
                      && call in t.calls && t.calls == s.calls[call := t.calls[call]]
                      && var c := t.calls[call];
                      (c.path, c.executionID, c.effectID, c.stableID)
                      == (path, r.plan.executionID, request.planEffectID, action.stableID)))
  {
    hide PathOf, Readable, Replace, WithSubmission;
  }

  lemma SubmittedCall(s: GateState, path: string, id: string, action: Action, c: Call)
    requires path in s.records && s.records[path].Stored? && PathOf(s.records[path].rec.plan.executionID) == path
    requires (c.path, c.executionID, c.effectID, c.stableID)
          == (path, s.records[path].rec.plan.executionID, id, action.stableID)
    ensures CallInv(Replace(s.records, path, WithSubmission(s.records[path].rec, id, action), Written), c)
  {
    hide PathOf;
  }

  lemma AnswersAreFree(env: Env, s: GateState, answered: seq<Answer>, replays: map<nat, Replay>)
    requires Inv(env, s)
    ensures Kept(env, s, s.(answered := answered, replays := replays))
  {
    hide PathOf, RecordInv, RecordGrows, CallInv, SendMark;
  }

  /** An effect without a durable submission has neither a call nor a send. */
  lemma NothingPending(env: Env, s: GateState, id: string, effectID: string)
    requires Inv(env, s) && Has(s.records, id) && effectID !in Rec(s.records, id).effects
    ensures (id, effectID) !in s.sent
    ensures forall i :: i in s.calls ==> (s.calls[i].executionID, s.calls[i].effectID) != (id, effectID)
  {
    hide PathOf, RecordInv;
    forall i | 0 <= i < |s.sent| ensures s.sent[i] != (id, effectID) {
      assert SendMark(s.records, s.sent[i]);
    }
    forall i | i in s.calls ensures (s.calls[i].executionID, s.calls[i].effectID) != (id, effectID) {
      assert CallInv(s.records, s.calls[i]);
    }
  }

  /** Moving a call forward; a call that was unsent takes its send with it. */
  lemma Advance(env: Env, s: GateState, call: nat, phase: Phase)
    requires Inv(env, s) && call in s.calls && !s.calls[call].phase.Unsent? && !phase.Unsent?
    ensures Inv(env, s.(calls := s.calls[call := s.calls[call].(phase := phase)]))
  {
    hide PathOf, RecordInv;
    assert CallInv(s.records, s.calls[call]);
  }

  lemma AddSend(env: Env, s: GateState, call: nat, phase: Phase)
    requires Inv(env, s) && call in s.calls && s.calls[call].phase.Unsent? && !phase.Unsent?
    ensures var c := s.calls[call];
            Inv(env, s.(sent := s.sent + [(c.executionID, c.effectID)], calls := s.calls[call := c.(phase := phase)]))
  {
    hide PathOf, RecordInv, Has, Rec;
    var c := s.calls[call];
    assert CallInv(s.records, c);
    var t := s.(sent := s.sent + [(c.executionID, c.effectID)], calls := s.calls[call := c.(phase := phase)]);
    assert forall i :: i in t.calls && t.calls[i].phase.Unsent? ==>
             i in s.calls && i != call && t.calls[i] == s.calls[i];
  }

  lemma SendKeeps(env: Env, s: GateState, call: nat, resolved: bool, revalidated: bool, result: Option<(Status, Body)>)
    requires Inv(env, s)
    ensures Kept(env, s, StepSend(env, s, call, resolved, revalidated, result).0)
  {
    hide PathOf, RecordInv, Inv;
    var t := StepSend(env, s, call, resolved, revalidated, result).0;
    if t.sent != s.sent {
      var c := s.calls[call];
      var phase := if call in t.calls then t.calls[call].phase else Received(0, []);
      AddSend(env, s, call, phase);
      var m := s.(sent := t.sent, calls := s.calls[call := c.(phase := phase)]);
      EndCalls(env, m, {call});
      assert m.calls - {call} == s.calls - {call};
    } else {
      EndCalls(env, s, {call});
    }
  }

  lemma SaveKeeps(env: Env, s: GateState, call: nat, write: Write)
    requires Inv(env, s)
    ensures Kept(env, s, StepSave(s, call, write).0)
  {
    var t := StepSave(s, call, write).0;
    if call in s.calls && s.calls[call].phase.Received? {
      EndCalls(env, s, {call});
      Advance(env, s, call, Saved(s.calls[call].phase.status, s.calls[call].phase.body));
      ResponsesAreFree(env, s.(calls := t.calls), t.responses);
    }
  }

  lemma ResponsesAreFree(env: Env, s: GateState, responses: map<string, Body>)
    requires Inv(env, s)
    ensures Kept(env, s, s.(responses := responses))
  {
    hide PathOf, RecordInv, RecordGrows, CallInv, SendMark;
  }

  lemma CallFacts(env: Env, s: GateState, call: nat)
    requires Inv(env, s) && call in s.calls
    ensures CallInv(s.records, s.calls[call]) && RecordInv(env, s.calls[call].path, s.records[s.calls[call].path].rec)
  {
    hide PathOf, RecordInv;
  }

  lemma TerminalizeKeeps(env: Env, s: GateState, call: nat, write: Write)
    requires Inv(env, s)
    ensures Kept(env, s, StepTerminalize(env, s, call, write).0)
  {
    hide PathOf, Readable, RecordGrows, RecordInv;
    var t := StepTerminalize(env, s, call, write).0;
    if call in s.calls {
      hide Inv, Grows;
      var c := s.calls[call];
      CallFacts(env, s, call);
      EndCalls(env, s, {call});
      var ended := s.(calls := s.calls - {call});
      if t.records != s.records {
        var r := s.records[c.path].rec;
        var digest := env.responseDigest(c.phase.status, c.phase.body).value;
        TerminalGrows(env, c.path, r, c.effectID, c.phase.status, digest);
        OthersWait(env, s, call, WithTerminal(r, c.effectID, c.phase.status, digest));
        ReplaceKeeps(env, ended, c.path, WithTerminal(r, c.effectID, c.phase.status, digest), write);
        AnswersAreFree(env, ended.(records := t.records), t.answered, t.replays);
      } else {
        AnswersAreFree(env, ended, t.answered, t.replays);
      }
    }
  }

  /** No other call waits on the effect this one is about to finish. */
  lemma OthersWait(env: Env, s: GateState, call: nat, next: Record)
    requires Inv(env, s) && call in s.calls && s.calls[call].path in s.records && s.records[s.calls[call].path].Stored?
    requires var r := s.records[s.calls[call].path].rec;
             s.calls[call].effectID in r.effects && s.calls[call].effectID in next.effects
             && next.effects == r.effects[s.calls[call].effectID := next.effects[s.calls[call].effectID]]
    ensures forall i :: i in s.calls - {call} && s.calls[i].path == s.calls[call].path ==>
              Waits(next, s.records[s.calls[call].path].rec, s.calls[i].effectID)
  {
    hide PathOf, RecordInv;
    assert CallInv(s.records, s.calls[call]);
    forall i | i in s.calls - {call} && s.calls[i].path == s.calls[call].path
      ensures Waits(next, s.records[s.calls[call].path].rec, s.calls[i].effectID)
    {
      assert CallInv(s.records, s.calls[i]);
    }
  }

  lemma StepKeeps(env: Env, s: GateState, e: Event)
    requires Inv(env, s)
    ensures Kept(env, s, Step(env, s, e).0)
  {
    hide PathOf, RecordInv, RecordGrows, CallInv, SendMark;
    match e
    case Open(names, writes) => OpenKeeps(env, s, names, writes);
    case Stop =>
      EndCalls(env, s, s.calls.Keys);
      assert s.calls - s.calls.Keys == map[];
      AnswersAreFree(env, s.(calls := map[]), s.answered, map[]);
    case PrepareCall(plan, fence, lifetime, action, at, secret, create) =>
      PrepareKeeps(env, s, plan, fence, lifetime, action, at, secret, create);
    case StartCall(ticket, fence, action, at, filesOk, write) =>
      StartKeeps(env, s, ticket, fence, action, at, filesOk, write);
    case MarkRunningCall(launch, write) => TransitionKeeps(env, s, launch, Starting, Running, "", write);
    case CompleteCall(launch, terminal, outcome, write) =>
      if TerminalState(terminal) { TransitionKeeps(env, s, launch, Running, terminal, outcome, write); }
    case SubmitEffect(call, launch, request, action, fence, at, write) =>
      SubmitKeeps(env, s, call, launch, request, action, fence, at, write);
    case SendEffect(call, resolved, revalidated, result) => SendKeeps(env, s, call, resolved, revalidated, result);
    case SaveResponse(call, write) => SaveKeeps(env, s, call, write);
    case TerminalizeEffect(call, write) => TerminalizeKeeps(env, s, call, write);
    case ReadReplay(call, ok) => AnswersAreFree(env, s, Step(env, s, e).0.answered, Step(env, s, e).0.replays);
  }
}
