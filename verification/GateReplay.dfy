/** Stored responses back every terminal effect, so repeating an effect request
    returns what the original call returned. */
module GateReplay {
  import opened Common
  import opened ExecutionPlan
  import opened Gate
  import opened GateInvariant
  import opened GateSteps
  import opened GateTheorems

  // ------------------------------------------------------ who owns which file

  predicate Recorded(records: map<string, File>, p: string, k: string) {
    p in records && records[p].Stored? && k in records[p].rec.effects
  }

  function StableID(records: map<string, File>, p: string, k: string): string
    requires Recorded(records, p, k)
  {
    records[p].rec.effects[k].stableID
  }

  /** No two recorded effects share a response file. The Gate leaves this to the
      authority, which names every effect action. */
  ghost predicate Separate(records: map<string, File>) {
    forall p, k, q, l ::
      (Recorded(records, p, k) && Recorded(records, q, l)
       && ResponsePath(StableID(records, p, k)) == ResponsePath(StableID(records, q, l))) ==>
        p == q && k == l
  }

  /** Different digests have different response files. */
  lemma ResponsePathsDiffer(a: string, b: string)
    requires ValidDigest(a) && ValidDigest(b) && ResponsePath(a) == ResponsePath(b)
    ensures a == b
  {
    var p := ResponsePath(a);
    assert p == "effect-" + a[7..] + ".response" && p == "effect-" + b[7..] + ".response";
    assert a[7..] == p[7..|p| - 9] && b[7..] == p[7..|p| - 9];
    assert a == a[..7] + a[7..] && b == b[..7] + b[7..];
  }

  /** Distinct stable identities, as far as records can be read, are enough. */
  lemma DistinctIdentitiesSeparate(records: map<string, File>)
    requires forall p, k :: Recorded(records, p, k) ==> ValidDigest(StableID(records, p, k))
    requires forall p, k, q, l ::
               (Recorded(records, p, k) && Recorded(records, q, l)
                && StableID(records, p, k) == StableID(records, q, l)) ==>
                 p == q && k == l
    ensures Separate(records)
  {
    hide ResponsePath;
    forall p, k, q, l | Recorded(records, p, k) && Recorded(records, q, l)
                        && ResponsePath(StableID(records, p, k)) == ResponsePath(StableID(records, q, l))
      ensures p == q && k == l
    {
      ResponsePathsDiffer(StableID(records, p, k), StableID(records, q, l));
    }
  }

  /** What is recorded stays recorded, so earlier states are separate too. */
  lemma SeparateEarlier(before: map<string, File>, after: map<string, File>)
    requires Grows(before, after) && Separate(after)
    ensures Separate(before)
  {
    hide ResponsePath;
    forall p, k | Recorded(before, p, k)
      ensures Recorded(after, p, k) && StableID(after, p, k) == StableID(before, p, k)
    {
      assert FileGrows(before[p], after[p]);
    }
  }

  // ---------------------------------------------------------------- invariant

  ghost predicate EffectBacked(env: Env, responses: map<string, Body>, e: EffectRecord) {
    e.state == Terminal ==>
      && ResponsePath(e.stableID) in responses
      && env.responseDigest(e.status, responses[ResponsePath(e.stableID)]) == Some(e.responseDigest)
  }

  ghost predicate RecordBacked(env: Env, responses: map<string, Body>, r: Record) {
    forall k :: k in r.effects ==> EffectBacked(env, responses, r.effects[k])
  }

  ghost predicate CallBacked(responses: map<string, Body>, c: Call) {
    c.phase.Saved? ==> ResponsePath(c.stableID) in responses && responses[ResponsePath(c.stableID)] == c.phase.body
  }

  /** The terminal effect of an execution, with what it recorded. */
  ghost predicate Ended(s: GateState, id: string, k: string, status: nat, digest: string) {
    && Has(s.records, id) && k in Rec(s.records, id).effects
    && var e := Rec(s.records, id).effects[k];
    e.state == Terminal && e.status == status && e.responseDigest == digest
  }

  ghost predicate PendingBacked(s: GateState, p: Replay) {
    Ended(s, p.executionID, p.effectID, p.status, p.digest)
    && Rec(s.records, p.executionID).effects[p.effectID].stableID == p.stableID
  }

  /** An answer agrees with the terminal effect and with the response file. */
  ghost predicate AnswerBacked(s: GateState, a: Answer) {
    && Ended(s, a.executionID, a.effectID, a.status, a.digest)
    && var path := ResponsePath(Rec(s.records, a.executionID).effects[a.effectID].stableID);
    path in s.responses && s.responses[path] == a.body
  }

  ghost predicate Backed(env: Env, s: GateState) {
    && (forall p :: p in s.records && s.records[p].Stored? ==> RecordBacked(env, s.responses, s.records[p].rec))
    && (forall i :: i in s.calls ==> CallBacked(s.responses, s.calls[i]))
    && (forall i :: i in s.replays ==> PendingBacked(s, s.replays[i]))
    && (forall i :: 0 <= i < |s.answered| ==> AnswerBacked(s, s.answered[i]))
  }

  // ------------------------------------------------------------ record updates

  /** Growing records keep every ended effect ended. */
  lemma EndedGrows(s: GateState, after: map<string, File>, id: string, k: string, status: nat, digest: string)
    requires Ended(s, id, k, status, digest) && Grows(s.records, after)
    ensures Ended(s.(records := after), id, k, status, digest)
    ensures Rec(after, id).effects[k] == Rec(s.records, id).effects[k]
  {
    hide PathOf;
    assert FileGrows(s.records[PathOf(id)], after[PathOf(id)]);
  }

  /** Growing records whose effects stay backed keep everything else backed. */
  lemma GrowBacked(env: Env, s: GateState, after: map<string, File>)
    requires Backed(env, s) && Grows(s.records, after)
    requires forall p :: p in after && after[p].Stored? ==> RecordBacked(env, s.responses, after[p].rec)
    ensures Backed(env, s.(records := after))
  {
    hide RecordBacked, Ended, Grows, Has, Rec, ResponsePath;
    var t := s.(records := after);
    forall i | 0 <= i < |s.answered| ensures AnswerBacked(t, s.answered[i]) {
      var a := s.answered[i];
      assert AnswerBacked(s, a);
      EndedGrows(s, after, a.executionID, a.effectID, a.status, a.digest);
    }
    forall i | i in s.replays ensures PendingBacked(t, s.replays[i]) {
      var p := s.replays[i];
      assert PendingBacked(s, p);
      EndedGrows(s, after, p.executionID, p.effectID, p.status, p.digest);
    }
  }

  /** Records whose effects did not change. */
  ghost predicate SameEffects(before: map<string, File>, after: map<string, File>) {
    forall p :: p in after && after[p].Stored? ==>
      after[p].rec.effects == map[]
      || (p in before && before[p].Stored? && before[p].rec.effects == after[p].rec.effects)
  }

  lemma SameEffectsBacked(env: Env, s: GateState, after: map<string, File>)
    requires Backed(env, s) && Grows(s.records, after) && SameEffects(s.records, after)
    ensures Backed(env, s.(records := after))
  {
    hide PathOf;
    forall p | p in after && after[p].Stored? ensures RecordBacked(env, s.responses, after[p].rec) {
      if after[p].rec.effects != map[] {
        assert RecordBacked(env, s.responses, s.records[p].rec);
      }
    }
    GrowBacked(env, s, after);
  }

  lemma {:induction false} RecoverSameEffects(env: Env, records: map<string, File>, names: seq<string>,
                                              writes: seq<Write>)
    ensures SameEffects(records, Recover(env, records, names, writes).0)
    decreases |names|
  {
    if names != [] && Read(env, records, names[0]).Some? {
      var r := Read(env, records, names[0]).value;
      var w := if writes == [] then Written else writes[0];
      var rest := if writes == [] then [] else writes[1..];
      if !Interrupted(r.state) {
        RecoverSameEffects(env, records, names[1..], writes);
      } else if w == Written {
        RecoverSameEffects(env, Replace(records, names[0], Recovered(r), w), names[1..], rest);
      }
    }
  }

  predicate Quiet(e: Event) {
    e.Open? || e.Stop? || e.PrepareCall? || e.StartCall? || e.MarkRunningCall? || e.CompleteCall?
  }

  /** Steps that leave every effect record alone. */
  lemma QuietKeeps(env: Env, s: GateState, e: Event)
    requires Inv(env, s) && Backed(env, s) && Quiet(e)
    ensures Backed(env, Step(env, s, e).0)
  {
    StepKeeps(env, s, e);
    QuietSameEffects(env, s, e);
    QuietRest(env, s, e);
    var t := Step(env, s, e).0;
    hide Step, Inv, Grows, SameEffects;
    SameEffectsBacked(env, s, t.records);
    DropFlight(env, s.(records := t.records), t);
  }

  /** Forgetting calls and replays keeps the rest backed. */
  lemma DropFlight(env: Env, s: GateState, t: GateState)
    requires Backed(env, s) && (t.records, t.responses, t.answered) == (s.records, s.responses, s.answered)
    requires forall i :: i in t.calls ==> i in s.calls && t.calls[i] == s.calls[i]
    requires forall i :: i in t.replays ==> i in s.replays && t.replays[i] == s.replays[i]
    ensures Backed(env, t)
  {
    hide PathOf, RecordBacked, CallBacked, ResponsePath;
    forall i | 0 <= i < |t.answered| ensures AnswerBacked(t, t.answered[i]) {
      assert AnswerBacked(s, s.answered[i]);
    }
    forall i | i in t.replays ensures PendingBacked(t, t.replays[i]) {
      assert PendingBacked(s, s.replays[i]);
    }
  }

  lemma QuietSameEffects(env: Env, s: GateState, e: Event)
    requires Quiet(e)
    ensures SameEffects(s.records, Step(env, s, e).0.records)
  {
    hide PathOf, Readable, StepPrepare, StepSubmit, StepTerminalize, Startable, Recover, Listing;
    match e
    case Open(names, writes) => RecoverSameEffects(env, s.records, names, writes);
    case PrepareCall(plan, fence, lifetime, action, at, secret, create) => PrepareSameEffects(env, s, e);
    case _ =>
  }

  lemma PrepareSameEffects(env: Env, s: GateState, e: Event)
    requires e.PrepareCall?
    ensures SameEffects(s.records,
                        StepPrepare(env, s, e.plan, e.fence, e.lifetime, e.action, e.at, e.secret, e.create).0.records)
  {
    hide PathOf, Readable, Prepare;
  }

  lemma QuietRest(env: Env, s: GateState, e: Event)
    requires Quiet(e)
    ensures var t := Step(env, s, e).0;
            && t.responses == s.responses && t.answered == s.answered
            && (t.calls == s.calls || t.calls == map[]) && (t.replays == s.replays || t.replays == map[])
  {
    hide PathOf, Readable, Prepare, Startable, Recover, Listing, Replace, Read;
  }

  lemma ReplaceBacked(env: Env, s: GateState, path: string, next: Record, write: Write)
    requires Backed(env, s) && Grows(s.records, Replace(s.records, path, next, write))
    requires RecordBacked(env, s.responses, next)
    ensures Backed(env, s.(records := Replace(s.records, path, next, write)))
  {
    hide PathOf, RecordBacked, Grows, CallBacked, PendingBacked, AnswerBacked;
    GrowBacked(env, s, Replace(s.records, path, next, write));
  }

  // --------------------------------------------------------------- submission

  lemma SubmissionBacked(env: Env, responses: map<string, Body>, r: Record, k: string, action: Action)
    requires RecordBacked(env, responses, r)
    ensures RecordBacked(env, responses, WithSubmission(r, k, action))
  {
    hide ResponsePath;
  }

  lemma AddCallBacked(env: Env, s: GateState, call: nat, c: Call)
    requires Backed(env, s) && CallBacked(s.responses, c)
    ensures Backed(env, s.(calls := s.calls[call := c]))
  {
    hide PathOf, RecordBacked, CallBacked, ResponsePath;
    var t := s.(calls := s.calls[call := c]);
    forall i | 0 <= i < |t.answered| ensures AnswerBacked(t, t.answered[i]) {
      assert AnswerBacked(s, s.answered[i]);
    }
    forall i | i in t.replays ensures PendingBacked(t, t.replays[i]) {
      assert PendingBacked(s, s.replays[i]);
    }
  }

  lemma AddReplayBacked(env: Env, s: GateState, call: nat, p: Replay)
    requires Backed(env, s) && PendingBacked(s, p)
    ensures Backed(env, s.(replays := s.replays[call := p]))
  {
    hide PathOf, RecordBacked, CallBacked, ResponsePath;
    var t := s.(replays := s.replays[call := p]);
    forall i | 0 <= i < |t.answered| ensures AnswerBacked(t, t.answered[i]) {
      assert AnswerBacked(s, s.answered[i]);
    }
    forall i | i in t.replays ensures PendingBacked(t, t.replays[i]) {
      if i != call { assert PendingBacked(s, s.replays[i]); }
    }
  }

  lemma SubmitBacked(env: Env, s: GateState, call: nat, launch: Launch, request: Request, action: Action,
                     fence: Fence, at: Moment, write: Write)
    requires Inv(env, s) && Backed(env, s)
    ensures Backed(env, StepSubmit(env, s, call, launch, request, action, fence, at, write).0)
  {
    hide PathOf, Readable, RecordGrows, EffectAdmitted, RecordInv, Backed;
    SubmitKeeps(env, s, call, launch, request, action, fence, at, write);
    var path := PathOf(launch.executionID);
    var t := StepSubmit(env, s, call, launch, request, action, fence, at, write).0;
    if t != s {
      RecordFacts(env, s, path);
      RecordIsBacked(env, s, path);
      hide Inv;
      var r := s.records[path].rec;
      var id := request.planEffectID;
      if id in r.effects {
        AddReplayBacked(env, s, call, t.replays[call]);
      } else {
        SubmissionBacked(env, s.responses, r, id, action);
        ReplaceBacked(env, s, path, WithSubmission(r, id, action), write);
        if write == Written {
          AddCallBacked(env, s.(records := t.records), call, t.calls[call]);
        }
      }
    }
  }

  lemma RecordIsBacked(env: Env, s: GateState, path: string)
    requires Backed(env, s) && path in s.records && s.records[path].Stored?
    ensures RecordBacked(env, s.responses, s.records[path].rec)
  {
  }

  // ------------------------------------------------- sending and saving a body

  lemma SendBacked(env: Env, s: GateState, call: nat, resolved: bool, revalidated: bool, result: Option<(Status, Body)>)
    requires Backed(env, s)
    ensures Backed(env, StepSend(env, s, call, resolved, revalidated, result).0)
  {
    hide PathOf, RecordBacked, ResponsePath;
    var t := StepSend(env, s, call, resolved, revalidated, result).0;
    forall i | 0 <= i < |t.answered| ensures AnswerBacked(t, t.answered[i]) {
      assert AnswerBacked(s, s.answered[i]);
    }
    forall i | i in t.replays ensures PendingBacked(t, t.replays[i]) {
      assert PendingBacked(s, s.replays[i]);
    }
  }

  /** The record entry a call in flight waits on. */
  lemma CallIsRecorded(env: Env, s: GateState, c: Call)
    requires CallInv(s.records, c)
    ensures Recorded(s.records, c.path, c.effectID) && StableID(s.records, c.path, c.effectID) == c.stableID
    ensures s.records[c.path].rec.effects[c.effectID].state == Submitted
  {
    hide PathOf;
  }

  /** Writing the file of a merely submitted effect leaves the file of every other
      recorded effect alone. */
  lemma OtherFilesKept(s: GateState, c: Call, body: Body, p: string, k: string)
    requires Separate(s.records) && Recorded(s.records, c.path, c.effectID)
    requires StableID(s.records, c.path, c.effectID) == c.stableID
    requires Recorded(s.records, p, k) && (p, k) != (c.path, c.effectID)
    ensures var file := ResponsePath(StableID(s.records, p, k));
            file in s.responses ==>
              file in s.responses[ResponsePath(c.stableID) := body]
              && s.responses[ResponsePath(c.stableID) := body][file] == s.responses[file]
  {
    hide ResponsePath;
  }

  ghost predicate Overwrites(before: map<string, Body>, after: map<string, Body>, c: Call) {
    c.phase.Received? && (after == before || after == before[ResponsePath(c.stableID) := c.phase.body])
  }

  lemma SaveKeepsRecord(env: Env, s: GateState, after: map<string, Body>, c: Call, p: string)
    requires Separate(s.records) && CallInv(s.records, c) && Overwrites(s.responses, after, c)
    requires p in s.records && s.records[p].Stored? && RecordBacked(env, s.responses, s.records[p].rec)
    ensures RecordBacked(env, after, s.records[p].rec)
  {
    hide ResponsePath, Separate, CallInv;
    CallIsRecorded(env, s, c);
    var r := s.records[p].rec;
    forall k | k in r.effects && r.effects[k].state == Terminal ensures EffectBacked(env, after, r.effects[k]) {
      assert EffectBacked(env, s.responses, r.effects[k]);
      assert Recorded(s.records, p, k);
      OtherFilesKept(s, c, c.phase.body, p, k);
    }
  }

  lemma SaveKeepsAnswer(env: Env, s: GateState, t: GateState, c: Call, a: Answer)
    requires AnswerBacked(s, a) && Separate(s.records) && CallInv(s.records, c)
    requires t.records == s.records && Overwrites(s.responses, t.responses, c)
    ensures AnswerBacked(t, a)
  {
    hide ResponsePath, Separate, CallInv, PathOf;
    CallIsRecorded(env, s, c);
    var p := PathOf(a.executionID);
    assert Recorded(s.records, p, a.effectID);
    OtherFilesKept(s, c, c.phase.body, p, a.effectID);
  }

  lemma SaveKeepsCall(env: Env, s: GateState, after: map<string, Body>, c: Call, d: Call)
    requires CallInv(s.records, c) && CallInv(s.records, d) && CallBacked(s.responses, d) && Separate(s.records)
    requires (d.executionID, d.effectID) != (c.executionID, c.effectID) && Overwrites(s.responses, after, c)
    ensures CallBacked(after, d)
  {
    if c.path == d.path { SamePathSameExecution(s.records, c, d); }
    hide ResponsePath, Separate, CallInv;
    CallIsRecorded(env, s, c);
    CallIsRecorded(env, s, d);
    OtherFilesKept(s, c, c.phase.body, d.path, d.effectID);
  }

  lemma SamePathSameExecution(records: map<string, File>, c: Call, d: Call)
    requires CallInv(records, c) && CallInv(records, d) && c.path == d.path
    ensures c.executionID == d.executionID
  {
    hide PathOf;
  }

  /** Saving a response only touches the file of an effect that is still merely
      submitted, so nothing terminal and nothing answered depends on it. */
  lemma SaveBacked(env: Env, s: GateState, call: nat, write: Write)
    requires Inv(env, s) && Backed(env, s) && Separate(s.records)
    ensures Backed(env, StepSave(s, call, write).0)
  {
    hide PathOf, ResponsePath, RecordsInv, RecordBacked, AnswerBacked, Ended, Separate, SentInv, CallInv;
    var t := StepSave(s, call, write).0;
    if call in s.calls && s.calls[call].phase.Received? {
      var c := s.calls[call];
      assert CallInv(s.records, c) && Overwrites(s.responses, t.responses, c);
      forall p | p in t.records && t.records[p].Stored? ensures RecordBacked(env, t.responses, t.records[p].rec) {
        SaveKeepsRecord(env, s, t.responses, c, p);
      }
      forall i | 0 <= i < |t.answered| ensures AnswerBacked(t, t.answered[i]) {
        SaveKeepsAnswer(env, s, t, c, s.answered[i]);
      }
      forall i | i in t.replays ensures PendingBacked(t, t.replays[i]) {
        PendingKept(s, t, s.replays[i]);
      }
      forall i | i in t.calls ensures CallBacked(t.responses, t.calls[i]) {
        if i != call { SaveKeepsCall(env, s, t.responses, c, s.calls[i]); }
      }
    }
  }

  lemma PendingKept(s: GateState, t: GateState, p: Replay)
    requires PendingBacked(s, p) && t.records == s.records
    ensures PendingBacked(t, p)
  {
  }

  // ---------------------------------------------------- ending and replaying

  lemma TerminalizeBacked(env: Env, s: GateState, call: nat, write: Write)
    requires Inv(env, s) && Backed(env, s)
    ensures Backed(env, StepTerminalize(env, s, call, write).0)
  {
    hide PathOf, Readable, RecordGrows, ResponsePath, RecordInv;
    TerminalizeKeeps(env, s, call, write);
    var t := StepTerminalize(env, s, call, write).0;
    if call in s.calls && s.calls[call].phase.Saved? {
      var c := s.calls[call];
      var ended := s.(calls := s.calls - {call});
      assert CallBacked(s.responses, c);
      CallFacts(env, s, call);
      DropFlight(env, s, ended);
      if t.records != s.records || t.answered != s.answered {
        RecordIsBacked(env, s, c.path);
        hide Backed, Inv, RecordBacked, CallBacked;
        var r := s.records[c.path].rec;
        var digest := env.responseDigest(c.phase.status, c.phase.body).value;
        var next := WithTerminal(r, c.effectID, c.phase.status, digest);
        TerminalBacked(env, s.responses, r, c, digest);
        ReplaceBacked(env, ended, c.path, next, write);
        if write == Written {
          EndedNow(env, s, t, c, digest);
          AddAnswerBacked(env, ended.(records := t.records), t.answered[|s.answered|]);
        }
      }
    }
  }

  lemma TerminalBacked(env: Env, responses: map<string, Body>, r: Record, c: Call, digest: string)
    requires RecordBacked(env, responses, r) && CallBacked(responses, c) && c.phase.Saved?
    requires c.effectID in r.effects && r.effects[c.effectID].stableID == c.stableID
    requires env.responseDigest(c.phase.status, c.phase.body) == Some(digest)
    ensures RecordBacked(env, responses, WithTerminal(r, c.effectID, c.phase.status, digest))
  {
    hide ResponsePath;
  }

  lemma EndedNow(env: Env, s: GateState, t: GateState, c: Call, digest: string)
    requires CallInv(s.records, c) && CallBacked(s.responses, c) && c.phase.Saved? && t.responses == s.responses
    requires c.path in s.records && s.records[c.path].Stored? && c.effectID in s.records[c.path].rec.effects
    requires t.records
        == s.records[c.path := Stored(WithTerminal(s.records[c.path].rec, c.effectID, c.phase.status, digest))]
    ensures AnswerBacked(t, Answer(c.executionID, c.effectID, c.phase.status, c.phase.body, digest))
  {
    hide PathOf, ResponsePath;
  }

  lemma AddAnswerBacked(env: Env, s: GateState, a: Answer)
    requires Backed(env, s) && AnswerBacked(s, a)
    ensures Backed(env, s.(answered := s.answered + [a]))
  {
    hide PathOf, RecordBacked, CallBacked, ResponsePath;
    var t := s.(answered := s.answered + [a]);
    forall i | 0 <= i < |t.answered| ensures AnswerBacked(t, t.answered[i]) {
      if i < |s.answered| { assert AnswerBacked(s, s.answered[i]); }
    }
    forall i | i in t.replays ensures PendingBacked(t, t.replays[i]) {
      assert PendingBacked(s, s.replays[i]);
    }
  }

  /** A pending replay finds the response of its effect. */
  lemma PendingFindsResponse(env: Env, s: GateState, call: nat)
    requires Backed(env, s) && call in s.replays
    ensures var p := s.replays[call];
            && ResponsePath(p.stableID) in s.responses
            && env.responseDigest(p.status, s.responses[ResponsePath(p.stableID)]) == Some(p.digest)
  {
    hide PathOf, ResponsePath;
    var p := s.replays[call];
    assert PendingBacked(s, p);
    RecordIsBacked(env, s, PathOf(p.executionID));
    assert EffectBacked(env, s.responses, Rec(s.records, p.executionID).effects[p.effectID]);
  }

  lemma ReadReplayBacked(env: Env, s: GateState, call: nat, ok: bool)
    requires Backed(env, s)
    ensures Backed(env, StepReadReplay(s, call, ok).0)
  {
    hide PathOf, ResponsePath, RecordBacked;
    if call in s.replays {
      var p := s.replays[call];
      assert PendingBacked(s, p);
      var ended := s.(replays := s.replays - {call});
      DropFlight(env, s, ended);
      hide Backed;
      var path := ResponsePath(p.stableID);
      if ok && path in s.responses {
        AddAnswerBacked(env, ended, Answer(p.executionID, p.effectID, p.status, s.responses[path], p.digest));
      }
    }
  }

  lemma StepBacked(env: Env, s: GateState, e: Event)
    requires Inv(env, s) && Backed(env, s) && Separate(s.records)
    ensures Backed(env, Step(env, s, e).0)
  {
    hide Backed, Separate, Inv;
    match e
    case SubmitEffect(call, launch, request, action, fence, at, write) =>
      SubmitBacked(env, s, call, launch, request, action, fence, at, write);
    case SendEffect(call, resolved, revalidated, result) => SendBacked(env, s, call, resolved, revalidated, result);
    case SaveResponse(call, write) => SaveBacked(env, s, call, write);
    case TerminalizeEffect(call, write) => TerminalizeBacked(env, s, call, write);
    case ReadReplay(call, ok) => ReadReplayBacked(env, s, call, ok);
    case _ => QuietKeeps(env, s, e);
  }

  lemma {:induction false} RunBacked(env: Env, events: seq<Event>)
    requires Separate(Run(env, events).records)
    ensures Backed(env, Run(env, events))
  {
    hide Separate, Step, Inv, Grows;
    if events != [] {
      var before, e := events[..|events| - 1], events[|events| - 1];
      RunKeeps(env, before);
      StepKeeps(env, Run(env, before), e);
      SeparateEarlier(Run(env, before).records, Run(env, events).records);
      RunBacked(env, before);
      StepBacked(env, Run(env, before), e);
    }
  }

  // ---------------------------------------------------------------- theorems

  /** In every reachable state a terminal effect has a response file holding a
      body with exactly the recorded digest. */
  lemma TerminalEffectsHaveResponses(env: Env, events: seq<Event>, path: string, k: string)
    requires Separate(Run(env, events).records) && Recorded(Run(env, events).records, path, k)
    requires Run(env, events).records[path].rec.effects[k].state == Terminal
    ensures var s := Run(env, events);
            var e := s.records[path].rec.effects[k];
            ResponsePath(e.stableID) in s.responses
            && env.responseDigest(e.status, s.responses[ResponsePath(e.stableID)]) == Some(e.responseDigest)
  {
    hide Separate, Run;
    RunBacked(env, events);
    var s := Run(env, events);
    RecordIsBacked(env, s, path);
    assert EffectBacked(env, s.responses, s.records[path].rec.effects[k]);
  }

  /** Whatever the run, all responses ever returned for one effect of one
      execution, by the original call or by replays, are identical. */
  lemma RepliesAgree(env: Env, events: seq<Event>, i: nat, j: nat)
    requires Separate(Run(env, events).records) && i < j < |Run(env, events).answered|
    requires Run(env, events).answered[i].executionID == Run(env, events).answered[j].executionID
    requires Run(env, events).answered[i].effectID == Run(env, events).answered[j].effectID
    ensures Run(env, events).answered[i] == Run(env, events).answered[j]
  {
    hide Separate, Run, PathOf, ResponsePath, RecordBacked;
    RunBacked(env, events);
    var s := Run(env, events);
    assert AnswerBacked(s, s.answered[i]) && AnswerBacked(s, s.answered[j]);
  }

  /** A repeated request that was let in is answered, however long it waited for
      the file: with the recorded status and digest, and a body of that digest. */
  lemma ReplaysAreAnswered(env: Env, events: seq<Event>, call: nat)
    requires Separate(Run(env, events).records) && call in Run(env, events).replays
    ensures var s := Run(env, events);
            var p := s.replays[call];
            var reply := StepReadReplay(s, call, true).1;
            && Ended(s, p.executionID, p.effectID, p.status, p.digest)
            && reply.Responded? && reply.status == p.status && reply.digest == p.digest
            && env.responseDigest(reply.status, reply.body) == Some(reply.digest)
  {
    hide Separate, Run, PathOf, ResponsePath, RecordBacked;
    RunBacked(env, events);
    var s := Run(env, events);
    assert PendingBacked(s, s.replays[call]);
    PendingFindsResponse(env, s, call);
  }

  /** The same request again, under a call number that is free. */
  ghost predicate ExactRepetition(env: Env, t: GateState, c: Call, call: nat, launch: Launch, request: Request,
                                  action: Action, fence: Fence, at: Moment)
  {
    && Has(t.records, c.executionID) && c.effectID in Rec(t.records, c.executionID).effects
    && var r := Rec(t.records, c.executionID);
    && t.open && call !in t.calls && call !in t.replays
    && launch.executionID == c.executionID && launch.planDigest == r.planDigest && launch.ticketSecret == r.ticketSecret
    && r.state == Running && EffectAdmitted(env, r, request, action, fence, at) && request.planEffectID == c.effectID
    && action.stableID == c.stableID && action.requestDigest == r.effects[c.effectID].requestDigest
  }

  /** The written record reads exactly when its new effect is valid and it fits. */
  lemma TerminalReadableExactly(env: Env, r: Record, k: string, status: nat, digest: string)
    requires Readable(env, r) && k in r.effects
    ensures Readable(env, WithTerminal(r, k, status, digest)) <==>
            status != 0 && ValidDigest(digest) && env.fits(WithTerminal(r, k, status, digest))
  {
    hide ValidDigest;
    var next := WithTerminal(r, k, status, digest);
    assert ValidEffect(k, r.effects[k]);
    assert forall l :: l in next.effects && l != k ==> next.effects[l] == r.effects[l];
    assert ValidEffect(k, next.effects[k]) <==> status != 0 && ValidDigest(digest);
  }

  lemma TerminalizedFacts(env: Env, s: GateState, call: nat)
    requires Inv(env, s) && StepTerminalize(env, s, call, Written).1.Responded?
    ensures call in s.calls && s.calls[call].phase.Saved?
    ensures var c := s.calls[call];
            var (t, reply) := StepTerminalize(env, s, call, Written);
            && Has(s.records, c.executionID) && c.path == PathOf(c.executionID)
            && Readable(env, Rec(s.records, c.executionID)) && c.effectID in Rec(s.records, c.executionID).effects
            && Rec(s.records, c.executionID).effects[c.effectID].stableID == c.stableID
            && t == s.(calls := s.calls - {call}, answered := t.answered, records := s.records[c.path :=
                 Stored(WithTerminal(Rec(s.records, c.executionID), c.effectID, c.phase.status, reply.digest))])
            && reply == Responded(c.phase.status, c.phase.body, reply.digest)
  {
    hide PathOf, Readable, RecordInv;
    CallFacts(env, s, call);
  }

  /** When is a call that was answered answered again? Exactly when the record it
      left reads: a nonzero status, a digest in digest form, and a record within
      the size bound. Then the repetition gets the same response. Otherwise it is
      refused, and the record never reads again. */
  lemma AnsweredAgainExactly(env: Env, events: seq<Event>, call: nat, again: nat, launch: Launch, request: Request,
                             action: Action, fence: Fence, at: Moment, write: Write)
    requires Separate(Run(env, events).records)
    requires StepTerminalize(env, Run(env, events), call, Written).1.Responded? && call in Run(env, events).calls
    requires ExactRepetition(env, StepTerminalize(env, Run(env, events), call, Written).0, Run(env, events).calls[call],
                             again, launch, request, action, fence, at)
    ensures var c := Run(env, events).calls[call];
            var (t, reply) := StepTerminalize(env, Run(env, events), call, Written);
            var (u, answer) := StepSubmit(env, t, again, launch, request, action, fence, at, write);
            && (answer == Replaying <==>
                  reply.status != 0 && ValidDigest(reply.digest) && env.fits(Rec(t.records, c.executionID)))
            && (answer == Replaying ==> StepReadReplay(u, again, true).1 == reply)
            && (answer != Replaying ==> answer == Refused && Read(env, t.records, c.path).None?)
  {
    hide Separate, Run, RecordBacked;
    RunKeeps(env, events);
    RunBacked(env, events);
    var s := Run(env, events);
    TerminalizedFacts(env, s, call);
    var c := s.calls[call];
    assert CallBacked(s.responses, c);
    hide Inv, Backed, PathOf, ResponsePath, EffectAdmitted, Readable;
    var (t, reply) := StepTerminalize(env, s, call, Written);
    TerminalReadableExactly(env, Rec(s.records, c.executionID), c.effectID, c.phase.status, reply.digest);
    hide StepTerminalize;
    RepetitionAnswered(env, t, c, again, launch, request, action, fence, at, write);
  }

  /** How an exact repetition of an ended effect fares. */
  lemma RepetitionAnswered(env: Env, t: GateState, c: Call, again: nat, launch: Launch, request: Request,
                           action: Action, fence: Fence, at: Moment, write: Write)
    requires ExactRepetition(env, t, c, again, launch, request, action, fence, at) && c.path == PathOf(c.executionID)
    requires Rec(t.records, c.executionID).effects[c.effectID].state == Terminal
    requires Rec(t.records, c.executionID).effects[c.effectID].stableID == c.stableID
    ensures var (u, answer) := StepSubmit(env, t, again, launch, request, action, fence, at, write);
            var e := Rec(t.records, c.executionID).effects[c.effectID];
            var file := ResponsePath(c.stableID);
            && (answer == Replaying <==> Readable(env, Rec(t.records, c.executionID)))
            && (answer == Replaying && file in t.responses ==>
                  StepReadReplay(u, again, true).1 == Responded(e.status, t.responses[file], e.responseDigest))
            && (answer != Replaying ==> answer == Refused && Read(env, t.records, c.path).None?)
  {
    hide PathOf, ResponsePath, EffectAdmitted, Readable;
  }
}
