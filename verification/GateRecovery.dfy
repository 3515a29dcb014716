/** When the Gate can be opened again. */
module GateRecovery {
  import opened Common
  import opened ExecutionPlan
  import opened Gate
  import opened GateInvariant
  import opened GateTheorems

  /** With no failing write, recovery succeeds exactly when it can read every
      listed record. */
  lemma {:induction false} RecoverSucceeds(env: Env, records: map<string, File>, names: seq<string>)
    requires forall i, j :: 0 <= i < j < |names| ==> names[i] != names[j]
    ensures Recover(env, records, names, []).1 <==> forall p :: p in names ==> Read(env, records, p).Some?
    decreases |names|
  {
    if names != [] && Read(env, records, names[0]).Some? {
      var r := Read(env, records, names[0]).value;
      var next := if Interrupted(r.state) then Replace(records, names[0], Recovered(r), Written) else records;
      RecoverSucceeds(env, next, names[1..]);
      forall p | p in names[1..] ensures Read(env, next, p) == Read(env, records, p) {
        var k :| 0 <= k < |names[1..]| && names[1..][k] == p;
        assert names[0] != names[k + 1];
      }
      assert names == [names[0]] + names[1..];
    }
  }

  /** Open succeeds if and only if every record file in the directory is readable;
      afterwards nothing is left starting or running. */
  lemma OpenSucceedsExactly(env: Env, events: seq<Event>, names: seq<string>)
    requires !Run(env, events).open && Listing(Run(env, events).records, names)
    ensures var s := Run(env, events);
            && (StepOpen(env, s, names, []).1 == Accepted <==>
                forall p :: p in s.records && RecordName(p) ==> Read(env, s.records, p).Some?)
            && (StepOpen(env, s, names, []).1 == Accepted ==>
                  forall p :: p in s.records && RecordName(p) ==> Settled(StepOpen(env, s, names, []).0.records, p))
  {
    var s := Run(env, events);
    RunKeeps(env, events);
    RecoverSucceeds(env, s.records, names);
    RecoverKeeps(env, s.records, names, []);
  }

  lemma {:induction false} RecoverSkips(env: Env, records: map<string, File>, names: seq<string>, writes: seq<Write>,
                                        p: string)
    requires p in records && Read(env, records, p).None?
    ensures p in Recover(env, records, names, writes).0 && Recover(env, records, names, writes).0[p] == records[p]
    ensures p in names ==> !Recover(env, records, names, writes).1
    decreases |names|
  {
    if names != [] && Read(env, records, names[0]).Some? {
      var r := Read(env, records, names[0]).value;
      if !Interrupted(r.state) {
        RecoverSkips(env, records, names[1..], writes, p);
      } else {
        var w := if writes == [] then Written else writes[0];
        var next := Replace(records, names[0], Recovered(r), w);
        if w == Written {
          RecoverSkips(env, next, names[1..], if writes == [] then [] else writes[1..], p);
        }
      }
    }
  }

  /** No operation touches a file it cannot read. */
  lemma StepSkips(env: Env, s: GateState, e: Event, p: string)
    requires p in s.records && Read(env, s.records, p).None?
    ensures p in Step(env, s, e).0.records && Step(env, s, e).0.records[p] == s.records[p]
    ensures e.Open? && RecordName(p) ==> Step(env, s, e).1 != Accepted
  {
    hide PathOf, Readable, StepPrepare, StepSubmit, StepTerminalize, Startable;
    match e
    case Open(names, writes) => RecoverSkips(env, s.records, names, writes, p);
    case PrepareCall(plan, fence, lifetime, action, at, secret, create) => PrepareSkips(env, s, e, p);
    case SubmitEffect(call, launch, request, action, fence, at, write) => SubmitSkips(env, s, e, p);
    case TerminalizeEffect(call, write) => TerminalizeSkips(env, s, call, write, p);
    case _ =>
  }

  lemma PrepareSkips(env: Env, s: GateState, e: Event, p: string)
    requires p in s.records && e.PrepareCall?
    ensures var t := StepPrepare(env, s, e.plan, e.fence, e.lifetime, e.action, e.at, e.secret, e.create).0;
            p in t.records && t.records[p] == s.records[p]
  {
    hide PathOf, Readable, Prepare;
  }

  lemma SubmitSkips(env: Env, s: GateState, e: Event, p: string)
    requires p in s.records && Read(env, s.records, p).None? && e.SubmitEffect?
    ensures var t := StepSubmit(env, s, e.call, e.launch, e.request, e.action, e.fence, e.at, e.write).0;
            p in t.records && t.records[p] == s.records[p]
  {
    hide PathOf, Readable, EffectAdmitted;
  }

  lemma TerminalizeSkips(env: Env, s: GateState, call: nat, write: Write, p: string)
    requires p in s.records && Read(env, s.records, p).None?
    ensures var t := StepTerminalize(env, s, call, write).0;
            p in t.records && t.records[p] == s.records[p]
  {
    hide PathOf, Readable;
  }

  /** A record file that cannot be read, such as one torn by a crash during its
      creation, stays exactly as it is, and no later Open succeeds. */
  lemma {:induction false} UnreadableBlocksForever(env: Env, events: seq<Event>, i: nat, j: nat, p: string)
    requires i <= j < |events| && RecordName(p)
    requires p in Run(env, events[..i]).records && Read(env, Run(env, events[..i]).records, p).None?
    ensures p in Run(env, events[..j]).records && Run(env, events[..j]).records[p] == Run(env, events[..i]).records[p]
    ensures events[j].Open? ==> ReplyAt(env, events, j) != Accepted
    decreases j
  {
    hide Step, RecordName, Readable;
    if i < j {
      UnreadableBlocksForever(env, events, i, j - 1, p);
      StepSkips(env, Run(env, events[..j - 1]), events[j - 1], p);
      RunNext(env, events, j - 1);
    }
    StepSkips(env, Run(env, events[..j]), events[j], p);
  }

  /** Such a file is reachable: one torn creation of a plan with a valid identity
      leaves one, whatever else the directory holds. */
  lemma TornCreationIsUnreadable(env: Env, s: GateState, e: Event)
    requires e.PrepareCall? && e.create == CreatedTorn && Step(env, s, e).0 != s
    requires ValidDigest(Prepare(env.codec, e.plan, e.fence).value.0.executionID)
    ensures exists p :: p in Step(env, s, e).0.records && RecordName(p) && Read(env, Step(env, s, e).0.records, p).None?
  {
    hide Readable, Prepare;
    var id := Prepare(env.codec, e.plan, e.fence).value.0.executionID;
    var p := PathOf(id);
    assert p[64..] == ".json";
    assert Step(env, s, e).0.records == s.records[p := Torn];
    assert p in Step(env, s, e).0.records && RecordName(p);
  }
}
