/** The Gate object. Each method is one section executed under the mutex (or, for
    the network call and the response file, between two of them); the parameters
    after the call's own arguments say how its writes and checks turn out. */
module ExecutionGate {
  import opened Common
  import opened ExecutionPlan
  import PlanPreparation
  import opened Gate

  /** A submitted effect from the network call to its end. */
  function Delivered(env: Env, s: GateState, call: nat, resolved: bool, revalidated: bool,
                     result: Option<(Status, Body)>, save: Write, finish: Write): (GateState, Reply)
  {
    var sent := StepSend(env, s, call, resolved, revalidated, result);
    if sent.1 != Accepted then sent
    else
      var saved := StepSave(sent.0, call, save);
      if saved.1 != Accepted then saved else StepTerminalize(env, saved.0, call, finish)
  }

  /** What happens after the submission, with nothing in between. */
  function Continued(env: Env, submitted: (GateState, Reply), call: nat, resolved: bool, revalidated: bool,
                     result: Option<(Status, Body)>, save: Write, finish: Write, readOk: bool): (GateState, Reply)
  {
    if submitted.1 == Replaying then StepReadReplay(submitted.0, call, readOk)
    else if submitted.1 != Accepted then submitted
    else Delivered(env, submitted.0, call, resolved, revalidated, result, save, finish)
  }

  class ExecutionGate {
    const env: Env
    var open: bool
    var records: map<string, File>
    var responses: map<string, Body>
    var calls: map<nat, Call>
    var replays: map<nat, Replay>
    ghost var sent: seq<(string, string)>
    ghost var answered: seq<Answer>

    ghost function View(): GateState
      reads this
    {
      GateState(open, records, responses, calls, replays, sent, answered)
    }

    constructor (env: Env)
      ensures this.env == env && View() == INITIAL
    {
      this.env := env;
      open, records, responses, calls, replays := false, map[], map[], map[], map[];
      sent, answered := [], [];
    }

    method Open(names: seq<string>, writes: seq<Write>) returns (reply: Reply)
      requires Listing(records, names)
      modifies this
      ensures (View(), reply) == StepOpen(env, old(View()), names, writes)
    {
      if open { return Refused; }
      var pending := writes;
      calls, replays := map[], map[];
      for i := 0 to |names|
        invariant !open && calls == map[] && replays == map[]
        invariant (responses, sent, answered) == old((responses, sent, answered))
        invariant Recover(env, records, names[i..], pending) == Recover(env, old(records), names, writes)
      {
        assert names[i..][0] == names[i] && names[i..][1..] == names[i + 1..];
        var entry := Read(env, records, names[i]);
        if entry.None? { return Refused; }
        var r := entry.value;
        if r.state == Starting {
          r := r.(state := AmbiguousStart);
        } else if r.state == Running {
          r := r.(state := AmbiguousRun);
        } else {
          continue;
        }
        r := r.(revision := r.revision + 1);
        var w := if pending == [] then Written else pending[0];
        records := Replace(records, names[i], r, w);
        if w != Written { return Refused; }
        pending := if pending == [] then [] else pending[1..];
      }
      assert names[|names|..] == [];
      open := true;
      reply := Accepted;
    }

    /** The process ends, with whatever was in flight. */
    method Stop()
      modifies this
      ensures View() == StepStop(old(View())).0
    {
      open, calls, replays := false, map[], map[];
    }

    method Prepare(plan: Plan, fence: Fence, lifetime: nat, action: Action, at: Moment, secret: Option<string>,
                   create: Create)
      returns (reply: Reply)
      modifies this
      ensures (View(), reply) == StepPrepare(env, old(View()), plan, fence, lifetime, action, at, secret, create)
    {
      hide PathOf, Readable, ExecutionPlan.Prepare;
      if !open || lifetime < 1_000_000_000 || lifetime > 300_000_000_000 { return Refused; }
      if !env.fenceOk(fence, "execution.prepare", at) { return Refused; }
      var result := PlanPreparation.PreparePlan(env.codec, plan, fence);
      if result.None? { return Refused; }
      var (prepared, digest) := result.value;
      if action.kind != "execution.prepare" || !env.prepareOk(action, prepared, fence, at) { return Refused; }
      var path := PathOf(prepared.executionID);
      if path in records {
        var existing := Read(env, records, path);
        if existing.None? { return Refused; }
        var r := existing.value;
        if r.planDigest != digest || r.prepareActionID != action.stableID
           || r.prepareRequestDigest != action.requestDigest {
          return Refused;
        }
        if r.state != Prepared { return Refused; }
        if Unix(at.now) >= r.startNotAfter { return Refused; }
        return Ticketed(TicketOf(r));
      }
      if secret.None? { return Refused; }
      var deadline := Unix(at.now + lifetime);
      if fence.expiresAt < deadline { deadline := fence.expiresAt; }
      if action.expiresAt < deadline { deadline := action.expiresAt; }
      var entry := Record(prepared, digest, secret.value, deadline, Prepared, 1, "",
                          action.stableID, action.requestDigest, "", "", map[]);
      match create {
        case CreateFailed => return Refused;
        case CreatedTorn => records := records[path := Torn]; return Refused;
        case CreatedUnsynced => records := records[path := Stored(entry)]; return Refused;
        case Created => records := records[path := Stored(entry)];
      }
      reply := Ticketed(TicketOf(entry));
    }

    method Start(ticket: Ticket, fence: Fence, action: Action, at: Moment, filesOk: bool, write: Write)
      returns (reply: Reply)
      modifies this
      ensures (View(), reply) == StepStart(env, old(View()), ticket, fence, action, at, filesOk, write)
    {
      hide PathOf, Readable;
      if !open || ticket.executionID == "" || ticket.secret == "" { return Refused; }
      if !env.fenceOk(fence, "execution.start", at) { return Refused; }
      var path := PathOf(ticket.executionID);
      var entry := Read(env, records, path);
      if entry.None? { return Refused; }
      var r := entry.value;
      if r.planDigest != ticket.planDigest || r.ticketSecret != ticket.secret || r.startNotAfter != ticket.startNotAfter
         || r.plan.writerGeneration != fence.writerGeneration {
        return Refused;
      }
      if action.kind != "execution.start" || !env.startOk(action, r.plan, ticket, fence, at) { return Refused; }
      if r.state == Starting || r.state == Running { return Refused; }
      if r.state != Prepared || Unix(at.now) >= r.startNotAfter { return Refused; }
      if !filesOk { return Refused; }
      r := r.(state := Starting, revision := r.revision + 1,
              startActionID := action.stableID, startRequestDigest := action.requestDigest);
      records := Replace(records, path, r, write);
      if write != Written { return Refused; }
      reply := Launching(Launch(r.plan.executionID, r.planDigest, r.ticketSecret, r.plan.leaseLossPolicy,
                                r.plan.files, r.plan.networks, r.plan.credentials, r.plan.effects));
    }

    method Transition(launch: Launch, expected: ExecState, next: ExecState, outcome: string, write: Write)
      returns (reply: Reply)
      modifies this
      ensures View() == StepTransition(env, old(View()), launch, expected, next, outcome, write).0
      ensures reply == StepTransition(env, old(View()), launch, expected, next, outcome, write).1
    {
      hide PathOf, Readable;
      if !open { return Refused; }
      var path := PathOf(launch.executionID);
      var entry := Read(env, records, path);
      if entry.None? || entry.value.planDigest != launch.planDigest || entry.value.ticketSecret != launch.ticketSecret
         || entry.value.state != expected {
        return Refused;
      }
      var r := entry.value;
      r := r.(state := next, revision := r.revision + 1, outcome := outcome);
      records := Replace(records, path, r, write);
      if write != Written { return Refused; }
      reply := Accepted;
    }

    method MarkRunning(launch: Launch, write: Write) returns (reply: Reply)
      modifies this
      ensures (View(), reply) == Step(env, old(View()), MarkRunningCall(launch, write))
    {
      reply := Transition(launch, Starting, Running, "", write);
    }

    method Complete(launch: Launch, terminal: ExecState, outcome: string, write: Write) returns (reply: Reply)
      modifies this
      ensures (View(), reply) == Step(env, old(View()), CompleteCall(launch, terminal, outcome, write))
    {
      if terminal != Succeeded && terminal != Failed && terminal != Cancelled && terminal != Killed { return Refused; }
      if terminal == Succeeded && !ValidDigest(outcome) { return Refused; }
      reply := Transition(launch, Running, terminal, outcome, write);
    }

    static method LookupEffect(es: seq<EffectBinding>, id: string) returns (r: Option<EffectBinding>)
      ensures r == FindEffect(es, id)
    {
      for i := 0 to |es|
        invariant FindEffect(es, id) == FindEffect(es[i..], id)
      {
        if es[i].planEffectID == id { return Some(es[i]); }
      }
      r := None;
    }

    static method LookupNetwork(ns: seq<NetworkBinding>, id: string) returns (r: Option<NetworkBinding>)
      ensures r == FindNetwork(ns, id)
    {
      for i := 0 to |ns|
        invariant FindNetwork(ns, id) == FindNetwork(ns[i..], id)
      {
        if ns[i].bindingID == id { return Some(ns[i]); }
      }
      r := None;
    }

    static method LookupCredential(cs: seq<CredentialBinding>, id: string) returns (r: Option<CredentialBinding>)
      ensures r == FindCredential(cs, id)
    {
      for i := 0 to |cs|
        invariant FindCredential(cs, id) == FindCredential(cs[i..], id)
      {
        if cs[i].handleID == id { return Some(cs[i]); }
      }
      r := None;
    }

    /** First locked section of an outbound effect. */
    method Submit(call: nat, launch: Launch, request: Request, action: Action, fence: Fence, at: Moment, write: Write)
      returns (reply: Reply)
      modifies this
      ensures (View(), reply) == StepSubmit(env, old(View()), call, launch, request, action, fence, at, write)
    {
      hide PathOf, Readable, ResponsePath;
      if !open || call in calls || call in replays { return Refused; }
      var path := PathOf(launch.executionID);
      var entry := Read(env, records, path);
      if entry.None? || entry.value.state != Running || entry.value.planDigest != launch.planDigest
         || entry.value.ticketSecret != launch.ticketSecret {
        return Refused;
      }
      var r := entry.value;
      var effect := LookupEffect(r.plan.effects, request.planEffectID);
      if effect.None? { return Refused; }
      var network := LookupNetwork(r.plan.networks, effect.value.networkBindingID);
      var credential := None;
      if effect.value.credentialHandleID != "" {
        credential := LookupCredential(r.plan.credentials, effect.value.credentialHandleID);
      }
      if network.None? || action.kind != "executor.effect" || !env.effectOk(action, r.plan, request, fence, at)
         || !env.requestOk(request, effect.value, network.value) {
        return Refused;
      }
      if request.planEffectID in r.effects {
        var prior := r.effects[request.planEffectID];
        if prior.stableID != action.stableID || prior.requestDigest != action.requestDigest { return Refused; }
        if prior.state != Terminal { return Refused; }
        replays := replays[call := Replay(r.plan.executionID, request.planEffectID, action.stableID,
                                          prior.status, prior.responseDigest)];
        return Replaying;
      }
      var submission := EffectRecord(action.stableID, action.requestDigest, Submitted, "", 0, 1);
      r := r.(effects := r.effects[request.planEffectID := submission], revision := r.revision + 1);
      records := Replace(records, path, r, write);
      if write != Written { return Refused; }
      calls := calls[call := Call(path, r.plan.executionID, request.planEffectID, action.stableID, credential, at.now,
                                  Unsent)];
      reply := Accepted;
    }

    /** The unlocked middle: credentials, last capability check, network call. */
    method Send(call: nat, resolved: bool, revalidated: bool, result: Option<(Status, Body)>) returns (reply: Reply)
      modifies this
      ensures (View(), reply) == StepSend(env, old(View()), call, resolved, revalidated, result)
    {
      if call !in calls || !calls[call].phase.Unsent? { return Refused; }
      var c := calls[call];
      if c.credential.Some? {
        if !resolved || Unix(c.now) >= c.credential.value.expiresAt {
          calls := calls - {call};
          return Refused;
        }
      }
      if !revalidated {
        calls := calls - {call};
        return Refused;
      }
      sent := sent + [(c.executionID, c.effectID)];
      if result.None? || env.responseDigest(result.value.0, result.value.1).None? {
        calls := calls - {call};
        return Refused;
      }
      calls := calls[call := c.(phase := Received(result.value.0, result.value.1))];
      reply := Accepted;
    }

    method WriteResponse(call: nat, write: Write) returns (reply: Reply)
      modifies this
      ensures (View(), reply) == StepSave(old(View()), call, write)
    {
      if call !in calls || !calls[call].phase.Received? { return Refused; }
      var c := calls[call];
      if write != FailedOld { responses := responses[ResponsePath(c.stableID) := c.phase.body]; }
      if write != Written {
        calls := calls - {call};
        return Refused;
      }
      calls := calls[call := c.(phase := Saved(c.phase.status, c.phase.body))];
      reply := Accepted;
    }

    /** The unlocked end of a replay. */
    method FinishReplay(call: nat, ok: bool) returns (reply: Reply)
      modifies this
      ensures (View(), reply) == StepReadReplay(old(View()), call, ok)
    {
      if call !in replays { return Refused; }
      var p := replays[call];
      replays := replays - {call};
      if !ok || ResponsePath(p.stableID) !in responses { return Refused; }
      var body := responses[ResponsePath(p.stableID)];
      answered := answered + [Answer(p.executionID, p.effectID, p.status, body, p.digest)];
      reply := Responded(p.status, body, p.digest);
    }

    /** Second locked section of an outbound effect. */
    method Terminalize(call: nat, write: Write) returns (reply: Reply)
      modifies this
      ensures (View(), reply) == StepTerminalize(env, old(View()), call, write)
    {
      if call !in calls || !calls[call].phase.Saved? { return Refused; }
      var c := calls[call];
      calls := calls - {call};
      var digest := env.responseDigest(c.phase.status, c.phase.body);
      var entry := Read(env, records, c.path);
      if entry.None? || c.effectID !in entry.value.effects || digest.None? { return Refused; }
      var r := entry.value;
      var prior := r.effects[c.effectID];
      if prior.state != Submitted || prior.stableID != c.stableID { return Refused; }
      prior := prior.(state := Terminal, responseDigest := digest.value, status := c.phase.status,
                      revision := prior.revision + 1);
      r := r.(effects := r.effects[c.effectID := prior], revision := r.revision + 1);
      records := Replace(records, c.path, r, write);
      if write != Written { return Refused; }
      answered := answered + [Answer(c.executionID, c.effectID, c.phase.status, c.phase.body, digest.value)];
      reply := Responded(c.phase.status, c.phase.body, digest.value);
    }

    method Deliver(call: nat, resolved: bool, revalidated: bool, result: Option<(Status, Body)>, save: Write,
                   finish: Write)
      returns (reply: Reply)
      modifies this
      ensures (View(), reply) == Delivered(env, old(View()), call, resolved, revalidated, result, save, finish)
    {
      hide StepSend, StepSave, StepTerminalize;
      reply := Send(call, resolved, revalidated, result);
      if reply != Accepted { return; }
      reply := WriteResponse(call, save);
      if reply != Accepted { return; }
      reply := Terminalize(call, finish);
    }

    /** The whole call when nothing interleaves with it: submission, network call,
        response file and second section, or the replay. */
    method PerformHTTPS(call: nat, launch: Launch, request: Request, action: Action, fence: Fence, at: Moment,
                        submit: Write, resolved: bool, revalidated: bool, result: Option<(Status, Body)>,
                        save: Write, finish: Write, readOk: bool)
      returns (reply: Reply)
      modifies this
      ensures (View(), reply)
           == Continued(env, StepSubmit(env, old(View()), call, launch, request, action, fence, at, submit),
                        call, resolved, revalidated, result, save, finish, readOk)
    {
      hide StepSubmit, StepReadReplay, Delivered;
      reply := Submit(call, launch, request, action, fence, at, submit);
      if reply == Replaying {
        reply := FinishReplay(call, readOk);
      } else if reply == Accepted {
        reply := Deliver(call, resolved, revalidated, result, save, finish);
      }
    }
  }
}
