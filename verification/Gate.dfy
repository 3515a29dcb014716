/** The local execution Gate as a state machine. Every atomic section of every
    call is one step; the outcome of each durable write, of each authority check
    and of the network is part of the event, so a run is an arbitrary sequence of
    events: calls interleave freely between their sections, writes fail before or
    after taking effect, and the process may stop and reopen at any point. */
module Gate {
  import opened Common
  import opened ExecutionPlan

  datatype ExecState =
    | Prepared | Starting | Running | AmbiguousStart | AmbiguousRun
    | Succeeded | Failed | Cancelled | Killed

  datatype EffectState = Submitted | Terminal

  datatype EffectRecord = EffectRecord(
    stableID: string, requestDigest: string, state: EffectState,
    responseDigest: string, status: nat, revision: nat)

  datatype Record = Record(
    plan: Plan, planDigest: string, ticketSecret: string, startNotAfter: nat,
    state: ExecState, revision: nat, outcome: string,
    prepareActionID: string, prepareRequestDigest: string,
    startActionID: string, startRequestDigest: string,
    effects: map<string, EffectRecord>)

  /** A record file: fully written, or left half written by an exclusive create. */
  datatype File = Torn | Stored(rec: Record)

  type Body = seq<bv8>
  /** A three-digit HTTP status line. */
  type Status = n: nat | n < 1000

  datatype Action = Action(kind: string, stableID: string, requestDigest: string, expiresAt: nat)
  datatype Ticket = Ticket(executionID: string, secret: string, startNotAfter: nat, planDigest: string)
  datatype Launch = Launch(
    executionID: string, planDigest: string, ticketSecret: string, leaseLossPolicy: string,
    files: seq<FileBinding>, networks: seq<NetworkBinding>,
    credentials: seq<CredentialBinding>, effects: seq<EffectBinding>)
  datatype Request = Request(
    planEffectID: string, verb: string, pathAndQuery: string, headers: seq<(string, string)>, body: Body)

  /** Clock reading in nanoseconds, and the state of the writer authority. */
  datatype Moment = Moment(now: nat, authority: nat)

  /** Everything decided outside the Gate: encodings, digests, the writer fence
      and action checks, request syntax, and the record size limit. */
  datatype Env = Env(
    codec: Codec,
    fenceOk: (Fence, string, Moment) -> bool,
    prepareOk: (Action, Plan, Fence, Moment) -> bool,
    startOk: (Action, Plan, Ticket, Fence, Moment) -> bool,
    effectOk: (Action, Plan, Request, Fence, Moment) -> bool,
    requestOk: (Request, EffectBinding, NetworkBinding) -> bool,
    responseDigest: (nat, Body) -> Option<string>,
    fits: Record -> bool)

  /** How far an outbound call has come after its submission became durable. */
  datatype Phase = Unsent | Received(status: Status, body: Body) | Saved(status: Status, body: Body)
  datatype Call = Call(
    path: string, executionID: string, effectID: string, stableID: string,
    credential: Option<CredentialBinding>, now: nat, phase: Phase)

  /** A repeated request that found its effect terminal; the response file is read
      after the lock was released. */
  datatype Replay = Replay(executionID: string, effectID: string, stableID: string, status: nat, digest: string)

  datatype Answer = Answer(executionID: string, effectID: string, status: nat, body: Body, digest: string)

  /** Durable files, the calls and replays in flight, the network calls made so
      far, and the responses handed back. */
  datatype GateState = GateState(
    open: bool, records: map<string, File>, responses: map<string, Body>, calls: map<nat, Call>,
    replays: map<nat, Replay>, sent: seq<(string, string)>, answered: seq<Answer>)

  datatype Create = Created | CreateFailed | CreatedUnsynced | CreatedTorn

  datatype Reply =
    | Refused
    | Accepted
    | Ticketed(ticket: Ticket)
    | Launching(launch: Launch)
    | Replaying
    | Responded(status: nat, body: Body, digest: string)

  datatype Event =
    | Open(names: seq<string>, writes: seq<Write>)
    | Stop
    | PrepareCall(plan: Plan, fence: Fence, lifetime: nat, action: Action, at: Moment, secret: Option<string>,
                  create: Create)
    | StartCall(ticket: Ticket, fence: Fence, action: Action, at: Moment, filesOk: bool, write: Write)
    | MarkRunningCall(launch: Launch, write: Write)
    | CompleteCall(launch: Launch, terminal: ExecState, outcome: string, write: Write)
    | SubmitEffect(call: nat, launch: Launch, request: Request, action: Action, fence: Fence, at: Moment, write: Write)
    | SendEffect(call: nat, resolved: bool, revalidated: bool, result: Option<(Status, Body)>)
    | SaveResponse(call: nat, write: Write)
    | TerminalizeEffect(call: nat, write: Write)
    | ReadReplay(call: nat, ok: bool)

  // ------------------------------------------------------------ record files

  function PathOf(id: string): string {
    if ValidDigest(id) then id[7..] + ".json" else "invalid"
  }

  predicate RecordName(name: string) {
    |name| == 69 && name[64..] == ".json"
  }

  function ResponsePath(stableID: string): string {
    "effect-" + (if "sha256:" <= stableID then stableID[7..] else stableID) + ".response"
  }

  predicate ValidEffect(id: string, e: EffectRecord) {
    && id != "" && ValidDigest(e.stableID) && ValidDigest(e.requestDigest) && e.revision != 0
    && (e.state == Terminal ==> ValidDigest(e.responseDigest) && e.status != 0)
  }

  predicate Readable(env: Env, r: Record) {
    && env.fits(r) && r.revision != 0
    && ValidDigest(r.prepareActionID) && ValidDigest(r.prepareRequestDigest)
    && (r.startActionID == "" <==> r.startRequestDigest == "")
    && (r.startActionID != "" ==> ValidDigest(r.startActionID) && ValidDigest(r.startRequestDigest))
    && forall id :: id in r.effects ==> ValidEffect(id, r.effects[id])
  }

  function Read(env: Env, records: map<string, File>, path: string): Option<Record> {
    if path in records && records[path].Stored? && Readable(env, records[path].rec)
    then Some(records[path].rec) else None
  }

  function Replace(records: map<string, File>, path: string, r: Record, w: Write): map<string, File> {
    if w == FailedOld then records else records[path := Stored(r)]
  }

  function Unix(nanoseconds: nat): nat { nanoseconds / 1_000_000_000 }

  function Min(a: nat, b: nat): nat { if a < b then a else b }

  function TicketOf(r: Record): Ticket {
    Ticket(r.plan.executionID, r.ticketSecret, r.startNotAfter, r.planDigest)
  }

  function LaunchOf(r: Record): Launch {
    Launch(r.plan.executionID, r.planDigest, r.ticketSecret, r.plan.leaseLossPolicy,
           r.plan.files, r.plan.networks, r.plan.credentials, r.plan.effects)
  }

  function FindEffect(es: seq<EffectBinding>, id: string): (r: Option<EffectBinding>)
    ensures r.Some? ==> r.value in es && r.value.planEffectID == id
  {
    if es == [] then None else if es[0].planEffectID == id then Some(es[0]) else FindEffect(es[1..], id)
  }

  function FindNetwork(ns: seq<NetworkBinding>, id: string): Option<NetworkBinding> {
    if ns == [] then None else if ns[0].bindingID == id then Some(ns[0]) else FindNetwork(ns[1..], id)
  }

  function FindCredential(cs: seq<CredentialBinding>, id: string): Option<CredentialBinding> {
    if cs == [] then None else if cs[0].handleID == id then Some(cs[0]) else FindCredential(cs[1..], id)
  }

  // ------------------------------------------------------------------- steps

  const INITIAL := GateState(false, map[], map[], map[], map[], [], [])

  /** A directory listing: each record file once, in any order. */
  ghost predicate Listing(records: map<string, File>, names: seq<string>) {
    && (forall i, j :: 0 <= i < j < |names| ==> names[i] != names[j])
    && (forall p :: p in names <==> p in records && RecordName(p))
  }

  predicate Interrupted(st: ExecState) { st == Starting || st == Running }

  function Recovered(r: Record): Record {
    r.(state := if r.state == Starting then AmbiguousStart else AmbiguousRun, revision := r.revision + 1)
  }

  /** Recovery visits the listed files in turn and stops at the first one it
      cannot read or rewrite. Missing entries of `writes` succeed. */
  function Recover(env: Env, records: map<string, File>, names: seq<string>, writes: seq<Write>)
    : (map<string, File>, bool)
  {
    if names == [] then (records, true)
    else
      match Read(env, records, names[0])
      case None => (records, false)
      case Some(r) =>
        if !Interrupted(r.state) then Recover(env, records, names[1..], writes)
        else
          var w := if writes == [] then Written else writes[0];
          var next := Replace(records, names[0], Recovered(r), w);
          if w != Written then (next, false)
          else Recover(env, next, names[1..], if writes == [] then [] else writes[1..])
  }

  ghost function StepOpen(env: Env, s: GateState, names: seq<string>, writes: seq<Write>): (GateState, Reply) {
    if s.open || !Listing(s.records, names) then (s, Refused)
    else
      var (records, ok) := Recover(env, s.records, names, writes);
      (s.(open := ok, records := records, calls := map[], replays := map[]), if ok then Accepted else Refused)
  }

  function StepStop(s: GateState): (GateState, Reply) {
    (s.(open := false, calls := map[], replays := map[]), Accepted)
  }

  function NewRecord(prepared: Plan, digest: string, secret: string, deadline: nat, action: Action): Record {
    Record(prepared, digest, secret, deadline, Prepared, 1, "", action.stableID, action.requestDigest, "", "", map[])
  }

  ghost function StepPrepare(env: Env, s: GateState, plan: Plan, fence: Fence, lifetime: nat, action: Action,
                             at: Moment, secret: Option<string>, create: Create): (GateState, Reply)
  {
    if !s.open || lifetime < 1_000_000_000 || lifetime > 300_000_000_000 || !env.fenceOk(fence, "execution.prepare", at)
    then (s, Refused)
    else
      match Prepare(env.codec, plan, fence)
      case None => (s, Refused)
      case Some((prepared, digest)) =>
        var path := PathOf(prepared.executionID);
        if action.kind != "execution.prepare" || !env.prepareOk(action, prepared, fence, at) then (s, Refused)
        else if path in s.records then
          (s, match Read(env, s.records, path)
              case None => Refused
              case Some(r) =>
                if r.planDigest == digest && r.prepareActionID == action.stableID
                   && r.prepareRequestDigest == action.requestDigest
                   && r.state == Prepared && Unix(at.now) < r.startNotAfter
                then Ticketed(TicketOf(r)) else Refused)
        else if secret.None? then (s, Refused)
        else
          var deadline := Min(Min(Unix(at.now + lifetime), fence.expiresAt), action.expiresAt);
          var r := NewRecord(prepared, digest, secret.value, deadline, action);
          match create
          case Created => (s.(records := s.records[path := Stored(r)]), Ticketed(TicketOf(r)))
          case CreateFailed => (s, Refused)
          case CreatedUnsynced => (s.(records := s.records[path := Stored(r)]), Refused)
          case CreatedTorn => (s.(records := s.records[path := Torn]), Refused)
  }

  predicate Startable(env: Env, r: Record, ticket: Ticket, fence: Fence, action: Action, at: Moment) {
    && r.planDigest == ticket.planDigest && r.ticketSecret == ticket.secret && r.startNotAfter == ticket.startNotAfter
    && r.plan.writerGeneration == fence.writerGeneration
    && action.kind == "execution.start" && env.startOk(action, r.plan, ticket, fence, at)
    && r.state == Prepared && Unix(at.now) < r.startNotAfter
  }

  function Started(r: Record, action: Action): Record {
    r.(state := Starting, revision := r.revision + 1,
       startActionID := action.stableID, startRequestDigest := action.requestDigest)
  }

  function StepStart(env: Env, s: GateState, ticket: Ticket, fence: Fence, action: Action, at: Moment,
                     filesOk: bool, write: Write): (GateState, Reply)
  {
    var path := PathOf(ticket.executionID);
    if !s.open || ticket.executionID == "" || ticket.secret == "" || !env.fenceOk(fence, "execution.start", at)
    then (s, Refused)
    else
      match Read(env, s.records, path)
      case None => (s, Refused)
      case Some(r) =>
        if !Startable(env, r, ticket, fence, action, at) || !filesOk then (s, Refused)
        else
          var next := Started(r, action);
          var t := s.(records := Replace(s.records, path, next, write));
          (t, if write == Written then Launching(LaunchOf(next)) else Refused)
  }

  function Moved(r: Record, next: ExecState, outcome: string): Record {
    r.(state := next, revision := r.revision + 1, outcome := outcome)
  }

  function StepTransition(env: Env, s: GateState, launch: Launch, expected: ExecState, next: ExecState,
                          outcome: string, write: Write): (GateState, Reply)
  {
    var path := PathOf(launch.executionID);
    if !s.open then (s, Refused)
    else
      match Read(env, s.records, path)
      case None => (s, Refused)
      case Some(r) =>
        if r.planDigest != launch.planDigest || r.ticketSecret != launch.ticketSecret || r.state != expected
        then (s, Refused)
        else (s.(records := Replace(s.records, path, Moved(r, next, outcome), write)),
              if write == Written then Accepted else Refused)
  }

  predicate TerminalState(st: ExecState) {
    st == Succeeded || st == Failed || st == Cancelled || st == Killed
  }

  function StepComplete(env: Env, s: GateState, launch: Launch, terminal: ExecState, outcome: string,
                        write: Write): (GateState, Reply) {
    if !TerminalState(terminal) || (terminal == Succeeded && !ValidDigest(outcome)) then (s, Refused)
    else StepTransition(env, s, launch, Running, terminal, outcome, write)
  }

  function WithSubmission(r: Record, effectID: string, action: Action): Record {
    r.(effects := r.effects[effectID := EffectRecord(action.stableID, action.requestDigest, Submitted, "", 0, 1)],
       revision := r.revision + 1)
  }

  /** The request names a planned effect over a planned network, currently authorised. */
  predicate EffectAdmitted(env: Env, r: Record, request: Request, action: Action, fence: Fence, at: Moment) {
    var effect := FindEffect(r.plan.effects, request.planEffectID);
    && effect.Some?
    && var network := FindNetwork(r.plan.networks, effect.value.networkBindingID);
    && network.Some?
    && action.kind == "executor.effect" && env.effectOk(action, r.plan, request, fence, at)
    && env.requestOk(request, effect.value, network.value)
  }

  function CredentialFor(p: Plan, effectID: string): Option<CredentialBinding> {
    var effect := FindEffect(p.effects, effectID);
    if effect.None? || effect.value.credentialHandleID == "" then None
    else FindCredential(p.credentials, effect.value.credentialHandleID)
  }

  /** The request repeats a submitted effect exactly, and the effect has ended. */
  predicate Repeats(prior: EffectRecord, action: Action) {
    prior.stableID == action.stableID && prior.requestDigest == action.requestDigest && prior.state == Terminal
  }

  function StepSubmit(env: Env, s: GateState, call: nat, launch: Launch, request: Request, action: Action,
                      fence: Fence, at: Moment, write: Write): (GateState, Reply)
  {
    var path := PathOf(launch.executionID);
    if !s.open || call in s.calls || call in s.replays then (s, Refused)
    else
      match Read(env, s.records, path)
      case None => (s, Refused)
      case Some(r) =>
        if r.state != Running || r.planDigest != launch.planDigest || r.ticketSecret != launch.ticketSecret
           || !EffectAdmitted(env, r, request, action, fence, at)
        then (s, Refused)
        else if request.planEffectID in r.effects then
          var prior := r.effects[request.planEffectID];
          if !Repeats(prior, action) then (s, Refused)
          else
            var replay := Replay(r.plan.executionID, request.planEffectID, action.stableID,
                                 prior.status, prior.responseDigest);
            (s.(replays := s.replays[call := replay]), Replaying)
        else
          var t := s.(records := Replace(s.records, path, WithSubmission(r, request.planEffectID, action), write));
          if write != Written then (t, Refused)
          else
            var c := Call(path, r.plan.executionID, request.planEffectID, action.stableID,
                          CredentialFor(r.plan, request.planEffectID), at.now, Unsent);
            (t.(calls := s.calls[call := c]), Accepted)
  }

  /** Credentials and the final capability check, then the one network call. */
  function StepSend(env: Env, s: GateState, call: nat, resolved: bool, revalidated: bool,
                    result: Option<(Status, Body)>): (GateState, Reply)
  {
    if call !in s.calls || !s.calls[call].phase.Unsent? then (s, Refused)
    else
      var c := s.calls[call];
      if c.credential.Some? && (!resolved || Unix(c.now) >= c.credential.value.expiresAt)
          then (s.(calls := s.calls - {call}), Refused)
      else if !revalidated then (s.(calls := s.calls - {call}), Refused)
      else
        var t := s.(sent := s.sent + [(c.executionID, c.effectID)]);
        if result.None? || env.responseDigest(result.value.0, result.value.1).None?
        then (t.(calls := s.calls - {call}), Refused)
        else (t.(calls := s.calls[call := c.(phase := Received(result.value.0, result.value.1))]), Accepted)
  }

  function StepSave(s: GateState, call: nat, write: Write): (GateState, Reply) {
    if call !in s.calls || !s.calls[call].phase.Received? then (s, Refused)
    else
      var c := s.calls[call];
      var responses := if write == FailedOld then s.responses
          else s.responses[ResponsePath(c.stableID) := c.phase.body];
      if write != Written then (s.(responses := responses, calls := s.calls - {call}), Refused)
      else (s.(responses := responses, calls := s.calls[call := c.(phase := Saved(c.phase.status, c.phase.body))]),
            Accepted)
  }

  function WithTerminal(r: Record, effectID: string, status: nat, digest: string): Record
    requires effectID in r.effects
  {
    var prior := r.effects[effectID];
    r.(effects := r.effects[effectID := prior.(state := Terminal, responseDigest := digest, status := status,
                                               revision := prior.revision + 1)],
       revision := r.revision + 1)
  }

  /** The second locked section: it does not look at the execution state again. */
  function StepTerminalize(env: Env, s: GateState, call: nat, write: Write): (GateState, Reply) {
    if call !in s.calls || !s.calls[call].phase.Saved? then (s, Refused)
    else
      var c := s.calls[call];
      var ended := s.(calls := s.calls - {call});
      var digest := env.responseDigest(c.phase.status, c.phase.body);
      match Read(env, s.records, c.path)
      case None => (ended, Refused)
      case Some(r) =>
        if c.effectID !in r.effects || r.effects[c.effectID].state != Submitted
           || r.effects[c.effectID].stableID != c.stableID || digest.None?
        then (ended, Refused)
        else
          var t := ended.(records := Replace(s.records, c.path,
                                             WithTerminal(r, c.effectID, c.phase.status, digest.value), write));
          if write != Written then (t, Refused)
          else (t.(answered := s.answered
                   + [Answer(c.executionID, c.effectID, c.phase.status, c.phase.body, digest.value)]),
                Responded(c.phase.status, c.phase.body, digest.value))
  }

  /** The unlocked end of a replay: whatever the response file holds by now. */
  function StepReadReplay(s: GateState, call: nat, ok: bool): (GateState, Reply) {
    if call !in s.replays then (s, Refused)
    else
      var p := s.replays[call];
      var ended := s.(replays := s.replays - {call});
      var path := ResponsePath(p.stableID);
      if !ok || path !in s.responses then (ended, Refused)
      else (ended.(answered := s.answered + [Answer(p.executionID, p.effectID, p.status, s.responses[path], p.digest)]),
            Responded(p.status, s.responses[path], p.digest))
  }

  ghost function Step(env: Env, s: GateState, e: Event): (GateState, Reply) {
    match e
    case Open(names, writes) => StepOpen(env, s, names, writes)
    case Stop => StepStop(s)
    case PrepareCall(plan, fence, lifetime, action, at, secret, create) =>
      StepPrepare(env, s, plan, fence, lifetime, action, at, secret, create)
    case StartCall(ticket, fence, action, at, filesOk, write) =>
      StepStart(env, s, ticket, fence, action, at, filesOk, write)
    case MarkRunningCall(launch, write) => StepTransition(env, s, launch, Starting, Running, "", write)
    case CompleteCall(launch, terminal, outcome, write) => StepComplete(env, s, launch, terminal, outcome, write)
    case SubmitEffect(call, launch, request, action, fence, at, write) =>
      StepSubmit(env, s, call, launch, request, action, fence, at, write)
    case SendEffect(call, resolved, revalidated, result) => StepSend(env, s, call, resolved, revalidated, result)
    case SaveResponse(call, write) => StepSave(s, call, write)
    case TerminalizeEffect(call, write) => StepTerminalize(env, s, call, write)
    case ReadReplay(call, ok) => StepReadReplay(s, call, ok)
  }

  /** The state after any sequence of events, starting from an empty directory. */
  ghost function Run(env: Env, events: seq<Event>): GateState {
    if events == [] then INITIAL else Step(env, Run(env, events[..|events| - 1]), events[|events| - 1]).0
  }

  /** What the caller of event `k` of a run gets back. */
  ghost function ReplyAt(env: Env, events: seq<Event>, k: nat): Reply
    requires k < |events|
  {
    Step(env, Run(env, events[..k]), events[k]).1
  }
}
