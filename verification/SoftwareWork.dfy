/** The at-most-once runner: a durable claim, one call to the executor, a durable
    completion. Calls interleave between their sections, claims and completions may
    fail, and the process may stop and reopen at any point. */
module SoftwareWork {
  import opened Common

  type Bytes = seq<bv8>

  datatype Contract = Contract(manifestDigest: string, toolchainDigest: string, sandboxDigest: string, diskBytes: nat)
  datatype Request = Request(quote: string, executionID: string, inputDigest: string, sourceDigest: string,
                             archive: Bytes)
  datatype Outcome = Outcome(
    quote: string, executionID: string, inputDigest: string, resultDigest: string, artifact: string, report: string,
    sourceDigest: string, toolchainDigest: string, sandboxDigest: string, completedAt: nat)

  /** What a successful execution, with its stored report and artifact, yields. */
  datatype Work = Work(resultDigest: string, artifact: string, report: string, completedAt: nat)

  datatype Progress = Running | Complete
  datatype Record = Record(fingerprint: string, progress: Progress, outcome: Option<Outcome>)
  datatype File = Torn | Stored(rec: Record)

  datatype Phase = Leased | Built(outcome: Outcome)
  datatype Call = Call(contract: Contract, request: Request, fingerprint: string, phase: Phase)

  /** The journal directory, calls holding a lease, and the history of executor
      calls and of returned outcomes. */
  datatype WorkState = WorkState(
    open: bool, files: map<string, File>, calls: map<nat, Call>,
    executed: seq<string>, returned: seq<(string, Outcome)>)

  datatype Env = Env(
    fingerprint: (string, string, string, string, string) -> string,
    digest: Bytes -> string,
    fits: Record -> bool)

  /** An exclusive create: granted, undone, or an error (or the process ending)
      that leaves a half-written or a complete claim behind. */
  datatype Claim = Claimed | ClaimUndone | ClaimLeftTorn | ClaimLeft

  datatype Reply = Refused | Accepted | Returned(outcome: Outcome)

  datatype Event =
    | Open
    | Stop
    | Begin(call: nat, contract: Contract, request: Request, claim: Claim)
    | Execute(call: nat, work: Option<Work>)
    | Finish(call: nat, write: Write)

  predicate QuotePattern(s: string) { |s| == 80 && s[..16] == "tvm-cell-sha256:" && LowerHex(s[16..]) }

  predicate RequestOk(env: Env, c: Contract, r: Request) {
    && QuotePattern(r.quote) && DigestPattern(r.executionID) && DigestPattern(r.inputDigest)
    && DigestPattern(r.sourceDigest)
    && env.digest(r.archive) == r.sourceDigest && |r.archive| <= c.diskBytes
  }

  function FingerprintOf(env: Env, c: Contract, r: Request): string {
    env.fingerprint(c.manifestDigest, r.quote, r.executionID, r.inputDigest, r.sourceDigest)
  }

  function Read(env: Env, files: map<string, File>, id: string): Option<Record> {
    if id in files && files[id].Stored? && env.fits(files[id].rec) && DigestPattern(files[id].rec.fingerprint)
    then Some(files[id].rec) else None
  }

  function OutcomeOf(c: Contract, r: Request, w: Work): Outcome {
    Outcome(r.quote, r.executionID, r.inputDigest, w.resultDigest, w.artifact, w.report,
            r.sourceDigest, c.toolchainDigest, c.sandboxDigest, w.completedAt)
  }

  function Claiming(fingerprint: string): Record { Record(fingerprint, Running, None) }

  function StepBegin(env: Env, s: WorkState, call: nat, c: Contract, r: Request, claim: Claim): (WorkState, Reply) {
    var fp := FingerprintOf(env, c, r);
    if !s.open || call in s.calls || !RequestOk(env, c, r) || !DigestPattern(fp) then (s, Refused)
    else if r.executionID in s.files then
      match Read(env, s.files, r.executionID)
      case None => (s, Refused)
      case Some(rec) =>
        if rec.fingerprint == fp && rec.progress == Complete && rec.outcome.Some?
        then (s.(returned := s.returned + [(r.executionID, rec.outcome.value)]), Returned(rec.outcome.value))
        else (s, Refused)
    else
      match claim
      case ClaimUndone => (s, Refused)
      case ClaimLeftTorn => (s.(files := s.files[r.executionID := Torn]), Refused)
      case ClaimLeft => (s.(files := s.files[r.executionID := Stored(Claiming(fp))]), Refused)
      case Claimed => (s.(files := s.files[r.executionID := Stored(Claiming(fp))],
                          calls := s.calls[call := Call(c, r, fp, Leased)]), Accepted)
  }

  /** The one call to the executor, and the storing of its results. */
  function StepExecute(s: WorkState, call: nat, work: Option<Work>): (WorkState, Reply) {
    if call !in s.calls || !s.calls[call].phase.Leased? then (s, Refused)
    else
      var c := s.calls[call];
      var t := s.(executed := s.executed + [c.request.executionID]);
      if work.None? then (t.(calls := s.calls - {call}), Refused)
      else (t.(calls := s.calls[call := c.(phase := Built(OutcomeOf(c.contract, c.request, work.value)))]), Accepted)
  }

  function StepFinish(env: Env, s: WorkState, call: nat, write: Write): (WorkState, Reply) {
    if call !in s.calls || !s.calls[call].phase.Built? then (s, Refused)
    else
      var c := s.calls[call];
      var id := c.request.executionID;
      var ended := s.(calls := s.calls - {call});
      match Read(env, s.files, id)
      case None => (ended, Refused)
      case Some(rec) =>
        if rec.fingerprint != c.fingerprint || rec.progress != Running then (ended, Refused)
        else
          var next := Record(c.fingerprint, Complete, Some(c.phase.outcome));
          var files := if write == FailedOld then s.files else s.files[id := Stored(next)];
          if write != Written then (ended.(files := files), Refused)
          else (ended.(files := files, returned := s.returned + [(id, c.phase.outcome)]), Returned(c.phase.outcome))
  }

  function Step(env: Env, s: WorkState, e: Event): (WorkState, Reply) {
    match e
    case Open => if s.open then (s, Refused) else (s.(open := true), Accepted)
    case Stop => (s.(open := false, calls := map[]), Accepted)
    case Begin(call, c, r, claim) => StepBegin(env, s, call, c, r, claim)
    case Execute(call, work) => StepExecute(s, call, work)
    case Finish(call, write) => StepFinish(env, s, call, write)
  }

  const INITIAL := WorkState(false, map[], map[], [], [])

  function Run(env: Env, events: seq<Event>): WorkState {
    if events == [] then INITIAL else Step(env, Run(env, events[..|events| - 1]), events[|events| - 1]).0
  }

  function ReplyAt(env: Env, events: seq<Event>, k: nat): Reply
    requires k < |events|
  {
    Step(env, Run(env, events[..k]), events[k]).1
  }

  // ---------------------------------------------------------------- invariant

  ghost predicate FileInv(f: File) {
    f.Stored? && f.rec.progress == Complete ==> f.rec.outcome.Some?
  }

  ghost predicate CallInv(s: WorkState, c: Call) {
    && c.request.executionID in s.files && s.files[c.request.executionID] == Stored(Claiming(c.fingerprint))
    && (c.phase.Leased? ==> c.request.executionID !in s.executed)
  }

  ghost predicate Inv(s: WorkState) {
    && (forall id :: id in s.files ==> FileInv(s.files[id]))
    && (forall i :: i in s.calls ==> CallInv(s, s.calls[i]))
    && (forall i, j :: i in s.calls && j in s.calls && i != j ==>
        s.calls[i].request.executionID != s.calls[j].request.executionID)
    && (forall i :: 0 <= i < |s.executed| ==> s.executed[i] in s.files)
    && (forall i, j :: 0 <= i < j < |s.executed| ==> s.executed[i] != s.executed[j])
    && (forall i :: 0 <= i < |s.returned| ==> Kept(s.files, s.returned[i].0, s.returned[i].1))
  }

  ghost predicate Kept(files: map<string, File>, id: string, o: Outcome) {
    id in files && files[id].Stored? && files[id].rec.progress == Complete && files[id].rec.outcome == Some(o)
  }

  /** A completed record is final, and a claim only ever completes. */
  ghost predicate Grows(before: map<string, File>, after: map<string, File>) {
    forall id :: id in before ==>
      (&& id in after
       && (|| after[id] == before[id]
           || (&& before[id].Stored? && before[id].rec.progress == Running
               && after[id].Stored? && after[id].rec.progress == Complete
               && after[id].rec.fingerprint == before[id].rec.fingerprint)))
  }

  lemma BeginGrows(env: Env, s: WorkState, call: nat, c: Contract, r: Request, claim: Claim)
    ensures Grows(s.files, StepBegin(env, s, call, c, r, claim).0.files)
  {
    hide RequestOk, DigestPattern, FingerprintOf;
  }

  lemma BeginKeeps(env: Env, s: WorkState, call: nat, c: Contract, r: Request, claim: Claim)
    requires Inv(s)
    ensures Inv(StepBegin(env, s, call, c, r, claim).0)
            && Grows(s.files, StepBegin(env, s, call, c, r, claim).0.files)
  {
    hide RequestOk, DigestPattern, FingerprintOf, Grows;
    BeginGrows(env, s, call, c, r, claim);
    var t := StepBegin(env, s, call, c, r, claim).0;
    forall i | i in t.calls ensures CallInv(t, t.calls[i]) {
      if i in s.calls { assert CallInv(s, s.calls[i]); }
    }
  }

  lemma ExecuteKeeps(env: Env, s: WorkState, call: nat, work: Option<Work>)
    requires Inv(s)
    ensures Inv(StepExecute(s, call, work).0) && Grows(s.files, StepExecute(s, call, work).0.files)
  {
    hide FileInv, Kept, OutcomeOf;
    if call in s.calls && s.calls[call].phase.Leased? {
      var t := StepExecute(s, call, work).0;
      assert CallInv(s, s.calls[call]);
      forall i | i in t.calls ensures CallInv(t, t.calls[i]) {
        assert CallInv(s, s.calls[i]);
      }
    }
  }

  lemma FinishGrows(env: Env, s: WorkState, call: nat, write: Write)
    ensures Grows(s.files, StepFinish(env, s, call, write).0.files)
  {
  }

  lemma FinishKeeps(env: Env, s: WorkState, call: nat, write: Write)
    requires Inv(s)
    ensures Inv(StepFinish(env, s, call, write).0) && Grows(s.files, StepFinish(env, s, call, write).0.files)
  {
    hide DigestPattern, Grows, FingerprintOf;
    FinishGrows(env, s, call, write);
    if call in s.calls {
      var t := StepFinish(env, s, call, write).0;
      assert CallInv(s, s.calls[call]);
      forall i | i in t.calls ensures CallInv(t, t.calls[i]) {
        assert CallInv(s, s.calls[i]);
      }
      forall i | 0 <= i < |t.returned| ensures Kept(t.files, t.returned[i].0, t.returned[i].1) {
        if i < |s.returned| { assert Kept(s.files, s.returned[i].0, s.returned[i].1); }
      }
    }
  }

  lemma StepKeeps(env: Env, s: WorkState, e: Event)
    requires Inv(s)
    ensures Inv(Step(env, s, e).0) && Grows(s.files, Step(env, s, e).0.files)
  {
    match e
    case Open =>
    case Stop =>
    case Begin(call, c, r, claim) => BeginKeeps(env, s, call, c, r, claim);
    case Execute(call, work) => ExecuteKeeps(env, s, call, work);
    case Finish(call, write) => FinishKeeps(env, s, call, write);
  }

  lemma {:induction false} RunKeeps(env: Env, events: seq<Event>)
    ensures Inv(Run(env, events))
  {
    if events != [] {
      RunKeeps(env, events[..|events| - 1]);
      StepKeeps(env, Run(env, events[..|events| - 1]), events[|events| - 1]);
    }
  }

  // ----------------------------------------------------------------- theorems

  /** Over every run, with crashes and reopened journals, the executor is called
      at most once per execution identity. */
  lemma AtMostOneExecution(env: Env, events: seq<Event>, i: nat, j: nat)
    requires i < j < |Run(env, events).executed|
    ensures Run(env, events).executed[i] != Run(env, events).executed[j]
  {
    RunKeeps(env, events);
  }

  /** Every outcome ever returned for one execution, by the call that produced it
      or by a later one, is the same. */
  lemma OutcomesAgree(env: Env, events: seq<Event>, i: nat, j: nat)
    requires i < j < |Run(env, events).returned| && Run(env, events).returned[i].0 == Run(env, events).returned[j].0
    ensures Run(env, events).returned[i].1 == Run(env, events).returned[j].1
  {
    RunKeeps(env, events);
    var s := Run(env, events);
    assert Kept(s.files, s.returned[i].0, s.returned[i].1) && Kept(s.files, s.returned[j].0, s.returned[j].1);
  }

  lemma {:induction false} CompletedIsFinal(env: Env, events: seq<Event>, i: nat, j: nat, id: string)
    requires i <= j <= |events| && id in Run(env, events[..i]).files && Run(env, events[..i]).files[id].Stored?
    requires Run(env, events[..i]).files[id].rec.progress == Complete
    ensures id in Run(env, events[..j]).files && Run(env, events[..j]).files[id] == Run(env, events[..i]).files[id]
    decreases j
  {
    hide Step, Inv;
    if i < j {
      CompletedIsFinal(env, events, i, j - 1, id);
      RunKeeps(env, events[..j - 1]);
      StepKeeps(env, Run(env, events[..j - 1]), events[j - 1]);
      assert events[..j][..j - 1] == events[..j - 1];
    }
  }

  // ----------------------------------------------------- where outcomes come from

  /** The outcome carries the identifiers of this request. */
  predicate Carries(o: Outcome, r: Request) {
    (o.quote, o.executionID, o.inputDigest, o.sourceDigest) == (r.quote, r.executionID, r.inputDigest, r.sourceDigest)
  }

  /** The outcome and fingerprint belong to the request this event began. */
  predicate MadeBy(env: Env, e: Event, fingerprint: string, o: Outcome) {
    e.Begin? && FingerprintOf(env, e.contract, e.request) == fingerprint && Carries(o, e.request)
  }

  ghost predicate FileTraced(env: Env, events: seq<Event>, n: nat, f: File)
    requires n <= |events|
  {
    f.Stored? && f.rec.progress == Complete && f.rec.outcome.Some? ==>
      exists k :: 0 <= k < n && MadeBy(env, events[k], f.rec.fingerprint, f.rec.outcome.value)
  }

  ghost predicate CallTraced(env: Env, events: seq<Event>, n: nat, c: Call)
    requires n <= |events|
  {
    && c.fingerprint == FingerprintOf(env, c.contract, c.request)
    && (c.phase.Built? ==> Carries(c.phase.outcome, c.request))
    && exists k :: 0 <= k < n && events[k].Begin? && events[k].contract == c.contract && events[k].request == c.request
  }

  /** Every completed record and every call in flight goes back to one of the first
      `n` events. */
  ghost predicate Traces(env: Env, events: seq<Event>, n: nat, s: WorkState)
    requires n <= |events|
  {
    && (forall id :: id in s.files ==> FileTraced(env, events, n, s.files[id]))
    && (forall i :: i in s.calls ==> CallTraced(env, events, n, s.calls[i]))
  }

  lemma BeginTraces(env: Env, events: seq<Event>, n: nat, s: WorkState)
    requires n < |events| && events[n].Begin? && Traces(env, events, n, s)
    ensures Traces(env, events, n + 1, Step(env, s, events[n]).0)
  {
    hide RequestOk, DigestPattern, Carries, FingerprintOf;
    var t := Step(env, s, events[n]).0;
    forall i | i in t.calls ensures CallTraced(env, events, n + 1, t.calls[i]) {
      if i in s.calls { assert CallTraced(env, events, n, s.calls[i]); }
    }
    forall id | id in t.files ensures FileTraced(env, events, n + 1, t.files[id]) {
      if id in s.files { assert FileTraced(env, events, n, s.files[id]); }
    }
  }

  lemma ExecuteTraces(env: Env, events: seq<Event>, n: nat, s: WorkState)
    requires n < |events| && events[n].Execute? && Traces(env, events, n, s)
    ensures Traces(env, events, n + 1, Step(env, s, events[n]).0)
  {
    hide FingerprintOf;
    var t := Step(env, s, events[n]).0;
    forall i | i in t.calls ensures CallTraced(env, events, n + 1, t.calls[i]) {
      assert CallTraced(env, events, n, s.calls[i]);
    }
    forall id | id in t.files ensures FileTraced(env, events, n + 1, t.files[id]) {
      assert FileTraced(env, events, n, s.files[id]);
    }
  }

  lemma FinishTraces(env: Env, events: seq<Event>, n: nat, s: WorkState)
    requires n < |events| && events[n].Finish? && Traces(env, events, n, s)
    ensures Traces(env, events, n + 1, Step(env, s, events[n]).0)
  {
    hide FingerprintOf, DigestPattern, Carries;
    var t := Step(env, s, events[n]).0;
    forall i | i in t.calls ensures CallTraced(env, events, n + 1, t.calls[i]) {
      assert CallTraced(env, events, n, s.calls[i]);
    }
    forall id | id in t.files ensures FileTraced(env, events, n + 1, t.files[id]) {
      if id in s.files && t.files[id] == s.files[id] {
        assert FileTraced(env, events, n, s.files[id]);
      } else {
        var c := s.calls[events[n].call];
        assert CallTraced(env, events, n, c);
        var k :| 0 <= k < n && events[k].Begin? && events[k].contract == c.contract && events[k].request == c.request;
        assert MadeBy(env, events[k], c.fingerprint, c.phase.outcome);
      }
    }
  }

  lemma QuietTraces(env: Env, events: seq<Event>, n: nat, s: WorkState)
    requires n < |events| && (events[n].Open? || events[n].Stop?) && Traces(env, events, n, s)
    ensures Traces(env, events, n + 1, Step(env, s, events[n]).0)
  {
    hide FingerprintOf, MadeBy, Carries;
    var t := Step(env, s, events[n]).0;
    forall i | i in t.calls ensures CallTraced(env, events, n + 1, t.calls[i]) {
      assert CallTraced(env, events, n, s.calls[i]);
    }
    forall id | id in t.files ensures FileTraced(env, events, n + 1, t.files[id]) {
      assert FileTraced(env, events, n, s.files[id]);
    }
  }

  lemma {:induction false} RunTraces(env: Env, events: seq<Event>, n: nat)
    requires n <= |events|
    ensures Traces(env, events, n, Run(env, events[..n]))
  {
    if n > 0 {
      RunTraces(env, events, n - 1);
      assert events[..n][..n - 1] == events[..n - 1];
      var s, e := Run(env, events[..n - 1]), events[n - 1];
      assert Run(env, events[..n]) == Step(env, s, e).0;
      hide Traces, Step, Run;
      match e
      case Begin(_, _, _, _) => BeginTraces(env, events, n - 1, s);
      case Execute(_, _) => ExecuteTraces(env, events, n - 1, s);
      case Finish(_, _) => FinishTraces(env, events, n - 1, s);
      case _ => QuietTraces(env, events, n - 1, s);
    }
  }

  /** No different request begun before event `j` has the fingerprint of the one
      that event begins. */
  predicate NoCollision(env: Env, events: seq<Event>, j: nat)
    requires j < |events| && events[j].Begin?
  {
    var r, fingerprint := events[j].request, FingerprintOf(env, events[j].contract, events[j].request);
    forall k ::
      (0 <= k < j && events[k].Begin? && FingerprintOf(env, events[k].contract, events[k].request) == fingerprint) ==>
        var q := events[k].request;
        && q.quote == r.quote && q.executionID == r.executionID
        && q.inputDigest == r.inputDigest && q.sourceDigest == r.sourceDigest
  }

  /** Once a readable completed record exists, each later request with its
      fingerprint gets exactly that outcome, whose quote, execution, input and
      source are the caller's own; any other fingerprint is refused. */
  lemma LaterRequestsReplay(env: Env, events: seq<Event>, i: nat, j: nat)
    requires i <= j < |events| && events[j].Begin? && NoCollision(env, events, j)
    requires var id := events[j].request.executionID;
             var rec := Read(env, Run(env, events[..i]).files, id);
             rec.Some? && rec.value.progress == Complete
    requires Run(env, events[..j]).open && events[j].call !in Run(env, events[..j]).calls
    requires RequestOk(env, events[j].contract, events[j].request)
    ensures var r := events[j].request;
            var rec := Read(env, Run(env, events[..i]).files, r.executionID).value;
            if rec.fingerprint == FingerprintOf(env, events[j].contract, r)
            then && ReplyAt(env, events, j).Returned? && Some(ReplyAt(env, events, j).outcome) == rec.outcome
                 && Carries(ReplyAt(env, events, j).outcome, r)
            else ReplyAt(env, events, j) == Refused
  {
    hide DigestPattern, RequestOk, FingerprintOf;
    var id := events[j].request.executionID;
    CompletedIsFinal(env, events, i, j, id);
    RunKeeps(env, events[..j]);
    RunTraces(env, events, j);
    var f := Run(env, events[..j]).files[id];
    assert FileInv(f) && FileTraced(env, events, j, f);
  }

  // --------------------------------------------------------------- the object

  class Runner {
    const env: Env
    var open: bool
    var files: map<string, File>
    var calls: map<nat, Call>
    ghost var executed: seq<string>
    ghost var returned: seq<(string, Outcome)>

    ghost function View(): WorkState
      reads this
    {
      WorkState(open, files, calls, executed, returned)
    }

    constructor (env: Env)
      ensures this.env == env && View() == INITIAL
    {
      this.env := env;
      open, files, calls := false, map[], map[];
      executed, returned := [], [];
    }

    /** The journal's exclusive claim of an execution identity. */
    method ClaimFile(id: string, fingerprint: string, claim: Claim) returns (lease: bool, existing: Option<Record>)
      modifies this`files
      ensures lease == (id !in old(files) && claim == Claimed)
      ensures id in old(files) ==> files == old(files)
      ensures id in old(files) ==>
                (existing.Some? <==>
                 Read(env, files, id).Some? && Read(env, files, id).value.fingerprint == fingerprint)
      ensures existing.Some? ==> existing == Read(env, files, id)
      ensures id !in old(files) ==> existing.None? && files == match claim
                case ClaimUndone => old(files)
                case ClaimLeftTorn => old(files)[id := Torn]
                case _ => old(files)[id := Stored(Claiming(fingerprint))]
    {
      existing := None;
      if id !in files {
        match claim {
          case ClaimUndone => return false, None;
          case ClaimLeftTorn => files := files[id := Torn]; return false, None;
          case ClaimLeft => files := files[id := Stored(Claiming(fingerprint))]; return false, None;
          case Claimed => files := files[id := Stored(Claiming(fingerprint))]; return true, None;
        }
      }
      lease := false;
      var rec := Read(env, files, id);
      if rec.None? || rec.value.fingerprint != fingerprint { return false, None; }
      existing := rec;
    }

    method Begin(call: nat, c: Contract, r: Request, claim: Claim) returns (reply: Reply)
      modifies this
      ensures View() == StepBegin(env, old(View()), call, c, r, claim).0
      ensures reply == StepBegin(env, old(View()), call, c, r, claim).1
    {
      hide RequestOk, DigestPattern;
      if !open || call in calls || !RequestOk(env, c, r) { return Refused; }
      var fingerprint := FingerprintOf(env, c, r);
      if !DigestPattern(fingerprint) { return Refused; }
      var lease, existing := ClaimFile(r.executionID, fingerprint, claim);
      if !lease {
        if existing.Some? && existing.value.progress == Complete && existing.value.outcome.Some? {
          returned := returned + [(r.executionID, existing.value.outcome.value)];
          return Returned(existing.value.outcome.value);
        }
        return Refused;
      }
      calls := calls[call := Call(c, r, fingerprint, Leased)];
      reply := Accepted;
    }

    method CallExecutor(call: nat, work: Option<Work>) returns (reply: Reply)
      modifies this
      ensures View() == StepExecute(old(View()), call, work).0
      ensures reply == StepExecute(old(View()), call, work).1
    {
      if call !in calls || !calls[call].phase.Leased? { return Refused; }
      var c := calls[call];
      executed := executed + [c.request.executionID];
      if work.None? {
        calls := calls - {call};
        return Refused;
      }
      var w := work.value;
      var outcome := Outcome(c.request.quote, c.request.executionID, c.request.inputDigest, w.resultDigest,
                             w.artifact, w.report, c.request.sourceDigest, c.contract.toolchainDigest,
                             c.contract.sandboxDigest, w.completedAt);
      calls := calls[call := c.(phase := Built(outcome))];
      reply := Accepted;
    }

    method CompleteFile(call: nat, write: Write) returns (reply: Reply)
      modifies this
      ensures View() == StepFinish(env, old(View()), call, write).0
      ensures reply == StepFinish(env, old(View()), call, write).1
    {
      hide DigestPattern;
      if call !in calls || !calls[call].phase.Built? { return Refused; }
      var c := calls[call];
      var id := c.request.executionID;
      calls := calls - {call};
      var existing := Read(env, files, id);
      if existing.None? || existing.value.fingerprint != c.fingerprint
         || existing.value.progress != Running { return Refused; }
      if write != FailedOld { files := files[id := Stored(Record(c.fingerprint, Complete, Some(c.phase.outcome)))]; }
      if write != Written { return Refused; }
      returned := returned + [(id, c.phase.outcome)];
      reply := Returned(c.phase.outcome);
    }

    /** One execution from claim to completion, when nothing else interferes. */
    method Execute(call: nat, c: Contract, r: Request, claim: Claim, work: Option<Work>, write: Write)
      returns (reply: Reply)
      modifies this
      ensures var s1 := StepBegin(env, old(View()), call, c, r, claim);
              if s1.1 != Accepted then View() == s1.0 && reply == s1.1
              else
                var s2 := StepExecute(s1.0, call, work);
                if s2.1 != Accepted then View() == s2.0 && reply == s2.1
                else View() == StepFinish(env, s2.0, call, write).0 && reply == StepFinish(env, s2.0, call, write).1
    {
      hide StepBegin, StepExecute, StepFinish;
      reply := Begin(call, c, r, claim);
      if reply != Accepted { return; }
      reply := CallExecutor(call, work);
      if reply != Accepted { return; }
      reply := CompleteFile(call, write);
    }
  }
}
