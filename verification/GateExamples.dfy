/** Concrete runs of the Gate: one that reaches a terminal effect and an answered
    repetition, and the runs in which a promise fails. */
module GateExamples {
  import opened Common
  import opened Sorting
  import opened ExecutionPlan
  import opened Gate
  import opened GateTheorems
  import opened GateRecovery
  import opened GateReplay

  // --------------------------------------------------------- a permissive world

  function Digest(): (d: string)
    ensures ValidDigest(d)
  {
    "sha256:" + seq(64, _ => '0')
  }

  /** Every check says yes and every digest is the same. */
  function World(): Env {
    Env(Codec(_ => Some(Digest()), _ => Some(Digest()), _ => Some(Digest()), _ => Some(Digest()), _ => true, _ => true),
        (_, _, _) => true, (_, _, _, _) => true, (_, _, _, _, _) => true, (_, _, _, _, _) => true,
        (_, _, _) => true, (_, _) => Some(Digest()), _ => true)
  }

  function Network(): NetworkBinding { NetworkBinding("n", "https", "h", 443, ["1.1.1.1"], "h", false, 1, 1) }
  function Effect(): EffectBinding {
    EffectBinding("e", Digest(), Digest(), "https.get", Digest(), "n", "", 1)
  }
  function Work(): Plan {
    Plan("o", "a", "d", "b", "", "m", 0, "", "", "r", 1, 0, "kill", [], [Network()], [], [Effect()])
  }
  function Writer(): Fence { Fence("o", "a", 1, 1) }
  function Bound(): Plan {
    Work().(canonicalPlanDigest := Digest(), writerGeneration := 1, executionID := Digest())
  }
  function Act(kind: string): Action { Action(kind, Digest(), Digest(), 1) }
  function Now(): Moment { Moment(0, 0) }
  function Ask(): Request { Request("e", "GET", "/", [], []) }

  lemma OneElement<T(!new)>(x: T, key: T -> string)
    ensures Arranged([x], key) == [x]
  {
    var r := Arranged([x], key);
    assert multiset(r) == multiset([x]) == multiset{x};
    assert |r| == |multiset(r)| == 1 && r[0] in multiset(r);
  }

  lemma NoElements<T(!new)>(key: T -> string)
    ensures Arranged([], key) == []
  {
    var r := Arranged([], key);
    assert |r| == |multiset(r)| == 0;
  }

  lemma WorkPrepares()
    ensures Prepare(World().codec, Work(), Writer()) == Some((Bound(), Digest()))
  {
    var p := Work();
    NoElements(FileKey);
    NoElements(CredentialKey);
    OneElement(Network(), NetworkKey);
    OneElement(Effect(), EffectKey);
    assert Canonical(p) == p;
    assert NetworkOk(World().codec, Network());
    assert Network() in p.networks;
    assert EffectOk(World().codec, p.networks, p.credentials, Effect());
    assert Acceptable(World().codec, p, Writer());
  }

  // ---------------------------------------------------------------- the states

  function Path(): string { PathOf(Digest()) }

  function Record1(): Record { NewRecord(Bound(), Digest(), "s", 1, Act("execution.prepare")) }
  function Record2(): Record { Started(Record1(), Act("execution.start")) }
  function Record3(): Record { Moved(Record2(), Running, "") }
  function Record4(): Record { WithSubmission(Record3(), "e", Act("executor.effect")) }
  function Record5(status: Status): Record { WithTerminal(Record4(), "e", status, Digest()) }

  function With(r: Record): GateState {
    GateState(true, map[Path() := Stored(r)], map[], map[], map[], [], [])
  }
  function Flight(phase: Phase): Call { Call(Path(), Digest(), "e", Digest(), None, 0, phase) }
  function Given(status: Status): Answer { Answer(Digest(), "e", status, [], Digest()) }
  function Delivered(status: Status): GateState {
    GateState(true, map[Path() := Stored(Record5(status))], map[ResponsePath(Digest()) := []], map[], map[],
              [(Digest(), "e")], [Given(status)])
  }

  function Submission(call: nat): Event {
    SubmitEffect(call, LaunchOf(Record2()), Ask(), Act("executor.effect"), Writer(), Now(), Written)
  }

  function Preparation(create: Create): Event {
    PrepareCall(Work(), Writer(), 1_000_000_000, Act("execution.prepare"), Now(), Some("s"), create)
  }
  function Starting1(): Event {
    StartCall(TicketOf(Record1()), Writer(), Act("execution.start"), Now(), true, Written)
  }
  function Marking(): Event { MarkRunningCall(LaunchOf(Record2()), Written) }

  /** Open, prepare, start, run, and one outbound effect to its end. */
  function Script(status: Status): seq<Event> {
    [Event.Open([], []),
     Preparation(Created),
     Starting1(),
     Marking(),
     Submission(0),
     SendEffect(0, true, true, Some((status, []))),
     SaveResponse(0, Written),
     TerminalizeEffect(0, Written)]
  }

  lemma Appended(env: Env, events: seq<Event>, e: Event)
    ensures Run(env, events + [e]) == Step(env, Run(env, events), e).0
    ensures ReplyAt(env, events + [e], |events|) == Step(env, Run(env, events), e).1
  {
    assert (events + [e])[..|events|] == events;
  }

  lemma Opened()
    ensures Step(World(), INITIAL, Event.Open([], [])) == (INITIAL.(open := true), Accepted)
  {
  }

  lemma Readables(status: Status)
    ensures Readable(World(), Record1()) && Readable(World(), Record2()) && Readable(World(), Record3())
    ensures Readable(World(), Record4()) && (Readable(World(), Record5(status)) <==> status != 0)
  {
    hide Digest;
    assert "e" in Record4().effects;
    TerminalReadableExactly(World(), Record4(), "e", status, Digest());
  }

  lemma PreparedStep()
    ensures Step(World(), INITIAL.(open := true), Preparation(Created))
         == (With(Record1()), Ticketed(TicketOf(Record1())))
  {
    WorkPrepares();
    hide Prepare, Digest, PathOf;
  }

  lemma StartedStep()
    ensures Step(World(), With(Record1()), Starting1()) == (With(Record2()), Launching(LaunchOf(Record2())))
  {
    Readables(0);
    hide Digest, PathOf, Readable;
    assert With(Record1()).records[Path() := Stored(Record2())] == With(Record2()).records;
  }

  lemma RunningStep()
    ensures Step(World(), With(Record2()), Marking()) == (With(Record3()), Accepted)
  {
    Readables(0);
    hide Digest, PathOf, Readable;
    assert With(Record2()).records[Path() := Stored(Record3())] == With(Record3()).records;
  }

  lemma SubmittedStep()
    ensures Step(World(), With(Record3()), Submission(0)) == (AfterSubmit(), Accepted)
  {
    Readables(0);
    hide Digest, PathOf, Readable;
    assert With(Record3()).records[Path() := Stored(Record4())] == With(Record4()).records;
  }

  function AfterSubmit(): GateState { With(Record4()).(calls := map[0 := Flight(Unsent)]) }
  function AfterSend(status: Status): GateState {
    With(Record4()).(calls := map[0 := Flight(Received(status, []))], sent := [(Digest(), "e")])
  }
  function AfterSave(status: Status): GateState {
    With(Record4()).(calls := map[0 := Flight(Saved(status, []))], sent := [(Digest(), "e")],
                     responses := map[ResponsePath(Digest()) := []])
  }

  lemma SentStep(status: Status)
    ensures Step(World(), AfterSubmit(), Script(status)[5]) == (AfterSend(status), Accepted)
  {
    hide Digest, PathOf, Record4;
    assert AfterSubmit().sent + [(Digest(), "e")] == AfterSend(status).sent;
    assert AfterSubmit().calls[0 := Flight(Received(status, []))] == AfterSend(status).calls;
  }

  lemma SavedStep(status: Status)
    ensures Step(World(), AfterSend(status), Script(status)[6]) == (AfterSave(status), Accepted)
  {
    hide Digest, PathOf, Record4, ResponsePath;
    assert AfterSend(status).calls[0 := Flight(Saved(status, []))] == AfterSave(status).calls;
  }

  lemma TerminalStep(status: Status)
    ensures Step(World(), AfterSave(status), Script(status)[7]) == (Delivered(status), Responded(status, [], Digest()))
  {
    Readables(0);
    hide Digest, PathOf, Readable, ResponsePath;
    var c := AfterSave(status);
    assert c.calls - {0} == map[] && c.answered + [Given(status)] == [Given(status)];
    assert c.records[Path() := Stored(Record5(status))] == Delivered(status).records;
  }

  lemma ScriptEvents(status: Status)
    ensures var e := Script(status);
            && |e| == 8 && e[0] == Event.Open([], []) && e[1] == Preparation(Created) && e[2] == Starting1()
            && e[3] == Marking() && e[4] == Submission(0)
  {
    hide Preparation, Starting1, Marking, Submission;
  }

  lemma NothingRun(env: Env, events: seq<Event>)
    ensures Run(env, events[..0]) == INITIAL
  {
  }

  lemma ScriptSubmits(status: Status)
    ensures Run(World(), Script(status)[..5]) == AfterSubmit()
  {
    hide *;
    var e := Script(status);
    ScriptEvents(status);
    NothingRun(World(), e);
    Opened();
    PreparedStep();
    StartedStep();
    RunningStep();
    SubmittedStep();
    RunNext(World(), e, 0);
    RunNext(World(), e, 1);
    RunNext(World(), e, 2);
    RunNext(World(), e, 3);
    RunNext(World(), e, 4);
  }

  /** The script runs through: the call is answered. */
  lemma ScriptDelivers(status: Status)
    ensures Run(World(), Script(status)) == Delivered(status)
    ensures ReplyAt(World(), Script(status), 7) == Responded(status, [], Digest())
  {
    var e := Script(status);
    assert |e| == 8 && e[..8] == e;
    assert ReplyAt(World(), e, 7) == Step(World(), Run(World(), e[..7]), e[7]).1;
    hide *;
    ScriptSubmits(status);
    SentStep(status);
    SavedStep(status);
    TerminalStep(status);
    RunNext(World(), e, 5);
    RunNext(World(), e, 6);
    RunNext(World(), e, 7);
  }

  // ------------------------------------------------------------- what follows

  lemma PathIsARecordName()
    ensures RecordName(Path())
  {
    var d := Digest();
    assert Path() == d[7..] + ".json" && |d[7..]| == 64;
  }

  lemma OneEffectSeparates(status: Status)
    ensures Separate(Delivered(status).records)
  {
    hide ResponsePath, PathOf, Digest;
    forall p, k | Recorded(Delivered(status).records, p, k) ensures p == Path() && k == "e" {
    }
  }

  lemma ReplayingStep()
    ensures Step(World(), Delivered(200), Submission(1)) == (Repeating(), Replaying)
  {
    Readables(200);
    hide Digest, PathOf, Readable, ResponsePath;
  }

  function Repeating(): GateState {
    Delivered(200).(replays := map[1 := Replay(Digest(), "e", Digest(), 200, Digest())])
  }

  lemma ReadStep()
    ensures Step(World(), Repeating(), ReadReplay(1, true))
         == (Delivered(200).(answered := [Given(200), Given(200)]), Responded(200, [], Digest()))
  {
    hide Digest, PathOf, ResponsePath, Record5;
    var s := Repeating();
    assert s.replays - {1} == map[] && s.answered + [Given(200)] == [Given(200), Given(200)];
  }

  /** The replay theorems are about something: in this run the effect files are
      separate, the effect ends, and its repetition is answered like the first
      call. */
  lemma RepetitionIsAnswered()
    ensures var events := Script(200) + [Submission(1)] + [ReadReplay(1, true)];
            && Separate(Run(World(), events).records)
            && Recorded(Run(World(), events).records, Path(), "e")
            && Run(World(), events).records[Path()].rec.effects["e"].state == Terminal
            && ReplyAt(World(), events, 9) == ReplyAt(World(), Script(200), 7)
            && Run(World(), events).answered == [Given(200), Given(200)]
  {
    ScriptDelivers(200);
    ReplayingStep();
    ReadStep();
    OneEffectSeparates(200);
    Appended(World(), Script(200), Submission(1));
    Appended(World(), Script(200) + [Submission(1)], ReadReplay(1, true));
    assert Recorded(Delivered(200).records, Path(), "e");
    hide Step, Digest, PathOf, Script;
  }

  /** An unreadable record after a script refuses every Open that comes later. */
  lemma BlockedAfter(env: Env, script: seq<Event>, later: seq<Event>, j: nat, p: string)
    requires j < |later| && RecordName(p)
    requires p in Run(env, script).records && Read(env, Run(env, script).records, p).None?
    ensures later[j].Open? ==> ReplyAt(env, script + later, |script| + j) != Accepted
  {
    hide Run, Step, ReplyAt, RecordName, Read;
    var events := script + later;
    assert events[..|script|] == script && events[|script| + j] == later[j];
    UnreadableBlocksForever(env, events, |script|, |script| + j, p);
  }

  lemma StatusZeroUnreadable()
    ensures var s := Delivered(0);
            && Path() in s.records && Read(World(), s.records, Path()).None?
            && Step(World(), s, Submission(1)).1 == Refused
  {
    Readables(0);
    hide Digest, PathOf, Readable, ResponsePath;
  }

  /** A peer that answers with status zero: the call reports success, its exact
      repetition is refused, and the Gate never opens again, whatever follows. */
  lemma StatusZeroIsFinal(later: seq<Event>, j: nat)
    requires j < |later|
    ensures ReplyAt(World(), Script(0), 7) == Responded(0, [], Digest())
    ensures Step(World(), Run(World(), Script(0)), Submission(1)).1 == Refused
    ensures later[j].Open? ==> ReplyAt(World(), Script(0) + later, 8 + j) != Accepted
  {
    assert |Script(0)| == 8;
    hide Script, Run, Step, ReplyAt, RecordName, Read, Delivered, Path, Digest, World;
    ScriptDelivers(0);
    StatusZeroUnreadable();
    PathIsARecordName();
    BlockedAfter(World(), Script(0), later, j, Path());
  }

  function TornScript(): seq<Event> {
    [Event.Open([], []),
     Preparation(CreatedTorn)]
  }

  lemma TornStep()
    ensures Step(World(), INITIAL.(open := true), TornScript()[1])
        == (INITIAL.(open := true, records := map[Path() := Torn]), Refused)
  {
    WorkPrepares();
    hide Prepare, Digest, PathOf;
  }

  lemma TornRun()
    ensures Run(World(), TornScript()) == INITIAL.(open := true, records := map[Path() := Torn])
  {
    TornStep();
    Opened();
    var events := TornScript();
    assert events[..0] == [] && events[..2] == events;
    RunNext(World(), events, 0);
    RunNext(World(), events, 1);
    assert Run(World(), events[..0]) == INITIAL;
    hide Step, Digest, PathOf, Run;
  }

  /** Preparing work in an empty directory and stopping while its record is being
      created: the Gate never opens again, whatever follows. */
  lemma TornCreationIsFinal(later: seq<Event>, j: nat)
    requires j < |later|
    ensures later[j].Open? ==> ReplyAt(World(), TornScript() + later, 2 + j) != Accepted
  {
    assert |TornScript()| == 2;
    hide TornScript, Run, Step, ReplyAt, RecordName, Path, World;
    TornRun();
    PathIsARecordName();
    BlockedAfter(World(), TornScript(), later, j, Path());
  }
}
