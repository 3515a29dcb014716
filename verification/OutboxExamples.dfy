/** Results the outbox accepts and then cannot read, in every environment. */
module OutboxExamples {
  import opened Common
  import opened JsonText
  import opened Sorting
  import opened ResultOutbox
  import opened OutboxTheorems

  const RESULT: Bytes := [0]
  const KIND := "mcp.result"

  function EventID(): (id: string)
    ensures EventPattern(id)
  {
    "evt_" + seq(64, _ => '0')
  }

  /** A source whose conversation name has `n` letters. */
  function Named(n: nat): Source { Source(EventID(), seq(n, _ => 'c'), "s", 1) }

  /** The usual environment: digests look like digests, one byte is allowed as a
      result, and the sender has a route. */
  predicate Usual(env: Env) {
    env.maxResult >= 1 && DigestPattern(env.digest(RESULT)) && "s" in env.routes
  }

  function Sized(env: Env, n: nat): nat { RecordSize(Record(NewItem(env, Named(n), KIND, RESULT), false)) }

  lemma {:induction false} TextIsBounded(s: string)
    ensures TextLength(s) <= 6 * |s|
  {
    if s != [] { TextIsBounded(s[..|s| - 1]); }
  }

  /** Every letter of the name is one byte of the record. */
  lemma SizeGrowsByName(env: Env, n: nat)
    ensures Sized(env, n) == Sized(env, 0) + n
  {
    PlainLength(n, seq(n, _ => 'c'));
    PlainLength(0, seq(0, _ => 'c'));
  }

  lemma BareRecordIsSmall(env: Env)
    requires Usual(env)
    ensures Sized(env, 0) < 2000
  {
    hide EventID;
    var i := NewItem(env, Named(0), KIND, RESULT);
    TextIsBounded(i.eventID);
    TextIsBounded(i.conversationID);
    TextIsBounded(i.senderID);
    TextIsBounded(i.kind);
    TextIsBounded(i.digest);
    assert |i.eventID| == 68 && |i.digest| == 71 && |i.kind| == 10;
    assert |FRAME| < 300;
  }

  /** The source whose pending record is `slack` bytes below the limit. */
  function Filling(env: Env, slack: nat): Source
    requires Usual(env) && slack < 1000
  {
    BareRecordIsSmall(env);
    Named(MaxRecord(env) - slack - Sized(env, 0))
  }

  function FillingItem(env: Env, slack: nat): Item
    requires Usual(env) && slack < 1000
  {
    NewItem(env, Filling(env, slack), KIND, RESULT)
  }

  lemma FillingSize(env: Env, slack: nat)
    requires Usual(env) && slack < 1000
    ensures RecordSize(Record(FillingItem(env, slack), false)) == MaxRecord(env) - slack
    ensures Filling(env, slack).conversationID != ""
  {
    hide RecordSize, EventID;
    BareRecordIsSmall(env);
    var n := MaxRecord(env) - slack - Sized(env, 0);
    SizeGrowsByName(env, n);
  }

  lemma FillingIsOk(env: Env, slack: nat)
    requires Usual(env) && slack < 1000
    ensures SourceOk(env, Filling(env, slack), KIND, RESULT)
  {
    FillingSize(env, slack);
    hide RecordSize, EventID, EventPattern, Sized;
  }

  function Stocked(env: Env, slack: nat, done: bool): BridgeState
    requires Usual(env) && slack < 1000
  {
    INITIAL.(open := true, files := map[EventID() := Stored(Record(FillingItem(env, slack), done))])
  }

  function Enqueued(env: Env, slack: nat): Event
    requires Usual(env) && slack < 1000
  {
    Enqueue(Filling(env, slack), KIND, RESULT, Created)
  }

  lemma Accepts(env: Env, slack: nat)
    requires Usual(env) && slack < 1000
    ensures Step(env, INITIAL.(open := true), Enqueued(env, slack)) == (Stocked(env, slack, false), true)
    ensures Read(env, Stocked(env, slack, false).files, EventID()).Some? <==> slack >= 1
    ensures Read(env, Stocked(env, slack, true).files, EventID()).Some? <==> slack >= 2
  {
    FillingSize(env, slack);
    FillingIsOk(env, slack);
    CompletionIsLonger(FillingItem(env, slack));
    hide RecordSize, EventID;
  }

  lemma Listed(env: Env, slack: nat, done: bool)
    requires Usual(env) && slack < 1000
    ensures Listing(Stocked(env, slack, done).files, [EventID()])
  {
  }

  lemma Appended(env: Env, events: seq<Event>, e: Event)
    ensures Run(env, events + [e]) == Step(env, Run(env, events), e).0
  {
    assert (events + [e])[..|events|] == events;
  }

  /** In every usual environment: a result whose encoding exactly fills the limit
      is accepted, and from then on no publishing pass ever begins. */
  lemma NewlineStopsPublishing(env: Env, later: seq<Event>, j: nat)
    requires Usual(env) && j < |later|
    ensures Step(env, Run(env, [Event.Open]), Enqueued(env, 0)).1
    ensures var events := [Event.Open, Enqueued(env, 0)];
            later[j].Snapshot? ==> !Step(env, Run(env, events + later[..j]), later[j]).1
  {
    Accepts(env, 0);
    var script := [Event.Open, Enqueued(env, 0)];
    Appended(env, [], Event.Open);
    Appended(env, [Event.Open], Enqueued(env, 0));
    assert [] + [Event.Open] == [Event.Open] && [Event.Open] + [Enqueued(env, 0)] == script;
    Blocked(env, script, later, j);
  }

  lemma Blocked(env: Env, script: seq<Event>, later: seq<Event>, j: nat)
    requires j < |later| && EventID() in Run(env, script).files && Read(env, Run(env, script).files, EventID()).None?
    ensures later[j].Snapshot? ==> !Step(env, Run(env, script + later[..j]), later[j]).1
  {
    hide Run, Step, Read, EventID;
    var events := script + later;
    var n := |script|;
    assert events[..n] == script && events[..n + j] == script + later[..j] && events[n + j] == later[j];
    UnreadableStopsPublishing(env, events, n, n + j, EventID());
  }

  // --------------------------------------------------- one byte below the limit

  function Pass(env: Env): seq<Event>
    requires Usual(env)
  {
    [Event.Open, Enqueued(env, 1), Snapshot(0, [EventID()]), CallDaemon(0, false, Queued(true)),
     CompleteItem(0, Written)]
  }

  function Loaded(env: Env): BridgeState
    requires Usual(env)
  {
    Stocked(env, 1, false).(loops := map[0 := Loop([FillingItem(env, 1)], 0, false, 0, 0)])
  }

  function Called(env: Env): BridgeState
    requires Usual(env)
  {
    var m := MessageOf(env, FillingItem(env, 1));
    Loaded(env).(loops := map[0 := Loop([FillingItem(env, 1)], 0, true, 0, 0)],
                 calls := [m], daemon := map[m.key := m], queue := [m])
  }

  lemma PassBegins(env: Env)
    requires Usual(env)
    ensures Step(env, Stocked(env, 1, false), Snapshot(0, [EventID()])) == (Loaded(env), true)
  {
    Accepts(env, 1);
    Listed(env, 1, false);
    hide RecordSize, EventID, Readable;
    var s, i := Stocked(env, 1, false), FillingItem(env, 1);
    assert [EventID()][..0] == [];
    assert Collect(env, s.files, []) == Some([]);
    assert Collect(env, s.files, [EventID()]) == Some([] + [i]) && [] + [i] == [i];
    ArrangedSingle(i);
  }

  lemma ArrangedSingle(i: Item)
    ensures Arranged([i], ItemKey) == [i]
  {
    var r := Arranged([i], ItemKey);
    assert multiset(r) == multiset([i]) == multiset{i};
    assert |r| == |multiset(r)| == 1 && r[0] in multiset(r);
  }

  lemma DaemonAnswers(env: Env)
    requires Usual(env)
    ensures Step(env, Loaded(env), CallDaemon(0, false, Queued(true))) == (Called(env), true)
  {
    assert FillingItem(env, 1).senderID == "s";
    hide RecordSize, EventID, Readable, Filling;
    var m := MessageOf(env, FillingItem(env, 1));
    assert [] + [m] == [m];
    assert Loaded(env).loops[0 := Called(env).loops[0]] == Called(env).loops;
  }

  lemma ItemCompletes(env: Env)
    requires Usual(env)
    ensures var t := Step(env, Called(env), CompleteItem(0, Written));
            t.1 && t.0.files == Stocked(env, 1, true).files
  {
    Accepts(env, 1);
    hide RecordSize, EventID, Readable, Filling;
    assert Called(env).files[EventID() := Stored(Record(FillingItem(env, 1), true))] == Stocked(env, 1, true).files;
  }

  lemma PassRuns(env: Env)
    requires Usual(env)
    ensures Run(env, Pass(env)[..4]) == Called(env)
    ensures Run(env, Pass(env)) == Step(env, Called(env), CompleteItem(0, Written)).0
  {
    Accepts(env, 1);
    PassBegins(env);
    DaemonAnswers(env);
    var e := Pass(env);
    assert e[..0] == [] && e[..1] == [] + [e[0]] && e[..2] == e[..1] + [e[1]] && e[..3] == e[..2] + [e[2]];
    assert e[..4] == e[..3] + [e[3]] && e == e[..4] + [e[4]];
    Appended(env, [], e[0]);
    Appended(env, e[..1], e[1]);
    Appended(env, e[..2], e[2]);
    Appended(env, e[..3], e[3]);
    Appended(env, e[..4], e[4]);
    assert Step(env, INITIAL, Event.Open).0 == INITIAL.(open := true);
    hide Step, Stocked, Loaded, Called, Run;
  }

  /** In every usual environment: a result one byte below the limit is accepted,
      published and completed, and that completion stops every later pass. */
  lemma CompletionStopsPublishing(env: Env, later: seq<Event>, j: nat)
    requires Usual(env) && j < |later|
    ensures Step(env, Run(env, Pass(env)[..4]), Pass(env)[4]).1
    ensures later[j].Snapshot? ==> !Step(env, Run(env, Pass(env) + later[..j]), later[j]).1
  {
    PassRuns(env);
    ItemCompletes(env);
    Accepts(env, 1);
    assert EventID() in Stocked(env, 1, true).files;
    assert Pass(env)[4] == CompleteItem(0, Written);
    hide Run, Step, Read, EventID, Pass;
    Blocked(env, Pass(env), later, j);
  }

  // -------------------------------------------------------- a usual environment

  function Digest(): string { "sha256:" + seq(64, _ => '0') }

  /** Every digest is the same, so keys differ by the event alone. */
  function World(): (env: Env)
    ensures Usual(env)
  {
    Env(_ => Digest(), (id, digest) => id, map["s" := Route("x", "y")], 1, 1)
  }

  function SecondID(): (id: string)
    ensures EventPattern(id)
  {
    "evt_" + seq(64, _ => '1')
  }

  function Second(): Event { Enqueue(Source(SecondID(), "c", "s", 1), KIND, RESULT, Created) }
  function SecondItem(): Item { NewItem(World(), Source(SecondID(), "c", "s", 1), KIND, RESULT) }

  lemma SecondIsAccepted(s: BridgeState)
    requires s.open && SecondID() !in s.files
    ensures Step(World(), s, Second()).0 == s.(files := s.files[SecondID() := Stored(Record(SecondItem(), false))])
  {
    var i := SecondItem();
    assert |i.eventID| == 68 && |i.digest| == 71 && |i.kind| == 10;
    TextIsBounded(i.eventID);
    TextIsBounded(i.conversationID);
    TextIsBounded(i.senderID);
    TextIsBounded(i.kind);
    TextIsBounded(i.digest);
    assert |FRAME| < 300;
    hide SecondID, TextLength;
    assert RecordSize(Record(i, false)) <= MaxRecord(World());
  }

  lemma EventsDiffer()
    ensures EventID() != SecondID()
  {
    assert EventID()[4] == '0' && SecondID()[4] == '1';
  }

  lemma PassEnds(env: Env)
    requires Usual(env)
    ensures var t := Run(env, Pass(env));
            && t.open && t.files == map[EventID() := Stored(Record(FillingItem(env, 1), true))]
            && |t.queue| == 1 && t.queue[0].replyTo == EventID()
  {
    PassRuns(env);
    ItemCompletes(env);
    assert Called(env).queue[0].replyTo == EventID();
    hide EventID, Filling, Run, RecordSize, Completed;
  }

  /** The publishing theorem is about something: in this run two results are stored
      under different keys, one of them is complete, and exactly its event is
      queued. */
  lemma OneOfTwoIsComplete()
    ensures var s := Run(World(), Pass(World()) + [Second()]);
            && s.files.Keys == {EventID(), SecondID()} && s.files[EventID()].Stored? && s.files[SecondID()].Stored?
            && s.files[EventID()].rec.done && !s.files[SecondID()].rec.done
            && OwnKey(World(), s.files, EventID())
            && |s.queue| == 1 && s.queue[0].replyTo == EventID()
  {
    PassEnds(World());
    EventsDiffer();
    Appended(World(), Pass(World()), Second());
    hide EventID, SecondID, FillingItem, SecondItem, Run, Step, Pass, Second;
    SecondIsAccepted(Run(World(), Pass(World())));
  }
}
