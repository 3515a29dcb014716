/** A concrete run of the software work runner: one execution, a repetition that
    gets its outcome, and a conflicting request that is refused. */
module WorkExamples {
  import opened Common
  import opened SoftwareWork

  function Digest(c: char): (d: string)
    requires c == '0' || c == '1'
    ensures DigestPattern(d) && d[70] == c
  {
    "sha256:" + seq(64, _ => c)
  }

  function Quote(): (q: string)
    ensures QuotePattern(q)
  {
    "tvm-cell-sha256:" + seq(64, _ => '0')
  }

  /** Archives are told apart by being empty, requests by their source. */
  function World(): Env {
    Env((_, _, _, _, source) => source, bytes => if bytes == [] then Digest('0') else Digest('1'), _ => true)
  }

  function Terms(): Contract { Contract("m", "t", "s", 1) }
  function Asked(): Request { Request(Quote(), Digest('0'), Digest('0'), Digest('0'), []) }

  /** The same execution with another source. */
  function Conflicting(): Request { Request(Quote(), Digest('0'), Digest('0'), Digest('1'), [0]) }

  function Done(): Work { Work("r", "a", "p", 1) }
  function Result(): Outcome { OutcomeOf(Terms(), Asked(), Done()) }

  function Script(): seq<Event> {
    [Event.Open, Begin(0, Terms(), Asked(), Claimed), Execute(0, Some(Done())), Finish(0, Written),
     Begin(1, Terms(), Asked(), Claimed), Begin(2, Terms(), Conflicting(), Claimed)]
  }

  lemma Distinct()
    ensures Digest('0') != Digest('1')
  {
    assert Digest('0')[70] != Digest('1')[70];
  }

  const OPENED := INITIAL.(open := true)

  function Claimed1(): WorkState {
    OPENED.(files := map[Digest('0') := Stored(Claiming(Digest('0')))],
            calls := map[0 := Call(Terms(), Asked(), Digest('0'), Leased)])
  }

  function Executed(): WorkState {
    Claimed1().(calls := map[0 := Call(Terms(), Asked(), Digest('0'), Built(Result()))], executed := [Digest('0')])
  }

  function Completed(): WorkState {
    OPENED.(files := map[Digest('0') := Stored(Record(Digest('0'), Complete, Some(Result())))],
            executed := [Digest('0')], returned := [(Digest('0'), Result())])
  }

  lemma ClaimStep()
    ensures Step(World(), OPENED, Script()[1]).0 == Claimed1()
  {
    hide Digest, Quote;
  }

  lemma ExecuteStep()
    ensures Step(World(), Claimed1(), Script()[2]).0 == Executed()
  {
    hide Digest, Quote;
    assert Claimed1().executed + [Digest('0')] == [Digest('0')];
    assert Claimed1().calls[0 := Executed().calls[0]] == Executed().calls;
  }

  lemma FinishStep()
    ensures Step(World(), Executed(), Script()[3]).0 == Completed()
  {
    hide Digest, Quote;
    var s := Executed();
    assert s.calls - {0} == map[] && s.returned + [(Digest('0'), Result())] == [(Digest('0'), Result())];
    assert s.files[Digest('0') := Completed().files[Digest('0')]] == Completed().files;
  }

  /** What a later request meets. */
  lemma LaterSteps(s: WorkState)
    requires s.open && s.files == Completed().files && s.calls == map[]
    ensures Step(World(), s, Script()[4])
         == (s.(returned := s.returned + [(Digest('0'), Result())]), Returned(Result()))
    ensures Step(World(), s, Script()[5]) == (s, Refused)
  {
    Distinct();
    hide Digest, Quote;
  }

  lemma RunNext(env: Env, events: seq<Event>, k: nat)
    requires k < |events|
    ensures Run(env, events[..k + 1]) == Step(env, Run(env, events[..k]), events[k]).0
  {
    assert events[..k + 1][..k] == events[..k] && events[..k + 1][k] == events[k];
  }

  lemma FirstExecution()
    ensures Run(World(), Script()[..4]) == Completed()
  {
    var e := Script();
    assert |e| == 6 && e[..0] == [] && Step(World(), INITIAL, e[0]).0 == OPENED;
    assert Run(World(), []) == INITIAL;
    hide Digest, Quote, Step, Run, Claimed1, Executed, Completed;
    ClaimStep();
    ExecuteStep();
    FinishStep();
    RunNext(World(), e, 0);
    RunNext(World(), e, 1);
    RunNext(World(), e, 2);
    RunNext(World(), e, 3);
  }

  lemma NothingCollides()
    ensures NoCollision(World(), Script(), 4) && NoCollision(World(), Script(), 5)
    ensures RequestOk(World(), Terms(), Asked()) && RequestOk(World(), Terms(), Conflicting())
  {
    Distinct();
    hide Digest, Quote;
  }

  /** The replay theorem is about something: its hypotheses hold at both later
      requests of this run, the repetition gets the first outcome, and the
      conflicting request is refused. */
  lemma RepetitionAndConflict()
    ensures var e := Script();
            && NoCollision(World(), e, 4) && NoCollision(World(), e, 5)
            && Read(World(), Run(World(), e[..4]).files, Digest('0'))
               == Some(Record(Digest('0'), Complete, Some(Result())))
            && RequestOk(World(), Terms(), Asked()) && RequestOk(World(), Terms(), Conflicting())
            && ReplyAt(World(), e, 4) == Returned(Result()) && ReplyAt(World(), e, 5) == Refused
            && Run(World(), e).executed == [Digest('0')]
  {
    NothingCollides();
    FirstExecution();
    var e := Script();
    assert |e| == 6 && e[..6] == e;
    hide Digest, Quote, Step, Run, Script, NoCollision, RequestOk, Result;
    LaterSteps(Completed());
    LaterSteps(Step(World(), Completed(), e[4]).0);
    RunNext(World(), e, 4);
    RunNext(World(), e, 5);
  }
}
