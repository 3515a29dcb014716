/** What holds over every run of the Gate: at most one start per execution, at
    most one network call per planned effect, records that only move forward. */
module GateTheorems {
  import opened Common
  import opened ExecutionPlan
  import opened Gate
  import opened GateInvariant
  import opened GateSteps

  lemma {:induction false} RunKeeps(env: Env, events: seq<Event>)
    ensures Inv(env, Run(env, events))
  {
    if events != [] {
      RunKeeps(env, events[..|events| - 1]);
      StepKeeps(env, Run(env, events[..|events| - 1]), events[|events| - 1]);
    }
  }

  lemma RunNext(env: Env, events: seq<Event>, k: nat)
    requires k < |events|
    ensures Run(env, events[..k + 1]) == Step(env, Run(env, events[..k]), events[k]).0
  {
    assert events[..k + 1][..k] == events[..k] && events[..k + 1][k] == events[k];
  }

  /** Between any two moments of a run every record present stays, keeps its plan
      and ticket, strictly raises its revision when it changes, and keeps an
      absorbing state and every terminal effect. */
  lemma {:induction false} RecordsOnlyGrow(env: Env, events: seq<Event>, i: nat, j: nat)
    requires i <= j <= |events|
    ensures Grows(Run(env, events[..i]).records, Run(env, events[..j]).records)
    decreases j
  {
    if i < j {
      RecordsOnlyGrow(env, events, i, j - 1);
      RunKeeps(env, events[..j - 1]);
      StepKeeps(env, Run(env, events[..j - 1]), events[j - 1]);
      RunNext(env, events, j - 1);
      GrowsTransitive(Run(env, events[..i]).records, Run(env, events[..j - 1]).records, Run(env, events[..j]).records);
    }
  }

  lemma OnlyStartLaunches(env: Env, s: GateState, e: Event)
    requires Step(env, s, e).1.Launching?
    ensures e.StartCall?
  {
    hide PathOf, Readable, Recover, Read, Prepare, Replace, EffectAdmitted, Listing;
  }

  /** A successful start found its record prepared and left it starting. */
  lemma LaunchConsumes(env: Env, s: GateState, e: Event)
    requires Inv(env, s) && Step(env, s, e).1.Launching?
    ensures e.StartCall?
    ensures var path := PathOf(e.ticket.executionID);
            && path == PathOf(Step(env, s, e).1.launch.executionID)
            && path in s.records && s.records[path].Stored? && s.records[path].rec.state == Prepared
            && Step(env, s, e).0.records == s.records[path := Stored(Started(s.records[path].rec, e.action))]
            && Step(env, s, e).1.launch == LaunchOf(s.records[path].rec)
  {
    OnlyStartLaunches(env, s, e);
    hide PathOf, Readable;
    var path := PathOf(e.ticket.executionID);
    assert RecordInv(env, path, s.records[path].rec);
  }

  /** The plan of the record a launch belongs to. */
  ghost function LaunchedPlan(env: Env, events: seq<Event>, k: nat): Plan
    requires k < |events| && ReplyAt(env, events, k).Launching?
  {
    RunKeeps(env, events[..k]);
    LaunchConsumes(env, Run(env, events[..k]), events[k]);
    Run(env, events[..k]).records[PathOf(ReplyAt(env, events, k).launch.executionID)].rec.plan
  }

  /** Over every run two successful starts belong to different records, hence to
      different execution identities and different semantic slots. */
  lemma AtMostOneStart(env: Env, events: seq<Event>, i: nat, j: nat)
    requires i < j < |events| && ReplyAt(env, events, i).Launching? && ReplyAt(env, events, j).Launching?
    ensures PathOf(ReplyAt(env, events, i).launch.executionID) != PathOf(ReplyAt(env, events, j).launch.executionID)
    ensures ReplyAt(env, events, i).launch.executionID != ReplyAt(env, events, j).launch.executionID
    ensures SlotOf(LaunchedPlan(env, events, i)) != SlotOf(LaunchedPlan(env, events, j))
  {
    hide PathOf, SlotOf;
    var s, t := Run(env, events[..i]), Run(env, events[..j]);
    RunKeeps(env, events[..i]);
    RunKeeps(env, events[..j]);
    LaunchConsumes(env, s, events[i]);
    LaunchConsumes(env, t, events[j]);
    RunNext(env, events, i);
    RecordsOnlyGrow(env, events, i + 1, j);
    var p, q := PathOf(ReplyAt(env, events, i).launch.executionID), PathOf(ReplyAt(env, events, j).launch.executionID);
    assert FileGrows(Run(env, events[..i + 1]).records[p], t.records[p]);
    assert RecordInv(env, p, s.records[p].rec) && RecordInv(env, q, t.records[q].rec);
  }

  /** A ticket names the record of the identity its plan prepares to. */
  lemma TicketNames(env: Env, s: GateState, e: Event)
    requires Inv(env, s) && e.PrepareCall? && Step(env, s, e).1.Ticketed?
    ensures Prepare(env.codec, e.plan, e.fence).Some?
    ensures PathOf(Step(env, s, e).1.ticket.executionID)
        == PathOf(Prepare(env.codec, e.plan, e.fence).value.0.executionID)
  {
    hide PathOf, Readable, Prepare;
    var path := PathOf(Prepare(env.codec, e.plan, e.fence).value.0.executionID);
    if path in s.records && s.records[path].Stored? {
      assert RecordInv(env, path, s.records[path].rec);
    }
  }

  /** The one start is not denied: right after a ticket was issued, in any
      reachable state, a start with it succeeds exactly when the authority admits
      it for the recorded plan and writer, in time, and the inputs are intact. */
  lemma FreshTicketStartsExactly(env: Env, events: seq<Event>, p: Event, e: Event)
    requires p.PrepareCall? && Step(env, Run(env, events), p).1.Ticketed?
    requires e.StartCall? && e.ticket == Step(env, Run(env, events), p).1.ticket && e.write == Written
    ensures var t := Step(env, Run(env, events), p).0;
            && Has(t.records, e.ticket.executionID)
            && var r := Rec(t.records, e.ticket.executionID);
            Step(env, t, e).1.Launching? <==>
              && e.ticket.executionID != "" && e.ticket.secret != "" && Readable(env, r)
              && env.fenceOk(e.fence, "execution.start", e.at) && e.fence.writerGeneration == r.plan.writerGeneration
              && e.action.kind == "execution.start" && env.startOk(e.action, r.plan, e.ticket, e.fence, e.at)
              && Unix(e.at.now) < e.ticket.startNotAfter && e.filesOk
  {
    hide PathOf, Readable, Prepare, Step, Run, Inv;
    var s := Run(env, events);
    RunKeeps(env, events);
    TicketedRecord(env, s, p);
    StartsExactly(env, Step(env, s, p).0, e);
  }

  /** A ticket is issued for a prepared record that carries it. */
  lemma TicketedRecord(env: Env, s: GateState, p: Event)
    requires Inv(env, s) && p.PrepareCall? && Step(env, s, p).1.Ticketed?
    ensures var (t, reply) := Step(env, s, p);
            && t.open && Has(t.records, reply.ticket.executionID)
            && Rec(t.records, reply.ticket.executionID).state == Prepared
            && TicketOf(Rec(t.records, reply.ticket.executionID)) == reply.ticket
  {
    hide PathOf, Readable, Prepare;
    TicketNames(env, s, p);
    StepKeeps(env, s, p);
    RecordFacts(env, Step(env, s, p).0, PathOf(Step(env, s, p).1.ticket.executionID));
    hide Inv;
  }

  lemma StartsExactly(env: Env, t: GateState, e: Event)
    requires e.StartCall? && e.write == Written && t.open && Has(t.records, e.ticket.executionID)
    requires Rec(t.records, e.ticket.executionID).state == Prepared
    requires TicketOf(Rec(t.records, e.ticket.executionID)) == e.ticket
    ensures var r := Rec(t.records, e.ticket.executionID);
            Step(env, t, e).1.Launching? <==>
              && e.ticket.executionID != "" && e.ticket.secret != "" && Readable(env, r)
              && env.fenceOk(e.fence, "execution.start", e.at) && e.fence.writerGeneration == r.plan.writerGeneration
              && e.action.kind == "execution.start" && env.startOk(e.action, r.plan, e.ticket, e.fence, e.at)
              && Unix(e.at.now) < e.ticket.startNotAfter && e.filesOk
  {
    hide PathOf, Readable;
  }

  /** One piece of semantic work starts at most once, however its bindings were
      ordered and whichever writer generations prepared it. */
  lemma SameWorkStartsOnce(env: Env, events: seq<Event>, a: nat, b: nat, i: nat, j: nat)
    requires a < |events| && b < |events| && i < j < |events|
    requires events[a].PrepareCall? && ReplyAt(env, events, a).Ticketed?
    requires events[b].PrepareCall? && ReplyAt(env, events, b).Ticketed?
    requires SameWork(events[a].plan, events[b].plan)
    requires events[i].StartCall? && events[i].ticket.executionID == ReplyAt(env, events, a).ticket.executionID
    requires events[j].StartCall? && events[j].ticket.executionID == ReplyAt(env, events, b).ticket.executionID
    ensures !(ReplyAt(env, events, i).Launching? && ReplyAt(env, events, j).Launching?)
  {
    hide PathOf, Prepare, SameWork;
    RunKeeps(env, events[..a]);
    RunKeeps(env, events[..b]);
    TicketNames(env, Run(env, events[..a]), events[a]);
    TicketNames(env, Run(env, events[..b]), events[b]);
    TakeoverKeepsIdentity(env.codec, events[a].plan, events[b].plan, events[a].fence, events[b].fence);
    if ReplyAt(env, events, i).Launching? && ReplyAt(env, events, j).Launching? {
      RunKeeps(env, events[..i]);
      RunKeeps(env, events[..j]);
      LaunchConsumes(env, Run(env, events[..i]), events[i]);
      LaunchConsumes(env, Run(env, events[..j]), events[j]);
      AtMostOneStart(env, events, i, j);
      assert false;
    }
  }

  /** Over every run, with every interleaving, failed write and crash, the network
      call for one effect of one execution is made at most once. */
  lemma AtMostOneNetworkCall(env: Env, events: seq<Event>, i: nat, j: nat)
    requires i < j < |Run(env, events).sent|
    ensures Run(env, events).sent[i] != Run(env, events).sent[j]
    ensures SendMark(Run(env, events).records, Run(env, events).sent[i])
  {
    RunKeeps(env, events);
  }

  lemma {:induction false} BindingsBoundEffects(es: seq<EffectBinding>, ids: set<string>)
    requires forall k :: k in ids ==> FindEffect(es, k).Some?
    ensures |ids| <= |es|
  {
    if es == [] {
      assert ids == {};
    } else {
      var rest := ids - {es[0].planEffectID};
      BindingsBoundEffects(es[1..], rest);
      assert |ids| <= |rest + {es[0].planEffectID}| by {
        assert ids <= rest + {es[0].planEffectID};
        SubsetSize(ids, rest + {es[0].planEffectID});
      }
    }
  }

  /** Every record of every reachable state: its revision is the base of its
      state plus the revisions of its effects, and never exceeds 4 + 2 * 256. */
  lemma RevisionIsDetermined(env: Env, events: seq<Event>, path: string)
    requires path in Run(env, events).records && Run(env, events).records[path].Stored?
    ensures var r := Run(env, events).records[path].rec;
            r.revision == Base(r.state) + SumRevisions(r.effects) && r.revision <= 4 + 2 * 256
  {
    hide PathOf, FindEffect, SumRevisions;
    RunKeeps(env, events);
    var r := Run(env, events).records[path].rec;
    assert RecordInv(env, path, r);
    SumBound(r.effects);
    BindingsBoundEffects(r.plan.effects, r.effects.Keys);
  }
}
