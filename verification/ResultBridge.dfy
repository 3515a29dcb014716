/** The outbox and publisher objects, together with the daemon they talk to. */
module ResultBridge {
  import opened Common
  import opened Sorting
  import opened ResultOutbox
  import OutboxTheorems

  lemma {:induction false} CollectIsDistinct(env: Env, s: BridgeState, names: seq<string>)
    requires OutboxTheorems.FilesInv(s.files) && Collect(env, s.files, names).Some?
    requires forall i, j :: 0 <= i < j < |names| ==> names[i] != names[j]
    ensures DistinctBy(Collect(env, s.files, names).value, ItemKey)
  {
    if names != [] {
      var n := |names| - 1;
      CollectIsDistinct(env, s, names[..n]);
      OutboxTheorems.CollectHolds(env, s, names[..n]);
      var rest := Collect(env, s.files, names[..n]).value;
      forall k | 0 <= k < |rest| ensures rest[k].eventID != names[n] {
        assert rest[k] in rest && rest[k].eventID in names[..n];
        var i :| 0 <= i < n && names[..n][i] == rest[k].eventID;
        assert names[i] != names[n];
      }
    }
  }

  lemma RunAppend(env: Env, s: BridgeState, events: seq<Event>, e: Event)
    ensures RunFrom(env, s, events + [e]) == Step(env, RunFrom(env, s, events), e).0
  {
    assert (events + [e])[..|events|] == events;
  }

  /** A call to the daemon or a completion made by this pass. */
  predicate OwnStep(e: Event, loop: nat) { (e.CallDaemon? || e.CompleteItem?) && e.loop == loop }

  /** A pass reads the directory once and then only calls and completes. */
  predicate PassOf(events: seq<Event>, loop: nat, names: seq<string>) {
    && events != [] && events[0] == Snapshot(loop, names)
    && forall k :: 1 <= k < |events| ==> OwnStep(events[k], loop)
  }

  class ResultBridge {
    const env: Env
    var open: bool
    var files: map<string, File>
    var loops: map<nat, Loop>
    var daemon: map<string, Message>
    ghost var calls: seq<Message>
    ghost var queue: seq<Message>

    ghost function View(): BridgeState
      reads this
    {
      BridgeState(open, files, loops, daemon, calls, queue)
    }

    ghost predicate Valid()
      reads this
    {
      OutboxTheorems.Inv(env, View())
    }

    constructor (env: Env)
      ensures this.env == env && View() == INITIAL
    {
      this.env := env;
      open, files, loops, daemon := false, map[], map[], map[];
      calls, queue := [], [];
    }

    method Enqueue(source: Source, kind: string, result: Bytes, create: Create) returns (ok: bool)
      requires Valid()
      modifies this
      ensures Valid()
      ensures View() == StepEnqueue(env, old(View()), source, kind, result, create).0
      ensures ok == StepEnqueue(env, old(View()), source, kind, result, create).1
    {
      hide SourceOk, Readable, OutboxTheorems.Inv;
      OutboxTheorems.EnqueueKeeps(env, View(), source, kind, result, create);
      if !SourceOk(env, source, kind, result) || !open { return false; }
      var record := Record(NewItem(env, source, kind, result), false);
      if source.eventID !in files {
        match create {
          case Created => files := files[source.eventID := Stored(record)]; return true;
          case CreateUndone => return false;
          case CreateLeftTorn => files := files[source.eventID := Torn]; return false;
          case CreateLeft => files := files[source.eventID := Stored(record)]; return false;
        }
      }
      var existing := Read(env, files, source.eventID);
      ok := existing.Some? && existing.value.item == record.item;
    }

    /** The pending results in event order, or nothing when a file is unreadable. */
    method Pending(names: seq<string>) returns (r: Option<seq<Item>>)
      requires Valid() && Listing(files, names)
      ensures r.Some? <==> forall id :: id in files ==> Read(env, files, id).Some?
      ensures r.Some? <==> Collect(env, files, names).Some?
      ensures r.Some? ==> r.value == Arranged(Collect(env, files, names).value, ItemKey)
    {
      hide Readable;
      OutboxTheorems.CollectSucceeds(env, files, names);
      var results := [];
      for i := 0 to |names|
        invariant Collect(env, files, names[..i]) == Some(results)
        invariant forall k :: 0 <= k < i ==> Read(env, files, names[k]).Some?
      {
        var record := Read(env, files, names[i]);
        if record.None? {
          assert names[i] in names;
          return None;
        }
        assert names[..i + 1][..i] == names[..i] && names[..i + 1][i] == names[i];
        if !record.value.done { results := results + [record.value.item]; }
      }
      assert names[..|names|] == names;
      CollectIsDistinct(env, View(), names);
      var sorted := SortedCopy(results, ItemKey);
      r := Some(sorted);
    }

    method BeginPass(loop: nat, names: seq<string>) returns (ok: bool)
      requires Valid() && Listing(files, names)
      modifies this
      ensures Valid()
      ensures View() == StepSnapshot(env, old(View()), loop, names).0
      ensures ok == StepSnapshot(env, old(View()), loop, names).1
    {
      hide Collect, OutboxTheorems.Inv;
      OutboxTheorems.SnapshotKeeps(env, View(), loop, names);
      if !open || loop in loops { return false; }
      var items := Pending(names);
      if items.None? { return false; }
      loops := loops[loop := Loop(items.value, 0, false, 0, 0)];
      ok := true;
    }

    method CallDaemon(loop: nat, cancelled: bool, outcome: Daemon) returns (ok: bool)
      requires Valid()
      modifies this
      ensures Valid()
      ensures View() == StepCall(env, old(View()), loop, cancelled, outcome).0
      ensures ok == StepCall(env, old(View()), loop, cancelled, outcome).1
    {
      hide OutboxTheorems.Inv;
      OutboxTheorems.CallKeeps(env, View(), loop, cancelled, outcome);
      if loop !in loops || loops[loop].called || loops[loop].next >= |loops[loop].items| { return false; }
      var l := loops[loop];
      var result := l.items[l.next];
      if cancelled {
        loops := loops - {loop};
        return false;
      }
      if result.senderID !in env.routes {
        loops := loops[loop := Retain(l)];
        return false;
      }
      var route := env.routes[result.senderID];
      var protocol := "mcp";
      if result.kind == "a2a.message" { protocol := "a2a"; }
      var expires := (result.createdAt + env.lifetime) % 0x1_0000_0000_0000_0000;
      var m := Message(result.conversationID, result.eventID, result.kind, protocol, result.result,
                       env.key(result.eventID, result.digest), route.sessionID, route.endpointID, expires);
      assert m == MessageOf(env, result);
      calls := calls + [m];
      if outcome.Rejected? {
        loops := loops[loop := Retain(l)];
        return false;
      }
      if m.key !in daemon {
        daemon := daemon[m.key := m];
        queue := queue + [m];
      }
      if !outcome.answered {
        loops := loops[loop := Retain(l)];
        return false;
      }
      loops := loops[loop := l.(called := true)];
      ok := true;
    }

    method Complete(id: string, digest: string, write: Write) returns (ok: bool)
      modifies this`files
      ensures (files, ok) == Completed(env, old(files), id, digest, write)
    {
      hide Readable, EventPattern, DigestPattern;
      if !EventPattern(id) || !DigestPattern(digest) { return false; }
      var record := Read(env, files, id);
      if record.None? || record.value.item.digest != digest { return false; }
      if record.value.done { return true; }
      if write != FailedOld { files := files[id := Stored(record.value.(done := true))]; }
      ok := write == Written;
    }

    method CompleteItem(loop: nat, write: Write) returns (ok: bool)
      requires Valid()
      modifies this
      ensures Valid()
      ensures View() == StepComplete(env, old(View()), loop, write).0
      ensures ok == StepComplete(env, old(View()), loop, write).1
    {
      hide OutboxTheorems.Inv, Completed;
      OutboxTheorems.CompleteKeeps(env, View(), loop, write);
      if loop !in loops || !loops[loop].called || loops[loop].next >= |loops[loop].items| || !open { return false; }
      var l := loops[loop];
      ok := Complete(l.items[l.next].eventID, l.items[l.next].digest, write);
      loops := loops[loop := if ok then Count(l) else Retain(l)];
    }

    /** One item of a pass: call the daemon and, when it answers, complete. */
    method PublishItem(loop: nat, answer: Daemon, write: Write, ghost start: BridgeState, ghost before: seq<Event>)
      returns (queued: bool, ghost events: seq<Event>)
      requires Valid() && open && View() == RunFrom(env, start, before)
      requires loop in loops && !loops[loop].called && loops[loop].next < |loops[loop].items|
      modifies this
      ensures Valid() && open && View() == RunFrom(env, start, events)
      ensures loop in loops && !loops[loop].called && loops[loop].items == old(loops[loop].items)
      ensures loops[loop] == if queued then Count(old(loops[loop])) else Retain(old(loops[loop]))
      ensures before <= events && forall k :: |before| <= k < |events| ==> OwnStep(events[k], loop)
    {
      hide StepCall, StepComplete, OutboxTheorems.Inv, RunFrom;
      CallShape(env, View(), loop, false, answer);
      RunAppend(env, start, before, Event.CallDaemon(loop, false, answer));
      var called := CallDaemon(loop, false, answer);
      events := before + [Event.CallDaemon(loop, false, answer)];
      queued := false;
      if called {
        CompleteShape(env, View(), loop, write);
        RunAppend(env, start, events, Event.CompleteItem(loop, write));
        queued := CompleteItem(loop, write);
        events := events + [Event.CompleteItem(loop, write)];
      }
    }

    /** One publishing pass with nothing interleaved: it is one of the runs, and
        when it is not cancelled every pending result ends queued or retained. */
    method PublishPending(loop: nat, names: seq<string>, answers: seq<Daemon>, writes: seq<Write>, cancelAt: nat)
      returns (ok: bool, queued: nat, retained: nat, ghost events: seq<Event>)
      requires Valid() && open && loop !in loops && Listing(files, names)
      modifies this
      ensures Valid() && View() == RunFrom(env, old(View()), events)
      ensures PassOf(events, loop, names)
      ensures ok <==> old(Collect(env, files, names)).Some?
      ensures ok && loop in loops ==> queued == loops[loop].queued && retained == loops[loop].retained
      ensures ok ==> queued + retained == if cancelAt < |old(Collect(env, files, names)).value| then cancelAt
                                          else |old(Collect(env, files, names)).value|
    {
      hide Collect, OutboxTheorems.Inv, RunFrom, Step;
      queued, retained := 0, 0;
      events := [Snapshot(loop, names)];
      FirstStep(env, View(), Snapshot(loop, names));
      ghost var start := View();
      ok := BeginPass(loop, names);
      SnapshotStep(env, start, loop, names);
      if !ok { return; }
      var total := |loops[loop].items|;
      var i := 0;
      ArrangedLength(old(Collect(env, files, names)).value);
      while i < total
        invariant Valid() && open && View() == RunFrom(env, start, events)
        invariant i <= total && i <= cancelAt && PassOf(events, loop, names)
        invariant loop in loops && loops[loop].next == i && |loops[loop].items| == total && !loops[loop].called
        invariant queued + retained == i && queued == loops[loop].queued && retained == loops[loop].retained
      {
        if i == cancelAt {
          CancelStep(env, start, events, View(), loop);
          CallShape(env, View(), loop, true, Rejected);
          events := events + [Event.CallDaemon(loop, true, Rejected)];
          var _ := CallDaemon(loop, true, Rejected);
          return;
        }
        var answer := if i < |answers| then answers[i] else Rejected;
        var write := if i < |writes| then writes[i] else Written;
        var counted;
        ghost var before := events;
        counted, events := PublishItem(loop, answer, write, start, before);
        assert forall k :: 0 <= k < |before| ==> events[k] == before[k];
        if counted { queued := queued + 1; } else { retained := retained + 1; }
        i := i + 1;
      }
    }

    static lemma FirstStep(env: Env, s: BridgeState, e: Event)
      ensures RunFrom(env, s, [e]) == Step(env, s, e).0
    {
      RunAppend(env, s, [], e);
      assert [] + [e] == [e];
    }

    static lemma SnapshotStep(env: Env, s: BridgeState, loop: nat, names: seq<string>)
      ensures Step(env, s, Snapshot(loop, names)) == StepSnapshot(env, s, loop, names)
    {
    }

    static lemma CancelStep(env: Env, start: BridgeState, events: seq<Event>, s: BridgeState, loop: nat)
      requires s == RunFrom(env, start, events)
      ensures RunFrom(env, start, events + [Event.CallDaemon(loop, true, Rejected)])
          == StepCall(env, s, loop, true, Rejected).0
    {
      RunAppend(env, start, events, Event.CallDaemon(loop, true, Rejected));
    }

    static lemma ArrangedLength(xs: seq<Item>)
      ensures |Arranged(xs, ItemKey)| == |xs|
    {
      MembersAgree(Arranged(xs, ItemKey), xs);
    }

    /** How one call moves its pass. */
    static lemma CallShape(env: Env, s: BridgeState, loop: nat, cancelled: bool, answer: Daemon)
      requires loop in s.loops && !s.loops[loop].called && s.loops[loop].next < |s.loops[loop].items|
      ensures var t := StepCall(env, s, loop, cancelled, answer);
              t.0.open == s.open
              && (!cancelled ==> loop in t.0.loops
                                 && t.0.loops[loop] == if t.1 then s.loops[loop].(called := true)
                                     else Retain(s.loops[loop]))
              && (cancelled ==> loop !in t.0.loops)
    {
    }

    static lemma CompleteShape(env: Env, s: BridgeState, loop: nat, write: Write)
      requires s.open && loop in s.loops && s.loops[loop].called && s.loops[loop].next < |s.loops[loop].items|
      ensures var t := StepComplete(env, s, loop, write);
              t.0.open && loop in t.0.loops && t.0.loops[loop] == if t.1 then Count(s.loops[loop])
                  else Retain(s.loops[loop])
    {
    }
  }
}
