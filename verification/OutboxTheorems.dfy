/** What every run of outbox, publisher and daemon keeps. */
module OutboxTheorems {
  import opened Common
  import opened Sorting
  import opened ResultOutbox

  /** The outbox holds exactly this content for its event. */
  predicate Holds(files: map<string, File>, i: Item) {
    i.eventID in files && files[i.eventID].Stored? && files[i.eventID].rec.item == i
  }

  ghost predicate FilesInv(files: map<string, File>) {
    forall id :: id in files && files[id].Stored? ==> files[id].rec.item.eventID == id
  }

  /** A message the publisher sends is the one its stored result determines. */
  ghost predicate Sent(env: Env, files: map<string, File>, m: Message) {
    exists i :: Holds(files, i) && i.senderID in env.routes && m == MessageOf(env, i)
  }

  ghost predicate LoopInv(env: Env, s: BridgeState, l: Loop) {
    && (forall k :: 0 <= k < |l.items| ==> Holds(s.files, l.items[k]))
    && (l.called ==> l.next < |l.items| && l.items[l.next].senderID in env.routes
                     && MessageOf(env, l.items[l.next]).key in s.daemon)
  }

  ghost predicate DaemonInv(env: Env, s: BridgeState) {
    && (forall i :: 0 <= i < |s.calls| ==> Sent(env, s.files, s.calls[i]))
    && (forall i :: 0 <= i < |s.queue| ==> s.queue[i] in s.calls && s.queue[i].key in s.daemon)
    && (forall i, j :: 0 <= i < j < |s.queue| ==> s.queue[i].key != s.queue[j].key)
    && (forall k :: k in s.daemon ==> s.daemon[k].key == k && s.daemon[k] in s.queue)
  }

  ghost predicate DoneInv(env: Env, files: map<string, File>, daemon: map<string, Message>) {
    forall id :: id in files && files[id].Stored? && files[id].rec.done ==>
      env.key(id, files[id].rec.item.digest) in daemon
  }

  ghost predicate Inv(env: Env, s: BridgeState) {
    && FilesInv(s.files) && DaemonInv(env, s) && DoneInv(env, s.files, s.daemon)
    && (forall l :: l in s.loops ==> LoopInv(env, s, s.loops[l]))
  }

  /** Files stay, with their content; only the completion mark can be added. */
  ghost predicate Grows(before: map<string, File>, after: map<string, File>) {
    forall id :: id in before ==>
      (&& id in after
       && (after[id] == before[id] || (before[id].Stored? && after[id] == Stored(before[id].rec.(done := true)))))
  }

  lemma GrowKeeps(env: Env, s: BridgeState, after: map<string, File>)
    requires Inv(env, s) && Grows(s.files, after)
    requires FilesInv(after) && DoneInv(env, after, s.daemon)
    ensures Inv(env, s.(files := after))
  {
    var t := s.(files := after);
    forall i | 0 <= i < |t.calls| ensures Sent(env, after, t.calls[i]) {
      assert Sent(env, s.files, s.calls[i]);
      var x :| Holds(s.files, x) && x.senderID in env.routes && s.calls[i] == MessageOf(env, x);
      assert Holds(after, x);
    }
    forall l | l in t.loops ensures LoopInv(env, t, t.loops[l]) {
      assert LoopInv(env, s, s.loops[l]);
    }
  }

  lemma EnqueueKeeps(env: Env, s: BridgeState, source: Source, kind: string, result: Bytes, create: Create)
    requires Inv(env, s)
    ensures Inv(env, StepEnqueue(env, s, source, kind, result, create).0)
    ensures Grows(s.files, StepEnqueue(env, s, source, kind, result, create).0.files)
  {
    hide SourceOk, Readable;
    var t := StepEnqueue(env, s, source, kind, result, create).0;
    if t != s { GrowKeeps(env, s, t.files); }
  }

  lemma {:induction false} CollectHolds(env: Env, s: BridgeState, names: seq<string>)
    requires FilesInv(s.files) && Collect(env, s.files, names).Some?
    ensures forall i :: i in Collect(env, s.files, names).value ==> Holds(s.files, i) && i.eventID in names
  {
    if names != [] { CollectHolds(env, s, names[..|names| - 1]); }
  }

  lemma SnapshotKeeps(env: Env, s: BridgeState, loop: nat, names: seq<string>)
    requires Inv(env, s)
    ensures Inv(env, StepSnapshot(env, s, loop, names).0)
  {
    hide Readable;
    var t := StepSnapshot(env, s, loop, names).0;
    if t != s {
      CollectHolds(env, s, names);
      var items := Collect(env, s.files, names).value;
      var sorted := Arranged(items, ItemKey);
      forall k | 0 <= k < |sorted| ensures Holds(s.files, sorted[k]) {
        assert sorted[k] in multiset(sorted) && sorted[k] in multiset(items);
      }
      assert LoopInv(env, t, t.loops[loop]);
    }
  }

  /** The daemon side of one call. */
  lemma CallEffects(env: Env, s: BridgeState, m: Message, queued: bool)
    requires Inv(env, s) && Sent(env, s.files, m)
    ensures var t := s.(calls := s.calls + [m]);
            Inv(env, t)
            && Inv(env, if m.key in s.daemon || !queued then t
                   else t.(daemon := s.daemon[m.key := m], queue := s.queue + [m]))
  {
    hide Sent, FilesInv, MessageOf;
    var t := s.(calls := s.calls + [m]);
    var u := t.(daemon := s.daemon[m.key := m], queue := s.queue + [m]);
    forall l | l in s.loops ensures LoopInv(env, t, t.loops[l]) && LoopInv(env, u, u.loops[l]) {
      assert LoopInv(env, s, s.loops[l]);
    }
  }

  lemma PutLoop(env: Env, s: BridgeState, loop: nat, l: Loop)
    requires Inv(env, s) && LoopInv(env, s, l)
    ensures Inv(env, s.(loops := s.loops[loop := l]))
  {
    hide Sent, MessageOf;
    var t := s.(loops := s.loops[loop := l]);
    forall k | k in t.loops ensures LoopInv(env, t, t.loops[k]) {
      if k != loop { assert LoopInv(env, s, s.loops[k]); }
    }
  }

  lemma CallKeeps(env: Env, s: BridgeState, loop: nat, cancelled: bool, daemon: Daemon)
    requires Inv(env, s)
    ensures Inv(env, StepCall(env, s, loop, cancelled, daemon).0)
  {
    hide DaemonInv, FilesInv, DoneInv;
    if loop in s.loops && !s.loops[loop].called && s.loops[loop].next < |s.loops[loop].items| {
      var l := s.loops[loop];
      var item := l.items[l.next];
      assert LoopInv(env, s, l) && Holds(s.files, item);
      var t := StepCall(env, s, loop, cancelled, daemon).0;
      if cancelled {
        forall k | k in t.loops ensures LoopInv(env, t, t.loops[k]) { assert LoopInv(env, s, s.loops[k]); }
        LoopsAreFree(env, s, t.loops);
      } else if item.senderID !in env.routes {
        PutLoop(env, s, loop, Retain(l));
      } else {
        var m := MessageOf(env, item);
        assert Sent(env, s.files, m);
        CallEffects(env, s, m, daemon.Queued?);
        var u := t.(loops := s.loops);
        assert Inv(env, u);
        PutLoop(env, u, loop, t.loops[loop]);
      }
    }
  }

  lemma LoopsAreFree(env: Env, s: BridgeState, loops: map<nat, Loop>)
    requires Inv(env, s) && forall k :: k in loops ==> LoopInv(env, s, loops[k])
    ensures Inv(env, s.(loops := loops))
  {
    hide Sent, MessageOf;
    var t := s.(loops := loops);
    forall k | k in t.loops ensures LoopInv(env, t, t.loops[k]) { assert LoopInv(env, s, loops[k]); }
  }

  lemma CompletedGrows(env: Env, s: BridgeState, i: Item, write: Write)
    requires Inv(env, s) && Holds(s.files, i) && env.key(i.eventID, i.digest) in s.daemon
    ensures Inv(env, s.(files := Completed(env, s.files, i.eventID, i.digest, write).0))
    ensures Grows(s.files, Completed(env, s.files, i.eventID, i.digest, write).0)
  {
    hide Readable, EventPattern, DigestPattern, DaemonInv, LoopInv;
    GrowKeeps(env, s, Completed(env, s.files, i.eventID, i.digest, write).0);
  }

  lemma CompleteKeeps(env: Env, s: BridgeState, loop: nat, write: Write)
    requires Inv(env, s)
    ensures Inv(env, StepComplete(env, s, loop, write).0)
    ensures Grows(s.files, StepComplete(env, s, loop, write).0.files)
  {
    hide Readable, DaemonInv, FilesInv, DoneInv, Completed;
    if loop in s.loops && s.loops[loop].called && s.loops[loop].next < |s.loops[loop].items| {
      var l := s.loops[loop];
      assert LoopInv(env, s, l);
      CompletedGrows(env, s, l.items[l.next], write);
      var t := StepComplete(env, s, loop, write).0;
      if t != s {
        var m := s.(files := t.files);
        assert LoopInv(env, m, m.loops[loop]);
        PutLoop(env, m, loop, t.loops[loop]);
      }
    }
  }

  lemma OpenKeeps(env: Env, s: BridgeState)
    requires Inv(env, s)
    ensures Inv(env, s.(open := true)) && Inv(env, s.(open := false))
  {
    hide Sent, MessageOf;
    forall l | l in s.loops
      ensures LoopInv(env, s.(open := true), s.loops[l]) && LoopInv(env, s.(open := false), s.loops[l])
    {
      assert LoopInv(env, s, s.loops[l]);
    }
  }

  lemma StepKeeps(env: Env, s: BridgeState, e: Event)
    requires Inv(env, s)
    ensures Inv(env, Step(env, s, e).0) && Grows(s.files, Step(env, s, e).0.files)
  {
    hide Inv, Completed, SourceOk, Read, MessageOf;
    match e
    case Open => OpenKeeps(env, s);
    case Stop => LoopsAreFree(env, s, map[]); OpenKeeps(env, s.(loops := map[]));
    case Enqueue(source, kind, result, create) => EnqueueKeeps(env, s, source, kind, result, create);
    case Snapshot(loop, names) => SnapshotKeeps(env, s, loop, names);
    case CallDaemon(loop, cancelled, daemon) => CallKeeps(env, s, loop, cancelled, daemon);
    case CompleteItem(loop, write) => CompleteKeeps(env, s, loop, write);
  }

  lemma {:induction false} RunKeeps(env: Env, events: seq<Event>)
    ensures Inv(env, Run(env, events))
  {
    if events != [] {
      RunKeeps(env, events[..|events| - 1]);
      StepKeeps(env, Run(env, events[..|events| - 1]), events[|events| - 1]);
    }
  }

  // ----------------------------------------------------------------- theorems

  /** One source event keeps one immutable result from the moment it is stored;
      only its completion mark can be added. */
  lemma {:induction false} ResultsAreImmutable(env: Env, events: seq<Event>, i: nat, j: nat, id: string)
    requires i <= j <= |events| && id in Run(env, events[..i]).files && Run(env, events[..i]).files[id].Stored?
    ensures var r := Run(env, events[..i]).files[id].rec;
            id in Run(env, events[..j]).files && Run(env, events[..j]).files[id].Stored?
            && Run(env, events[..j]).files[id].rec.item == r.item
            && (r.done ==> Run(env, events[..j]).files[id].rec.done)
    decreases j
  {
    if i < j {
      ResultsAreImmutable(env, events, i, j - 1, id);
      RunKeeps(env, events[..j - 1]);
      StepKeeps(env, Run(env, events[..j - 1]), events[j - 1]);
      assert events[..j][..j - 1] == events[..j - 1];
    }
  }

  /** All calls ever made for one source event are the same request: same key,
      body, expiry, session and recipient. */
  lemma CallsAgree(env: Env, events: seq<Event>, i: nat, j: nat)
    requires i < |Run(env, events).calls| && j < |Run(env, events).calls|
    ensures Run(env, events).calls[i].replyTo == Run(env, events).calls[j].replyTo ==>
              Run(env, events).calls[i] == Run(env, events).calls[j]
  {
    RunKeeps(env, events);
    var s := Run(env, events);
    assert Sent(env, s.files, s.calls[i]) && Sent(env, s.files, s.calls[j]);
  }

  /** At most one result event is ever queued for a source event. */
  lemma AtMostOneQueued(env: Env, events: seq<Event>, i: nat, j: nat)
    requires i < j < |Run(env, events).queue|
    ensures Run(env, events).queue[i].replyTo != Run(env, events).queue[j].replyTo
  {
    RunKeeps(env, events);
    var s := Run(env, events);
    var a :| 0 <= a < |s.calls| && s.calls[a] == s.queue[i];
    var b :| 0 <= b < |s.calls| && s.calls[b] == s.queue[j];
    CallsAgree(env, events, a, b);
  }

  /** No other result stored in the outbox has the idempotency key of this one. */
  predicate OwnKey(env: Env, files: map<string, File>, id: string)
    requires id in files && files[id].Stored?
  {
    forall a ::
      (a in files && files[a].Stored?
       && env.key(a, files[a].rec.item.digest) == env.key(id, files[id].rec.item.digest)) ==>
        a == id
  }

  /** A result is complete only if exactly one event was queued for it. */
  lemma CompleteMeansQueuedOnce(env: Env, events: seq<Event>, id: string)
    requires id in Run(env, events).files && Run(env, events).files[id].Stored? && Run(env, events).files[id].rec.done
    requires OwnKey(env, Run(env, events).files, id)
    ensures exists k :: 0 <= k < |Run(env, events).queue| && Run(env, events).queue[k].replyTo == id
                        && forall l :: 0 <= l < |Run(env, events).queue| && l != k ==>
                             Run(env, events).queue[l].replyTo != id
  {
    RunKeeps(env, events);
    var s := Run(env, events);
    var key := env.key(id, s.files[id].rec.item.digest);
    var m := s.daemon[key];
    var k :| 0 <= k < |s.queue| && s.queue[k] == m;
    assert m in s.calls;
    var c :| 0 <= c < |s.calls| && s.calls[c] == m;
    assert Sent(env, s.files, s.calls[c]);
    assert m.replyTo == id;
    forall l | 0 <= l < |s.queue| && l != k ensures s.queue[l].replyTo != id {
      if l < k { AtMostOneQueued(env, events, l, k); } else { AtMostOneQueued(env, events, k, l); }
    }
  }

  // -------------------------------------------------------- unreadable records

  /** The completion word is one letter longer than the pending word. */
  lemma CompletionIsLonger(i: Item)
    ensures RecordSize(Record(i, true)) == RecordSize(Record(i, false)) + 1
  {
    assert |"\"complete\""| == 10 && |"\"pending\""| == 9;
  }

  /** An enqueue that creates its record reports success for every encoding up to
      the bound, yet the record is readable only below it: the newline does not
      fit when the encoding is exactly as long as the bound. */
  lemma EnqueuedIsReadableExactly(env: Env, s: BridgeState, source: Source, kind: string, result: Bytes)
    requires s.open && SourceOk(env, source, kind, result) && source.eventID !in s.files
             && DigestPattern(env.digest(result))
    ensures StepEnqueue(env, s, source, kind, result, Created).1
    ensures Read(env, StepEnqueue(env, s, source, kind, result, Created).0.files, source.eventID).Some? <==>
              RecordSize(Record(NewItem(env, source, kind, result), false)) + 1 <= MaxRecord(env)
  {
  }

  /** Completing loses one more byte: the completed record stays readable exactly
      when the pending encoding is at least two bytes below the bound. */
  lemma CompletedIsReadableExactly(env: Env, files: map<string, File>, id: string, r: Record)
    requires Read(env, files, id) == Some(r) && !r.done && r.item.eventID == id
    ensures Completed(env, files, id, r.item.digest, Written).1
    ensures Read(env, Completed(env, files, id, r.item.digest, Written).0, id).Some? <==>
              RecordSize(r) + 2 <= MaxRecord(env)
  {
    CompletionIsLonger(r.item);
    assert r == Record(r.item, false);
  }

  lemma {:induction false} CollectSucceeds(env: Env, files: map<string, File>, names: seq<string>)
    ensures Collect(env, files, names).Some? <==> forall id :: id in names ==> Read(env, files, id).Some?
  {
    hide Read;
    if names != [] {
      CollectSucceeds(env, files, names[..|names| - 1]);
      assert names == names[..|names| - 1] + [names[|names| - 1]];
    }
  }

  /** Publishing can begin exactly when every file of the outbox is readable. */
  lemma PublishingStartsExactly(env: Env, s: BridgeState, loop: nat, names: seq<string>)
    requires s.open && loop !in s.loops && Listing(s.files, names)
    ensures StepSnapshot(env, s, loop, names).1 <==> forall id :: id in s.files ==> Read(env, s.files, id).Some?
  {
    CollectSucceeds(env, s.files, names);
  }

  /** One unreadable file stays and refuses every later publishing pass. */
  lemma {:induction false} UnreadableStopsPublishing(env: Env, events: seq<Event>, i: nat, j: nat, id: string)
    requires i <= j < |events|
    requires id in Run(env, events[..i]).files && Read(env, Run(env, events[..i]).files, id).None?
    ensures id in Run(env, events[..j]).files && Run(env, events[..j]).files[id] == Run(env, events[..i]).files[id]
    ensures events[j].Snapshot? ==> !Step(env, Run(env, events[..j]), events[j]).1
    decreases j
  {
    if i < j {
      UnreadableStopsPublishing(env, events, i, j - 1, id);
      StepSkips(env, Run(env, events[..j - 1]), events[j - 1], id);
      assert events[..j][..j - 1] == events[..j - 1];
    }
    if events[j].Snapshot? { CollectSucceeds(env, Run(env, events[..j]).files, events[j].names); }
  }

  lemma StepSkips(env: Env, s: BridgeState, e: Event, id: string)
    requires id in s.files && Read(env, s.files, id).None?
    ensures id in Step(env, s, e).0.files && Step(env, s, e).0.files[id] == s.files[id]
  {
    hide Readable, SourceOk, EventPattern, DigestPattern, MessageOf, Listing, Collect;
  }
}
