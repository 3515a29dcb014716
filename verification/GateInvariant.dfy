/** What every durable record satisfies in every reachable state, how records
    may change, and why each step keeps both. */
module GateInvariant {
  import opened Common
  import opened ExecutionPlan
  import opened Gate

  // ----------------------------------------------------------- state revision

  ghost function SumRevisions(effects: map<string, EffectRecord>): nat
    decreases |effects|
  {
    if effects == map[] then 0
    else
      var k :| k in effects;
      effects[k].revision + SumRevisions(effects - {k})
  }

  lemma {:induction false} SumRemove(effects: map<string, EffectRecord>, k: string)
    requires k in effects
    ensures SumRevisions(effects) == effects[k].revision + SumRevisions(effects - {k})
    decreases |effects|
  {
    var l :| l in effects && SumRevisions(effects) == effects[l].revision + SumRevisions(effects - {l});
    if l != k {
      SumRemove(effects - {l}, k);
      SumRemove(effects - {k}, l);
      assert effects - {l} - {k} == effects - {k} - {l};
    }
  }

  lemma SumUpdate(effects: map<string, EffectRecord>, k: string, e: EffectRecord)
    ensures SumRevisions(effects[k := e]) == SumRevisions(effects - {k}) + e.revision
    ensures k in effects ==> SumRevisions(effects[k := e]) == SumRevisions(effects) - effects[k].revision + e.revision
    ensures k !in effects ==> SumRevisions(effects[k := e]) == SumRevisions(effects) + e.revision
  {
    SumRemove(effects[k := e], k);
    assert effects[k := e] - {k} == effects - {k};
    if k in effects { SumRemove(effects, k); } else { assert effects - {k} == effects; }
  }

  lemma {:induction false} SumBound(effects: map<string, EffectRecord>)
    requires forall k :: k in effects ==> effects[k].revision <= 2
    ensures SumRevisions(effects) <= 2 * |effects|
    decreases |effects|
  {
    if effects != map[] {
      var k :| k in effects && SumRevisions(effects) == effects[k].revision + SumRevisions(effects - {k});
      SumBound(effects - {k});
      assert (effects - {k}).Keys == effects.Keys - {k};
    }
  }

  function Base(st: ExecState): nat {
    match st
    case Prepared => 1
    case Starting => 2
    case Running => 3
    case AmbiguousStart => 3
    case _ => 4
  }

  // ---------------------------------------------------------------- invariant

  ghost predicate RecordInv(env: Env, path: string, r: Record) {
    && PathOf(r.plan.executionID) == path
    && env.codec.slotID(SlotOf(r.plan)) == Some(r.plan.executionID)
    && |r.plan.effects| <= MAX_EFFECTS
    && (forall k :: k in r.effects ==> FindEffect(r.plan.effects, k).Some?)
    && (forall k :: k in r.effects ==> r.effects[k].revision == if r.effects[k].state == Submitted then 1 else 2)
    && (r.state == Prepared || r.state == Starting || r.state == AmbiguousStart ==> r.effects == map[])
    && r.revision == Base(r.state) + SumRevisions(r.effects)
  }

  ghost predicate RecordsInv(env: Env, records: map<string, File>) {
    forall p :: p in records && records[p].Stored? ==> RecordInv(env, p, records[p].rec)
  }

  /** The record of an execution identity. */
  predicate Has(records: map<string, File>, id: string) {
    PathOf(id) in records && records[PathOf(id)].Stored? && records[PathOf(id)].rec.plan.executionID == id
  }

  function Rec(records: map<string, File>, id: string): Record
    requires Has(records, id)
  {
    records[PathOf(id)].rec
  }

  ghost predicate CallInv(records: map<string, File>, c: Call) {
    && Has(records, c.executionID) && c.path == PathOf(c.executionID)
    && var r := Rec(records, c.executionID);
    && c.effectID in r.effects && r.effects[c.effectID].state == Submitted
    && r.effects[c.effectID].stableID == c.stableID
  }

  ghost predicate CallsInv(s: GateState) {
    && (!s.open ==> s.calls == map[])
    && (forall i :: i in s.calls ==> CallInv(s.records, s.calls[i]))
    && (forall i, j :: i in s.calls && j in s.calls && i != j ==>
          (s.calls[i].executionID, s.calls[i].effectID) != (s.calls[j].executionID, s.calls[j].effectID))
  }

  ghost predicate SendMark(records: map<string, File>, x: (string, string)) {
    Has(records, x.0) && x.1 in Rec(records, x.0).effects
  }

  ghost predicate SentInv(s: GateState) {
    && (forall i :: 0 <= i < |s.sent| ==> SendMark(s.records, s.sent[i]))
    && (forall i, j :: 0 <= i < j < |s.sent| ==> s.sent[i] != s.sent[j])
    && (forall i :: i in s.calls && s.calls[i].phase.Unsent? ==>
        (s.calls[i].executionID, s.calls[i].effectID) !in s.sent)
  }

  ghost predicate Inv(env: Env, s: GateState) {
    RecordsInv(env, s.records) && CallsInv(s) && SentInv(s)
  }

  // ------------------------------------------------------ how records change

  predicate Absorbing(st: ExecState) { TerminalState(st) || st == AmbiguousStart || st == AmbiguousRun }

  /** One durable update: strictly newer, same identity and ticket, never back to
      prepared, absorbing states stay, submitted effects stay submitted at least,
      terminal effects never change. */
  ghost predicate RecordGrows(r: Record, t: Record) {
    && r.revision < t.revision
    && (t.plan, t.planDigest, t.ticketSecret, t.startNotAfter)
        == (r.plan, r.planDigest, r.ticketSecret, r.startNotAfter)
    && (r.state != Prepared ==> t.state != Prepared)
    && (Absorbing(r.state) ==> t.state == r.state && t.outcome == r.outcome)
    && (forall k :: k in r.effects ==>
          k in t.effects && t.effects[k].stableID == r.effects[k].stableID
          && t.effects[k].requestDigest == r.effects[k].requestDigest
          && (r.effects[k].state == Terminal ==> t.effects[k] == r.effects[k]))
  }

  ghost predicate FileGrows(f: File, g: File) {
    f == g || (f.Stored? && g.Stored? && RecordGrows(f.rec, g.rec))
  }

  ghost predicate Grows(before: map<string, File>, after: map<string, File>) {
    forall p :: p in before ==> p in after && FileGrows(before[p], after[p])
  }

  lemma GrowsTransitive(a: map<string, File>, b: map<string, File>, c: map<string, File>)
    requires Grows(a, b) && Grows(b, c)
    ensures Grows(a, c)
  {
    forall p | p in a ensures p in c && FileGrows(a[p], c[p]) {
      assert FileGrows(a[p], b[p]) && FileGrows(b[p], c[p]);
    }
  }

  /** Growing records keep the whole invariant, once the calls in flight still
      find their submissions. */
  lemma RecordsGrow(env: Env, s: GateState, after: map<string, File>)
    requires Inv(env, s) && Grows(s.records, after) && RecordsInv(env, after)
    requires forall i :: i in s.calls ==> CallInv(after, s.calls[i])
    ensures Inv(env, s.(records := after))
  {
    var t := s.(records := after);
    forall i | 0 <= i < |t.sent| ensures SendMark(after, t.sent[i]) {
      assert SendMark(s.records, s.sent[i]);
      assert FileGrows(s.records[PathOf(s.sent[i].0)], after[PathOf(s.sent[i].0)]);
    }
  }

  lemma EndCalls(env: Env, s: GateState, ended: set<nat>)
    requires Inv(env, s)
    ensures Inv(env, s.(calls := s.calls - ended))
  {
    var t := s.(calls := s.calls - ended);
    assert forall i :: i in t.calls ==> i in s.calls && t.calls[i] == s.calls[i];
  }

  lemma ReplaceGrows(env: Env, records: map<string, File>, path: string, next: Record, write: Write)
    requires path in records && records[path].Stored? && RecordGrows(records[path].rec, next)
    requires RecordsInv(env, records) && RecordInv(env, path, next)
    ensures Grows(records, Replace(records, path, next, write))
    ensures RecordsInv(env, Replace(records, path, next, write))
  {
    var after := Replace(records, path, next, write);
    forall p | p in records ensures p in after && FileGrows(records[p], after[p]) {
    }
  }

  /** Replacing one record by a grown one, with no call waiting on what changed. */
  lemma ReplaceKeeps(env: Env, s: GateState, path: string, next: Record, write: Write)
    requires Inv(env, s) && path in s.records && s.records[path].Stored?
    requires RecordGrows(s.records[path].rec, next) && RecordInv(env, path, next)
    requires forall i :: i in s.calls && s.calls[i].path == path ==>
               Waits(next, s.records[path].rec, s.calls[i].effectID)
    ensures Grows(s.records, Replace(s.records, path, next, write))
    ensures Inv(env, s.(records := Replace(s.records, path, next, write)))
  {
    var after := Replace(s.records, path, next, write);
    ReplaceGrows(env, s.records, path, next, write);
    forall i | i in s.calls ensures CallInv(after, s.calls[i]) {
      CallKept(s.records, path, next, write, s.calls[i]);
    }
    RecordsGrow(env, s, after);
  }

  lemma CallKept(records: map<string, File>, path: string, next: Record, write: Write, c: Call)
    requires path in records && records[path].Stored? && next.plan == records[path].rec.plan
    requires CallInv(records, c) && (c.path == path ==> Waits(next, records[path].rec, c.effectID))
    ensures CallInv(Replace(records, path, next, write), c)
  {
    hide PathOf;
  }

  /** The submission an in-flight call waits on is carried over unchanged. */
  ghost predicate Waits(next: Record, r: Record, effectID: string) {
    effectID in r.effects ==> effectID in next.effects && next.effects[effectID] == r.effects[effectID]
  }

  // ------------------------------------------------------------- step by step

  lemma RecoverOne(env: Env, records: map<string, File>, path: string, write: Write)
    requires RecordsInv(env, records) && path in records && records[path].Stored?
             && Interrupted(records[path].rec.state)
    ensures var after := Replace(records, path, Recovered(records[path].rec), write);
            RecordsInv(env, after) && Grows(records, after)
  {
    ReplaceGrows(env, records, path, Recovered(records[path].rec), write);
  }

  ghost predicate Settled(records: map<string, File>, p: string) {
    p in records && records[p].Stored? && !Interrupted(records[p].rec.state)
  }

  /** Recovery only grows records, and a successful one leaves nothing it listed
      in an interrupted state. */
  lemma {:induction false} RecoverKeeps(env: Env, records: map<string, File>, names: seq<string>, writes: seq<Write>)
    requires RecordsInv(env, records)
    ensures RecordsInv(env, Recover(env, records, names, writes).0)
    ensures Grows(records, Recover(env, records, names, writes).0)
    ensures Recover(env, records, names, writes).1 ==>
              forall p :: p in names ==> Settled(Recover(env, records, names, writes).0, p)
    decreases |names|
  {
    if names != [] && Read(env, records, names[0]).Some? {
      var r := Read(env, records, names[0]).value;
      var w := if writes == [] then Written else writes[0];
      var next := if Interrupted(r.state) then Replace(records, names[0], Recovered(r), w) else records;
      var rest := if !Interrupted(r.state) then writes else if writes == [] then [] else writes[1..];
      if Interrupted(r.state) { RecoverOne(env, records, names[0], w); }
      if !Interrupted(r.state) || w == Written {
        RecoverKeeps(env, next, names[1..], rest);
        GrowsTransitive(records, next, Recover(env, next, names[1..], rest).0);
        RecoverRetains(env, next, names[1..], rest, names[0]);
      }
    }
  }

  /** A settled file is not touched again. */
  lemma {:induction false} RecoverRetains(env: Env, records: map<string, File>, names: seq<string>, writes: seq<Write>,
                                          p: string)
    requires Settled(records, p)
    ensures p in Recover(env, records, names, writes).0 && Recover(env, records, names, writes).0[p] == records[p]
    decreases |names|
  {
    if names != [] && Read(env, records, names[0]).Some? {
      var r := Read(env, records, names[0]).value;
      if !Interrupted(r.state) {
        RecoverRetains(env, records, names[1..], writes, p);
      } else {
        var w := if writes == [] then Written else writes[0];
        var next := Replace(records, names[0], Recovered(r), w);
        if w == Written {
          RecoverRetains(env, next, names[1..], if writes == [] then [] else writes[1..], p);
        }
      }
    }
  }
}
