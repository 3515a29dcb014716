/** What every run of the update manager keeps. */
module UpdateTheorems {
  import opened Common
  import opened Manifest
  import opened ManifestFile
  import opened SoftwareUpdate

  // --------------------------------------------- consistency of the slot roles

  /** Outside a trial the active slot is the known-good one; during a trial
      nothing is pending and the previous slot is the known-good one, which the
      candidate does not occupy. */
  predicate RolesOk(s: PState) {
    && ValidState(s)
    && (!s.awaiting ==> s.active == s.knownGood)
    && (s.awaiting ==> s.pending == "" && s.previous == s.knownGood && s.knownGood != s.active)
  }

  lemma TransitionsKeepRoles(s: PState, revision: nat)
    requires RolesOk(s)
    ensures !s.awaiting && s.pending == "" ==> RolesOk(Staged(s))
    ensures !s.awaiting && ValidSlot(s.pending) ==> RolesOk(Activated(s))
    ensures s.awaiting ==> RolesOk(Confirmed(s, revision)) && RolesOk(Booted(s)) && RolesOk(FellBack(s))
    ensures s.awaiting && ValidSlot(s.knownGood) ==> RolesOk(RolledBack(s))
  {
  }

  /** What disk may hold while memory holds `m`, when a store may report failure
      after taking effect: `m` itself, or one transition attempted from it. */
  ghost predicate Near(m: PState, d: PState) {
    || d == m
    || (!m.awaiting && m.pending == "" && d == Staged(m))
    || (!m.awaiting && m.pending != "" && d == Activated(m))
    || (m.awaiting && m.boot && exists r: nat :: d == Confirmed(m, r))
    || (m.awaiting && ValidSlot(m.knownGood) && d == RolledBack(m))
  }

  ghost predicate WeakInv(s: UState) {
    && (s.disk.state.Some? ==> RolesOk(s.disk.state.value))
    && (s.process.Up? ==> RolesOk(s.process.mem) && s.disk.state.Some? && Near(s.process.mem, s.disk.state.value))
  }

  lemma WeakStep(env: Env, s: UState, e: Event)
    requires WeakInv(s)
    ensures WeakInv(Step(env, s, e).0)
  {
    hide StageOps, AllInstalled, Acceptable, ArtifactOk, ValidState;
    if s.process.Up? { TransitionsKeepRoles(s.process.mem, 0); }
    if s.disk.state.Some? { TransitionsKeepRoles(s.disk.state.value, 0); }
    match e
    case Open(store) => WeakOpen(env, s, store);
    case Stop =>
    case Stage(m, bytes, partial, now, stop, removed, store) =>
    case Activate(store) =>
    case Confirm(store) => WeakConfirm(env, s, store);
    case Rollback(store) =>
  }

  lemma WeakOpen(env: Env, s: UState, store: Write)
    requires WeakInv(s)
    ensures WeakInv(StepOpen(env, s, store).0)
  {
    hide AllInstalled, Cleared;
    assert RolesOk(FRESH);
    if s.disk.state.Some? { TransitionsKeepRoles(s.disk.state.value, 0); }
  }

  lemma WeakConfirm(env: Env, s: UState, store: Write)
    requires WeakInv(s)
    ensures WeakInv(StepConfirm(env, s, store).0)
  {
    hide ValidState;
    if s.process.Up? && ReadManifest(env, s.disk, s.process.mem.active).Some? {
      TransitionsKeepRoles(s.process.mem, ReadManifest(env, s.disk, s.process.mem.active).value.securityRevision);
    }
  }

  lemma {:induction false} WeakRun(env: Env, events: seq<Event>)
    ensures WeakInv(Run(env, events))
  {
    if events != [] {
      WeakRun(env, events[..|events| - 1]);
      WeakStep(env, Run(env, events[..|events| - 1]), events[|events| - 1]);
    }
  }

  /** In every run, even when a failing store may already have taken effect, a
      call that changes the files of a slot changes neither the slot that is
      durably active or known good nor the one the process believes to be. */
  lemma StageSparesTheKnownGood(env: Env, events: seq<Event>, m: Manifest, bytes: Bytes, partial: Bytes, now: nat,
                                stop: nat,
                                removed: bool, store: Write, x: string)
    requires ValidSlot(x)
    requires var s := Run(env, events);
             SlotAt(StepStage(env, s, m, bytes, partial, now, stop, removed, store).0.disk, x) != SlotAt(s.disk, x)
    ensures var s := Run(env, events);
            && s.process.Up? && s.disk.state.Some?
            && x != s.process.mem.knownGood && x != s.process.mem.active
            && x != s.disk.state.value.knownGood && x != s.disk.state.value.active
  {
    hide StageOps, AllInstalled, Acceptable, ArtifactOk;
    WeakRun(env, events);
  }

  // ----------------------------------------------------- orderly store failures

  /** The manifest file of `m` reads back as `m`. */
  predicate Faithful(m: Manifest) { ReadBack(m) == Some(m) }

  /** A staging that puts its manifest in charge of a slot. */
  predicate Completes(env: Env, e: Event) {
    && e.Stage? && e.stop >= STAGE_OPS && e.store != FailedOld
    && ManifestOk(env, e.manifest, 0) && ArtifactOk(env, e.manifest, e.bytes)
  }

  /** A store by a running process that reported failure after taking effect. */
  predicate Late(e: Event) {
    (e.Stage? || e.Activate? || e.Confirm? || e.Rollback?) && e.store == FailedNew
  }

  /** Every manifest put in charge of a slot reads back, and a process whose store
      failed late ends before it does anything else. */
  predicate Orderly(env: Env, events: seq<Event>) {
    && (forall k :: 0 <= k < |events| && Completes(env, events[k]) ==> Faithful(events[k].manifest))
    && (forall k :: 0 < k < |events| && Late(events[k - 1]) ==> events[k].Stop?)
  }

  predicate RevisionOk(env: Env, d: Disk, s: PState) {
    if s.knownGood == "" then s.revision == 0
    else ReadManifest(env, d, s.knownGood).Some?
         && ReadManifest(env, d, s.knownGood).value.securityRevision == s.revision
  }

  ghost predicate Durable(env: Env, d: Disk, opens: nat) {
    d.state.Some? ==>
      && RolesOk(d.state.value) && AllInstalled(env, d, d.state.value) && RevisionOk(env, d, d.state.value)
      && (d.state.value.awaiting ==> opens <= if d.state.value.boot then 1 else 0)
  }

  ghost predicate Inv(env: Env, s: UState) {
    && Durable(env, s.disk, s.opens)
    && (s.process.Up? ==>
        s.disk.state == Some(s.process.mem) && (s.process.mem.awaiting && s.process.mem.boot ==> s.opens == 1))
  }

  lemma ClearedInstalled(env: Env, d: Disk, x: string, revision: nat)
    ensures Installed(env, d.(a := Cleared(d.a), b := Cleared(d.b)), x, revision) == Installed(env, d, x, revision)
    ensures ReadManifest(env, d.(a := Cleared(d.a), b := Cleared(d.b)), x) == ReadManifest(env, d, x)
  {
  }

  /** Changing the state only: the same slots stay installed if the revision does
      not rise and no new slot is referenced. */
  lemma KeepInstalled(env: Env, d: Disk, s: PState, t: PState)
    requires AllInstalled(env, d, s) && t.revision <= s.revision
    requires forall x :: x in ["a", "b"] && Referenced(t, x) ==> Referenced(s, x)
    ensures AllInstalled(env, d.(state := Some(t)), t)
  {
    hide ManifestOk, ArtifactOk;
    forall x | x in ["a", "b"] && Referenced(t, x) ensures Installed(env, d.(state := Some(t)), x, t.revision) {
      assert Installed(env, d, x, s.revision);
      LowerRevision(env, d, x, s.revision, t.revision);
    }
  }

  lemma LowerRevision(env: Env, d: Disk, x: string, high: nat, low: nat)
    requires Installed(env, d, x, high) && low <= high
    ensures Installed(env, d, x, low)
  {
  }

  lemma OpenKeeps(env: Env, s: UState, store: Write)
    requires Inv(env, s)
    ensures Inv(env, StepOpen(env, s, store).0)
  {
    hide ManifestOk, ArtifactOk, ReadBack;
    if s.process.Down? && s.disk.state.Some? {
      var d := s.disk.(a := Cleared(s.disk.a), b := Cleared(s.disk.b));
      var st := s.disk.state.value;
      forall x | x in ["a", "b"] { ClearedInstalled(env, s.disk, x, st.revision); }
      TransitionsKeepRoles(st, 0);
      if st.awaiting {
        KeepInstalled(env, d, st, Booted(st));
        KeepInstalled(env, d, st, FellBack(st));
      }
    }
  }

  /** A completely staged slot passes the installation check. */
  lemma FullyStaged(env: Env, f: SlotFiles, m: Manifest, bytes: Bytes, partial: Bytes)
    ensures var g := StageOps(f, STAGE_OPS, m, bytes, partial);
            g.artifact == Some((bytes, true)) && g.manifest == Some(m)
  {
    Overwritten(f, STAGE_OPS, m, bytes, partial);
  }

  /** What one call leaves: a sound disk, and a process that agrees with it unless
      its store failed late. */
  ghost predicate Left(env: Env, t: UState, store: Write) {
    Durable(env, t.disk, t.opens) && (store != FailedNew ==> Inv(env, t))
  }

  lemma StageKeeps(env: Env, s: UState, m: Manifest, bytes: Bytes, partial: Bytes, now: nat, stop: nat, removed: bool,
                   store: Write)
    requires Inv(env, s)
    requires Completes(env, Stage(m, bytes, partial, now, stop, removed, store)) ==> Faithful(m)
    ensures Left(env, StepStage(env, s, m, bytes, partial, now, stop, removed, store).0, store)
  {
    hide StageOps, Structured, ReadBack, Trusted;
    if s.process.Up? && s.process.mem.pending == "" && !s.process.mem.awaiting
       && Acceptable(env, m, s.process.mem.revision, now) {
      var mem := s.process.mem;
      var x := Target(mem);
      var n := StageReach(env, m, bytes, stop);
      var d := PutSlot(s.disk, x, StageLeft(SlotAt(s.disk, x), n, m, bytes, partial, removed));
      TransitionsKeepRoles(mem, 0);
      forall y | y in ["a", "b"] && Referenced(mem, y) ensures Installed(env, d, y, mem.revision) {
        assert y != x && SlotAt(d, y) == SlotAt(s.disk, y);
      }
      if n == STAGE_OPS && store != FailedOld {
        FullyStaged(env, SlotAt(s.disk, x), m, bytes, partial);
        assert Installed(env, d, x, mem.revision);
        assert AllInstalled(env, d.(state := Some(Staged(mem))), Staged(mem));
      }
    }
  }

  lemma ConfirmKeeps(env: Env, s: UState, store: Write)
    requires Inv(env, s)
    ensures Left(env, StepConfirm(env, s, store).0, store)
  {
    hide ArtifactOk, Structured, ReadBack, Trusted;
    var t := StepConfirm(env, s, store).0;
    if t != s {
      var mem := s.process.mem;
      var m := ReadManifest(env, s.disk, mem.active).value;
      assert mem.active in ["a", "b"] && Referenced(mem, mem.active);
      assert Installed(env, s.disk, mem.active, mem.revision);
      var next := Confirmed(mem, m.securityRevision);
      TransitionsKeepRoles(mem, m.securityRevision);
      assert next.revision == m.securityRevision;
      forall x | x in ["a", "b"] && Referenced(next, x) ensures Installed(env, t.disk, x, next.revision) {
        assert x == mem.active;
      }
    }
  }

  lemma OthersKeep(env: Env, s: UState, e: Event)
    requires Inv(env, s) && (e.Activate? || e.Rollback?)
    ensures Left(env, Step(env, s, e).0, e.store)
  {
    hide Installed, Structured, ReadBack;
    if s.process.Up? {
      var mem := s.process.mem;
      TransitionsKeepRoles(mem, 0);
      if e.Activate? && !mem.awaiting && ValidSlot(mem.pending) { KeepInstalled(env, s.disk, mem, Activated(mem)); }
      if e.Rollback? && mem.awaiting && ValidSlot(mem.knownGood) { KeepInstalled(env, s.disk, mem, RolledBack(mem)); }
    }
  }

  lemma StepKeeps(env: Env, s: UState, e: Event)
    requires Inv(env, s) && (Completes(env, e) ==> Faithful(e.manifest))
    ensures var t := Step(env, s, e).0;
            Durable(env, t.disk, t.opens) && (!Late(e) ==> Inv(env, t))
  {
    match e
    case Open(store) => OpenKeeps(env, s, store);
    case Stage(m, bytes, partial, now, stop, removed, store) =>
      StageKeeps(env, s, m, bytes, partial, now, stop, removed, store);
    case Confirm(store) => ConfirmKeeps(env, s, store);
    case Stop =>
    case _ => OthersKeep(env, s, e);
  }

  lemma {:induction false} RunKeeps(env: Env, events: seq<Event>)
    requires Orderly(env, events)
    ensures Durable(env, Run(env, events).disk, Run(env, events).opens)
    ensures events == [] || !Late(events[|events| - 1]) ==> Inv(env, Run(env, events))
  {
    hide Durable, Completes, Faithful;
    if events != [] {
      var n := |events| - 1;
      assert forall k :: 0 <= k < n ==> events[..n][k] == events[k];
      RunKeeps(env, events[..n]);
      if n == 0 || !Late(events[n - 1]) { StepKeeps(env, Run(env, events[..n]), events[n]); }
    } else {
      NothingStored(env);
    }
  }

  lemma NothingStored(env: Env)
    ensures Inv(env, INITIAL) && Durable(env, INITIAL.disk, INITIAL.opens)
  {
  }

  /** Recovery never rejects a state this manager wrote: stop the process at any
      moment of an orderly run, between any two file operations, right after a
      store that failed late, and Open succeeds. */
  lemma RecoveryAcceptsItsOwnState(env: Env, events: seq<Event>)
    requires Orderly(env, events)
    ensures StepOpen(env, Run(env, events).(process := Down), Written).1
  {
    hide ManifestOk, ArtifactOk, ReadBack;
    RunKeeps(env, events);
    var s := Run(env, events);
    if s.disk.state.Some? {
      var st := s.disk.state.value;
      forall x | x in ["a", "b"] { ClearedInstalled(env, s.disk, x, st.revision); }
      TransitionsKeepRoles(st, 0);
    }
  }

  /** The signature of `m` does not also verify the different message that the text
      read back from its file would have. */
  predicate Unforged(env: Env, m: Manifest) {
    Trusted(env, CleanManifest(m)) ==> Encode(CleanManifest(m)) == Encode(m)
  }

  /** A staged manifest is accepted on reading exactly when it comes back as it
      was: it fits the file, and its texts are UTF-8. */
  lemma InstalledExactly(env: Env, m: Manifest, revision: nat, bytes: Bytes)
    requires ManifestOk(env, m, revision) && ArtifactOk(env, m, bytes) && Unforged(env, m)
    ensures (ReadBack(m).Some? && ManifestOk(env, ReadBack(m).value, revision)
             && ArtifactOk(env, ReadBack(m).value, bytes)) <==>
            FileSize(m) <= MAX_FILE && Utf8(m.artifact) && Utf8(m.target) && Utf8(m.keyID)
  {
    ReadsBackExactly(m);
    hide FileSize, Utf8, Clean, Encode;
    if FileSize(m) <= MAX_FILE && ManifestOk(env, CleanManifest(m), revision) {
      var c := CleanManifest(m);
      SigningBytesAreInjective(c, m);
      Base64IsAscii(m.signature);
      AsciiIsUtf8(m.signature);
      CleanKeepsExactly(m.signature);
      assert c.(signature := []) == m.(signature := []);
      assert c == m;
    }
  }

  /** The promise fails for some accepted manifests, and this is exactly when: a
      slot staged with `m` is accepted by the next Open if and only if the manifest
      fits its file and its texts are UTF-8. */
  lemma StagedSlotAcceptedExactly(env: Env, events: seq<Event>, m: Manifest, bytes: Bytes, partial: Bytes, now: nat)
    requires Orderly(env, events) && (events == [] || !Late(events[|events| - 1])) && Unforged(env, m)
    requires StepStage(env, Run(env, events), m, bytes, partial, now, STAGE_OPS, false, Written).1
    ensures var t := StepStage(env, Run(env, events), m, bytes, partial, now, STAGE_OPS, false, Written).0;
            StepOpen(env, t.(process := Down), Written).1 <==>
              FileSize(m) <= MAX_FILE && Utf8(m.artifact) && Utf8(m.target) && Utf8(m.keyID)
  {
    hide ManifestOk, ArtifactOk, StageOps, ReadBack, FileSize, Utf8, Unforged;
    RunKeeps(env, events);
    var s := Run(env, events);
    var t := StepStage(env, s, m, bytes, partial, now, STAGE_OPS, false, Written).0;
    var mem := s.process.mem;
    var x := Target(mem);
    FullyStaged(env, SlotAt(s.disk, x), m, bytes, partial);
    TransitionsKeepRoles(mem, 0);
    forall y | y in ["a", "b"] {
      ClearedInstalled(env, t.disk, y, mem.revision);
    }
    assert x in ["a", "b"] && Referenced(Staged(mem), x);
    forall y | y in ["a", "b"] && Referenced(Staged(mem), y) && y != x ensures Installed(env, t.disk, y, mem.revision) {
      assert Referenced(mem, y) && Installed(env, s.disk, y, mem.revision);
    }
    InstalledExactly(env, m, mem.revision, bytes);
  }

  /** In every reachable state: roles are consistent, referenced slots are
      installed, and the security revision is that of the known-good manifest, or
      zero when there is none. */
  lemma ReachableStates(env: Env, events: seq<Event>)
    requires Orderly(env, events) && Run(env, events).disk.state.Some?
    ensures var d := Run(env, events).disk;
            RolesOk(d.state.value) && RevisionOk(env, d, d.state.value) && AllInstalled(env, d, d.state.value)
  {
    RunKeeps(env, events);
  }

  lemma RunNext(env: Env, events: seq<Event>, k: nat)
    requires k < |events|
    ensures Run(env, events[..k + 1]) == Step(env, Run(env, events[..k]), events[k]).0
  {
    assert events[..k + 1][..k] == events[..k] && events[..k + 1][k] == events[k];
  }

  function RevisionOf(s: UState): nat { if s.disk.state.None? then 0 else s.disk.state.value.revision }

  lemma StepRaisesRevision(env: Env, s: UState, e: Event)
    requires Inv(env, s)
    ensures RevisionOf(s) <= RevisionOf(Step(env, s, e).0)
  {
    hide AllInstalled, StageOps, Acceptable, ArtifactOk, ReadBack;
  }

  lemma OrderlyPrefix(env: Env, events: seq<Event>, n: nat)
    requires Orderly(env, events) && n <= |events|
    ensures Orderly(env, events[..n])
  {
    hide Completes, Faithful;
    assert forall k :: 0 <= k < n ==> events[..n][k] == events[k];
  }

  lemma NextRevision(env: Env, events: seq<Event>, k: nat)
    requires Orderly(env, events) && k < |events|
    ensures RevisionOf(Run(env, events[..k])) <= RevisionOf(Run(env, events[..k + 1]))
  {
    hide Completes, Faithful, Inv, Durable, Run;
    OrderlyPrefix(env, events, k);
    RunKeeps(env, events[..k]);
    RunNext(env, events, k);
    if k == 0 || !Late(events[k - 1]) {
      hide Step;
      StepRaisesRevision(env, Run(env, events[..k]), events[k]);
    } else {
      assert events[k] == Event.Stop;
    }
  }

  /** The security revision never decreases between two moments of a run. */
  lemma {:induction false} RevisionNeverDecreases(env: Env, events: seq<Event>, i: nat, j: nat)
    requires Orderly(env, events) && i <= j <= |events|
    ensures RevisionOf(Run(env, events[..i])) <= RevisionOf(Run(env, events[..j]))
    decreases j
  {
    hide Orderly, Run;
    if i < j {
      RevisionNeverDecreases(env, events, i, j - 1);
      NextRevision(env, events, j - 1);
    }
  }

  /** A slot becomes known good only by a confirmation of the candidate, made by
      the process whose Open was the first since that candidate was activated. */
  lemma KnownGoodOnlyByFirstBoot(env: Env, events: seq<Event>, e: Event)
    requires Orderly(env, events + [e]) && Run(env, events).disk.state.Some?
    ensures var s, t := Run(env, events), Step(env, Run(env, events), e).0;
            && t.disk.state.Some?
            && (t.disk.state.value.knownGood != s.disk.state.value.knownGood ==>
                  && e.Confirm? && s.process.Up? && s.opens == 1 && s.disk.state.value.awaiting
                  && t.disk.state.value.knownGood == s.disk.state.value.active)
  {
    OrderlyPrefix(env, events + [e], |events|);
    assert (events + [e])[..|events|] == events;
    RunKeeps(env, events);
    var s := Run(env, events);
    if events == [] || !Late(events[|events| - 1]) {
      hide Inv, Orderly, Step, Run;
      FirstBootStep(env, s, e);
    } else {
      LateThenStop(env, events, e);
      hide Durable, Run, Orderly;
    }
  }

  lemma LateThenStop(env: Env, events: seq<Event>, e: Event)
    requires Orderly(env, events + [e]) && events != [] && Late(events[|events| - 1])
    ensures e == Event.Stop
  {
    hide Completes, Faithful, Late;
    var all, n := events + [e], |events|;
    assert all[n - 1] == events[n - 1] && all[n] == e;
  }

  lemma FirstBootStep(env: Env, s: UState, e: Event)
    requires Inv(env, s) && s.disk.state.Some?
    ensures var t := Step(env, s, e).0;
            && t.disk.state.Some?
            && (t.disk.state.value.knownGood != s.disk.state.value.knownGood ==>
                  && e.Confirm? && s.process.Up? && s.opens == 1 && s.disk.state.value.awaiting
                  && t.disk.state.value.knownGood == s.disk.state.value.active)
  {
    hide AllInstalled, RevisionOk, RolesOk, Acceptable, ReadManifest, ValidState;
    match e
    case Stage(m, bytes, partial, now, stop, removed, store) =>
      hide StageLeft, StageReach;
    case _ =>
  }

  /** If the candidate's process ends without confirming or rolling back, the next
      Open returns to the known-good slot, or to no slot when there is none. */
  lemma UnconfirmedCandidateFallsBack(env: Env, events: seq<Event>)
    requires Orderly(env, events)
    requires var s := Run(env, events); s.disk.state.Some? && s.disk.state.value.awaiting && s.disk.state.value.boot
    ensures var s := Run(env, events);
            var t := StepOpen(env, s.(process := Down), Written);
            t.1 && t.0.disk.state.Some? && t.0.disk.state.value.active == s.disk.state.value.knownGood
            && t.0.disk.state.value.knownGood == s.disk.state.value.knownGood && !t.0.disk.state.value.awaiting
  {
    hide AllInstalled, Completes, Faithful;
    RecoveryAcceptsItsOwnState(env, events);
    RunKeeps(env, events);
  }

  /** What the first `n` operations of a staging have done to the slot. */
  lemma {:induction false} Overwritten(f: SlotFiles, n: nat, m: Manifest, bytes: Bytes, partial: Bytes)
    requires n <= STAGE_OPS
    ensures var g := StageOps(f, n, m, bytes, partial);
            && g.artifact == (if n <= 3 then f.artifact else Some((bytes, n > 4)))
            && g.manifest == (if n <= 6 then f.manifest else Some(m))
  {
    if n > 0 { Overwritten(f, n - 1, m, bytes, partial); }
  }

  /** The atomic store matters. When a store that reported failure was durable, the
      process may stage again over the slot that disk already names as pending.
      Ending the process then leaves a state the next Open accepts exactly when the
      second staging had not yet renamed its artifact, or had already renamed its
      manifest, or between the two had protected an artifact that also fits the
      first manifest. */
  lemma LateStoreFailureRejectsExactly(env: Env, s: UState, m: Manifest, bytes: Bytes, other: Manifest,
                                       otherBytes: Bytes,
                                       partial: Bytes, now: nat, stop: nat, removed: bool, store: Write)
    requires Inv(env, s) && s.process.Up? && s.process.mem.pending == "" && !s.process.mem.awaiting
    requires Faithful(m) && Acceptable(env, m, s.process.mem.revision, now) && ArtifactOk(env, m, bytes)
    requires Faithful(other) && Acceptable(env, other, s.process.mem.revision, now)
    ensures var s1 := StepStage(env, s, m, bytes, [], now, STAGE_OPS, false, FailedNew).0;
            var s2 := StepStage(env, s1, other, otherBytes, partial, now, stop, removed, store).0;
            var n := StageReach(env, other, otherBytes, stop);
            StepOpen(env, s2.(process := Down), Written).1 <==>
              n <= 3 || n >= 7 || (n >= 5 && ArtifactOk(env, m, otherBytes))
  {
    hide ManifestOk, StageOps, Cleared, ReadBack, Installed, RevisionOk;
    var mem := s.process.mem;
    var x := Target(mem);
    var s1 := StepStage(env, s, m, bytes, [], now, STAGE_OPS, false, FailedNew).0;
    Overwritten(SlotAt(s.disk, x), STAGE_OPS, m, bytes, []);
    TransitionsKeepRoles(mem, 0);
    assert s1.disk.state == Some(Staged(mem)) && s1.process == s.process;
    var n := StageReach(env, other, otherBytes, stop);
    var s2 := StepStage(env, s1, other, otherBytes, partial, now, stop, removed, store).0;
    Overwritten(SlotAt(s1.disk, x), n, other, otherBytes, partial);
    assert s2.disk.state == Some(Staged(mem));
    hide ArtifactOk, StageReach;
    SecondStaging(env, s, s2, m, other, otherBytes, n);
  }

  lemma SecondStaging(env: Env, s: UState, t: UState, m: Manifest, other: Manifest, otherBytes: Bytes, n: nat)
    requires Inv(env, s) && s.process.Up? && s.process.mem.pending == "" && !s.process.mem.awaiting
    requires var mem := s.process.mem;
             var f := SlotAt(t.disk, Target(mem));
             && t.disk.state == Some(Staged(mem)) && ValidState(Staged(mem)) && !Staged(mem).awaiting
             && (forall y :: y in ["a", "b"] && y != Target(mem) ==> SlotAt(t.disk, y) == SlotAt(s.disk, y))
             && f.manifest == Some(if n <= 6 then m else other)
             && ManifestOk(env, m, mem.revision) && ManifestOk(env, other, mem.revision) && Faithful(m)
             && Faithful(other)
             && (n <= 3 ==> f.artifact.Some? && f.artifact.value.1 && ArtifactOk(env, m, f.artifact.value.0))
             && (n > 3 ==> f.artifact == Some((otherBytes, n > 4)) && ArtifactOk(env, other, otherBytes))
    ensures StepOpen(env, t.(process := Down), Written).1 <==>
              n <= 3 || n >= 7 || (n >= 5 && ArtifactOk(env, m, otherBytes))
  {
    hide ManifestOk, ArtifactOk, Cleared;
    var mem := s.process.mem;
    var x := Target(mem);
    forall y | y in ["a", "b"] {
      ClearedInstalled(env, t.disk, y, mem.revision);
    }
    assert x in ["a", "b"] && Referenced(Staged(mem), x);
    forall y | y in ["a", "b"] && Referenced(Staged(mem), y) && y != x ensures Installed(env, t.disk, y, mem.revision) {
      assert Referenced(mem, y) && Installed(env, s.disk, y, mem.revision);
    }
  }

  /** A late store failure can also lower the durable revision: a confirmation that
      was durable although it reported failure is undone by a rollback, exactly
      when the candidate's revision was higher than the known-good one's. */
  lemma LateConfirmationLowersExactly(env: Env, s: UState)
    requires Inv(env, s) && s.process.Up? && s.process.mem.awaiting && s.process.mem.boot
             && ValidSlot(s.process.mem.knownGood)
    requires ReadManifest(env, s.disk, s.process.mem.active).Some?
    ensures var s1 := StepConfirm(env, s, FailedNew).0;
            var s2 := StepRollback(s1, Written).0;
            RevisionOf(s2) < RevisionOf(s1) <==>
              ReadManifest(env, s.disk, s.process.mem.active).value.securityRevision > s.process.mem.revision
  {
    hide AllInstalled;
    TransitionsKeepRoles(s.process.mem, ReadManifest(env, s.disk, s.process.mem.active).value.securityRevision);
  }
}
