/** The update manager object: each call reads the remembered state, persists the
    next one and only then adopts it. */
module UpdateManager {
  import opened Common
  import opened Manifest
  import opened SoftwareUpdate

  method UniqueReferencedSlots(s: PState) returns (r: seq<string>)
    ensures forall x :: x in r <==> Referenced(s, x)
    ensures forall i, j :: 0 <= i < j < |r| ==> r[i] != r[j]
  {
    var all := [s.active, s.knownGood, s.pending, s.previous];
    r := [];
    for i := 0 to 4
      invariant forall x :: x in r <==> ValidSlot(x) && x in all[..i]
      invariant forall i, j :: 0 <= i < j < |r| ==> r[i] != r[j]
    {
      if ValidSlot(all[i]) && all[i] !in r { r := r + [all[i]]; }
      assert all[..i + 1] == all[..i] + [all[i]];
    }
    assert all[..4] == all;
  }

  method VerifyReferenced(env: Env, d: Disk, s: PState) returns (ok: bool)
    ensures ok <==> AllInstalled(env, d, s)
  {
    hide Installed;
    var slots := UniqueReferencedSlots(s);
    for i := 0 to |slots|
      invariant forall k :: 0 <= k < i ==> Installed(env, d, slots[k], s.revision)
    {
      if !Installed(env, d, slots[i], s.revision) {
        assert slots[i] in slots && slots[i] in ["a", "b"];
        return false;
      }
    }
    ok := true;
  }

  /** The file operations of staging, in order, up to the one that stops. */
  method StageFiles(env: Env, f: SlotFiles, m: Manifest, bytes: Bytes, partial: Bytes, stop: nat, removed: bool)
    returns (g: SlotFiles, done: bool)
    ensures g == StageLeft(f, StageReach(env, m, bytes, stop), m, bytes, partial, removed)
    ensures done <==> StageReach(env, m, bytes, stop) == STAGE_OPS
  {
    g, done := f, false;
    if stop == 0 { g := if removed then g.(artifactTemp := None) else g; return; }
    g := g.(artifactTemp := None, manifestTemp := false);
    assert StageOps(f, 1, m, bytes, partial) == g;
    if stop == 1 { g := if removed then g.(artifactTemp := None) else g; return; }
    g := g.(artifactTemp := Some(partial));
    assert StageOps(f, 2, m, bytes, partial) == g;
    if stop == 2 { g := if removed then g.(artifactTemp := None) else g; return; }
    g := g.(artifactTemp := Some(bytes));
    assert StageOps(f, 3, m, bytes, partial) == g;
    if stop == 3 || !ArtifactOk(env, m, bytes) { g := if removed then g.(artifactTemp := None) else g; return; }
    g := g.(artifactTemp := None, artifact := Some((bytes, false)));
    assert StageOps(f, 4, m, bytes, partial) == g;
    if stop == 4 { return; }
    g := g.(artifact := Some((bytes, true)));
    assert StageOps(f, 5, m, bytes, partial) == g;
    if stop == 5 { return; }
    g := g.(manifestTemp := true);
    assert StageOps(f, 6, m, bytes, partial) == g;
    if stop == 6 { return; }
    g := g.(manifestTemp := false, manifest := Some(m));
    assert StageOps(f, 7, m, bytes, partial) == g;
    if stop == 7 { return; }
    assert StageOps(f, 8, m, bytes, partial) == g;
    done := true;
  }

  class UpdateManager {
    const env: Env
    var disk: Disk
    var up: bool
    var state: PState
    ghost var opens: nat

    ghost function View(): UState
      reads this
    {
      UState(disk, if up then Up(state) else Down, opens)
    }

    constructor (env: Env)
      ensures this.env == env && View() == INITIAL
    {
      this.env := env;
      disk, up, state := INITIAL.disk, false, FRESH;
      opens := 0;
    }

    /** Persist a state; it is written only when it validates. */
    method StoreState(next: PState, store: Write) returns (ok: bool)
      modifies this`disk
      ensures disk == Stored(old(disk), next, store) && ok == StoreOk(next, store)
    {
      if !ValidState(next) { return false; }
      if store != FailedOld { disk := disk.(state := Some(next)); }
      ok := store == Written;
    }

    method Open(store: Write) returns (ok: bool)
      modifies this
      ensures View() == StepOpen(env, old(View()), store).0 && ok == StepOpen(env, old(View()), store).1
    {
      hide AllInstalled, ValidState;
      if up { return false; }
      disk := disk.(a := Cleared(disk.a), b := Cleared(disk.b));
      var next := FRESH;
      if disk.state.None? {
        FreshIsValid();
        ok := StoreState(next, store);
      } else {
        next := disk.state.value;
        if !ValidState(next) { return false; }
        var verified := VerifyReferenced(env, disk, next);
        if !verified { return false; }
        ok := true;
        if next.awaiting && !next.boot {
          next := next.(boot := true);
          ok := StoreState(next, store);
        } else if next.awaiting {
          next := next.(active := if ValidSlot(next.knownGood) then next.knownGood else "",
                        previous := "", awaiting := false, boot := false);
          ok := StoreState(next, store);
        }
      }
      if ok {
        state, up := next, true;
        opens := opens + 1;
      }
    }

    static lemma FreshIsValid()
      ensures ValidState(FRESH)
    {
    }

    method Stop()
      modifies this
      ensures View() == Step(env, old(View()), Event.Stop).0
    {
      up := false;
    }

    method Stage(m: Manifest, bytes: Bytes, partial: Bytes, now: nat, stop: nat, removed: bool, store: Write)
      returns (ok: bool)
      modifies this
      ensures View() == StepStage(env, old(View()), m, bytes, partial, now, stop, removed, store).0
      ensures ok == StepStage(env, old(View()), m, bytes, partial, now, stop, removed, store).1
    {
      hide StageReach, StageLeft, Acceptable, ValidState;
      if !up || state.pending != "" || state.awaiting { return false; }
      if !Acceptable(env, m, state.revision, now) { return false; }
      var slot := "a";
      if state.active == "a" { slot := "b"; }
      var files, done := StageFiles(env, SlotAt(disk, slot), m, bytes, partial, stop, removed);
      StageReachBounded(env, m, bytes, stop);
      disk := PutSlot(disk, slot, files);
      if !done { return false; }
      var next := state.(pending := slot);
      ok := StoreState(next, store);
      if ok { state := next; }
    }

    static lemma StageReachBounded(env: Env, m: Manifest, bytes: Bytes, stop: nat)
      ensures StageReach(env, m, bytes, stop) <= STAGE_OPS
    {
    }

    method ActivatePending(store: Write) returns (ok: bool)
      modifies this
      ensures View() == StepActivate(old(View()), store).0 && ok == StepActivate(old(View()), store).1
    {
      hide ValidState;
      if !up || !ValidSlot(state.pending) || state.awaiting { return false; }
      var next := state.(previous := state.active, active := state.pending, pending := "", awaiting := true,
                         boot := false);
      ok := StoreState(next, store);
      if ok { state := next; }
      if ValidState(next) && store != FailedOld { opens := 0; }
    }

    method ConfirmHealthy(store: Write) returns (ok: bool)
      modifies this
      ensures View() == StepConfirm(env, old(View()), store).0 && ok == StepConfirm(env, old(View()), store).1
    {
      hide ValidState;
      if !up || !state.awaiting || !state.boot || !ValidSlot(state.active) { return false; }
      var manifest := ReadManifest(env, disk, state.active);
      if manifest.None? { return false; }
      var next := state.(knownGood := state.active, previous := "", awaiting := false, boot := false);
      if manifest.value.securityRevision > next.revision { next := next.(revision := manifest.value.securityRevision); }
      ok := StoreState(next, store);
      if ok { state := next; }
    }

    method Rollback(store: Write) returns (ok: bool)
      modifies this
      ensures View() == StepRollback(old(View()), store).0 && ok == StepRollback(old(View()), store).1
    {
      hide ValidState;
      if !up || !ValidSlot(state.knownGood) || (!state.awaiting && state.active == state.knownGood) { return false; }
      var next := state.(active := state.knownGood, pending := "", previous := "", awaiting := false, boot := false);
      ok := StoreState(next, store);
      if ok { state := next; }
    }
  }
}
