/** The two-slot software update manager as a state machine. Staging performs its
    file operations one by one and may stop after any of them, by an error or by
    the process ending; every store of the state may fail. */
module SoftwareUpdate {
  import opened Common
  import opened Manifest
  import opened ManifestFile

  datatype PState = PState(
    version: int, active: string, knownGood: string, pending: string, previous: string,
    awaiting: bool, boot: bool, revision: nat)

  const FRESH := PState(1, "", "", "", "", false, false, 0)

  /** The files of one slot. The flag of the artifact says whether its final
      permission bits are set. */
  datatype SlotFiles = SlotFiles(
    artifactTemp: Option<Bytes>, artifact: Option<(Bytes, bool)>, manifestTemp: bool, manifest: Option<Manifest>)

  datatype Disk = Disk(state: Option<PState>, a: SlotFiles, b: SlotFiles)
  datatype Process = Down | Up(mem: PState)

  /** `opens` counts successful opens since the last activation. */
  datatype UState = UState(disk: Disk, process: Process, opens: nat)

  /** The fixed target, the signature check of the trusted keys (key, message,
      signature text without line breaks), and the artifact digest. */
  datatype Env = Env(
    target: Bytes,
    verify: (Bytes, Bytes, Bytes) -> bool,
    digest: Bytes -> Bytes)

  datatype Event =
    | Open(store: Write)
    | Stop
    | Stage(manifest: Manifest, bytes: Bytes, partial: Bytes, now: nat, stop: nat, removed: bool, store: Write)
    | Activate(store: Write)
    | Confirm(store: Write)
    | Rollback(store: Write)

  // ------------------------------------------------------------------- checks

  predicate ValidSlot(x: string) { x == "a" || x == "b" }

  predicate ValidState(s: PState) {
    && s.version == 1
    && (forall x :: x in [s.active, s.knownGood, s.pending, s.previous] ==> x == "" || ValidSlot(x))
    && !(s.pending != "" && s.pending == s.active)
    && !(s.knownGood != "" && s.active == "")
    && !(s.awaiting && s.active == "")
    && (s.awaiting || (s.previous == "" && !s.boot))
  }

  function SlotAt(d: Disk, x: string): SlotFiles { if x == "a" then d.a else d.b }
  function PutSlot(d: Disk, x: string, f: SlotFiles): Disk { if x == "a" then d.(a := f) else d.(b := f) }

  predicate Referenced(s: PState, x: string) {
    ValidSlot(x) && (x == s.active || x == s.knownGood || x == s.pending || x == s.previous)
  }

  function ReadManifest(env: Env, d: Disk, x: string): Option<Manifest> {
    if !ValidSlot(x) || SlotAt(d, x).manifest.None? then None else ReadBack(SlotAt(d, x).manifest.value)
  }

  predicate Trusted(env: Env, m: Manifest) {
    Base64Text(m.signature) && env.verify(m.keyID, Encode(m), Unbroken(m.signature))
  }

  predicate ManifestOk(env: Env, m: Manifest, revision: nat) {
    Structured(m) && m.target == env.target && m.securityRevision >= revision && Trusted(env, m)
  }

  predicate ArtifactOk(env: Env, m: Manifest, bytes: Bytes) {
    |bytes| == m.sizeBytes && env.digest(bytes) == m.digest
  }

  /** Acceptance of a new manifest, at a clock reading in nanoseconds. */
  predicate Acceptable(env: Env, m: Manifest, revision: nat, now: nat) {
    && ManifestOk(env, m, revision)
    && m.issuedAt * 1_000_000 <= now + 120_000_000_000 && m.expiresAt * 1_000_000 > now
  }

  predicate Installed(env: Env, d: Disk, x: string, revision: nat) {
    var m := ReadManifest(env, d, x);
    && m.Some? && ManifestOk(env, m.value, revision)
    && SlotAt(d, x).artifact.Some? && SlotAt(d, x).artifact.value.1
    && ArtifactOk(env, m.value, SlotAt(d, x).artifact.value.0)
  }

  predicate AllInstalled(env: Env, d: Disk, s: PState) {
    forall x :: x in ["a", "b"] && Referenced(s, x) ==> Installed(env, d, x, s.revision)
  }

  // -------------------------------------------------------------- transitions

  function Target(s: PState): string { if s.active == "a" then "b" else "a" }
  function Staged(s: PState): PState { s.(pending := Target(s)) }
  function Activated(s: PState): PState {
    s.(previous := s.active, active := s.pending, pending := "", awaiting := true, boot := false)
  }
  function Confirmed(s: PState, revision: nat): PState {
    s.(knownGood := s.active, previous := "", awaiting := false, boot := false,
       revision := if revision > s.revision then revision else s.revision)
  }
  function RolledBack(s: PState): PState {
    s.(active := s.knownGood, pending := "", previous := "", awaiting := false, boot := false)
  }
  function Booted(s: PState): PState { s.(boot := true) }
  function FellBack(s: PState): PState {
    s.(active := if ValidSlot(s.knownGood) then s.knownGood else "", previous := "", awaiting := false, boot := false)
  }

  /** Persisting a state: refused when inconsistent, otherwise as the write goes. */
  function Stored(d: Disk, next: PState, store: Write): Disk {
    if !ValidState(next) || store == FailedOld then d else d.(state := Some(next))
  }
  predicate StoreOk(next: PState, store: Write) { ValidState(next) && store == Written }

  /** The `k`-th file operation of staging: clear leftovers, create and fill the
      temporary artifact, complete it, rename it, protect it, write the temporary
      manifest, rename it, synchronise. */
  function StageOp(f: SlotFiles, k: nat, m: Manifest, bytes: Bytes, partial: Bytes): SlotFiles {
    match k
    case 0 => f.(artifactTemp := None, manifestTemp := false)
    case 1 => f.(artifactTemp := Some(partial))
    case 2 => f.(artifactTemp := Some(bytes))
    case 3 => f.(artifactTemp := None, artifact := Some((bytes, false)))
    case 4 => f.(artifact := Some((bytes, true)))
    case 5 => f.(manifestTemp := true)
    case 6 => f.(manifestTemp := false, manifest := Some(m))
    case _ => f
  }

  const STAGE_OPS := 8

  function StageOps(f: SlotFiles, n: nat, m: Manifest, bytes: Bytes, partial: Bytes): SlotFiles {
    if n == 0 then f else StageOp(StageOps(f, n - 1, m, bytes, partial), n - 1, m, bytes, partial)
  }

  function Cleared(f: SlotFiles): SlotFiles { f.(artifactTemp := None, manifestTemp := false) }

  function StepOpen(env: Env, s: UState, store: Write): (UState, bool) {
    if s.process.Up? then (s, false)
    else
      var d := s.disk.(a := Cleared(s.disk.a), b := Cleared(s.disk.b));
      if d.state.None? then
        (s.(disk := Stored(d, FRESH, store), process := if store == Written then Up(FRESH) else Down,
            opens := if store == Written then s.opens + 1 else s.opens), store == Written)
      else
        var st := d.state.value;
        if !ValidState(st) || !AllInstalled(env, d, st) then (s.(disk := d), false)
        else if !st.awaiting then (s.(disk := d, process := Up(st), opens := s.opens + 1), true)
        else
          var next := if !st.boot then Booted(st) else FellBack(st);
          if StoreOk(next, store)
              then (s.(disk := Stored(d, next, store), process := Up(next), opens := s.opens + 1), true)
          else (s.(disk := Stored(d, next, store)), false)
  }

  /** How many staging operations take effect: all that were reached, but a wrong
      artifact never gets past the temporary file. */
  function StageReach(env: Env, m: Manifest, bytes: Bytes, stop: nat): nat {
    var n := if stop < STAGE_OPS then stop else STAGE_OPS;
    if !ArtifactOk(env, m, bytes) && n > 3 then 3 else n
  }

  /** The slot after staging got `n` operations far; an error before the rename
      tries to remove the temporary artifact. */
  function StageLeft(f: SlotFiles, n: nat, m: Manifest, bytes: Bytes, partial: Bytes, removed: bool): SlotFiles {
    var g := StageOps(f, n, m, bytes, partial);
    if n <= 3 && removed then g.(artifactTemp := None) else g
  }

  function StepStage(env: Env, s: UState, m: Manifest, bytes: Bytes, partial: Bytes, now: nat, stop: nat, removed: bool,
                     store: Write): (UState, bool) {
    if s.process.Down? || s.process.mem.pending != "" || s.process.mem.awaiting
       || !Acceptable(env, m, s.process.mem.revision, now)
    then (s, false)
    else
      var mem := s.process.mem;
      var x := Target(mem);
      var n := StageReach(env, m, bytes, stop);
      var d := PutSlot(s.disk, x, StageLeft(SlotAt(s.disk, x), n, m, bytes, partial, removed));
      if n < STAGE_OPS then (s.(disk := d), false)
      else if StoreOk(Staged(mem), store)
          then (s.(disk := Stored(d, Staged(mem), store), process := Up(Staged(mem))), true)
      else (s.(disk := Stored(d, Staged(mem), store)), false)
  }

  /** Common shape of the remaining calls: persist, then adopt. The count of opens
      belongs to the activation on disk. */
  function Adopt(s: UState, next: PState, store: Write, opens: nat): (UState, bool) {
    if StoreOk(next, store) then (s.(disk := Stored(s.disk, next, store), process := Up(next), opens := opens), true)
    else (s.(disk := Stored(s.disk, next, store), opens := if ValidState(next) && store == FailedNew then opens
             else s.opens),
          false)
  }

  function StepActivate(s: UState, store: Write): (UState, bool) {
    if s.process.Down? || !ValidSlot(s.process.mem.pending) || s.process.mem.awaiting then (s, false)
    else Adopt(s, Activated(s.process.mem), store, 0)
  }

  function StepConfirm(env: Env, s: UState, store: Write): (UState, bool) {
    if s.process.Down? || !s.process.mem.awaiting || !s.process.mem.boot || !ValidSlot(s.process.mem.active)
        then (s, false)
    else
      match ReadManifest(env, s.disk, s.process.mem.active)
      case None => (s, false)
      case Some(m) => Adopt(s, Confirmed(s.process.mem, m.securityRevision), store, s.opens)
  }

  function StepRollback(s: UState, store: Write): (UState, bool) {
    if s.process.Down? || !ValidSlot(s.process.mem.knownGood)
       || (!s.process.mem.awaiting && s.process.mem.active == s.process.mem.knownGood) then (s, false)
    else Adopt(s, RolledBack(s.process.mem), store, s.opens)
  }

  function Step(env: Env, s: UState, e: Event): (UState, bool) {
    match e
    case Open(store) => StepOpen(env, s, store)
    case Stop => (s.(process := Down), true)
    case Stage(m, bytes, partial, now, stop, removed, store) =>
      StepStage(env, s, m, bytes, partial, now, stop, removed, store)
    case Activate(store) => StepActivate(s, store)
    case Confirm(store) => StepConfirm(env, s, store)
    case Rollback(store) => StepRollback(s, store)
  }

  const EMPTY := SlotFiles(None, None, false, None)
  const INITIAL := UState(Disk(None, EMPTY, EMPTY), Down, 0)

  function Run(env: Env, events: seq<Event>): UState {
    if events == [] then INITIAL else Step(env, Run(env, events[..|events| - 1]), events[|events| - 1]).0
  }
}
