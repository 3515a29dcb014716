/** Runs of the update manager in which a promise fails, for every trust setting
    that accepts the manifests involved, and one such setting. */
module UpdateExamples {
  import opened Common
  import opened Manifest
  import opened ManifestFile
  import opened SoftwareUpdate
  import opened UpdateTheorems

  /** A manifest and artifact the manager accepts at this revision. */
  predicate Good(env: Env, m: Manifest, bytes: Bytes, revision: nat, now: nat) {
    Acceptable(env, m, revision, now) && ArtifactOk(env, m, bytes)
  }

  function Full(m: Manifest, bytes: Bytes): SlotFiles { SlotFiles(None, Some((bytes, true)), false, Some(m)) }

  function Staging(m: Manifest, bytes: Bytes, now: nat, stop: nat, store: Write): Event {
    Stage(m, bytes, [], now, stop, false, store)
  }

  lemma StagedSlot(m: Manifest, bytes: Bytes)
    ensures StageOps(EMPTY, STAGE_OPS, m, bytes, []) == Full(m, bytes)
  {
    var f := EMPTY;
    assert StageOps(f, 1, m, bytes, []) == f;
    assert StageOps(f, 2, m, bytes, []) == f.(artifactTemp := Some([]));
    assert StageOps(f, 4, m, bytes, []) == f.(artifact := Some((bytes, false)));
    assert StageOps(f, 6, m, bytes, []) == f.(artifact := Some((bytes, true)), manifestTemp := true);
    assert StageOps(f, 8, m, bytes, []) == Full(m, bytes);
  }

  lemma Appended(env: Env, events: seq<Event>, e: Event)
    ensures Run(env, events + [e]) == Step(env, Run(env, events), e).0
  {
    assert (events + [e])[..|events|] == events;
  }

  const OPENED := UState(Disk(Some(FRESH), EMPTY, EMPTY), Up(FRESH), 1)

  lemma FirstOpen(env: Env)
    ensures Run(env, [Event.Open(Written)]) == OPENED
  {
    Appended(env, [], Event.Open(Written));
    assert [] + [Event.Open(Written)] == [Event.Open(Written)];
  }

  // ------------------------------------------------------- padded signatures

  const PADDING := 8193

  function Padded(m: Manifest): Manifest { m.(signature := m.signature + Newlines(PADDING)) }

  lemma PaddedIsGood(env: Env, m: Manifest, bytes: Bytes, revision: nat, now: nat)
    requires Good(env, m, bytes, revision, now)
    ensures Good(env, Padded(m), bytes, revision, now)
  {
    PaddingIsSkipped(m.signature, PADDING);
    SignatureIsNotSigned(m);
    SignatureIsNotSigned(Padded(m));
    assert Padded(m).(signature := []) == m.(signature := []);
    hide Encode, Unbroken, Base64Text, Newlines;
  }

  /** Any manifest the manager accepts, with line breaks after its signature: it is
      accepted and staged, and the next Open refuses to start. */
  lemma PaddedManifestIsFatal(env: Env, m: Manifest, bytes: Bytes, now: nat)
    requires Good(env, m, bytes, 0, now)
    ensures var staging := Staging(Padded(m), bytes, now, STAGE_OPS, Written);
            && Step(env, Run(env, [Event.Open(Written)]), staging).1
            && !Step(env, Run(env, [Event.Open(Written), staging, Event.Stop]), Event.Open(Written)).1
  {
    PaddedIsGood(env, m, bytes, 0, now);
    PaddingOverflows(m, PADDING);
    var p := Padded(m);
    hide Acceptable, ArtifactOk, ReadBack, Padded, StageOps;
    FirstOpen(env);
    var staging := Staging(p, bytes, now, STAGE_OPS, Written);
    StagedSlot(p, bytes);
    var t := OPENED.(disk := Disk(Some(Staged(FRESH)), Full(p, bytes), EMPTY), process := Up(Staged(FRESH)));
    assert Step(env, OPENED, staging) == (t, true);
    Appended(env, [Event.Open(Written)], staging);
    Appended(env, [Event.Open(Written), staging], Event.Stop);
    assert [Event.Open(Written)] + [staging] == [Event.Open(Written), staging];
    assert [Event.Open(Written), staging] + [Event.Stop] == [Event.Open(Written), staging, Event.Stop];
    hide Run;
    Unstartable(env, t.(process := Down), p);
  }

  lemma Unstartable(env: Env, s: UState, m: Manifest)
    requires s.process.Down? && s.disk.state == Some(Staged(FRESH)) && s.disk.a.manifest == Some(m) && ReadBack(m).None?
    ensures !Step(env, s, Event.Open(Written)).1
  {
    hide ReadBack;
    assert "a" in ["a", "b"] && Referenced(Staged(FRESH), "a");
  }

  // -------------------------------------------------------- late store failure

  /** Two acceptable updates of which the second does not fit the first manifest: a
      store that fails late, a second staging cut off before its manifest, and the
      next Open refuses to start. */
  lemma LateStoreIsFatal(env: Env, m: Manifest, bytes: Bytes, other: Manifest, otherBytes: Bytes, now: nat)
    requires Good(env, m, bytes, 0, now) && Good(env, other, otherBytes, 0, now) && !ArtifactOk(env, m, otherBytes)
    requires Faithful(m) && Faithful(other)
    ensures var events := [Event.Open(Written), Staging(m, bytes, now, STAGE_OPS, FailedNew),
                           Staging(other, otherBytes, now, 5, Written), Event.Stop];
            !Step(env, Run(env, events), Event.Open(Written)).1
  {
    hide Acceptable, Faithful;
    FirstOpen(env);
    OpenedIsSound(env);
    var first, second := Staging(m, bytes, now, STAGE_OPS, FailedNew), Staging(other, otherBytes, now, 5, Written);
    LateStoreFailureRejectsExactly(env, OPENED, m, bytes, other, otherBytes, [], now, 5, false, Written);
    var a := [Event.Open(Written)];
    Appended(env, a, first);
    Appended(env, a + [first], second);
    Appended(env, a + [first] + [second], Event.Stop);
    assert a + [first] + [second] + [Event.Stop] == [Event.Open(Written), first, second, Event.Stop];
    assert StageReach(env, other, otherBytes, 5) == 5;
    hide Run, StepStage, StepOpen;
  }

  lemma OpenedIsSound(env: Env)
    ensures Inv(env, OPENED)
  {
  }

  // --------------------------------------------------- late confirmation failure

  const BOOTED_A := PState(1, "a", "", "", "", true, true, 0)

  function KnownA(revision: nat): PState { PState(1, "a", "a", "", "", false, false, revision) }
  function TrialB(revision: nat, boot: bool): PState { PState(1, "b", "a", "", "a", true, boot, revision) }

  function Holding(st: PState, a: SlotFiles, b: SlotFiles, opens: nat): UState {
    UState(Disk(Some(st), a, b), Up(st), opens)
  }

  lemma FirstInstallation(env: Env, m: Manifest, bytes: Bytes, now: nat)
    requires Good(env, m, bytes, 0, now) && Faithful(m)
    ensures Run(env, FirstScript(m, bytes, now)) == Holding(KnownA(m.securityRevision), Full(m, bytes), EMPTY, 1)
  {
    FirstOpen(env);
    StagedSlot(m, bytes);
    var f := Full(m, bytes);
    var e := FirstScript(m, bytes, now);
    assert ManifestOk(env, m, 0);
    hide ManifestOk, ArtifactOk, StageOps, ReadBack, Run;
    var s1 := Holding(Staged(FRESH), f, EMPTY, 1);
    assert Step(env, OPENED, e[1]).0 == s1;
    var s2 := Holding(Activated(Staged(FRESH)), f, EMPTY, 0);
    assert Step(env, s1, e[2]).0 == s2;
    BootsA(env, m, bytes);
    var s5 := Holding(KnownA(m.securityRevision), f, EMPTY, 1);
    assert Step(env, Holding(BOOTED_A, f, EMPTY, 1), e[5]).0 == s5;
    assert e[..1] == [Event.Open(Written)] && e[..2] == e[..1] + [e[1]] && e[..3] == e[..2] + [e[2]];
    assert e[..4] == e[..3] + [e[3]] && e[..5] == e[..4] + [e[4]] && e == e[..5] + [e[5]];
    Appended(env, e[..1], e[1]);
    Appended(env, e[..2], e[2]);
    Appended(env, e[..3], e[3]);
    Appended(env, e[..4], e[4]);
    Appended(env, e[..5], e[5]);
  }

  function FirstScript(m: Manifest, bytes: Bytes, now: nat): seq<Event> {
    [Event.Open(Written), Staging(m, bytes, now, STAGE_OPS, Written), Activate(Written), Event.Stop,
     Event.Open(Written), Confirm(Written)]
  }

  lemma BootsA(env: Env, m: Manifest, bytes: Bytes)
    requires ManifestOk(env, m, 0) && ArtifactOk(env, m, bytes) && Faithful(m)
    ensures Step(env, Holding(Activated(Staged(FRESH)), Full(m, bytes), EMPTY, 0).(process := Down),
                 Event.Open(Written)).0
         == Holding(BOOTED_A, Full(m, bytes), EMPTY, 1)
  {
    hide ManifestOk, ArtifactOk, ReadBack;
  }

  lemma BootsB(env: Env, m: Manifest, bytes: Bytes, other: Manifest, otherBytes: Bytes)
    requires ManifestOk(env, m, m.securityRevision) && ArtifactOk(env, m, bytes) && Faithful(m)
    requires ManifestOk(env, other, m.securityRevision) && ArtifactOk(env, other, otherBytes) && Faithful(other)
    ensures var r, f, g := m.securityRevision, Full(m, bytes), Full(other, otherBytes);
            Step(env, Holding(TrialB(r, false), f, g, 0).(process := Down), Event.Open(Written)).0
            == Holding(TrialB(r, true), f, g, 1)
  {
    hide ManifestOk, ArtifactOk, ReadBack;
  }

  function SecondScript(m: Manifest, bytes: Bytes, now: nat): seq<Event> {
    [Staging(m, bytes, now, STAGE_OPS, Written), Activate(Written), Event.Stop, Event.Open(Written)]
  }

  lemma SecondInstallation(env: Env, m: Manifest, bytes: Bytes, other: Manifest, otherBytes: Bytes, now: nat)
    requires Good(env, m, bytes, 0, now) && Good(env, other, otherBytes, m.securityRevision, now)
    requires Faithful(m) && Faithful(other)
    ensures Run(env, FirstScript(m, bytes, now) + SecondScript(other, otherBytes, now))
         == Holding(TrialB(m.securityRevision, true), Full(m, bytes), Full(other, otherBytes), 1)
  {
    FirstInstallation(env, m, bytes, now);
    StagedSlot(other, otherBytes);
    assert ManifestOk(env, m, m.securityRevision);
    BootsB(env, m, bytes, other, otherBytes);
    var first, e, r := FirstScript(m, bytes, now), SecondScript(other, otherBytes, now), m.securityRevision;
    var f, g := Full(m, bytes), Full(other, otherBytes);
    hide ManifestOk, ArtifactOk, StageOps, ReadBack, Run, FirstScript;
    var s0 := Holding(KnownA(r), f, EMPTY, 1);
    var s1 := Holding(Staged(KnownA(r)), f, g, 1);
    assert Step(env, s0, e[0]).0 == s1;
    var s2 := Holding(TrialB(r, false), f, g, 0);
    assert Step(env, s1, e[1]).0 == s2;
    assert first + e == first + [e[0]] + [e[1]] + [e[2]] + [e[3]];
    Appended(env, first, e[0]);
    Appended(env, first + [e[0]], e[1]);
    Appended(env, first + [e[0]] + [e[1]], e[2]);
    Appended(env, first + [e[0]] + [e[1]] + [e[2]], e[3]);
  }

  /** Two installations, the second with a higher security revision: its
      confirmation is stored although the store reports failure, a rollback
      follows, and the durable revision has gone down. */
  lemma LateConfirmationLowers(env: Env, m: Manifest, bytes: Bytes, other: Manifest, otherBytes: Bytes, now: nat)
    requires Good(env, m, bytes, 0, now) && Good(env, other, otherBytes, m.securityRevision, now)
    requires Faithful(m) && Faithful(other) && other.securityRevision > m.securityRevision
    ensures var events := FirstScript(m, bytes, now) + SecondScript(other, otherBytes, now);
            RevisionOf(Run(env, events + [Confirm(FailedNew)] + [Event.Rollback(Written)]))
            < RevisionOf(Run(env, events + [Confirm(FailedNew)]))
  {
    SecondInstallation(env, m, bytes, other, otherBytes, now);
    assert ManifestOk(env, m, m.securityRevision);
    TrialLowers(env, m, bytes, other, otherBytes);
    var events := FirstScript(m, bytes, now) + SecondScript(other, otherBytes, now);
    hide *;
    Appended(env, events, Confirm(FailedNew));
    Appended(env, events + [Confirm(FailedNew)], Event.Rollback(Written));
  }

  lemma TrialLowers(env: Env, m: Manifest, bytes: Bytes, other: Manifest, otherBytes: Bytes)
    requires ManifestOk(env, m, m.securityRevision) && ArtifactOk(env, m, bytes) && Faithful(m)
    requires ManifestOk(env, other, m.securityRevision) && ArtifactOk(env, other, otherBytes) && Faithful(other)
    requires other.securityRevision > m.securityRevision
    ensures var s := Holding(TrialB(m.securityRevision, true), Full(m, bytes), Full(other, otherBytes), 1);
            var t := Step(env, s, Confirm(FailedNew)).0;
            RevisionOf(Step(env, t, Event.Rollback(Written)).0) < RevisionOf(t)
  {
    hide ManifestOk, ArtifactOk;
    TrialIsSound(env, m, bytes, other, otherBytes);
    var s := Holding(TrialB(m.securityRevision, true), Full(m, bytes), Full(other, otherBytes), 1);
    assert ReadManifest(env, s.disk, "b") == Some(other);
    LateConfirmationLowersExactly(env, s);
    hide Inv, StepConfirm, StepRollback;
  }

  lemma TrialIsSound(env: Env, m: Manifest, bytes: Bytes, other: Manifest, otherBytes: Bytes)
    requires ManifestOk(env, m, m.securityRevision) && ArtifactOk(env, m, bytes) && Faithful(m)
    requires ManifestOk(env, other, m.securityRevision) && ArtifactOk(env, other, otherBytes) && Faithful(other)
    ensures Inv(env, Holding(TrialB(m.securityRevision, true), Full(m, bytes), Full(other, otherBytes), 1))
  {
    hide ManifestOk, ArtifactOk, ReadBack;
  }

  // ---------------------------------------------------------- such a setting

  function Digest(): Bytes { DIGEST_PREFIX + seq(64, _ => 0x30) }

  /** Every signature is good and every artifact has the same digest. */
  function World(): Env { Env([0x74], (_, _, _) => true, _ => Digest()) }

  function Release(size: U64, revision: U64): Manifest {
    Manifest(1, [0x61], Digest(), size, [0x74], revision, 0, 1, [0x6b], [])
  }

  lemma ReleaseIsShort(size: U64, revision: U64)
    requires 0 < size < 10 && revision < 10
    ensures FileSize(Release(size, revision)) <= MAX_FILE
  {
    var m := Release(size, revision);
    EscapesAreBounded(m.artifact);
    EscapesAreBounded(m.digest);
    EscapesAreBounded(m.target);
    EscapesAreBounded(m.keyID);
    EscapesAreBounded(m.signature);
    assert |FRAME| < 300 && |m.digest| == 71;
    hide EscapedLength;
  }

  lemma ReleaseIsStructured(size: U64, revision: U64)
    requires 0 < size < 10
    ensures Structured(Release(size, revision))
  {
    assert Digest()[..7] == DIGEST_PREFIX;
  }

  lemma ReleaseIsFaithful(size: U64, revision: U64)
    requires 0 < size < 10 && revision < 10
    ensures Faithful(Release(size, revision))
  {
    var m := Release(size, revision);
    assert Base64Text(m.signature);
    ReleaseIsStructured(size, revision);
    ReleaseIsShort(size, revision);
    AsciiIsUtf8([0x61]);
    AsciiIsUtf8([0x74]);
    AsciiIsUtf8([0x6b]);
    hide FileSize, Utf8, Clean, Structured, ReadBack, Base64Text;
    ReadsBackExactly(m);
  }

  lemma ReleaseIsGood(size: U64, revision: U64, bytes: Bytes)
    requires 0 < size < 10 && revision < 10 && |bytes| == size
    ensures Good(World(), Release(size, revision), bytes, revision, 0)
            && Good(World(), Release(size, revision), bytes, 0, 0)
  {
    ReleaseIsStructured(size, revision);
    hide Structured, Encode, Unbroken;
  }

  /** In this setting each of the three runs exists. */
  lemma TheRunsExist()
    ensures exists env, m, bytes, now :: Good(env, m, bytes, 0, now)
    ensures exists env, m, bytes, other, otherBytes, now ::
              && Good(env, m, bytes, 0, now) && Good(env, other, otherBytes, 0, now) && !ArtifactOk(env, m, otherBytes)
              && Faithful(m) && Faithful(other)
    ensures exists env, m, bytes, other, otherBytes, now ::
              && Good(env, m, bytes, 0, now) && Good(env, other, otherBytes, m.securityRevision, now)
              && Faithful(m) && Faithful(other) && other.securityRevision > m.securityRevision
  {
    ReleaseIsGood(1, 1, [0]);
    ReleaseIsGood(2, 2, [0, 0]);
    ReleaseIsFaithful(1, 1);
    ReleaseIsFaithful(2, 2);
    var m, other := Release(1, 1), Release(2, 2);
    assert !ArtifactOk(World(), m, [0, 0]);
    assert Good(World(), other, [0, 0], m.securityRevision, 0) by { hide Structured, Encode, Unbroken, Digest; }
    hide Good, Faithful, ArtifactOk;
  }
}
