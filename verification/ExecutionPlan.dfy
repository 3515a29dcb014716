/** The execution plan and its canonicaliser: validation, sorting, and the
    derivation of the plan digests and of the execution identity. */
module ExecutionPlan {
  import opened Common
  import opened Sorting

  const MAX_FILES := 256
  const MAX_FILE_BYTES := 0x4000_0000
  const MAX_NETWORKS := 64
  const MAX_CREDENTIALS := 64
  const MAX_EFFECTS := 256

  datatype FileBinding = FileBinding(path: string, digest: string, size: nat)

  datatype NetworkBinding = NetworkBinding(
    bindingID: string, scheme: string, host: string, port: nat, resolvedIPs: seq<string>,
    tlsServerName: string, allowRedirects: bool, maxRequestBytes: nat, maxResponseBytes: nat)

  datatype CredentialBinding = CredentialBinding(handleID: string, scopeDigest: string, expiresAt: nat)

  datatype EffectBinding = EffectBinding(
    planEffectID: string, profileDigest: string, targetDigest: string, operationKind: string,
    semanticKeyDigest: string, networkBindingID: string, credentialHandleID: string, maximumUses: nat)

  datatype Plan = Plan(
    ownerID: string, agentID: string, agreementBodyDigest: string, obligationID: string,
    canonicalPlanDigest: string, inputManifestDigest: string, attemptIndex: nat,
    predecessorDigest: string, executionID: string, reservationID: string, policyRevision: nat,
    writerGeneration: nat, leaseLossPolicy: string, files: seq<FileBinding>,
    networks: seq<NetworkBinding>, credentials: seq<CredentialBinding>, effects: seq<EffectBinding>)

  datatype Fence = Fence(ownerID: string, agentID: string, writerGeneration: nat, expiresAt: nat)

  /** The semantic fields an execution identity is derived from. */
  datatype Slot = Slot(
    ownerID: string, agentID: string, agreementBodyDigest: string, obligationID: string,
    canonicalPlanDigest: string, inputManifestDigest: string, attemptIndex: nat, predecessorDigest: string)

  /** Encoding, hashing and address classification live outside this component;
      a digest is undefined when its value cannot be encoded. */
  datatype Codec = Codec(
    planDigest: Plan -> Option<string>,
    boundDigest: Plan -> Option<string>,
    targetDigest: NetworkBinding -> Option<string>,
    slotID: Slot -> Option<string>,
    cleanAbsolute: string -> bool,
    publicAddress: string -> bool)

  function FileKey(f: FileBinding): string { f.path }
  function NetworkKey(n: NetworkBinding): string { n.bindingID }
  function CredentialKey(c: CredentialBinding): string { c.handleID }
  function EffectKey(e: EffectBinding): string { e.planEffectID }
  function AddressKey(ip: string): string { ip }

  function SlotOf(p: Plan): Slot {
    Slot(p.ownerID, p.agentID, p.agreementBodyDigest, p.obligationID, p.canonicalPlanDigest,
         p.inputManifestDigest, p.attemptIndex, p.predecessorDigest)
  }

  predicate HeaderOk(p: Plan, fence: Fence) {
    && p.ownerID == fence.ownerID && p.agentID == fence.agentID
    && p.agreementBodyDigest != "" && p.obligationID != "" && p.inputManifestDigest != ""
    && p.reservationID != "" && p.policyRevision != 0
    && |p.files| <= MAX_FILES && |p.networks| <= MAX_NETWORKS
    && |p.credentials| <= MAX_CREDENTIALS && |p.effects| <= MAX_EFFECTS
    && p.leaseLossPolicy in {"continue", "drain", "kill"}
  }

  predicate FileOk(c: Codec, f: FileBinding) {
    c.cleanAbsolute(f.path) && ValidDigest(f.digest) && f.size <= MAX_FILE_BYTES
  }

  predicate NetworkFieldsOk(n: NetworkBinding) {
    && n.bindingID != "" && n.scheme == "https" && n.host != "" && n.port != 0
    && n.tlsServerName == n.host && !n.allowRedirects
    && 0 < n.maxRequestBytes <= 0x100_0000 && 0 < n.maxResponseBytes <= 0x400_0000
    && 0 < |n.resolvedIPs| <= 16
  }

  ghost predicate NetworkOk(c: Codec, n: NetworkBinding) {
    && NetworkFieldsOk(n)
    && SortedBy(n.resolvedIPs, AddressKey) && NeighboursDiffer(n.resolvedIPs, AddressKey)
    && forall i :: 0 <= i < |n.resolvedIPs| ==> c.publicAddress(n.resolvedIPs[i])
  }

  predicate CredentialOk(c: CredentialBinding) {
    c.handleID != "" && ValidDigest(c.scopeDigest) && c.expiresAt != 0
  }

  predicate EffectFieldsOk(e: EffectBinding) {
    && e.planEffectID != "" && ValidDigest(e.profileDigest) && ValidDigest(e.targetDigest)
    && ValidDigest(e.semanticKeyDigest)
    && e.operationKind in {"https.get", "https.post", "https.put", "https.delete"}
    && e.maximumUses == 1
  }

  ghost predicate EffectOk(c: Codec, networks: seq<NetworkBinding>, credentials: seq<CredentialBinding>,
                           e: EffectBinding) {
    && EffectFieldsOk(e)
    && (exists n :: n in networks && n.bindingID == e.networkBindingID && c.targetDigest(n) == Some(e.targetDigest))
    && (e.credentialHandleID == "" || exists h :: h in credentials && h.handleID == e.credentialHandleID)
  }

  /** What a plan must satisfy, with no mention of the order of its bindings. */
  ghost predicate Acceptable(c: Codec, p: Plan, fence: Fence) {
    && HeaderOk(p, fence)
    && (forall f :: f in p.files ==> FileOk(c, f)) && DistinctBy(p.files, FileKey)
    && (forall n :: n in p.networks ==> NetworkOk(c, n)) && DistinctBy(p.networks, NetworkKey)
    && (forall h :: h in p.credentials ==> CredentialOk(h)) && DistinctBy(p.credentials, CredentialKey)
    && (forall e :: e in p.effects ==> EffectOk(c, p.networks, p.credentials, e)) && DistinctBy(p.effects, EffectKey)
  }

  /** The plan with every identity field cleared and every list in key order. */
  ghost function Canonical(p: Plan): Plan {
    p.(files := Arranged(p.files, FileKey), networks := Arranged(p.networks, NetworkKey),
       credentials := Arranged(p.credentials, CredentialKey), effects := Arranged(p.effects, EffectKey),
       writerGeneration := 0, executionID := "", canonicalPlanDigest := "")
  }

  /** Digests and identity of an already canonical plan. */
  function Bind(c: Codec, base: Plan, generation: nat): Option<(Plan, string)> {
    match c.planDigest(base)
    case None => None
    case Some(canonical) =>
      var named := base.(canonicalPlanDigest := canonical);
      match c.slotID(SlotOf(named))
      case None => None
      case Some(id) =>
        var bound := named.(writerGeneration := generation, executionID := id);
        match c.boundDigest(bound)
        case None => None
        case Some(digest) => Some((bound, digest))
  }

  ghost function Prepare(c: Codec, p: Plan, fence: Fence): Option<(Plan, string)> {
    if Acceptable(c, p, fence) then Bind(c, Canonical(p), fence.writerGeneration) else None
  }

  // ---------------------------------------------------------------- theorems

  /** Same work: equal up to the order of bindings, the writer generation and
      the two caller-supplied identity fields. */
  ghost predicate SameWork(p: Plan, q: Plan) {
    && SameElements(p.files, q.files) && SameElements(p.networks, q.networks)
    && SameElements(p.credentials, q.credentials) && SameElements(p.effects, q.effects)
    && q == p.(files := q.files, networks := q.networks, credentials := q.credentials, effects := q.effects,
               writerGeneration := q.writerGeneration, executionID := q.executionID,
               canonicalPlanDigest := q.canonicalPlanDigest)
  }

  lemma AcceptableIsOrderFree(c: Codec, p: Plan, q: Plan, f: Fence, g: Fence)
    requires SameWork(p, q) && f.ownerID == g.ownerID && f.agentID == g.agentID
    requires Acceptable(c, p, f)
    ensures Acceptable(c, q, g)
  {
    MembersAgree(p.files, q.files);
    MembersAgree(p.networks, q.networks);
    MembersAgree(p.credentials, q.credentials);
    MembersAgree(p.effects, q.effects);
    DistinctIsOrderFree(p.files, q.files, FileKey);
    DistinctIsOrderFree(p.networks, q.networks, NetworkKey);
    DistinctIsOrderFree(p.credentials, q.credentials, CredentialKey);
    DistinctIsOrderFree(p.effects, q.effects, EffectKey);
    forall e | e in q.effects ensures EffectOk(c, q.networks, q.credentials, e) {
      assert EffectOk(c, p.networks, p.credentials, e);
    }
  }

  lemma ArrangedAgree<T(!new)>(xs: seq<T>, ys: seq<T>, key: T -> string)
    requires SameElements(xs, ys) && DistinctBy(xs, key)
    ensures Arranged(xs, key) == Arranged(ys, key)
  {
    DistinctIsOrderFree(xs, Arranged(xs, key), key);
    SortedUnique(Arranged(xs, key), Arranged(ys, key), key);
  }

  lemma CanonicalAgree(c: Codec, p: Plan, q: Plan, f: Fence)
    requires SameWork(p, q) && Acceptable(c, p, f)
    ensures Canonical(p) == Canonical(q)
  {
    ArrangedAgree(p.files, q.files, FileKey);
    ArrangedAgree(p.networks, q.networks, NetworkKey);
    ArrangedAgree(p.credentials, q.credentials, CredentialKey);
    ArrangedAgree(p.effects, q.effects, EffectKey);
  }

  lemma SameWorkSymmetric(p: Plan, q: Plan)
    requires SameWork(p, q)
    ensures SameWork(q, p)
  {
    assert p == q.(files := p.files, networks := p.networks, credentials := p.credentials, effects := p.effects,
                   writerGeneration := p.writerGeneration, executionID := p.executionID,
                   canonicalPlanDigest := p.canonicalPlanDigest);
  }

  /** Every reordering of a plan is rejected, or every reordering prepares to the
      same plan and digest; caller-supplied identity fields are ignored. */
  lemma PreparationIsCanonical(c: Codec, p: Plan, q: Plan, fence: Fence)
    requires SameWork(p, q)
    ensures Prepare(c, p, fence) == Prepare(c, q, fence)
  {
    if Acceptable(c, p, fence) {
      AcceptableIsOrderFree(c, p, q, fence, fence);
      CanonicalAgree(c, p, q, fence);
    } else if Acceptable(c, q, fence) {
      SameWorkSymmetric(p, q);
      AcceptableIsOrderFree(c, q, p, fence, fence);
    }
  }

  /** A writer takeover keeps the execution identity and the canonical digest;
      only the recorded generation moves. */
  lemma TakeoverKeepsIdentity(c: Codec, p: Plan, q: Plan, f: Fence, g: Fence)
    requires SameWork(p, q)
    requires Prepare(c, p, f).Some? && Prepare(c, q, g).Some?
    ensures Prepare(c, q, g).value.0 == Prepare(c, p, f).value.0.(writerGeneration := g.writerGeneration)
  {
    CanonicalAgree(c, p, q, f);
  }

  lemma CanonicalSameWork(p: Plan)
    ensures SameWork(Canonical(p), p)
  {
    var k := Canonical(p);
    assert p == k.(files := p.files, networks := p.networks, credentials := p.credentials, effects := p.effects,
                   writerGeneration := p.writerGeneration, executionID := p.executionID,
                   canonicalPlanDigest := p.canonicalPlanDigest);
  }

  /** Preparing a prepared plan changes nothing. */
  lemma PreparationIsIdempotent(c: Codec, p: Plan, fence: Fence)
    requires Prepare(c, p, fence).Some?
    ensures Prepare(c, Prepare(c, p, fence).value.0, fence) == Prepare(c, p, fence)
  {
    var r := Prepare(c, p, fence).value.0;
    CanonicalSameWork(p);
    assert SameWork(r, p) by {
      assert p == r.(files := p.files, networks := p.networks, credentials := p.credentials, effects := p.effects,
                     writerGeneration := p.writerGeneration, executionID := p.executionID,
                     canonicalPlanDigest := p.canonicalPlanDigest);
    }
    SameWorkSymmetric(r, p);
    PreparationIsCanonical(c, p, r, fence);
  }

  /** The digests of these two plans, and of their slots, do not collide. */
  ghost predicate NoCollision(c: Codec, p: Plan, q: Plan, f: Fence, g: Fence)
    requires Prepare(c, p, f).Some? && Prepare(c, q, g).Some?
  {
    var s, t := SlotOf(Prepare(c, p, f).value.0), SlotOf(Prepare(c, q, g).value.0);
    && (c.planDigest(Canonical(p)) == c.planDigest(Canonical(q)) ==> Canonical(p) == Canonical(q))
    && (c.slotID(s) == c.slotID(t) ==> s == t)
  }

  /** Unless digests collide the execution identity is exactly the work: two
      prepared plans share it if and only if they are the same work. */
  lemma IdentityIsWork(c: Codec, p: Plan, q: Plan, f: Fence, g: Fence)
    requires Prepare(c, p, f).Some? && Prepare(c, q, g).Some? && NoCollision(c, p, q, f, g)
    ensures Prepare(c, p, f).value.0.executionID == Prepare(c, q, g).value.0.executionID <==> SameWork(p, q)
  {
    var r, t := Prepare(c, p, f).value.0, Prepare(c, q, g).value.0;
    if SameWork(p, q) {
      TakeoverKeepsIdentity(c, p, q, f, g);
    }
    if r.executionID == t.executionID {
      assert SlotOf(r).canonicalPlanDigest == r.canonicalPlanDigest;
      assert SlotOf(t).canonicalPlanDigest == t.canonicalPlanDigest;
      assert c.slotID(SlotOf(r)) == c.slotID(SlotOf(t));
      assert c.planDigest(Canonical(p)) == c.planDigest(Canonical(q));
      assert Canonical(p) == Canonical(q);
      CanonicalSameWork(p);
      CanonicalSameWork(q);
      assert q == p.(files := q.files, networks := q.networks, credentials := q.credentials, effects := q.effects,
                     writerGeneration := q.writerGeneration, executionID := q.executionID,
                     canonicalPlanDigest := q.canonicalPlanDigest);
    }
  }

  /** What every prepared plan carries into its durable record. */
  lemma PreparedFacts(c: Codec, p: Plan, fence: Fence)
    requires Prepare(c, p, fence).Some?
    ensures var r := Prepare(c, p, fence).value.0;
            c.slotID(SlotOf(r)) == Some(r.executionID) && |r.effects| <= MAX_EFFECTS
            && DistinctBy(r.effects, EffectKey) && r.writerGeneration == fence.writerGeneration
  {
    MembersAgree(Arranged(p.effects, EffectKey), p.effects);
    DistinctIsOrderFree(p.effects, Arranged(p.effects, EffectKey), EffectKey);
  }
}
