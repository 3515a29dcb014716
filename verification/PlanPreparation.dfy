/** The plan canonicaliser as it runs: sort each slice in place, walk it once,
    index networks and credentials, then bind the digests. */
module PlanPreparation {
  import opened Common
  import opened Sorting
  import opened ExecutionPlan

  lemma {:induction false} AdjacentSuffices<T(!new)>(xs: seq<T>, key: T -> string, n: nat)
    requires n <= |xs| && forall i :: 0 < i < n ==> !StrLess(key(xs[i]), key(xs[i - 1]))
    ensures SortedBy(xs[..n], key)
  {
    if n > 1 {
      AdjacentSuffices(xs, key, n - 1);
      forall i, j | 0 <= i < j < n ensures !StrLess(key(xs[j]), key(xs[i])) {
        if j < n - 1 {
          assert xs[..n - 1][i] == xs[i] && xs[..n - 1][j] == xs[j];
        } else if i < n - 2 {
          assert xs[..n - 1][i] == xs[i] && xs[..n - 1][n - 2] == xs[n - 2];
          NotLessTransitive(key(xs[i]), key(xs[n - 2]), key(xs[n - 1]));
        }
      }
    }
  }

  method CheckFiles(c: Codec, xs: seq<FileBinding>) returns (ok: bool)
    requires SortedBy(xs, FileKey)
    ensures ok <==> (forall f :: f in xs ==> FileOk(c, f)) && DistinctBy(xs, FileKey)
  {
    NeighboursSuffice(xs, FileKey);
    for i := 0 to |xs|
      invariant forall k :: 0 <= k < i ==> FileOk(c, xs[k])
      invariant forall k :: 0 < k < i ==> FileKey(xs[k - 1]) != FileKey(xs[k])
    {
      if !FileOk(c, xs[i]) || (i > 0 && xs[i - 1].path == xs[i].path) {
        return false;
      }
    }
    ok := true;
  }

  /** Addresses must arrive sorted, distinct and public. */
  method CheckAddresses(c: Codec, ips: seq<string>) returns (ok: bool)
    ensures ok <==> SortedBy(ips, AddressKey) && NeighboursDiffer(ips, AddressKey)
                    && forall i :: 0 <= i < |ips| ==> c.publicAddress(ips[i])
  {
    var i := |ips| - 1;
    while i > 0
      invariant i < |ips|
      invariant forall k :: 0 < k < |ips| && k > i ==> !StrLess(AddressKey(ips[k]), AddressKey(ips[k - 1]))
    {
      if StrLess(ips[i], ips[i - 1]) { return false; }
      i := i - 1;
    }
    AdjacentSuffices(ips, AddressKey, |ips|);
    assert ips[..|ips|] == ips;
    for j := 0 to |ips|
      invariant forall k :: 0 <= k < j ==> c.publicAddress(ips[k])
      invariant forall k :: 0 < k < j ==> AddressKey(ips[k - 1]) != AddressKey(ips[k])
    {
      if !c.publicAddress(ips[j]) || (j > 0 && ips[j - 1] == ips[j]) { return false; }
    }
    ok := true;
  }

  method CheckNetworks(c: Codec, xs: seq<NetworkBinding>) returns (ok: bool)
    requires SortedBy(xs, NetworkKey)
    ensures ok <==> (forall n :: n in xs ==> NetworkOk(c, n)) && DistinctBy(xs, NetworkKey)
  {
    NeighboursSuffice(xs, NetworkKey);
    for i := 0 to |xs|
      invariant forall k :: 0 <= k < i ==> NetworkOk(c, xs[k])
      invariant forall k :: 0 < k < i ==> NetworkKey(xs[k - 1]) != NetworkKey(xs[k])
    {
      if !NetworkFieldsOk(xs[i]) || (i > 0 && xs[i - 1].bindingID == xs[i].bindingID) { return false; }
      var addresses := CheckAddresses(c, xs[i].resolvedIPs);
      if !addresses {
        assert xs[i] in xs && !NetworkOk(c, xs[i]);
        return false;
      }
    }
    ok := true;
  }

  method CheckCredentials(xs: seq<CredentialBinding>) returns (ok: bool)
    requires SortedBy(xs, CredentialKey)
    ensures ok <==> (forall h :: h in xs ==> CredentialOk(h)) && DistinctBy(xs, CredentialKey)
  {
    NeighboursSuffice(xs, CredentialKey);
    for i := 0 to |xs|
      invariant forall k :: 0 <= k < i ==> CredentialOk(xs[k])
      invariant forall k :: 0 < k < i ==> CredentialKey(xs[k - 1]) != CredentialKey(xs[k])
    {
      if !CredentialOk(xs[i]) || (i > 0 && xs[i - 1].handleID == xs[i].handleID) { return false; }
    }
    ok := true;
  }

  method IndexNetworks(xs: seq<NetworkBinding>) returns (m: map<string, NetworkBinding>)
    requires DistinctBy(xs, NetworkKey)
    ensures forall id :: id in m ==> m[id] in xs && m[id].bindingID == id
    ensures forall n :: n in xs ==> n.bindingID in m && m[n.bindingID] == n
  {
    m := map[];
    for i := 0 to |xs|
      invariant forall id :: id in m ==> m[id] in xs && m[id].bindingID == id
      invariant forall k :: 0 <= k < i ==> xs[k].bindingID in m && m[xs[k].bindingID] == xs[k]
    {
      assert forall k :: 0 <= k < i ==> NetworkKey(xs[k]) != NetworkKey(xs[i]);
      m := m[xs[i].bindingID := xs[i]];
    }
  }

  method IndexCredentials(xs: seq<CredentialBinding>) returns (s: set<string>)
    ensures forall id :: id in s <==> exists h :: h in xs && h.handleID == id
  {
    s := {};
    for i := 0 to |xs|
      invariant forall id :: id in s <==> exists h :: h in xs[..i] && h.handleID == id
    {
      s := s + {xs[i].handleID};
      assert xs[..i + 1] == xs[..i] + [xs[i]];
    }
    assert xs[..|xs|] == xs;
  }

  predicate EffectAdmitted(c: Codec, byID: map<string, NetworkBinding>, handles: set<string>, e: EffectBinding) {
    && EffectFieldsOk(e)
    && e.networkBindingID in byID && c.targetDigest(byID[e.networkBindingID]) == Some(e.targetDigest)
    && (e.credentialHandleID == "" || e.credentialHandleID in handles)
  }

  /** Looking an effect up in the two indexes decides what the plan says of it. */
  lemma LookupDecides(c: Codec, networks: seq<NetworkBinding>, credentials: seq<CredentialBinding>,
                      byID: map<string, NetworkBinding>, handles: set<string>, e: EffectBinding)
    requires forall id :: id in byID ==> byID[id] in networks && byID[id].bindingID == id
    requires forall n :: n in networks ==> n.bindingID in byID && byID[n.bindingID] == n
    requires forall id :: id in handles <==> exists h :: h in credentials && h.handleID == id
    ensures EffectAdmitted(c, byID, handles, e) <==> EffectOk(c, networks, credentials, e)
  {
    if EffectOk(c, networks, credentials, e) {
      var n :| n in networks && n.bindingID == e.networkBindingID && c.targetDigest(n) == Some(e.targetDigest);
      assert byID[n.bindingID] == n;
    }
    if EffectAdmitted(c, byID, handles, e) {
      assert byID[e.networkBindingID] in networks;
    }
  }

  method CheckEffects(c: Codec, networks: seq<NetworkBinding>, credentials: seq<CredentialBinding>,
                      xs: seq<EffectBinding>)
    returns (ok: bool)
    requires SortedBy(xs, EffectKey) && DistinctBy(networks, NetworkKey)
    ensures ok <==> (forall e :: e in xs ==> EffectOk(c, networks, credentials, e)) && DistinctBy(xs, EffectKey)
  {
    NeighboursSuffice(xs, EffectKey);
    var byID := IndexNetworks(networks);
    var handles := IndexCredentials(credentials);
    forall e ensures EffectAdmitted(c, byID, handles, e) <==> EffectOk(c, networks, credentials, e) {
      LookupDecides(c, networks, credentials, byID, handles, e);
    }
    ok := CheckAdmitted(c, byID, handles, xs);
  }

  method CheckAdmitted(c: Codec, byID: map<string, NetworkBinding>, handles: set<string>, xs: seq<EffectBinding>)
    returns (ok: bool)
    ensures ok <==> (forall e :: e in xs ==> EffectAdmitted(c, byID, handles, e)) && NeighboursDiffer(xs, EffectKey)
  {
    for i := 0 to |xs|
      invariant forall k :: 0 <= k < i ==> EffectAdmitted(c, byID, handles, xs[k])
      invariant forall k :: 0 < k < i ==> EffectKey(xs[k - 1]) != EffectKey(xs[k])
    {
      if !EffectAdmitted(c, byID, handles, xs[i]) || (i > 0 && xs[i - 1].planEffectID == xs[i].planEffectID) {
        return false;
      }
    }
    ok := true;
  }

  /** Accepts exactly the acceptable plans and returns the canonical one, although
      the sort may place equal keys in any order. */
  method PreparePlan(c: Codec, p: Plan, fence: Fence) returns (r: Option<(Plan, string)>)
    ensures r == Prepare(c, p, fence)
  {
    if !HeaderOk(p, fence) { return None; }
    var files := SortedCopy(p.files, FileKey);
    var filesOk := CheckFiles(c, files);
    if !filesOk { return None; }
    var networks := SortedCopy(p.networks, NetworkKey);
    var networksOk := CheckNetworks(c, networks);
    if !networksOk { return None; }
    var credentials := SortedCopy(p.credentials, CredentialKey);
    var credentialsOk := CheckCredentials(credentials);
    if !credentialsOk { return None; }
    var effects := SortedCopy(p.effects, EffectKey);
    var effectsOk := CheckEffects(c, networks, credentials, effects);
    assert forall e :: EffectOk(c, networks, credentials, e) <==> EffectOk(c, p.networks, p.credentials, e);
    if !effectsOk { return None; }
    var base := p.(files := files, networks := networks, credentials := credentials, effects := effects,
                   writerGeneration := 0, executionID := "", canonicalPlanDigest := "");
    assert base == Canonical(p);
    r := Bind(c, base, fence.writerGeneration);
  }
}
