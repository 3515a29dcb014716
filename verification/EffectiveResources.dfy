/** Choosing the mount of a hierarchy, and the resources a process may use once
    the host and every hierarchy have had their say. */
module EffectiveResources {
  import opened Common
  import opened ControlText
  import opened Cgroup

  /** Controllers of version 1 mounts; the unified hierarchy is version 2. */
  datatype Controller = Memory | Cpu | Cpuset | Unified
  datatype Mount = Mount(version: nat, root: Dir, point: Dir, memory: bool, cpu: bool, cpuset: bool)

  predicate Serves(mount: Mount, controller: Controller) {
    if mount.version == 2 then controller == Unified
    else mount.version == 1 && match controller {
      case Memory => mount.memory
      case Cpu => mount.cpu
      case Cpuset => mount.cpuset
      case Unified => false
    }
  }

  function Joined(d: Dir): nat { if d == [] then 0 else 1 + Utf8Length(d[0]) + Joined(d[1..]) }

  /** The length of the path as text, in bytes; the root is one byte. */
  function PathLength(d: Dir): nat { if d == [] then 1 else Joined(d) }

  /** Where a membership lives under a mount. The root membership of a control
      group namespace resolves under every mount. */
  function Resolve(mount: Mount, member: Dir): Option<Dir> {
    var current :=
      if mount.root <= member then Some(mount.point + member[|mount.root|..])
      else if member == [] then Some(mount.point)
      else None;
    if current.Some? && PathLength(current.value) > MAX_PATH then None else current
  }

  predicate Candidate(mount: Mount, controller: Controller, member: Dir) {
    Serves(mount, controller) && Resolve(mount, member).Some?
  }

  datatype Choice = NoMount | Ambiguous | Chosen(mount: Mount, current: Dir)

  /** Two candidates of equal root length that lead to different places. */
  predicate Clash(a: Mount, b: Mount, member: Dir) {
    && PathLength(a.root) == PathLength(b.root)
    && (a.point != b.point || Resolve(a, member) != Resolve(b, member))
  }

  function Consider(choice: Choice, mount: Mount, controller: Controller, member: Dir): Choice {
    if choice.Ambiguous? || !Candidate(mount, controller, member) then choice
    else if choice.NoMount? || PathLength(mount.root) > PathLength(choice.mount.root) then
      Chosen(mount, Resolve(mount, member).value)
    else if PathLength(mount.root) == PathLength(choice.mount.root)
            && (mount.point != choice.mount.point || Resolve(mount, member).value != choice.current) then Ambiguous
    else choice
  }

  function Select(mounts: seq<Mount>, controller: Controller, member: Dir): Choice {
    if mounts == [] then NoMount
    else Consider(Select(mounts[..|mounts| - 1], controller, member), mounts[|mounts| - 1], controller, member)
  }

  method SelectMount(mounts: seq<Mount>, controller: Controller, member: Dir) returns (r: Choice)
    ensures r == Select(mounts, controller, member)
  {
    r := NoMount;
    var index := 0;
    while index < |mounts|
      invariant 0 <= index <= |mounts|
      invariant r == Select(mounts[..index], controller, member) && !r.Ambiguous?
    {
      assert mounts[..index + 1][..index] == mounts[..index];
      var mount := mounts[index];
      var current := Resolve(mount, member);
      if Serves(mount, controller) && current.Some? {
        if r.NoMount? || PathLength(mount.root) > PathLength(r.mount.root) {
          r := Chosen(mount, current.value);
        } else if PathLength(mount.root) == PathLength(r.mount.root)
                  && (mount.point != r.mount.point || current.value != r.current) {
          StaysAmbiguous(mounts, index + 1, controller, member);
          return Ambiguous;
        }
      }
      index := index + 1;
    }
    assert mounts[..index] == mounts;
  }

  lemma {:induction false} StaysAmbiguous(mounts: seq<Mount>, n: nat, controller: Controller, member: Dir)
    requires n <= |mounts| && Select(mounts[..n], controller, member).Ambiguous?
    ensures Select(mounts, controller, member).Ambiguous?
    decreases |mounts| - n
  {
    if n < |mounts| {
      assert mounts[..n + 1][..n] == mounts[..n];
      StaysAmbiguous(mounts, n + 1, controller, member);
    } else {
      assert mounts[..n] == mounts;
    }
  }

  /** A clash that no earlier, longer root has made irrelevant. */
  predicate ClashAt(mounts: seq<Mount>, i: int, j: int, controller: Controller, member: Dir) {
    && 0 <= i < j < |mounts|
    && Candidate(mounts[i], controller, member) && Candidate(mounts[j], controller, member)
    && Clash(mounts[i], mounts[j], member)
    && forall k :: 0 <= k < j && Candidate(mounts[k], controller, member) ==>
         PathLength(mounts[k].root) <= PathLength(mounts[j].root)
  }

  /** What a choice means for the mounts seen. */
  ghost predicate Explains(mounts: seq<Mount>, controller: Controller, member: Dir, r: Choice) {
    match r
    case NoMount => forall k :: 0 <= k < |mounts| ==> !Candidate(mounts[k], controller, member)
    case Ambiguous => exists i, j :: ClashAt(mounts, i, j, controller, member)
    case Chosen(mount, current) =>
      && mount in mounts && Candidate(mount, controller, member) && Resolve(mount, member) == Some(current)
      && (forall k :: 0 <= k < |mounts| && Candidate(mounts[k], controller, member) ==>
            PathLength(mounts[k].root) <= PathLength(mount.root) && !Clash(mount, mounts[k], member))
      && !exists i, j :: ClashAt(mounts, i, j, controller, member)
  }

  /** Clashes among the earlier mounts are those of the longer list. */
  lemma ClashAtExtends(mounts: seq<Mount>, controller: Controller, member: Dir)
    requires mounts != []
    ensures forall i, j :: j < |mounts| - 1 ==>
              (ClashAt(mounts, i, j, controller, member) <==> ClashAt(mounts[..|mounts| - 1], i, j, controller, member))
  {
    hide Candidate, Clash, PathLength;
    var before := mounts[..|mounts| - 1];
    assert forall k :: 0 <= k < |before| ==> before[k] == mounts[k];
  }

  /** A mount that is no candidate, or a shorter one, or an equally long one that
      leads to the same place, changes nothing. */
  lemma ChoiceStands(mounts: seq<Mount>, controller: Controller, member: Dir, was: Choice)
    requires mounts != [] && Explains(mounts[..|mounts| - 1], controller, member, was) && !was.Ambiguous?
    requires var mount := mounts[|mounts| - 1];
             Candidate(mount, controller, member) ==>
               was.Chosen? && PathLength(mount.root) <= PathLength(was.mount.root) && !Clash(was.mount, mount, member)
    ensures Explains(mounts, controller, member, was)
  {
    hide PathLength, Resolve, Candidate;
    var n := |mounts| - 1;
    assert forall k :: 0 <= k < n ==> mounts[..n][k] == mounts[k];
    ClashAtExtends(mounts, controller, member);
    if was.Chosen? {
      var s :| 0 <= s < n && mounts[..n][s] == was.mount;
      assert mounts[s] == was.mount;
      forall i, j ensures !ClashAt(mounts, i, j, controller, member) {
        assert j < n ==> !ClashAt(mounts[..n], i, j, controller, member);
      }
    }
  }

  lemma LongerReplaces(mounts: seq<Mount>, controller: Controller, member: Dir, was: Choice)
    requires mounts != [] && Explains(mounts[..|mounts| - 1], controller, member, was) && !was.Ambiguous?
    requires var mount := mounts[|mounts| - 1];
             && Candidate(mount, controller, member)
             && (was.Chosen? ==> PathLength(mount.root) > PathLength(was.mount.root))
    ensures Explains(mounts, controller, member,
                     Chosen(mounts[|mounts| - 1], Resolve(mounts[|mounts| - 1], member).value))
  {
    var n := |mounts| - 1;
    assert Resolve(mounts[n], member).Some?;
    hide PathLength, Resolve, Candidate;
    assert forall k :: 0 <= k < n ==> mounts[..n][k] == mounts[k];
    ClashAtExtends(mounts, controller, member);
    forall k | 0 <= k < n && Candidate(mounts[k], controller, member)
      ensures PathLength(mounts[k].root) < PathLength(mounts[n].root)
      ensures !Clash(mounts[n], mounts[k], member) && !Clash(mounts[k], mounts[n], member)
    {
      assert Candidate(mounts[..n][k], controller, member);
    }
    assert !Clash(mounts[n], mounts[n], member);
    hide Clash;
    forall i, j ensures !ClashAt(mounts, i, j, controller, member) {
      assert j < n ==> !ClashAt(mounts[..n], i, j, controller, member);
    }
  }

  lemma ClashIsFinal(mounts: seq<Mount>, controller: Controller, member: Dir, was: Choice)
    requires mounts != [] && Explains(mounts[..|mounts| - 1], controller, member, was)
    requires was.Chosen? ==>
               Candidate(mounts[|mounts| - 1], controller, member) && Clash(was.mount, mounts[|mounts| - 1], member)
    requires !was.NoMount?
    ensures Explains(mounts, controller, member, Ambiguous)
  {
    hide PathLength, Resolve, Candidate;
    var n := |mounts| - 1;
    assert forall k :: 0 <= k < n ==> mounts[..n][k] == mounts[k];
    ClashAtExtends(mounts, controller, member);
    if was.Ambiguous? {
      var i, j :| ClashAt(mounts[..n], i, j, controller, member);
      assert ClashAt(mounts, i, j, controller, member);
    } else {
      var i :| 0 <= i < n && mounts[..n][i] == was.mount;
      assert ClashAt(mounts, i, n, controller, member);
    }
  }

  /** Selection is exact: nothing serves the membership, or two equally long
      roots clash with none longer before them, or the chosen mount has the
      longest root and every candidate as long leads to the same place. */
  lemma {:induction false} SelectionIsExact(mounts: seq<Mount>, controller: Controller, member: Dir)
    ensures Explains(mounts, controller, member, Select(mounts, controller, member))
  {
    hide Candidate, PathLength, Resolve, Serves;
    if mounts != [] {
      var n := |mounts| - 1;
      var before, mount := mounts[..n], mounts[n];
      SelectionIsExact(before, controller, member);
      SelectionSteps(mounts, controller, member);
    }
  }

  lemma SelectionSteps(mounts: seq<Mount>, controller: Controller, member: Dir)
    requires mounts != []
    requires Explains(mounts[..|mounts| - 1], controller, member, Select(mounts[..|mounts| - 1], controller, member))
    ensures Explains(mounts, controller, member, Select(mounts, controller, member))
  {
    var mount := mounts[|mounts| - 1];
    var was := Select(mounts[..|mounts| - 1], controller, member);
    var now := Select(mounts, controller, member);
    assert now == Consider(was, mount, controller, member);
    assert Candidate(mount, controller, member) ==> Resolve(mount, member).Some?;
    assert was.Chosen? ==> Resolve(was.mount, member) == Some(was.current);
    hide Explains, PathLength, Resolve, Select, Candidate;
    if now.Ambiguous? {
      ClashIsFinal(mounts, controller, member, was);
    } else if now == was {
      ChoiceStands(mounts, controller, member, was);
    } else {
      LongerReplaces(mounts, controller, member, was);
    }
  }

  /** Reordering the mount table never changes which place is chosen, as long as
      both orders choose one. */
  lemma SelectionAgrees(mounts: seq<Mount>, shuffled: seq<Mount>, controller: Controller, member: Dir)
    requires multiset(mounts) == multiset(shuffled)
    requires Select(mounts, controller, member).Chosen? && Select(shuffled, controller, member).Chosen?
    ensures var a, b := Select(mounts, controller, member), Select(shuffled, controller, member);
            a.current == b.current && a.mount.point == b.mount.point
  {
    hide Candidate, PathLength, Resolve, Serves;
    SelectionIsExact(mounts, controller, member);
    SelectionIsExact(shuffled, controller, member);
    var a, b := Select(mounts, controller, member), Select(shuffled, controller, member);
    assert a.mount in multiset(shuffled) && b.mount in multiset(mounts);
    var i :| 0 <= i < |shuffled| && shuffled[i] == a.mount;
    var j :| 0 <= j < |mounts| && mounts[j] == b.mount;
    assert !Clash(a.mount, mounts[j], member);
  }

  /** Whether a place is chosen does depend on the order: two clashing short
      roots are an error unless a longer one comes before the second. */
  lemma AmbiguityDependsOnOrder()
    ensures exists mounts, shuffled, member ::
              && multiset(mounts) == multiset(shuffled)
              && Select(mounts, Unified, member).Ambiguous? && Select(shuffled, Unified, member).Chosen?
  {
    var a := Mount(2, ["a"], ["x"], false, false, false);
    var b := Mount(2, ["a"], ["y"], false, false, false);
    var c := Mount(2, ["a", "b"], ["z"], false, false, false);
    var member := ["a", "b"];
    Contenders(a, b, c, member);
    hide Resolve, PathLength, Candidate, Select;
    ShortClash(a, b, c, member);
    Rotated(a, b, c);
  }

  lemma Rotated(a: Mount, b: Mount, c: Mount)
    ensures multiset([a, b, c]) == multiset([c, a, b])
  {
  }

  lemma Contenders(a: Mount, b: Mount, c: Mount, member: Dir)
    requires a == Mount(2, ["a"], ["x"], false, false, false) && b == a.(point := ["y"])
    requires c == Mount(2, ["a", "b"], ["z"], false, false, false) && member == ["a", "b"]
    ensures Candidate(a, Unified, member) && Candidate(b, Unified, member) && Candidate(c, Unified, member)
    ensures PathLength(a.root) == PathLength(b.root) < PathLength(c.root)
  {
    ResolvesTo(a, "x");
    ResolvesTo(b, "y");
    assert Resolve(c, member).Some? by {
      ShortPaths("z", "z");
      assert member[2..] == [] && ["z"] + [] == ["z"];
    }
    ShortPaths("a", "b");
  }

  lemma ShortClash(a: Mount, b: Mount, c: Mount, member: Dir)
    requires Candidate(a, Unified, member) && Candidate(b, Unified, member) && Candidate(c, Unified, member)
    requires PathLength(a.root) == PathLength(b.root) < PathLength(c.root) && a.point != b.point
    ensures Select([a, b, c], Unified, member).Ambiguous? && Select([c, a, b], Unified, member).Chosen?
  {
    Three(a, b, c, member);
    Three(c, a, b, member);
    assert Resolve(a, member).Some? && Resolve(b, member).Some? && Resolve(c, member).Some?;
    hide Candidate, Resolve, PathLength, Select;
  }

  lemma ResolvesTo(m: Mount, place: string)
    requires m.root == ["a"] && m.point == [place] && |place| == 1
    ensures Resolve(m, ["a", "b"]) == Some([place, "b"])
  {
    ShortPaths(place, "b");
    assert ["a"] <= ["a", "b"] && ["a", "b"][1..] == ["b"] && [place] + ["b"] == [place, "b"];
  }

  lemma Three(a: Mount, b: Mount, c: Mount, member: Dir)
    ensures Select([a, b, c], Unified, member)
         == Consider(Consider(Consider(NoMount, a, Unified, member), b, Unified, member), c, Unified, member)
  {
    assert [a, b, c][..2] == [a, b] && [a, b][..1] == [a] && [a][..0] == [];
    assert Select([a], Unified, member) == Consider(NoMount, a, Unified, member);
    assert Select([a, b], Unified, member) == Consider(Select([a], Unified, member), b, Unified, member);
  }

  lemma ShortPaths(s: string, t: string)
    ensures PathLength([s]) == 1 + Utf8Length(s) && PathLength([s, t]) == 2 + Utf8Length(s) + Utf8Length(t)
  {
    assert [s][1..] == [] && [s, t][1..] == [t] && [t][1..] == [];
    assert Joined([t]) == 1 + Utf8Length(t);
  }

  // -------------------------------------------------- when order is irrelevant

  /** Two candidates of the table lead to different places. */
  ghost predicate Contested(mounts: seq<Mount>, controller: Controller, member: Dir, a: Mount, b: Mount) {
    && a in mounts && b in mounts && Candidate(a, controller, member) && Candidate(b, controller, member)
    && Clash(a, b, member)
  }

  ghost predicate Longest(mounts: seq<Mount>, controller: Controller, member: Dir, a: Mount) {
    && a in mounts && Candidate(a, controller, member)
    && forall c :: c in mounts && Candidate(c, controller, member) ==> PathLength(c.root) <= PathLength(a.root)
  }

  ghost predicate SameTable(mounts: seq<Mount>, shuffled: seq<Mount>) { multiset(mounts) == multiset(shuffled) }

  /** Every order of the table is an error, or none is. */
  ghost predicate OrderFree(mounts: seq<Mount>, controller: Controller, member: Dir) {
    forall shuffled :: SameTable(mounts, shuffled) ==>
      (Select(shuffled, controller, member).Ambiguous? <==> Select(mounts, controller, member).Ambiguous?)
  }

  lemma SameMembers(mounts: seq<Mount>, shuffled: seq<Mount>)
    requires SameTable(mounts, shuffled)
    ensures forall m :: m in mounts <==> m in shuffled
  {
    forall m ensures m in mounts <==> m in shuffled {
      assert m in multiset(mounts) <==> m in multiset(shuffled);
    }
  }

  lemma ClashIsSymmetric(a: Mount, b: Mount, member: Dir)
    ensures Clash(a, b, member) <==> Clash(b, a, member)
    ensures !Clash(a, a, member)
  {
  }

  /** An error needs a clash; a clash at the greatest length always is one. */
  lemma ErrorNeedsClash(mounts: seq<Mount>, controller: Controller, member: Dir)
    requires Select(mounts, controller, member).Ambiguous?
    ensures exists a, b :: Contested(mounts, controller, member, a, b)
  {
    hide Candidate, Clash, PathLength, Select;
    SelectionIsExact(mounts, controller, member);
    var i, j :| ClashAt(mounts, i, j, controller, member);
    assert Contested(mounts, controller, member, mounts[i], mounts[j]);
  }

  lemma LongestClashIsError(mounts: seq<Mount>, controller: Controller, member: Dir, a: Mount, b: Mount)
    requires Contested(mounts, controller, member, a, b) && Longest(mounts, controller, member, a)
    ensures Select(mounts, controller, member).Ambiguous?
  {
    assert PathLength(a.root) == PathLength(b.root);
    hide Candidate, Clash, PathLength, Select;
    ClashIsSymmetric(a, b, member);
    ClashIsSymmetric(b, b, member);
    var i :| 0 <= i < |mounts| && mounts[i] == a;
    var j :| 0 <= j < |mounts| && mounts[j] == b;
    assert i != j;
    var (lo, hi) := if i < j then (i, j) else (j, i);
    assert ClashAt(mounts, lo, hi, controller, member);
    SelectionIsExact(mounts, controller, member);
  }

  /** A clash put first is an error. */
  lemma ClashFirst(mounts: seq<Mount>, controller: Controller, member: Dir, a: Mount, b: Mount)
    requires Contested(mounts, controller, member, a, b)
    ensures exists shuffled :: SameTable(mounts, shuffled) && Select(shuffled, controller, member).Ambiguous?
  {
    ClashIsSymmetric(a, b, member);
    ClashIsSymmetric(a, a, member);
    var shuffled := PairFirst(mounts, a, b);
    var clash := (PathLength(a.root), PathLength(b.root));
    assert clash.0 == clash.1;
    hide Candidate, Clash, PathLength, Select;
    assert ClashAt(shuffled, 0, 1, controller, member);
    SelectionIsExact(shuffled, controller, member);
  }

  lemma PairFirst(mounts: seq<Mount>, a: Mount, b: Mount) returns (shuffled: seq<Mount>)
    requires a in mounts && b in mounts && a != b
    ensures SameTable(mounts, shuffled) && |shuffled| >= 2 && shuffled[0] == a && shuffled[1] == b
  {
    var once := OneFirst(mounts, b);
    assert a in multiset(once);
    shuffled := OneFirst(once, a);
    var k :| 0 <= k < |once| && once[k] == a && shuffled == [a] + once[..k] + once[k + 1..];
    assert once[0] == b;
  }

  lemma OneFirst(mounts: seq<Mount>, a: Mount) returns (shuffled: seq<Mount>)
    requires a in mounts
    ensures exists k :: 0 <= k < |mounts| && mounts[k] == a && shuffled == [a] + mounts[..k] + mounts[k + 1..]
    ensures SameTable(mounts, shuffled) && |shuffled| >= 1 && shuffled[0] == a
  {
    var k :| 0 <= k < |mounts| && mounts[k] == a;
    shuffled := [a] + mounts[..k] + mounts[k + 1..];
    assert mounts == mounts[..k] + [a] + mounts[k + 1..];
  }

  /** With a longest root first, only a clash at the greatest length is an error. */
  lemma LongestFirst(mounts: seq<Mount>, controller: Controller, member: Dir, a: Mount)
    requires Longest(mounts, controller, member, a)
    requires forall b, c :: Contested(mounts, controller, member, b, c) ==> !Longest(mounts, controller, member, b)
    ensures exists shuffled :: SameTable(mounts, shuffled) && !Select(shuffled, controller, member).Ambiguous?
  {
    var shuffled := OneFirst(mounts, a);
    hide Candidate, Clash, PathLength, Select;
    if Select(shuffled, controller, member).Ambiguous? {
      SelectionIsExact(shuffled, controller, member);
      var i, j :| ClashAt(shuffled, i, j, controller, member);
      ClashAfterLongest(mounts, shuffled, controller, member, a, i, j);
    }
  }

  lemma ClashAfterLongest(mounts: seq<Mount>, shuffled: seq<Mount>, controller: Controller, member: Dir, a: Mount,
                          i: int, j: int)
    requires SameTable(mounts, shuffled) && Longest(mounts, controller, member, a)
    requires shuffled != [] && shuffled[0] == a && ClashAt(shuffled, i, j, controller, member)
    ensures Contested(mounts, controller, member, shuffled[i], shuffled[j])
            && Longest(mounts, controller, member, shuffled[i])
  {
    SameMembers(mounts, shuffled);
    assert PathLength(shuffled[i].root) == PathLength(shuffled[j].root);
    hide Candidate, Clash, PathLength;
    assert Candidate(shuffled[0], controller, member);
  }

  lemma {:induction false} LongestExists(mounts: seq<Mount>, controller: Controller, member: Dir, c: Mount)
    requires c in mounts && Candidate(c, controller, member)
    ensures exists a :: Longest(mounts, controller, member, a)
  {
    hide Candidate, PathLength;
    var n := |mounts| - 1;
    var rest, last := mounts[..n], mounts[n];
    assert mounts == rest + [last];
    if b :| b in rest && Candidate(b, controller, member) {
      LongestExists(rest, controller, member, b);
      var a :| Longest(rest, controller, member, a);
      var best := if Candidate(last, controller, member) && PathLength(last.root) > PathLength(a.root) then last else a;
      assert Longest(mounts, controller, member, best);
    } else {
      assert c == last && Longest(mounts, controller, member, last);
    }
  }

  /** The order of the mount table is irrelevant if and only if no two candidates
      clash, or two of the greatest root length do. */
  lemma OrderFreeExactly(mounts: seq<Mount>, controller: Controller, member: Dir)
    ensures OrderFree(mounts, controller, member) <==>
            || (forall a, b :: !Contested(mounts, controller, member, a, b))
            || (exists a, b :: Contested(mounts, controller, member, a, b) && Longest(mounts, controller, member, a))
  {
    if a, b :| Contested(mounts, controller, member, a, b) {
      if c, d :| Contested(mounts, controller, member, c, d) && Longest(mounts, controller, member, c) {
        AlwaysError(mounts, controller, member, c, d);
      } else {
        SometimesError(mounts, controller, member, a, b);
      }
    } else {
      NeverError(mounts, controller, member);
    }
  }

  lemma AlwaysError(mounts: seq<Mount>, controller: Controller, member: Dir, a: Mount, b: Mount)
    requires Contested(mounts, controller, member, a, b) && Longest(mounts, controller, member, a)
    ensures OrderFree(mounts, controller, member)
  {
    hide Candidate, Clash, PathLength, Select;
    forall shuffled | SameTable(mounts, shuffled) ensures Select(shuffled, controller, member).Ambiguous? {
      SameMembers(mounts, shuffled);
      LongestClashIsError(shuffled, controller, member, a, b);
    }
    assert SameTable(mounts, mounts);
  }

  lemma SometimesError(mounts: seq<Mount>, controller: Controller, member: Dir, a: Mount, b: Mount)
    requires Contested(mounts, controller, member, a, b)
    requires forall c, d :: Contested(mounts, controller, member, c, d) ==> !Longest(mounts, controller, member, c)
    ensures !OrderFree(mounts, controller, member)
  {
    ClashFirst(mounts, controller, member, a, b);
    LongestExists(mounts, controller, member, a);
    hide Candidate, Clash, PathLength, Select, Longest, Contested, SameTable;
    var c :| Longest(mounts, controller, member, c);
    LongestFirst(mounts, controller, member, c);
    var bad :| SameTable(mounts, bad) && Select(bad, controller, member).Ambiguous?;
    var good :| SameTable(mounts, good) && !Select(good, controller, member).Ambiguous?;
  }

  lemma NeverError(mounts: seq<Mount>, controller: Controller, member: Dir)
    requires forall a, b :: !Contested(mounts, controller, member, a, b)
    ensures OrderFree(mounts, controller, member)
  {
    hide Candidate, Clash, PathLength, Select;
    forall shuffled | SameTable(mounts, shuffled) ensures !Select(shuffled, controller, member).Ambiguous? {
      SameMembers(mounts, shuffled);
      assert forall a, b :: Contested(shuffled, controller, member, a, b) ==>
               Contested(mounts, controller, member, a, b);
      if Select(shuffled, controller, member).Ambiguous? { ErrorNeedsClash(shuffled, controller, member); }
    }
    assert SameTable(mounts, mounts);
  }

  // ------------------------------------------------------ effective resources

  datatype Memberships = Memberships(memory: Option<Dir>, cpu: Option<Dir>, cpuset: Option<Dir>, unified: Option<Dir>)
  datatype Host = Host(files: Files, mounts: seq<Mount>, members: Memberships)

  /** A hierarchy's limit through the mount chosen for it. */
  function Through(host: Host, controller: Controller, control: Control, member: Dir): Limit {
    match Select(host.mounts, controller, member)
    case Chosen(mount, current) => Hierarchy(host.files, control, current, mount.point)
    case _ => Bad
  }

  /** The hierarchy in charge of a resource. A version 1 controller, when the
      process has one, replaces the unified hierarchy for its resource. */
  datatype Charge = Charge(controller: Controller, control: Control, member: Dir)

  function MemoryCharge(host: Host): Option<Charge> {
    if host.members.memory.Some? then Some(Charge(Memory, MemoryV1, host.members.memory.value))
    else if host.members.unified.Some? then Some(Charge(Unified, MemoryV2, host.members.unified.value))
    else None
  }

  function QuotaCharge(host: Host): Option<Charge> {
    if host.members.cpu.Some? then Some(Charge(Cpu, QuotaV1, host.members.cpu.value))
    else if host.members.unified.Some? then Some(Charge(Unified, QuotaV2, host.members.unified.value))
    else None
  }

  function ChargeLimit(host: Host, charge: Option<Charge>): Limit {
    match charge
    case None => Unlimited
    case Some(c) => Through(host, c.controller, c.control, c.member)
  }

  function MemoryLimit(host: Host): Limit { ChargeLimit(host, MemoryCharge(host)) }
  function QuotaLimit(host: Host): Limit { ChargeLimit(host, QuotaCharge(host)) }

  /** The unified hierarchy reports its effective set in the process's own
      directory; a missing file sets no limit and a blank one is an error. */
  function EffectiveSet(reading: Reading): Limit {
    match reading
    case Missing => Unlimited
    case Unreadable => Bad
    case Text(text) => if ReadableSet(text) then AtMost(|CPUSet(text)|) else Bad
  }

  function SetLimit(host: Host): Limit {
    if host.members.cpuset.Some? then
      match Select(host.mounts, Cpuset, host.members.cpuset.value)
      case Chosen(mount, current) => SetHierarchy(host.files, current, mount.point)
      case _ => Bad
    else if host.members.unified.Some? then
      match Select(host.mounts, Unified, host.members.unified.value)
      case Chosen(mount, current) => EffectiveSet(host.files(current, "cpuset.cpus.effective"))
      case _ => Bad
    else Unlimited
  }

  function Capped(value: nat, limit: Limit): nat {
    if limit.AtMost? && limit.value < value then limit.value else value
  }

  /** The least of the host's share and every limit; none if anything is bad. */
  function Effective(host: Host, memory: nat, cpus: int): Option<(nat, nat)> {
    if memory == 0 || cpus <= 0 then None
    else if MemoryLimit(host).Bad? || QuotaLimit(host).Bad? || SetLimit(host).Bad? then None
    else
      var clamped := if cpus > MAX_CPUS then MAX_CPUS else cpus;
      Some((Capped(memory, MemoryLimit(host)), Capped(Capped(clamped, QuotaLimit(host)), SetLimit(host))))
  }

  method LimitThrough(host: Host, controller: Controller, control: Control, member: Dir) returns (r: Limit)
    ensures r == Through(host, controller, control, member)
  {
    var choice := SelectMount(host.mounts, controller, member);
    if !choice.Chosen? { return Bad; }
    var ok, minimum := WalkAncestors(host.files, control, choice.current, choice.mount.point);
    return if !ok then Bad else if minimum != 0 then AtMost(minimum) else Unlimited;
  }

  method CPUSetLimit(host: Host) returns (r: Limit)
    ensures r == SetLimit(host)
  {
    if host.members.cpuset.Some? {
      var choice := SelectMount(host.mounts, Cpuset, host.members.cpuset.value);
      if !choice.Chosen? { return Bad; }
      var ok, count, found := WalkCPUSets(host.files, choice.current, choice.mount.point);
      return if !ok then Bad else if found then AtMost(count) else Unlimited;
    } else if host.members.unified.Some? {
      var choice := SelectMount(host.mounts, Unified, host.members.unified.value);
      if !choice.Chosen? { return Bad; }
      var reading := host.files(choice.current, "cpuset.cpus.effective");
      if reading.Missing? { return Unlimited; }
      if reading.Unreadable? || TrimSpace(reading.text) == "" { return Bad; }
      var count := ParseCPUSet(reading.text);
      return if count.None? then Bad else AtMost(count.value);
    }
    return Unlimited;
  }

  method Observe(host: Host, systemMemory: nat, systemCPUs: int) returns (r: Option<(nat, nat)>)
    ensures r == Effective(host, systemMemory, systemCPUs)
  {
    hide Through, SetLimit;
    if systemMemory == 0 || systemCPUs <= 0 { return None; }
    var memory := systemMemory;
    var limit := Unlimited;
    if host.members.memory.Some? {
      limit := LimitThrough(host, Memory, MemoryV1, host.members.memory.value);
    } else if host.members.unified.Some? {
      limit := LimitThrough(host, Unified, MemoryV2, host.members.unified.value);
    }
    if limit.Bad? { return None; }
    if limit.AtMost? && limit.value < memory { memory := limit.value; }

    var cpus := systemCPUs;
    if cpus > MAX_CPUS { cpus := MAX_CPUS; }
    var quota := Unlimited;
    if host.members.cpu.Some? {
      quota := LimitThrough(host, Cpu, QuotaV1, host.members.cpu.value);
    } else if host.members.unified.Some? {
      quota := LimitThrough(host, Unified, QuotaV2, host.members.unified.value);
    }
    if quota.Bad? { return None; }
    if quota.AtMost? && quota.value < cpus { cpus := quota.value; }

    var set_ := CPUSetLimit(host);
    if set_.Bad? { return None; }
    if set_.AtMost? && set_.value < cpus { cpus := set_.value; }
    PositiveSets(host);
    PositiveThrough(host);
    if memory == 0 || cpus <= 0 { return None; }
    return Some((memory, cpus));
  }

  lemma PositiveThrough(host: Host)
    ensures MemoryLimit(host).AtMost? ==> MemoryLimit(host).value > 0
    ensures QuotaLimit(host).AtMost? ==> QuotaLimit(host).value > 0
  {
    hide Hierarchy, Select;
  }

  lemma {:induction false} PositiveNearest(files: Files, current: Dir, point: Dir)
    requires point <= current
    ensures var r := NearestSet(files, current, point); r.AtMost? ==> 0 < r.value <= MAX_CPUS
    decreases |current|
  {
    hide ReadableSet, CPUSet;
    var reading := files(current, "cpuset.cpus");
    if reading.Text? && ReadableSet(reading.text) { ReadableSetsAreBounded(reading.text); }
    if SetAt(reading).Unlimited? && current != point { PositiveNearest(files, current[..|current| - 1], point); }
  }

  lemma PositiveSets(host: Host)
    ensures SetLimit(host).AtMost? ==> 0 < SetLimit(host).value <= MAX_CPUS
  {
    hide Select, ReadableSet, CPUSet, NearestSet;
    if SetLimit(host).AtMost? {
      if host.members.cpuset.Some? {
        var choice := Select(host.mounts, Cpuset, host.members.cpuset.value);
        PositiveNearest(host.files, choice.current, choice.mount.point);
      } else {
        var choice := Select(host.mounts, Unified, host.members.unified.value);
        ReadableSetsAreBounded(host.files(choice.current, "cpuset.cpus.effective").text);
      }
    }
  }

  /** The result never exceeds the host or any limit of the hierarchy in charge,
      is positive, and is attained by one of them. */
  lemma EffectiveIsTightest(host: Host, memory: nat, cpus: int)
    requires Effective(host, memory, cpus).Some?
    ensures var (m, c) := Effective(host, memory, cpus).value;
            && 0 < m <= memory && 0 < c <= cpus && c <= MAX_CPUS
            && (m == memory || MemoryLimit(host) == AtMost(m))
            && (MemoryLimit(host).AtMost? ==> m <= MemoryLimit(host).value)
            && (QuotaLimit(host).AtMost? ==> c <= QuotaLimit(host).value)
            && (SetLimit(host).AtMost? ==> c <= SetLimit(host).value)
            && (c == cpus || c == MAX_CPUS || QuotaLimit(host) == AtMost(c) || SetLimit(host) == AtMost(c))
  {
    hide MemoryLimit, QuotaLimit, SetLimit;
    PositiveThrough(host);
    PositiveSets(host);
  }

  /** The place a hierarchy was found at. */
  function PlaceOf(host: Host, c: Charge): Choice { Select(host.mounts, c.controller, c.member) }

  /** Effective memory is exactly the minimum of the host's memory and the limits
      stated by the directories from the process up to the mount point. */
  lemma MemoryIsTheMinimum(host: Host, memory: nat, cpus: int)
    requires Effective(host, memory, cpus).Some?
    ensures var m := Effective(host, memory, cpus).value.0;
            match MemoryCharge(host)
            case None => m == memory
            case Some(c) =>
              && PlaceOf(host, c).Chosen?
              && var current, point := PlaceOf(host, c).current, PlaceOf(host, c).mount.point;
              && m <= memory
              && (forall k :: OnChain(current, point, k) && At(host.files, c.control, current[..k]).AtMost? ==>
                    m <= At(host.files, c.control, current[..k]).value)
              && (|| m == memory
                  || exists k :: OnChain(current, point, k) && At(host.files, c.control, current[..k]) == AtMost(m))
  {
    hide At, Select, Least, QuotaLimit, SetLimit;
    if MemoryCharge(host).Some? {
      var c := MemoryCharge(host).value;
      assert PlaceOf(host, c).Chosen?;
      LeastIsExact(host.files, c.control, PlaceOf(host, c).current, PlaceOf(host, c).mount.point);
    }
  }

  /** The host's CPUs, as far as they are supported. */
  function Clamped(cpus: int): nat
    requires cpus > 0
  {
    if cpus > MAX_CPUS then MAX_CPUS else cpus
  }

  /** Effective CPUs are exactly the minimum of the host's supported CPUs, the
      smallest quota-to-period ratio on the chain rounded up, and the CPU set. */
  lemma CPUsAreTheMinimum(host: Host, memory: nat, cpus: int)
    requires Effective(host, memory, cpus).Some?
    ensures var n := Effective(host, memory, cpus).value.1;
            match QuotaCharge(host)
            case None => n == Capped(Clamped(cpus), SetLimit(host))
            case Some(c) =>
              && PlaceOf(host, c).Chosen?
              && var current, point := PlaceOf(host, c).current, PlaceOf(host, c).mount.point;
              var v2 := c.control == QuotaV2;
              || ((forall l :: OnChain(current, point, l) ==> QuotaAt(host.files, v2, current[..l]).NoQuota?)
                  && n == Capped(Clamped(cpus), SetLimit(host)))
              || (exists k :: (&& SmallestRatio(host.files, v2, current, point, k)
                               && n == Capped(Capped(Clamped(cpus), Worth(QuotaAt(host.files, v2, current[..k]))),
                                              SetLimit(host))))
  {
    hide Select, Least, MemoryLimit, SetLimit, QuotaAt, QuotaCPUs, NotAbove;
    if QuotaCharge(host).Some? {
      var c := QuotaCharge(host).value;
      assert PlaceOf(host, c).Chosen?;
      var current, point := PlaceOf(host, c).current, PlaceOf(host, c).mount.point;
      QuotaIsSmallestRatio(host.files, c.control == QuotaV2, current, point);
      if QuotaLimit(host).AtMost? {
        var k :| SmallestRatio(host.files, c.control == QuotaV2, current, point, k);
        assert QuotaLimit(host) == Worth(QuotaAt(host.files, c.control == QuotaV2, current[..k]));
      }
    }
  }
}
