/** The GPU allocator: which indices of the node each environment holds. */
module GpuAllocator {
  import opened Wrappers
  import opened AgentProtocol
  import opened Docker
  import GpuLabels
  import Sorting

  type Grants = map<EnvId, seq<int>>

  function Elements(s: seq<int>): set<int> {
    set i | i in s
  }

  /** Every index some environment holds. */
  function Used(grants: Grants): set<int> {
    set e, i | e in grants && i in grants[e] :: i
  }

  /** The indices of `total` that are not used, in the order of `total`. */
  function Free(total: seq<int>, used: set<int>): (free: seq<int>)
    ensures |free| <= |total|
  {
    if total == [] then []
    else
      var front, last := Free(total[..|total| - 1], used), total[|total| - 1];
      if last in used then front else front + [last]
  }

  /** What Allocate hands out: nothing for a count of 0, else the first free indices if there are enough. */
  function Pick(total: seq<int>, grants: Grants, count: nat): Option<seq<int>> {
    if count == 0 then Some([])
    else
      var free := Free(total, Used(grants));
      if |free| < count then None else Some(free[..count])
  }

  function Held(grants: Grants, e: EnvId): seq<int> {
    if e in grants then grants[e] else []
  }

  predicate Ascending(s: seq<int>) {
    forall i, j :: 0 <= i < j < |s| ==> s[i] < s[j]
  }

  ghost predicate Disjoint(a: seq<int>, b: seq<int>) {
    forall i :: i in a ==> i !in b
  }

  /** Entries are ascending (so free of duplicates) lists of the node's indices, pairwise disjoint. */
  ghost predicate Sound(total: seq<int>, grants: Grants) {
    && Ascending(total)
    && (forall e :: e in grants ==> Ascending(grants[e]) && Elements(grants[e]) <= Elements(total))
    && (forall e, f :: e in grants && f in grants && e != f ==> Disjoint(grants[e], grants[f]))
  }

  const INT_ORDER: (int, int) -> bool := (x, y) => x <= y

  class GPUAllocator {
    const total: seq<int>
    var grants: Grants

    constructor (totalIndices: seq<int>)
      ensures multiset(total) == multiset(totalIndices) && Sorting.Sorted(total, INT_ORDER)
      ensures grants == map[]
      ensures Sound(total, grants) <==> forall i :: multiset(totalIndices)[i] <= 1
    {
      total := Sorting.Sort(totalIndices, INT_ORDER);
      grants := map[];
      Sorting.SortSorts(totalIndices, INT_ORDER);
      new;
      DistinctIffAscending(total);
    }

    method Allocate(e: EnvId, count: nat) returns (r: Option<seq<int>>)
      modifies this`grants
      ensures r == Pick(total, old(grants), count)
      ensures grants == if r.Some? then old(grants)[e := r.value] else old(grants)
    {
      if count == 0 {
        grants := grants[e := []];
        return Some([]);
      }
      var used: set<int> := {};
      var todo := grants.Keys;
      while todo != {}
        invariant todo <= grants.Keys && grants == old(grants)
        invariant forall i :: i in used <==> exists f :: f in grants.Keys - todo && i in grants[f]
      {
        var f :| f in todo;
        todo := todo - {f};
        ghost var before := used;
        used := used + Elements(grants[f]);
        assert forall i :: i in used <==> i in before || i in grants[f];
      }
      assert used == Used(grants) by {
        forall i ensures i in used <==> i in Used(grants) {
          assert forall f :: f in grants.Keys - todo <==> f in grants;
        }
      }
      var free: seq<int> := [];
      for k := 0 to |total|
        invariant free == Free(total[..k], used)
        invariant grants == old(grants)
      {
        assert total[..k + 1][..k] == total[..k];
        if total[k] !in used {
          free := free + [total[k]];
        }
      }
      assert total[..|total|] == total;
      if |free| < count {
        return None;
      }
      grants := grants[e := free[..count]];
      r := Some(free[..count]);
    }

    method Release(e: EnvId)
      modifies this`grants
      ensures grants == old(grants) - {e}
    {
      grants := grants - {e};
    }

    /** Rebuilds entries from the labels of the listed dev containers, stopped ones included. */
    method RestoreFromDocker(docker: DockerClient) returns (reply: Reply, ghost list: seq<Container>)
      modifies this`grants, docker`calls
      ensures docker.calls == old(docker.calls) + [Called(ListCall("dev"), reply)]
      ensures reply.Err? ==> grants == old(grants)
      ensures reply.Ok? ==> ListsDevs(list, docker.containers) && grants == Restored(list, old(grants))
    {
      var infos;
      infos, reply := docker.ListContainers("dev");
      list := infos;
      if reply.Err? {
        return;
      }
      for k := 0 to |infos|
        invariant grants == Restored(infos[..k], old(grants))
        invariant docker.calls == old(docker.calls) + [Called(ListCall("dev"), reply)]
      {
        assert infos[..k + 1][..k] == infos[..k];
        var labels := infos[k].spec.labels;
        if labels.envId != "" && IsUuid(labels.envId) {
          var indices := GpuLabels.ParseIndicesCSV(labels.gpuIndices);
          grants := grants[labels.envId := indices];
        }
      }
      assert infos[..|infos|] == infos;
    }
  }

  /** `list` is the dev containers among `cs`, in some order. */
  ghost predicate ListsDevs(list: seq<Container>, cs: Containers) {
    forall c :: c in list <==> c in cs.Values && c.spec.labels.role == "dev"
  }

  /** The entries after reading a list of dev containers on top of `before`. */
  function Restored(list: seq<Container>, before: Grants): Grants {
    if list == [] then before
    else
      var g := Restored(list[..|list| - 1], before);
      var labels := list[|list| - 1].spec.labels;
      if IsUuid(labels.envId) then g[labels.envId := GpuLabels.ParseCsv(labels.gpuIndices)] else g
  }

  /** Some container of the list carries the env's id and lists the indices. */
  ghost predicate SomeLabel(list: seq<Container>, e: EnvId, indices: seq<int>) {
    exists c :: c in list && c.spec.labels.envId == e && indices == GpuLabels.ParseCsv(c.spec.labels.gpuIndices)
  }

  /** Restoring into an empty allocator reads each entry from some container's label, and misses none. */
  lemma {:induction false} RestoredReadsLabels(list: seq<Container>)
    ensures forall c :: c in list && IsUuid(c.spec.labels.envId) ==> c.spec.labels.envId in Restored(list, map[])
    ensures forall e :: e in Restored(list, map[]) ==> IsUuid(e) && SomeLabel(list, e, Restored(list, map[])[e])
  {
    if list != [] {
      var front, last := list[..|list| - 1], list[|list| - 1];
      RestoredReadsLabels(front);
      assert list == front + [last];
      forall e | e in Restored(list, map[]) ensures IsUuid(e) && SomeLabel(list, e, Restored(list, map[])[e]) {
        if IsUuid(last.spec.labels.envId) && e == last.spec.labels.envId {
          assert last in list;
        } else {
          assert SomeLabel(front, e, Restored(front, map[])[e]);
        }
      }
    }
  }

  /* ---- What the handed-out lists look like ---- */

  /** Sorted totals are strictly ascending exactly if no index was passed twice: nothing removes duplicates. */
  lemma DistinctIffAscending(total: seq<int>)
    requires Sorting.Sorted(total, INT_ORDER)
    ensures Ascending(total) <==> forall i :: multiset(total)[i] <= 1
  {
    Sorting.NoDuplicatesIff(total);
    if Sorting.NoDuplicates(total) {
      forall i, j | 0 <= i < j < |total| ensures total[i] < total[j] {
        assert INT_ORDER(total[i], total[j]);
      }
    }
  }

  lemma {:induction false} FreeElements(total: seq<int>, used: set<int>)
    ensures Elements(Free(total, used)) == Elements(total) - used
  {
    if total != [] {
      var front, last := total[..|total| - 1], total[|total| - 1];
      FreeElements(front, used);
      assert Elements(total) == Elements(front) + {last};
      var ff := Free(front, used);
      assert Elements(ff + [last]) == Elements(ff) + {last};
    }
  }

  lemma {:induction false} FreeAscending(total: seq<int>, used: set<int>)
    requires Ascending(total)
    ensures Ascending(Free(total, used))
  {
    if total != [] {
      var front, last := total[..|total| - 1], total[|total| - 1];
      FreeAscending(front, used);
      FreeElements(front, used);
      var ff := Free(front, used);
      forall i | 0 <= i < |ff| ensures ff[i] < last {
        assert ff[i] in Elements(ff);
        assert ff[i] in Elements(front);
      }
    }
  }

  lemma {:induction false} CardinalityOfAscending(s: seq<int>)
    requires Ascending(s)
    ensures |Elements(s)| == |s|
  {
    if s != [] {
      var front, last := s[..|s| - 1], s[|s| - 1];
      CardinalityOfAscending(front);
      assert Elements(s) == Elements(front) + {last};
      assert last !in Elements(front);
    }
  }

  /** Conservation: the free indices and the held ones split the node's indices. */
  lemma FreePlusHeldIsTotal(total: seq<int>, grants: Grants)
    requires Sound(total, grants)
    ensures Elements(Free(total, Used(grants))) !! Used(grants)
    ensures Elements(Free(total, Used(grants))) + Used(grants) == Elements(total)
    ensures |Free(total, Used(grants))| + |Used(grants)| == |total|
  {
    var used := Used(grants);
    FreeElements(total, used);
    FreeAscending(total, used);
    CardinalityOfAscending(Free(total, used));
    CardinalityOfAscending(total);
    forall i | i in used ensures i in Elements(total) {
      var e :| e in grants && i in grants[e];
      assert i in Elements(grants[e]);
    }
    assert |Elements(total)| == |Elements(Free(total, used))| + |used|;
  }

  /** The first elements of an ascending list: each below every element left out. */
  lemma FirstOnes(s: seq<int>, count: nat)
    requires Ascending(s) && count <= |s|
    ensures Ascending(s[..count]) && Elements(s[..count]) <= Elements(s)
    ensures forall i, j :: i in s[..count] && j in Elements(s) && j !in s[..count] ==> i < j
  {
    assert forall b :: 0 <= b < count ==> s[b] == s[..count][b] && s[b] in s[..count];
    forall i, j | i in s[..count] && j in Elements(s) && j !in s[..count] ensures i < j {
      var a :| 0 <= a < count && s[..count][a] == i;
      var b :| 0 <= b < |s| && s[b] == j;
    }
    forall i | i in s[..count] ensures i in s {
      var a :| 0 <= a < count && s[..count][a] == i;
      assert s[a] == i;
    }
  }

  /** Allocate answers exactly when enough indices are free, and then with the smallest ones, ascending. */
  lemma PickIsSmallest(total: seq<int>, grants: Grants, count: nat)
    requires Sound(total, grants)
    ensures Pick(total, grants, count).Some? <==> count <= |total| - |Used(grants)|
    ensures Pick(total, grants, count).Some? ==>
      var pick := Pick(total, grants, count).value;
      && |pick| == count && Ascending(pick)
      && Elements(pick) <= Elements(total) - Used(grants)
      && forall i, j :: i in pick && j in Elements(total) - Used(grants) && j !in pick ==> i < j
  {
    var free := Free(total, Used(grants));
    FreePlusHeldIsTotal(total, grants);
    FreeElements(total, Used(grants));
    FreeAscending(total, Used(grants));
    if count <= |free| {
      FirstOnes(free, count);
      assert free[..0] == [];
    }
  }

  /** A successful Allocate keeps the allocation sound, also when `e` held indices before. */
  lemma AllocateKeepsSound(total: seq<int>, grants: Grants, e: EnvId, count: nat)
    requires Sound(total, grants)
    requires Pick(total, grants, count).Some?
    ensures Sound(total, grants[e := Pick(total, grants, count).value])
  {
    PickIsSmallest(total, grants, count);
    var pick := Pick(total, grants, count).value;
    forall f, i | f in grants && i in grants[f] ensures i !in pick {
      assert i in Used(grants);
      assert i in pick ==> i in Elements(pick);
    }
    forall i | i in Elements(pick) ensures i in Elements(total) {
    }
  }

  lemma ReleaseKeepsSound(total: seq<int>, grants: Grants, e: EnvId)
    requires Sound(total, grants)
    ensures Sound(total, grants - {e})
  {
  }

  /* ---- Allocating nothing ---- */

  /** What others hold is free of what `e` holds, so an empty entry for `e` frees all of it. */
  lemma EmptyEntryFrees(total: seq<int>, grants: Grants, e: EnvId)
    requires Sound(total, grants)
    ensures Used(grants[e := []]) == Used(grants) - Elements(Held(grants, e))
  {
    var after := grants[e := []];
    forall i ensures i in Used(after) <==> i in Used(grants) && i !in Held(grants, e) {
      if i in Used(after) {
        var f :| f in after && i in after[f];
        assert f != e && f in grants && i in grants[f];
      }
      if i in Used(grants) && i !in Held(grants, e) {
        var f :| f in grants && i in grants[f];
        assert f != e && after[f] == grants[f];
      }
    }
  }

  /** Allocate with count 0 always succeeds. It leaves what the env holds, and what is free, as it was exactly
      if the env held nothing; otherwise everything the env held becomes free. */
  lemma AllocateZeroIff(total: seq<int>, grants: Grants, e: EnvId)
    requires Sound(total, grants)
    ensures Pick(total, grants, 0) == Some([])
    ensures var after := grants[e := Pick(total, grants, 0).value];
      && (Held(after, e) == Held(grants, e) <==> Held(grants, e) == [])
      && (Free(total, Used(after)) == Free(total, Used(grants)) <==> Held(grants, e) == [])
      && |Free(total, Used(after))| == |Free(total, Used(grants))| + |Held(grants, e)|
  {
    var held, after := Held(grants, e), grants[e := []];
    EmptyEntryFrees(total, grants, e);
    AllocateKeepsSound(total, grants, e, 0);
    FreePlusHeldIsTotal(total, grants);
    FreePlusHeldIsTotal(total, after);
    CardinalityOfAscending(held);
    assert Elements(held) <= Used(grants);
    assert |Used(after)| == |Used(grants)| - |Elements(held)|;
    if held == [] {
      assert Used(after) == Used(grants);
    }
  }

  /** An env that holds GPU 0 and asks for 0 GPUs loses it, and the next env gets it. */
  lemma AllocateZeroLosesGpu(e: EnvId, f: EnvId)
    requires e != f
    ensures var before: Grants := map[e := [0]];
      var after := before[e := Pick([0], before, 0).value];
      && Sound([0], before)
      && Pick([0], before, 1) == None && Pick([0], after, 1) == Some([0])
  {
    var before: Grants := map[e := [0]];
    assert Sound([0], before);
    AllocateZeroIff([0], before, e);
    PickIsSmallest([0], before, 1);
    var after := before[e := []];
    AllocateKeepsSound([0], before, e, 0);
    PickIsSmallest([0], after, 1);
    var pick := Pick([0], after, 1);
    assert 0 in Used(before) by {
      assert 0 in before[e];
    }
    assert Used(after) == {};
    assert pick.value[0] in Elements(pick.value);
    assert pick.value == [0];
  }

  datatype Op = AllocateOp(env: EnvId, count: nat) | ReleaseOp(env: EnvId)

  /** The allocation after a sequence of calls, from the empty one. */
  function GrantsAfter(total: seq<int>, ops: seq<Op>): Grants {
    if ops == [] then map[]
    else
      var a := GrantsAfter(total, ops[..|ops| - 1]);
      match ops[|ops| - 1]
      case ReleaseOp(e) => a - {e}
      case AllocateOp(e, n) => match Pick(total, a, n) case Some(pick) => a[e := pick] case None => a
  }

  /** Over every sequence of Allocate and Release calls the allocation stays sound and conserves indices. */
  lemma {:induction false} EveryHistoryConserves(total: seq<int>, ops: seq<Op>)
    requires Ascending(total)
    ensures Sound(total, GrantsAfter(total, ops))
    ensures |Free(total, Used(GrantsAfter(total, ops)))| + |Used(GrantsAfter(total, ops))| == |total|
  {
    if ops != [] {
      var a := GrantsAfter(total, ops[..|ops| - 1]);
      EveryHistoryConserves(total, ops[..|ops| - 1]);
      match ops[|ops| - 1]
      case ReleaseOp(e) => ReleaseKeepsSound(total, a, e);
      case AllocateOp(e, n) =>
        if Pick(total, a, n).Some? {
          AllocateKeepsSound(total, a, e, n);
        }
    }
    FreePlusHeldIsTotal(total, GrantsAfter(total, ops));
  }
}
