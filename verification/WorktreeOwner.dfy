/** Which thread owns a worktree that several threads share, and when a chain of threads has settled
    (apps/server/src/storageCleanup.ts). */
module WorktreeOwner {
  import opened Options

  type Id = string

  datatype Relationship = Subagent | OtherRelationship

  datatype Lineage = Lineage(parent: Option<Id>, relationship: Relationship, sideChat: bool, root: Id)

  /** idle says whether the thread has no work left at the time of the sweep. */
  datatype Thread = Thread(
    id: Id,
    lineage: Lineage,
    project: string,
    settled: bool,
    heldActive: bool,
    pinned: bool,
    idle: bool)

  predicate DistinctIds(threads: seq<Thread>) {
    forall i, j | 0 <= i < j < |threads| :: threads[i].id != threads[j].id
  }

  function Members(threads: seq<Thread>): set<Thread> {
    set t <- threads
  }

  /** One thread per id; a map made from a list of threads. */
  predicate Indexes(byId: map<Id, Thread>, group: set<Thread>) {
    && (forall id <- byId :: byId[id] in group && byId[id].id == id)
    && (forall t <- group :: t.id in byId && byId[t.id] == t)
  }

  predicate IsParent(group: set<Thread>, t: Thread, parent: Thread) {
    parent in group && t.lineage.parent == Some(parent.id)
  }

  predicate IsTop(group: set<Thread>, t: Thread) {
    forall u <- group :: !IsParent(group, t, u)
  }

  function ParentIn(byId: map<Id, Thread>, t: Thread): Option<Thread> {
    if t.lineage.parent.Some? && t.lineage.parent.value in byId then Some(byId[t.lineage.parent.value]) else None
  }

  lemma IndexFindsParents(byId: map<Id, Thread>, group: set<Thread>, t: Thread)
    requires Indexes(byId, group)
    ensures forall u :: ParentIn(byId, t) == Some(u) <==> IsParent(group, t, u)
    ensures ParentIn(byId, t).None? <==> IsTop(group, t)
  {
    assert forall u :: ParentIn(byId, t) == Some(u) <==> IsParent(group, t, u);
    if ParentIn(byId, t).Some? {
      assert IsParent(group, t, ParentIn(byId, t).value);
    }
  }

  // ---- Ownership

  predicate SharesOwnership(t: Thread, owner: Thread) {
    (t.lineage.relationship.Subagent? || t.lineage.sideChat) && t.lineage.root == owner.lineage.root
  }

  predicate IsWalk(group: set<Thread>, walk: seq<Thread>) {
    forall i | 0 <= i < |walk| - 1 :: IsParent(group, walk[i], walk[i + 1])
  }

  /** A path of parents up to the owner, on which every thread below the owner shares its ownership. */
  predicate LeadsTo(group: set<Thread>, path: seq<Thread>, owner: Thread) {
    && |path| > 0 && path[|path| - 1] == owner && IsWalk(group, path)
    && (forall i | 0 <= i < |path| - 1 :: path[i] != owner && SharesOwnership(path[i], owner))
  }

  ghost predicate ReachesOwner(group: set<Thread>, t: Thread, owner: Thread) {
    exists path :: LeadsTo(group, path, owner) && path[0] == t
  }

  /** The only thread with its parent outside the group, to which all others lead; parents may form cycles elsewhere. */
  ghost predicate Owns(group: set<Thread>, owner: Thread) {
    && owner in group && IsTop(group, owner)
    && (forall t <- group | IsTop(group, t) :: t == owner)
    && (forall t <- group :: ReachesOwner(group, t, owner))
  }

  ghost predicate HaveDistinctIds(group: set<Thread>) {
    forall t <- group, u <- group | t.id == u.id :: t == u
  }

  /** Parents are unique, so a path to the owner runs along any walk that has not met the owner yet. */
  lemma {:induction false} PathFollowsWalk(group: set<Thread>, path: seq<Thread>, walk: seq<Thread>, owner: Thread)
    requires HaveDistinctIds(group) && LeadsTo(group, path, owner) && IsWalk(group, walk)
    requires |walk| > 0 && path[0] == walk[0] && forall i | 0 <= i < |walk| - 1 :: walk[i] != owner
    ensures |walk| <= |path| && walk == path[..|walk|]
  {
    if |walk| > 1 {
      var n := |walk| - 1;
      PathFollowsWalk(group, path, walk[..n], owner);
      assert walk[..n] == path[..n] && path[n - 1] == walk[n - 1];
      assert IsParent(group, walk[n - 1], walk[n]);
      assert IsParent(group, path[n - 1], path[n]);
    }
  }

  /** A path to the owner never visits a thread twice: it would have to go round for ever. */
  lemma {:induction false} PathNeverRepeats(group: set<Thread>, path: seq<Thread>, owner: Thread, i: nat, j: nat)
    requires HaveDistinctIds(group) && LeadsTo(group, path, owner) && i < j < |path|
    ensures path[i] != path[j]
    decreases |path| - j
  {
    if path[i] == path[j] {
      assert path[i] != owner;
      assert IsParent(group, path[i], path[i + 1]) && IsParent(group, path[j], path[j + 1]);
      PathNeverRepeats(group, path, owner, i + 1, j + 1);
    }
  }

  function Ids(threads: seq<Thread>): set<Id> {
    set t <- threads :: t.id
  }

  method IndexThreads(threads: seq<Thread>) returns (byId: map<Id, Thread>)
    requires DistinctIds(threads)
    ensures Indexes(byId, Members(threads))
  {
    byId := map[];
    for i := 0 to |threads|
      invariant Indexes(byId, Members(threads[..i]))
    {
      assert Members(threads[..i + 1]) == Members(threads[..i]) + {threads[i]};
      assert forall t <- threads[..i] :: t.id != threads[i].id;
      byId := byId[threads[i].id := threads[i]];
    }
    assert threads[..|threads|] == threads;
  }

  /** A walk below the owner. */
  ghost predicate IsBelow(group: set<Thread>, walk: seq<Thread>, owner: Thread) {
    && |walk| > 0 && IsWalk(group, walk) && walk[|walk| - 1] in group
    && (forall i | 0 <= i < |walk| - 1 :: walk[i] in group && walk[i] != owner && SharesOwnership(walk[i], owner))
  }

  ghost predicate Blocked(group: set<Thread>, walk: seq<Thread>, owner: Thread)
    requires |walk| > 0
  {
    var current := walk[|walk| - 1];
    current.id in Ids(walk[..|walk| - 1]) || !SharesOwnership(current, owner) || IsTop(group, current)
  }

  lemma BlockedPathIsImpossible(group: set<Thread>, walk: seq<Thread>, owner: Thread, path: seq<Thread>)
    requires HaveDistinctIds(group) && IsBelow(group, walk, owner) && walk[|walk| - 1] != owner
    requires Blocked(group, walk, owner) && LeadsTo(group, path, owner)
    ensures path[0] != walk[0]
  {
    if path[0] == walk[0] {
      var n := |walk| - 1;
      PathFollowsWalk(group, path, walk, owner);
      assert path[n] == walk[n] && n < |path| - 1;
      assert SharesOwnership(path[n], owner);
      assert IsParent(group, path[n], path[n + 1]);
      var t :| t in walk[..n] && t.id == walk[n].id;
      var i :| 0 <= i < n && walk[i] == t;
      assert path[i] == walk[..|walk|][i] == path[n];
      PathNeverRepeats(group, path, owner, i, n);
    }
  }

  lemma BlockedWalkLeadsNowhere(group: set<Thread>, walk: seq<Thread>, owner: Thread)
    requires HaveDistinctIds(group) && IsBelow(group, walk, owner) && walk[|walk| - 1] != owner
    requires Blocked(group, walk, owner)
    ensures forall path | LeadsTo(group, path, owner) :: path[0] != walk[0]
  {
    forall path | LeadsTo(group, path, owner) ensures path[0] != walk[0] {
      BlockedPathIsImpossible(group, walk, owner, path);
    }
  }

  lemma WalkBegins(group: set<Thread>, start: Thread, owner: Thread)
    requires start in group
    ensures IsBelow(group, [start], owner) && Ids([start][..0]) == {}
  {
  }

  lemma WalkArrives(group: set<Thread>, walk: seq<Thread>, owner: Thread)
    requires IsBelow(group, walk, owner) && walk[|walk| - 1] == owner
    ensures LeadsTo(group, walk, owner)
  {
  }

  lemma WalkGrows(group: set<Thread>, walk: seq<Thread>, owner: Thread, parent: Thread)
    requires IsBelow(group, walk, owner) && walk[|walk| - 1] != owner && !Blocked(group, walk, owner)
    requires IsParent(group, walk[|walk| - 1], parent)
    ensures IsBelow(group, walk + [parent], owner)
    ensures Ids((walk + [parent])[..|walk|]) == Ids(walk[..|walk| - 1]) + {walk[|walk| - 1].id}
  {
    assert (walk + [parent])[..|walk|] == walk[..|walk| - 1] + [walk[|walk| - 1]];
  }

  lemma FewerIdsLeft(byId: map<Id, Thread>, seen: set<Id>, id: Id)
    requires id in byId && id !in seen
    ensures |byId.Keys - (seen + {id})| < |byId.Keys - seen|
  {
    assert byId.Keys - (seen + {id}) == byId.Keys - seen - {id};
  }

  /** Follows parents from one thread until the owner, a thread that does not share, or a repetition. */
  method Reaches(byId: map<Id, Thread>, ghost group: set<Thread>, start: Thread, owner: Thread) returns (reaches: bool)
    requires Indexes(byId, group) && start in group && owner in group
    ensures reaches <==> ReachesOwner(group, start, owner)
  {
    hide IsBelow, LeadsTo, Ids, ParentIn, IsTop;
    var current := start;
    var seen: set<Id> := {};
    ghost var walk := [start];
    WalkBegins(group, start, owner);
    while current.id != owner.id
      invariant |walk| > 0 && walk[0] == start && walk[|walk| - 1] == current && current in group
      invariant IsBelow(group, walk, owner) && seen == Ids(walk[..|walk| - 1])
      decreases |byId.Keys - seen|
    {
      IndexFindsParents(byId, group, current);
      if current.id in seen || !SharesOwnership(current, owner) {
        BlockedWalkLeadsNowhere(group, walk, owner);
        return false;
      }
      FewerIdsLeft(byId, seen, current.id);
      var parent := ParentIn(byId, current);
      if parent.None? {
        BlockedWalkLeadsNowhere(group, walk, owner);
        return false;
      }
      seen := seen + {current.id};
      WalkGrows(group, walk, owner, parent.value);
      walk := walk + [parent.value];
      current := parent.value;
    }
    WalkArrives(group, walk, owner);
    reaches := true;
  }

  /** Lists exactly the threads whose parent is outside the group, once each. */
  ghost predicate AreTops(threads: seq<Thread>, tops: seq<Thread>) {
    DistinctIds(tops) && forall t :: t in tops <==> t in threads && IsTop(Members(threads), t)
  }

  method TopsOf(byId: map<Id, Thread>, threads: seq<Thread>) returns (tops: seq<Thread>)
    requires DistinctIds(threads) && Indexes(byId, Members(threads))
    ensures AreTops(threads, tops)
  {
    tops := [];
    for i := 0 to |threads|
      invariant forall t :: t in tops <==> t in threads[..i] && IsTop(Members(threads), t)
      invariant DistinctIds(tops)
    {
      assert threads[..i + 1] == threads[..i] + [threads[i]];
      IndexFindsParents(byId, Members(threads), threads[i]);
      if ParentIn(byId, threads[i]).None? {
        assert forall k | 0 <= k < |tops| :: tops[k] in tops;
        tops := tops + [threads[i]];
      }
    }
    assert threads[..|threads|] == threads;
  }

  lemma OwnerIsTheOnlyTop(threads: seq<Thread>, tops: seq<Thread>)
    requires AreTops(threads, tops)
    ensures |tops| != 1 ==> forall t :: !Owns(Members(threads), t)
    ensures |tops| == 1 ==> tops[0] in Members(threads) && forall t | Owns(Members(threads), t) :: t == tops[0]
  {
    hide LeadsTo, IsTop;
    assert forall t :: t in Members(threads) <==> t in threads;
    assert forall t :: Owns(Members(threads), t) ==> t in tops;
    if |tops| > 1 {
      assert tops[0] in tops && tops[1] in tops && tops[0].id != tops[1].id;
    } else if |tops| == 1 {
      assert tops[0] in tops;
    }
  }

  lemma ThreadIsMember(threads: seq<Thread>, i: nat)
    requires i < |threads|
    ensures threads[i] in Members(threads)
  {
  }

  method AllReach(byId: map<Id, Thread>, threads: seq<Thread>, top: Thread) returns (all: bool)
    requires Indexes(byId, Members(threads)) && top in Members(threads)
    ensures all <==> forall j | 0 <= j < |threads| :: ReachesOwner(Members(threads), threads[j], top)
  {
    hide *;
    for i := 0 to |threads|
      invariant forall j | 0 <= j < i :: ReachesOwner(Members(threads), threads[j], top)
    {
      ThreadIsMember(threads, i);
      var reaches := Reaches(byId, Members(threads), threads[i], top);
      if !reaches {
        return false;
      }
    }
    all := true;
  }

  lemma OwnerIsReachedByAll(threads: seq<Thread>, tops: seq<Thread>)
    requires |tops| == 1 && AreTops(threads, tops)
    ensures Owns(Members(threads), tops[0])
            <==> forall j | 0 <= j < |threads| :: ReachesOwner(Members(threads), threads[j], tops[0])
  {
    hide LeadsTo, IsTop;
    assert tops[0] in tops;
    assert forall t <- Members(threads) :: t in threads;
  }

  /** The owner of the worktree, if there is one; the order of the list plays no part. */
  method FindOwner(threads: seq<Thread>) returns (owner: Option<Thread>)
    requires DistinctIds(threads)
    ensures |threads| == 1 ==> owner == Some(threads[0])
    ensures |threads| != 1 ==> forall t :: owner == Some(t) <==> Owns(Members(threads), t)
  {
    if |threads| == 1 {
      return Some(threads[0]);
    }
    hide *;
    var byId := IndexThreads(threads);
    var tops := TopsOf(byId, threads);
    OwnerIsTheOnlyTop(threads, tops);
    if |tops| != 1 {
      return None;
    }
    var top := tops[0];
    OwnerIsReachedByAll(threads, tops);
    var all := AllReach(byId, threads, top);
    owner := if all then Some(top) else None;
  }

  /** Of a thread and the one it was started from, the latter owns their worktree exactly if the former is its subagent or a side
      chat, under the same root. */
  lemma ParentOwnsExactly(parent: Thread, child: Thread)
    requires parent.id != child.id && child.lineage.parent == Some(parent.id)
    requires parent.lineage.parent.None? || (parent.lineage.parent != Some(parent.id) && parent.lineage.parent != Some(child.id))
    ensures Owns({parent, child}, parent)
            <==> (child.lineage.relationship == Subagent || child.lineage.sideChat) && child.lineage.root == parent.lineage.root
    ensures !Owns({parent, child}, child)
  {
    var group := {parent, child};
    assert IsParent(group, child, parent) && IsTop(group, parent) && !IsTop(group, child);
    assert LeadsTo(group, [parent], parent) && [parent][0] == parent;
    if SharesOwnership(child, parent) {
      assert LeadsTo(group, [child, parent], parent) && [child, parent][0] == child;
    } else if path :| LeadsTo(group, path, parent) && path[0] == child {
      assert false;
    }
  }

  // ---- Settlement

  /** A thread passes its own settlement on to the thread that started it. */
  predicate Passes(byId: map<Id, Thread>, first: Thread, t: Thread, parent: Thread) {
    && !t.settled && t.lineage.relationship.Subagent? && !t.heldActive && !t.pinned
    && ParentIn(byId, t) == Some(parent)
    && parent.project == first.project && parent.lineage.root == first.lineage.root && parent.idle
  }

  predicate IsPassed(byId: map<Id, Thread>, chain: seq<Thread>) {
    forall i | 0 <= i < |chain| - 1 :: Passes(byId, chain[0], chain[i], chain[i + 1])
  }

  /** A repeat-free parent path from a thread to its first settled ancestor. */
  predicate IsSettlementChain(byId: map<Id, Thread>, thread: Thread, chain: seq<Thread>) {
    && |chain| > 0 && chain[0] == thread && chain[|chain| - 1].settled
    && DistinctIds(chain) && IsPassed(byId, chain)
  }

  lemma {:induction false} ChainsGrowAlike(byId: map<Id, Thread>, chain: seq<Thread>, walk: seq<Thread>)
    requires |walk| > 0 && |chain| > 0 && chain[0] == walk[0] && chain[|chain| - 1].settled
    requires IsPassed(byId, chain) && IsPassed(byId, walk)
    ensures |walk| <= |chain| && walk == chain[..|walk|]
  {
    if |walk| > 1 {
      var n := |walk| - 1;
      ChainsGrowAlike(byId, chain, walk[..n]);
      assert chain[n - 1] == chain[..n][n - 1] == walk[n - 1];
      assert Passes(byId, walk[0], walk[n - 1], walk[n]);
      assert n < |chain|;
      assert Passes(byId, chain[0], chain[n - 1], chain[n]);
    }
  }

  lemma SettlementChainIsUnique(byId: map<Id, Thread>, thread: Thread, chain: seq<Thread>, other: seq<Thread>)
    requires IsSettlementChain(byId, thread, chain) && IsSettlementChain(byId, thread, other)
    ensures chain == other
  {
    ChainsGrowAlike(byId, chain, other);
    ChainsGrowAlike(byId, other, chain);
  }

  /** A settlement chain goes on from any unsettled start of it, to a thread it has not met. */
  lemma ChainGoesOn(byId: map<Id, Thread>, chain: seq<Thread>, walk: seq<Thread>)
    requires |walk| > 0 && IsPassed(byId, walk) && !walk[|walk| - 1].settled
    requires IsSettlementChain(byId, walk[0], chain)
    ensures |walk| < |chain| && walk == chain[..|walk|]
    ensures Passes(byId, walk[0], walk[|walk| - 1], chain[|walk|]) && chain[|walk|].id !in Ids(walk)
  {
    var n := |walk|;
    ChainsGrowAlike(byId, chain, walk);
    assert chain[n - 1] == walk[n - 1];
    assert Passes(byId, chain[0], chain[n - 1], chain[n]);
    forall t <- walk ensures t.id != chain[n].id {
      var i :| 0 <= i < n && walk[i] == t;
      assert chain[i] == walk[i];
    }
  }

  /** A chain that cannot go on from its last, unsettled thread is the start of no settlement chain. */
  lemma StuckHasNoChain(byId: map<Id, Thread>, walk: seq<Thread>)
    requires |walk| > 0 && IsPassed(byId, walk) && !walk[|walk| - 1].settled
    requires forall next | Passes(byId, walk[0], walk[|walk| - 1], next) :: next.id in Ids(walk)
    ensures forall chain :: !IsSettlementChain(byId, walk[0], chain)
  {
    forall chain: seq<Thread> ensures !IsSettlementChain(byId, walk[0], chain) {
      if IsSettlementChain(byId, walk[0], chain) {
        ChainGoesOn(byId, chain, walk);
      }
    }
  }

  lemma ChainFitsTheIndex(byId: map<Id, Thread>, chain: seq<Thread>)
    requires DistinctIds(chain) && |chain| > 0 && forall i | 0 < i < |chain| :: chain[i].id in byId
    ensures |chain| <= |byId| + 1
  {
    var tail := chain[1..];
    DistinctIdsCount(tail);
    assert Ids(tail) <= byId.Keys;
    SubsetIsNotLarger(Ids(tail), byId.Keys);
  }

  lemma {:induction false} DistinctIdsCount(threads: seq<Thread>)
    requires DistinctIds(threads)
    ensures |Ids(threads)| == |threads|
  {
    if |threads| > 0 {
      var n := |threads| - 1;
      DistinctIdsCount(threads[..n]);
      assert threads == threads[..n] + [threads[n]];
      assert Ids(threads) == Ids(threads[..n]) + {threads[n].id};
      assert threads[n].id !in Ids(threads[..n]);
    }
  }

  lemma {:induction false} SubsetIsNotLarger(xs: set<Id>, ys: set<Id>)
    requires xs <= ys
    ensures |xs| <= |ys|
    decreases xs
  {
    if x :| x in xs {
      SubsetIsNotLarger(xs - {x}, ys - {x});
    }
  }

  /** The settlement chain of a thread, or nothing when there is none. */
  method SettlementChain(thread: Thread, byId: map<Id, Thread>) returns (chain: seq<Thread>)
    requires forall id <- byId :: byId[id].id == id
    ensures chain != [] ==> IsSettlementChain(byId, thread, chain)
    ensures chain == [] ==> forall c :: !IsSettlementChain(byId, thread, c)
  {
    chain := [thread];
    var current := thread;
    while !current.settled
      invariant |chain| > 0 && chain[0] == thread && chain[|chain| - 1] == current
      invariant DistinctIds(chain) && IsPassed(byId, chain) && forall i | 0 < i < |chain| :: chain[i].id in byId
      decreases |byId| + 1 - |chain|
    {
      ChainFitsTheIndex(byId, chain);
      if !current.lineage.relationship.Subagent? || current.heldActive || current.pinned {
        StuckHasNoChain(byId, chain);
        return [];
      }
      var parent := ParentIn(byId, current);
      if parent.None? || parent.value.id in Ids(chain)
         || parent.value.project != thread.project || parent.value.lineage.root != thread.lineage.root
         || !parent.value.idle {
        StuckHasNoChain(byId, chain);
        return [];
      }
      assert Passes(byId, chain[0], current, parent.value);
      var longer := chain + [parent.value];
      assert forall i | 0 <= i < |chain| :: chain[i] in chain;
      assert IsPassed(byId, longer);
      ChainFitsTheIndex(byId, longer);
      chain := longer;
      current := parent.value;
    }
  }

  /** A thread that has settled is its own chain. One that has not is settled through its settled parent exactly if it is a
      subagent, neither held active nor pinned, and the parent is idle, in the same project, and under the same root. */
  lemma ParentSettlesExactly(byId: map<Id, Thread>, thread: Thread, parent: Thread)
    requires parent.settled && parent.id in byId && byId[parent.id] == parent && thread.lineage.parent == Some(parent.id)
    requires thread.id != parent.id
    ensures thread.settled ==> IsSettlementChain(byId, thread, [thread])
    ensures !thread.settled ==>
              (IsSettlementChain(byId, thread, [thread, parent])
               <==> thread.lineage.relationship == Subagent && !thread.heldActive && !thread.pinned
                    && parent.idle && parent.project == thread.project && parent.lineage.root == thread.lineage.root)
  {
    var chain := [thread, parent];
    assert chain[0] == thread && chain[1] == parent;
    assert IsPassed(byId, chain) <==> Passes(byId, thread, thread, parent);
  }
}
