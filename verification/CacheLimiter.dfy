/**
 The audio cache's size limiter (core/src/cache.rs): a priority queue of access times beside a
 map of sizes with a running total, and the loop that evicts least recently used files.
 */
module CacheLimiter {
  import opened Prelude

  type Path = string

  // ---- Sums over maps

  ghost function Total(m: map<Path, nat>): nat {
    if m == map[] then 0 else var k :| k in m; m[k] + Total(m - {k})
  }

  lemma {:induction false} TotalWithout(m: map<Path, nat>, k: Path)
    requires k in m
    ensures Total(m) == m[k] + Total(m - {k})
  {
    var j :| j in m && Total(m) == m[j] + Total(m - {j});
    if j != k {
      TotalWithout(m - {j}, k);
      TotalWithout(m - {k}, j);
      assert m - {j} - {k} == m - {k} - {j};
    }
  }

  lemma TotalWith(m: map<Path, nat>, k: Path, size: nat)
    ensures Total(m[k := size]) + (if k in m then m[k] else 0) == Total(m) + size
  {
    TotalWithout(m[k := size], k);
    assert m[k := size] - {k} == m - {k};
    if k in m {
      TotalWithout(m, k);
    } else {
      assert m - {k} == m;
    }
  }

  lemma {:induction false} TotalMonotone(part: map<Path, nat>, whole: map<Path, nat>)
    requires forall k :: k in part ==> k in whole && whole[k] == part[k]
    ensures Total(part) <= Total(whole)
    decreases |part|
  {
    if part != map[] {
      var k :| k in part;
      TotalWithout(part, k);
      TotalWithout(whole, k);
      TotalMonotone(part - {k}, whole - {k});
    }
  }

  // ---- The priority queue

  method FindOldest(queue: map<Path, int>) returns (k: Path)
    requires queue != map[]
    ensures k in queue && Oldest(queue, k)
  {
    var rest := queue.Keys;
    k :| k in rest;
    rest := rest - {k};
    while rest != {}
      invariant rest <= queue.Keys && k in queue
      invariant forall j :: j in queue && j !in rest ==> queue[k] <= queue[j]
      decreases |rest|
    {
      var j :| j in rest;
      if queue[j] < queue[k] { k := j; }
      rest := rest - {j};
    }
  }

  ghost predicate Oldest(queue: map<Path, int>, k: Path)
    requires k in queue
  {
    forall j :: j in queue ==> queue[k] <= queue[j]
  }

  function Listed(s: seq<Path>): set<Path> { set p | p in s }

  datatype Operation =
    | Added(file: Path, size: nat, accessed: int) | Touched(file: Path, accessed: int) | Dropped(file: Path)

  /** The entries at the moment of an eviction. */
  datatype Moment = Moment(queue: map<Path, int>, sizes: map<Path, nat>)

  ghost predicate RightlyEvicted(m: Moment, limit: nat, file: Path) {
    file in m.queue && Oldest(m.queue, file) && Total(m.sizes) > limit
  }

  // ---- The limiter

  class SizeLimiter {
    var queue: map<Path, int>       // access times; the priority queue pops a smallest one
    var sizes: map<Path, nat>
    const sizeLimit: nat
    var inUse: nat

    ghost predicate Valid()
      reads this
    {
      queue.Keys == sizes.Keys && inUse == Total(sizes)
    }

    constructor (limit: nat)
      ensures Valid() && sizeLimit == limit && queue == map[] && sizes == map[]
    {
      queue, sizes, sizeLimit, inUse := map[], map[], limit, 0;
    }

    /** The subtraction after the addition never goes below zero. */
    method Add(file: Path, size: nat, accessed: int)
      requires Valid()
      modifies this
      ensures Valid()
      ensures queue == old(queue)[file := accessed] && sizes == old(sizes)[file := size]
    {
      TotalWith(sizes, file, size);
      inUse := inUse + size;
      queue := queue[file := accessed];
      if file in sizes {
        var oldSize := sizes[file];
        sizes := sizes[file := size];
        inUse := inUse - oldSize;
      } else {
        sizes := sizes[file := size];
      }
    }

    predicate ExceedsLimit()
      reads this
    {
      inUse > sizeLimit
    }

    /** Over the limit an oldest entry goes; the branches for mismatched maps are dead. */
    method Pop() returns (r: Option<Path>)
      requires Valid()
      modifies this
      ensures Valid()
      ensures r.None? <==> old(inUse) <= sizeLimit
      ensures r.None? ==> queue == old(queue) && sizes == old(sizes)
      ensures r.Some? ==> r.value in old(queue) && Oldest(old(queue), r.value)
      ensures r.Some? ==> queue == old(queue) - {r.value} && sizes == old(sizes) - {r.value}
    {
      if !ExceedsLimit() {
        return None;
      }
      if queue == map[] {
        assert false;
        return None;
      }
      var next := FindOldest(queue);
      TotalWithout(sizes, next);
      queue := queue - {next};
      if next in sizes {
        inUse := inUse - sizes[next];
        sizes := sizes - {next};
      } else {
        assert false;
      }
      return Some(next);
    }

    method Update(file: Path, accessTime: int) returns (existed: bool)
      requires Valid()
      modifies this
      ensures Valid()
      ensures existed <==> file in old(queue)
      ensures sizes == old(sizes)
      ensures queue == if existed then old(queue)[file := accessTime] else old(queue)
    {
      existed := file in queue;
      if existed {
        queue := queue[file := accessTime];
      }
    }

    method Remove(file: Path) returns (existed: bool)
      requires Valid()
      modifies this
      ensures Valid()
      ensures existed <==> file in old(queue)
      ensures queue == old(queue) - {file} && sizes == old(sizes) - {file}
    {
      if file !in queue {
        assert queue - {file} == queue && sizes - {file} == sizes;
        return false;
      }
      queue := queue - {file};
      if file in sizes {
        TotalWithout(sizes, file);
        inUse := inUse - sizes[file];
        sizes := sizes - {file};
      } else {
        assert false;
      }
      return true;
    }

    /** Evicts until within the limit, undisturbed; `undeletable` are the files whose deletion fails. */
    method Prune(undeletable: set<Path>) returns (evicted: seq<Path>, lastError: Option<Path>)
      requires Valid()
      modifies this
      ensures Valid() && inUse <= sizeLimit
      ensures Pruned(old(queue), old(sizes), sizeLimit, evicted)
      ensures queue == old(queue) - Listed(evicted) && sizes == old(sizes) - Listed(evicted)
      ensures lastError == LastFailure(evicted, undeletable)
    {
      evicted, lastError := [], None;
      while true
        invariant Valid()
        invariant Pruned(old(queue), old(sizes), sizeLimit, evicted)
        invariant queue == old(queue) - Listed(evicted) && sizes == old(sizes) - Listed(evicted)
        invariant lastError == LastFailure(evicted, undeletable)
        decreases |queue|
      {
        ghost var entries := queue;
        var file := Pop();
        if file.None? { break; }
        OneMore(old(queue), old(sizes), sizeLimit, evicted, file.value);
        LastFailureGrows(evicted, undeletable, file.value);
        evicted := evicted + [file.value];
        if file.value in undeletable {
          lastError := file;
        }
        assert queue.Keys == entries.Keys - {file.value};
      }
    }

    /** What other threads do to the limiter while the lock is free. */
    method Others(operations: seq<Operation>)
      requires Valid()
      modifies this
      ensures Valid()
    {
      for k := 0 to |operations|
        invariant Valid()
      {
        match operations[k] {
          case Added(file, size, accessed) => Add(file, size, accessed);
          case Touched(file, accessed) => var _ := Update(file, accessed);
          case Dropped(file) => var _ := Remove(file);
        }
      }
    }

    /**
     The loop as it runs on a shared limiter: the lock is taken for each `pop`, and after the k-th
     eviction the other threads do `others[k]`. Each eviction still takes an oldest entry of its
     moment and only over the limit, and the loop ends within it.
     */
    method PruneShared(others: seq<seq<Operation>>) returns (evicted: seq<Path>, ghost moments: seq<Moment>)
      requires Valid()
      modifies this
      ensures Valid() && inUse <= sizeLimit
      ensures |moments| == |evicted|
      ensures forall k :: 0 <= k < |evicted| ==> RightlyEvicted(moments[k], sizeLimit, evicted[k])
    {
      evicted, moments := [], [];
      while true
        invariant Valid() && |moments| == |evicted|
        invariant forall k :: 0 <= k < |evicted| ==> RightlyEvicted(moments[k], sizeLimit, evicted[k])
        decreases if |evicted| < |others| then |others| - |evicted| else 0, |queue|
      {
        ghost var before := Moment(queue, sizes);
        var file := Pop();
        if file.None? { break; }
        assert queue.Keys == before.queue.Keys - {file.value};
        evicted, moments := evicted + [file.value], moments + [before];
        if |evicted| <= |others| { Others(others[|evicted| - 1]); }
      }
    }
  }

  // ---- What pruning does

  /** Eviction `i` happened over the limit and took an oldest of the entries left. */
  ghost predicate Eviction(queue: map<Path, int>, sizes: map<Path, nat>, limit: nat, evicted: seq<Path>, i: nat)
    requires i < |evicted|
  {
    var gone := Listed(evicted[..i]);
    && evicted[i] in queue - gone && Oldest(queue - gone, evicted[i])
    && Total(sizes - gone) > limit
  }

  ghost predicate Pruned(queue: map<Path, int>, sizes: map<Path, nat>, limit: nat, evicted: seq<Path>) {
    forall i :: 0 <= i < |evicted| ==> Eviction(queue, sizes, limit, evicted, i)
  }

  lemma OneMore(queue: map<Path, int>, sizes: map<Path, nat>, limit: nat, evicted: seq<Path>, next: Path)
    requires Pruned(queue, sizes, limit, evicted)
    requires next in queue - Listed(evicted) && Oldest(queue - Listed(evicted), next)
    requires Total(sizes - Listed(evicted)) > limit
    ensures Pruned(queue, sizes, limit, evicted + [next])
    ensures queue - Listed(evicted + [next]) == queue - Listed(evicted) - {next}
    ensures sizes - Listed(evicted + [next]) == sizes - Listed(evicted) - {next}
  {
    var more := evicted + [next];
    forall i | 0 <= i < |more| ensures Eviction(queue, sizes, limit, more, i) {
      if i < |evicted| {
        assert more[..i] == evicted[..i];
        assert Eviction(queue, sizes, limit, evicted, i);
      } else {
        assert more[..i] == evicted;
      }
    }
    assert Listed(more) == Listed(evicted) + {next};
  }

  /** No entry that stays is older than one that went. */
  lemma KeepsNewest(queue: map<Path, int>, sizes: map<Path, nat>, limit: nat, evicted: seq<Path>,
                    gone: Path, kept: Path)
    requires Pruned(queue, sizes, limit, evicted)
    requires gone in evicted && kept in queue && kept !in evicted
    ensures gone in queue && queue[gone] <= queue[kept]
  {
    var i :| 0 <= i < |evicted| && evicted[i] == gone;
    assert Eviction(queue, sizes, limit, evicted, i);
    assert kept in queue - Listed(evicted[..i]);
  }

  /** The sizes of the entries not older than `k`. */
  ghost function NotOlder(queue: map<Path, int>, sizes: map<Path, nat>, k: Path): map<Path, nat>
    requires k in queue
  {
    map j | j in sizes && j in queue && queue[j] >= queue[k] :: sizes[j]
  }

  predicate DistinctTimes(queue: map<Path, int>) {
    forall j, k :: j in queue && k in queue && queue[j] == queue[k] ==> j == k
  }

  /** Main result: an entry goes exactly when it and the newer ones together exceed the limit. */
  lemma PruneIsExact(queue: map<Path, int>, sizes: map<Path, nat>, limit: nat, evicted: seq<Path>, k: Path)
    requires queue.Keys == sizes.Keys && k in queue
    requires Pruned(queue, sizes, limit, evicted) && Total(sizes - Listed(evicted)) <= limit
    ensures k in evicted ==> Total(NotOlder(queue, sizes, k)) > limit
    ensures k !in evicted && DistinctTimes(queue) ==> Total(NotOlder(queue, sizes, k)) <= limit
  {
    if k in evicted {
      var i :| 0 <= i < |evicted| && evicted[i] == k;
      assert Eviction(queue, sizes, limit, evicted, i);
      assert forall j :: j in sizes - Listed(evicted[..i]) ==> j in queue - Listed(evicted[..i]);
      TotalMonotone(sizes - Listed(evicted[..i]), NotOlder(queue, sizes, k));
    } else if DistinctTimes(queue) {
      forall j | j in NotOlder(queue, sizes, k) ensures j !in evicted {
        if j in evicted { KeepsNewest(queue, sizes, limit, evicted, j, k); }
      }
      TotalMonotone(NotOlder(queue, sizes, k), sizes - Listed(evicted));
    }
  }

  /** The last file on the list whose deletion failed. */
  function LastFailure(evicted: seq<Path>, undeletable: set<Path>): Option<Path> {
    if evicted == [] then None
    else if evicted[|evicted| - 1] in undeletable then Some(evicted[|evicted| - 1])
    else LastFailure(evicted[..|evicted| - 1], undeletable)
  }

  lemma LastFailureGrows(evicted: seq<Path>, undeletable: set<Path>, next: Path)
    ensures LastFailure(evicted + [next], undeletable)
         == if next in undeletable then Some(next) else LastFailure(evicted, undeletable)
  {
    assert (evicted + [next])[..|evicted|] == evicted;
  }
}
