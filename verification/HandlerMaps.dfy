/**
 The dealer's request routing table (core/src/dealer/maps.rs): a trie of path components whose
 leaves are handlers. The tree is owned by one variable, so updates are functions on its value.
 */
module HandlerMaps {
  import opened Prelude

  type Path = seq<string>

  datatype HandlerMap<T> = Leaf(handler: T) | Branch(children: map<string, HandlerMap<T>>)

  /** The outcome of a registration: whether it was accepted, and the table afterwards. */
  datatype Inserted<T> = Inserted(ok: bool, table: HandlerMap<T>)

  datatype Removed<T> = Removed(handler: Option<T>, table: HandlerMap<T>)

  function Empty<T>(): HandlerMap<T> { Branch(map[]) }

  // ---- Operations

  function Insert<T>(m: HandlerMap<T>, path: Path, handler: T): Inserted<T>
    decreases |path|
  {
    match m
    case Leaf(_) => Inserted(false, m)
    case Branch(children) =>
      if path != [] then
        var node := if path[0] in children then children[path[0]] else Empty();
        var r := Insert(node, path[1..], handler);
        Inserted(r.ok, Branch(children[path[0] := r.table]))
      else if |children| == 0 then Inserted(true, Leaf(handler))
      else Inserted(false, m)
  }

  function Get<T>(m: HandlerMap<T>, path: Path): Option<T>
    decreases |path|
  {
    match m
    case Leaf(t) => Some(t)
    case Branch(children) =>
      if path == [] || path[0] !in children then None else Get(children[path[0]], path[1..])
  }

  predicate IsEmptyBranch<T>(m: HandlerMap<T>) { m.Branch? && |m.children| == 0 }

  function Remove<T>(m: HandlerMap<T>, path: Path): Removed<T>
    decreases |path|
  {
    match m
    case Leaf(t) => Removed(Some(t), Empty())
    case Branch(children) =>
      if path == [] || path[0] !in children then Removed(None, m)
      else
        var r := Remove(children[path[0]], path[1..]);
        Removed(r.handler,
                Branch(if IsEmptyBranch(r.table) then children - {path[0]} else children[path[0] := r.table]))
  }

  // ---- What a table denotes

  /** The handler registered at exactly this path. */
  function Registered<T>(m: HandlerMap<T>, path: Path): Option<T>
    decreases |path|
  {
    match m
    case Leaf(t) => if path == [] then Some(t) else None
    case Branch(children) =>
      if path == [] || path[0] !in children then None else Registered(children[path[0]], path[1..])
  }

  /** No empty branch below the root. */
  ghost predicate Compact<T>(m: HandlerMap<T>) {
    m.Branch? ==> forall k :: k in m.children ==> !IsEmptyBranch(m.children[k]) && Compact(m.children[k])
  }

  /** One of the paths is a prefix of the other. */
  predicate Clash(p: Path, q: Path) { p <= q || q <= p }

  lemma ClashTail(p: Path, q: Path)
    requires p != [] && q != [] && p[0] == q[0]
    ensures Clash(p, q) <==> Clash(p[1..], q[1..])
    ensures p <= q <==> p[1..] <= q[1..]
    ensures p == q <==> p[1..] == q[1..]
  {
    assert p == [p[0]] + p[1..] && q == [q[0]] + q[1..];
  }

  /** A component in front of a path. */
  lemma Under<T>(children: map<string, HandlerMap<T>>, k: string, q: Path)
    requires k in children
    ensures Registered(Branch(children), [k] + q) == Registered(children[k], q)
  {
    assert ([k] + q)[1..] == q;
  }

  // ---- The denotation is prefix-free

  lemma {:induction false} PrefixFree<T>(m: HandlerMap<T>, p: Path, q: Path)
    requires Registered(m, p).Some? && Registered(m, q).Some? && p <= q
    ensures p == q
    decreases |p|
  {
    if m.Branch? {
      ClashTail(p, q);
      PrefixFree(m.children[p[0]], p[1..], q[1..]);
    }
  }

  /** Every compact table that is not the empty branch has a registration. */
  lemma {:induction false} SomePath<T>(m: HandlerMap<T>) returns (p: Path)
    requires Compact(m) && !IsEmptyBranch(m)
    ensures Registered(m, p).Some?
    decreases m
  {
    if m.Leaf? {
      p := [];
    } else {
      var k :| k in m.children;
      var q := SomePath(m.children[k]);
      Under(m.children, k, q);
      p := [k] + q;
    }
  }

  // ---- Lookup

  /** `Get` finds the handler of the registered prefix, and only that. */
  lemma {:induction false} GetFindsPrefix<T>(m: HandlerMap<T>, path: Path)
    ensures forall q :: q <= path && Registered(m, q).Some? ==> Get(m, path) == Registered(m, q)
    ensures Get(m, path).Some? ==> exists q :: q <= path && Registered(m, q) == Get(m, path)
    decreases |path|
  {
    if m.Leaf? {
      assert [] <= path && Registered(m, []) == Get(m, path);
    } else if path != [] && path[0] in m.children {
      var k, child := path[0], m.children[path[0]];
      GetFindsPrefix(child, path[1..]);
      forall q | q <= path && Registered(m, q).Some? ensures Get(m, path) == Registered(m, q) {
        ClashTail(q, path);
      }
      if Get(m, path).Some? {
        var q :| q <= path[1..] && Registered(child, q) == Get(child, path[1..]);
        Under(m.children, k, q);
        assert [k] + q <= path;
      }
    } else {
      assert forall q: Path :: q <= path && q != [] ==> q[0] == path[0];
    }
  }

  // ---- Registration

  /** A rejected registration changes nothing; an accepted one adds exactly its path. */
  lemma {:induction false} InsertAdds<T>(m: HandlerMap<T>, path: Path, handler: T)
    requires Compact(m)
    ensures var r := Insert(m, path, handler);
            && Compact(r.table)
            && (r.ok ==> !IsEmptyBranch(r.table))
            && (!r.ok ==> r.table == m)
    decreases |path|
  {
    if m.Branch? && path != [] {
      var node := if path[0] in m.children then m.children[path[0]] else Empty();
      InsertAdds(node, path[1..], handler);
      if path[0] !in m.children {
        EmptyAccepts(path[1..], handler);
      }
      var r := Insert(node, path[1..], handler);
      var all := m.children[path[0] := r.table];
      assert path[0] in all;
      assert !r.ok ==> all == m.children;
    }
  }

  lemma {:induction false} EmptyAccepts<T>(path: Path, handler: T)
    ensures Insert(Empty(), path, handler).ok
    decreases |path|
  {
    if path != [] {
      EmptyAccepts(path[1..], handler);
    }
  }

  lemma {:induction false} InsertRegisters<T>(m: HandlerMap<T>, path: Path, handler: T, q: Path)
    requires Insert(m, path, handler).ok
    ensures Registered(Insert(m, path, handler).table, q) == if q == path then Some(handler) else Registered(m, q)
    decreases |path|
  {
    if path != [] && q != [] && q[0] == path[0] {
      ClashTail(q, path);
      var node := if path[0] in m.children then m.children[path[0]] else Empty();
      InsertRegisters(node, path[1..], handler, q[1..]);
    }
  }

  /** Accepted exactly when no registered path is a prefix or an extension of the new one. */
  lemma {:induction false} InsertDecides<T>(m: HandlerMap<T>, path: Path, handler: T)
    requires Compact(m)
    ensures Insert(m, path, handler).ok <==> forall q :: Registered(m, q).Some? ==> !Clash(q, path)
    decreases |path|
  {
    if m.Leaf? {
      assert Registered(m, []).Some? && Clash([], path);
    } else if path == [] {
      if |m.children| > 0 {
        var q := SomePath(m);
        assert Clash(q, path);
      }
    } else {
      BranchDecides(m, path, handler);
    }
  }

  lemma {:induction false} BranchDecides<T>(m: HandlerMap<T>, path: Path, handler: T)
    requires Compact(m) && m.Branch? && path != []
    ensures Insert(m, path, handler).ok <==> forall q :: Registered(m, q).Some? ==> !Clash(q, path)
    decreases |path|, 0
  {
    var k := path[0];
    if k !in m.children {
      EmptyAccepts(path[1..], handler);
      assert forall q: Path :: Clash(q, path) && q != [] ==> q[0] == k;
    } else {
      var child := m.children[k];
      InsertDecides(child, path[1..], handler);
      if Insert(m, path, handler).ok {
        forall q | Registered(m, q).Some? ensures !Clash(q, path) {
          if q[0] == k { ClashTail(q, path); }
        }
      } else {
        var q :| Registered(child, q).Some? && Clash(q, path[1..]);
        Under(m.children, k, q);
        ClashTail([k] + q, path);
      }
    }
  }

  // ---- Removal

  lemma {:induction false} RemoveKeepsCompact<T>(m: HandlerMap<T>, path: Path)
    requires Compact(m)
    ensures var r := Remove(m, path);
            Compact(r.table) && r.handler == Get(m, path) && (r.handler.None? ==> r.table == m)
    decreases |path|
  {
    if m.Branch? && path != [] && path[0] in m.children {
      RemoveKeepsCompact(m.children[path[0]], path[1..]);
      var r := Remove(m.children[path[0]], path[1..]);
      assert m.children[path[0] := m.children[path[0]]] == m.children;
    }
  }

  lemma {:induction false} RemoveUnregisters<T>(m: HandlerMap<T>, path: Path, q: Path)
    requires Compact(m)
    ensures Registered(Remove(m, path).table, q) == if q <= path then None else Registered(m, q)
    decreases |path|
  {
    if m.Branch? && path != [] && path[0] in m.children {
      var child := m.children[path[0]];
      if q != [] && q[0] == path[0] {
        ClashTail(q, path);
        RemoveUnregisters(child, path[1..], q[1..]);
      }
    }
  }

  // ---- Tables are determined by what they denote

  ghost predicate SameEntries<T>(m: HandlerMap<T>, n: HandlerMap<T>) {
    forall q :: Registered(m, q) == Registered(n, q)
  }

  lemma {:induction false} CompactIsUnique<T>(m: HandlerMap<T>, n: HandlerMap<T>)
    requires Compact(m) && Compact(n) && SameEntries(m, n)
    ensures m == n
    decreases m
  {
    assert Registered(m, []) == Registered(n, []);
    if m.Branch? {
      assert n.Branch?;
      SubBranches(m, n);
      SubBranches(n, m);
      forall k | k in m.children ensures m.children[k] == n.children[k] {
        forall q ensures Registered(m.children[k], q) == Registered(n.children[k], q) {
          Under(m.children, k, q);
          Under(n.children, k, q);
        }
        CompactIsUnique(m.children[k], n.children[k]);
      }
      assert m.children == n.children;
    }
  }

  lemma SubBranches<T>(m: HandlerMap<T>, n: HandlerMap<T>)
    requires m.Branch? && n.Branch? && Compact(m) && SameEntries(m, n)
    ensures m.children.Keys <= n.children.Keys
  {
    forall k | k in m.children ensures k in n.children {
      var q := SomePath(m.children[k]);
      Under(m.children, k, q);
      assert Registered(n, [k] + q).Some?;
    }
  }

  /** Removing a path that was just accepted restores the table. */
  lemma {:induction false} RemoveUndoesInsert<T>(m: HandlerMap<T>, path: Path, handler: T)
    requires Compact(m) && Insert(m, path, handler).ok
    ensures Remove(Insert(m, path, handler).table, path) == Removed(Some(handler), m)
  {
    var n := Insert(m, path, handler).table;
    InsertAdds(m, path, handler);
    InsertDecides(m, path, handler);
    RemoveKeepsCompact(n, path);
    GetFindsPrefix(n, path);
    InsertRegisters(m, path, handler, path);
    forall q ensures Registered(Remove(n, path).table, q) == Registered(m, q) {
      RemoveUnregisters(n, path, q);
      InsertRegisters(m, path, handler, q);
      assert q <= path ==> Clash(q, path);
    }
    CompactIsUnique(Remove(n, path).table, m);
  }

  // ---- Runs

  datatype Operation<T> = Register(path: Path, handler: T) | Unregister(path: Path)

  function Apply<T>(m: HandlerMap<T>, op: Operation<T>): HandlerMap<T> {
    match op
    case Register(path, handler) => Insert(m, path, handler).table
    case Unregister(path) => Remove(m, path).table
  }

  function Run<T>(m: HandlerMap<T>, ops: seq<Operation<T>>): HandlerMap<T> {
    if ops == [] then m else Apply(Run(m, ops[..|ops| - 1]), ops[|ops| - 1])
  }

  /** The reference: a flat map of paths. */
  ghost function ApplyFlat<T>(r: map<Path, T>, op: Operation<T>): map<Path, T> {
    match op
    case Register(path, handler) => if exists q :: q in r && Clash(q, path) then r else r[path := handler]
    case Unregister(path) => map q | q in r && !(q <= path) :: r[q]
  }

  ghost function RunFlat<T>(r: map<Path, T>, ops: seq<Operation<T>>): map<Path, T> {
    if ops == [] then r else ApplyFlat(RunFlat(r, ops[..|ops| - 1]), ops[|ops| - 1])
  }

  function Lookup<T>(r: map<Path, T>, q: Path): Option<T> { if q in r then Some(r[q]) else None }

  ghost predicate Denotes<T>(m: HandlerMap<T>, r: map<Path, T>) {
    forall q :: Registered(m, q) == Lookup(r, q)
  }

  lemma StepRefines<T>(m: HandlerMap<T>, r: map<Path, T>, op: Operation<T>)
    requires Compact(m) && Denotes(m, r)
    ensures Compact(Apply(m, op)) && Denotes(Apply(m, op), ApplyFlat(r, op))
  {
    match op
    case Register(path, handler) =>
      InsertAdds(m, path, handler);
      InsertDecides(m, path, handler);
      Accepts(m, r, path, handler);
      if Insert(m, path, handler).ok {
        forall q ensures Registered(Apply(m, op), q) == Lookup(ApplyFlat(r, op), q) {
          InsertRegisters(m, path, handler, q);
        }
      }
    case Unregister(path) =>
      RemoveKeepsCompact(m, path);
      forall q ensures Registered(Apply(m, op), q) == Lookup(ApplyFlat(r, op), q) {
        RemoveUnregisters(m, path, q);
      }
  }

  lemma Accepts<T>(m: HandlerMap<T>, r: map<Path, T>, path: Path, handler: T)
    requires Compact(m) && Denotes(m, r)
    ensures Insert(m, path, handler).ok <==> !exists q :: q in r && Clash(q, path)
  {
    InsertDecides(m, path, handler);
    forall q ensures q in r <==> Registered(m, q).Some? { }
  }

  /** Main result: after any run from the empty table, it is compact and denotes the flat map. */
  lemma {:induction false} RunRefines<T>(ops: seq<Operation<T>>)
    ensures Compact(Run(Empty<T>(), ops)) && Denotes(Run(Empty<T>(), ops), RunFlat(map[], ops))
    decreases |ops|
  {
    if ops != [] {
      var before := ops[..|ops| - 1];
      RunRefines(before);
      StepRefines(Run(Empty(), before), RunFlat(map[], before), ops[|ops| - 1]);
    }
  }

  /** Lookup in terms of the flat map alone: it is prefix-free and the registered prefix answers. */
  ghost predicate Routes<T>(m: HandlerMap<T>, r: map<Path, T>, path: Path) {
    && (forall p, q :: p in r && q in r && p <= q ==> p == q)
    && (forall q :: q in r && q <= path ==> Get(m, path) == Some(r[q]))
    && (Get(m, path).Some? ==> exists q :: q in r && q <= path)
  }

  lemma DenotesRoutes<T>(m: HandlerMap<T>, r: map<Path, T>, path: Path)
    requires Denotes(m, r)
    ensures Routes(m, r, path)
  {
    GetFindsPrefix(m, path);
    forall p, q | p in r && q in r && p <= q ensures p == q {
      PrefixFree(m, p, q);
    }
    forall q | q in r && q <= path ensures Get(m, path) == Some(r[q]) {
      assert Registered(m, q).Some?;
    }
    if Get(m, path).Some? {
      var q :| q <= path && Registered(m, q) == Get(m, path);
      assert q in r;
    }
  }

  /** Main result: after any run, every request goes to the handler of the one registered prefix. */
  lemma RunRoutes<T>(ops: seq<Operation<T>>, path: Path)
    ensures Routes(Run(Empty<T>(), ops), RunFlat(map[], ops), path)
  {
    RunRefines(ops);
    DenotesRoutes(Run(Empty<T>(), ops), RunFlat(map[], ops), path);
  }
}
