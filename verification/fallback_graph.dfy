/**
 * The two checks of a fallback graph: the one of the chain constructor (recorder_next/adapters.py:3135-3145)
 * and the one of the configuration (recorder_next/config.py:901-913). `parents` maps every declared alias to
 * the alias it is a fallback of, if any. Both accept exactly the graphs without dangling edges and cycles.
 */
module FallbackGraph {
  import opened Wrappers

  type Graph = map<string, Option<string>>

  /** The alias n fallback edges up from a; None when the walk ends or leaves the graph before that. */
  function Ancestor(g: Graph, a: string, n: nat): Option<string> {
    if n == 0 then Some(a)
    else
      var below := Ancestor(g, a, n - 1);
      if below.Some? && below.value in g then g[below.value] else None
  }

  ghost predicate Closed(g: Graph) {
    forall a | a in g :: g[a].Some? ==> g[a].value in g
  }

  ghost predicate Acyclic(g: Graph) {
    forall a, n: nat | a in g && n > 0 :: Ancestor(g, a, n) != Some(a)
  }

  // ---- walks --------------------------------------------------------------------------------

  lemma {:induction false} AncestorsCompose(g: Graph, a: string, m: nat, n: nat)
    requires Ancestor(g, a, m).Some?
    ensures Ancestor(g, a, m + n) == Ancestor(g, Ancestor(g, a, m).value, n)
  {
    if n > 0 {
      AncestorsCompose(g, a, m, n - 1);
      assert m + n - 1 == m + (n - 1);
    }
  }

  /** A walk that meets an alias again has found a cycle. */
  lemma RepeatIsCycle(g: Graph, a: string, m: nat, n: nat)
    requires m < n && Ancestor(g, a, m).Some? && Ancestor(g, a, m) == Ancestor(g, a, n)
    requires Ancestor(g, a, m).value in g
    ensures !Acyclic(g)
  {
    var b := Ancestor(g, a, m).value;
    AncestorsCompose(g, a, m, n - m);
    assert m + (n - m) == n;
    assert Ancestor(g, b, n - m) == Some(b);
  }

  /** A walk that ends cannot have started on a cycle: from there every number of steps is possible. */
  lemma {:induction false} CycleGoesOn(g: Graph, a: string, n: nat, k: nat)
    requires n > 0 && Ancestor(g, a, n) == Some(a)
    ensures Ancestor(g, a, k).Some?
    decreases k
  {
    if k <= n {
      ShorterWalk(g, a, k, n);
    } else {
      CycleGoesOn(g, a, n, k - n);
      AncestorsCompose(g, a, n, k - n);
      assert n + (k - n) == k;
    }
  }

  lemma {:induction false} ShorterWalk(g: Graph, a: string, k: nat, n: nat)
    requires k <= n && Ancestor(g, a, n).Some?
    ensures Ancestor(g, a, k).Some?
    decreases n - k
  {
    if k < n {
      ShorterWalk(g, a, k + 1, n);
    }
  }

  /** From here the walk reaches an alias that is a fallback of nothing. */
  ghost predicate Rooted(g: Graph, a: string) {
    exists n: nat :: Ancestor(g, a, n).None? && StaysInside(g, a, n)
  }

  /** The first n aliases of the walk are declared. */
  ghost predicate StaysInside(g: Graph, a: string, n: nat) {
    forall m: nat | m < n :: Ancestor(g, a, m).Some? && Ancestor(g, a, m).value in g
  }

  lemma RootedDecides(g: Graph)
    requires forall a | a in g :: Rooted(g, a)
    ensures Closed(g) && Acyclic(g)
  {
    forall a | a in g && g[a].Some?
      ensures g[a].value in g
    {
      var n: nat :| Ancestor(g, a, n).None? && StaysInside(g, a, n);
      assert Ancestor(g, a, 0) == Some(a) && Ancestor(g, a, 1) == g[a];
      assert n > 1;
    }
    forall a, n: nat | a in g && n > 0
      ensures Ancestor(g, a, n) != Some(a)
    {
      if Ancestor(g, a, n) == Some(a) {
        var k: nat :| Ancestor(g, a, k).None?;
        CycleGoesOn(g, a, n, k);
        assert false;
      }
    }
  }

  /** The walk so far: `seen` are the aliases at the steps before n, each once. */
  ghost predicate Walking(g: Graph, a: string, n: nat, seen: set<string>) {
    && (forall m: nat | m < n :: Ancestor(g, a, m).Some? && Ancestor(g, a, m).value in seen)
    && (forall b | b in seen :: b in g && g[b].Some? && exists m: nat :: m < n && Ancestor(g, a, m) == Some(b))
  }

  lemma WalkOn(g: Graph, a: string, n: nat, seen: set<string>, b: string)
    requires Walking(g, a, n, seen) && Ancestor(g, a, n) == Some(b) && b in g && g[b].Some?
    ensures Walking(g, a, n + 1, seen + {b}) && Ancestor(g, a, n + 1) == g[b]
  {
    forall c | c in seen + {b}
      ensures exists m: nat :: m < n + 1 && Ancestor(g, a, m) == Some(c)
    {
      if c in seen {
        var m: nat :| m < n && Ancestor(g, a, m) == Some(c);
        assert m < n + 1;
      } else {
        assert n < n + 1 && Ancestor(g, a, n) == Some(c);
      }
    }
  }

  lemma SeenAgain(g: Graph, a: string, n: nat, seen: set<string>, b: string)
    requires Walking(g, a, n, seen) && Ancestor(g, a, n) == Some(b) && b in seen
    ensures !Acyclic(g)
  {
    var m: nat :| m < n && Ancestor(g, a, m) == Some(b);
    RepeatIsCycle(g, a, m, n);
  }

  lemma EndsAfter(g: Graph, a: string, n: nat, b: string)
    requires Ancestor(g, a, n) == Some(b) && b in g && g[b].None?
    ensures Ancestor(g, a, n + 1).None?
  {
  }

  lemma WalkEnds(g: Graph, a: string, n: nat, seen: set<string>, b: string)
    requires Walking(g, a, n, seen) && Ancestor(g, a, n) == Some(b) && b in g && g[b].None?
    ensures Rooted(g, a)
  {
    EndsAfter(g, a, n, b);
    assert seen <= g.Keys;
    WalksInside(g, a, n, seen, b);
  }

  lemma WalksInside(g: Graph, a: string, n: nat, seen: set<string>, b: string)
    requires forall m: nat | m < n :: Ancestor(g, a, m).Some? && Ancestor(g, a, m).value in seen
    requires seen <= g.Keys && Ancestor(g, a, n) == Some(b) && b in g
    ensures StaysInside(g, a, n + 1)
  {
    forall m: nat | m < n + 1
      ensures Ancestor(g, a, m).Some? && Ancestor(g, a, m).value in g
    {
      if m < n {
        assert Ancestor(g, a, m).value in seen;
      }
    }
  }

  // ---- the constructor's check ----------------------------------------------------------------

  /** The inner loop, over `graph`: the aliases that have a parent. */
  method WalkChain(g: Graph, graph: map<string, string>, alias: string) returns (ok: bool)
    requires alias in graph && forall a :: a in graph <==> a in g && g[a].Some?
    requires forall a | a in graph :: g[a] == Some(graph[a])
    ensures ok ==> Rooted(g, alias)
    ensures !ok ==> !Closed(g) || !Acyclic(g)
  {
    var seen: set<string> := {};
    var current := alias;
    ghost var n: nat := 0;
    while current in graph
      invariant current in g && Walking(g, alias, n, seen) && Ancestor(g, alias, n) == Some(current)
      decreases g.Keys - seen
    {
      if current in seen {
        SeenAgain(g, alias, n, seen, current);
        return false;
      }
      WalkOn(g, alias, n, seen, current);
      seen, n := seen + {current}, n + 1;
      current := graph[current];
      if current !in g {
        return false;
      }
    }
    WalkEnds(g, alias, n, seen, current);
    ok := true;
  }

  method CheckChain(g: Graph) returns (ok: bool)
    ensures ok <==> Closed(g) && Acyclic(g)
  {
    var graph := map a | a in g && g[a].Some? :: g[a].value;
    var left := graph.Keys;
    while left != {}
      invariant left <= graph.Keys
      invariant forall a | a in graph && a !in left :: Rooted(g, a)
      decreases |left|
    {
      var alias :| alias in left;
      var good := WalkChain(g, graph, alias);
      if !good {
        return false;
      }
      left := left - {alias};
    }
    forall a | a in g
      ensures Rooted(g, a)
    {
      if g[a].None? {
        WalkEnds(g, a, 0, {}, a);
      }
    }
    RootedDecides(g);
    ok := true;
  }

  // ---- the configuration's check ----------------------------------------------------------------

  method WalkDeclaration(g: Graph, item: string) returns (ok: bool)
    requires item in g
    ensures ok ==> Rooted(g, item)
    ensures !ok ==> !Closed(g) || !Acyclic(g)
  {
    var seen: set<string> := {};
    var current := item;
    ghost var n: nat := 0;
    while g[current].Some?
      invariant current in g && Walking(g, item, n, seen) && Ancestor(g, item, n) == Some(current)
      decreases g.Keys - seen
    {
      if current in seen {
        SeenAgain(g, item, n, seen, current);
        return false;
      }
      WalkOn(g, item, n, seen, current);
      seen, n := seen + {current}, n + 1;
      var parent := g[current].value;
      if parent !in g {
        return false;
      }
      current := parent;
    }
    WalkEnds(g, item, n, seen, current);
    ok := true;
  }

  method CheckConfiguration(g: Graph) returns (ok: bool)
    ensures ok <==> Closed(g) && Acyclic(g)
  {
    var left := g.Keys;
    while left != {}
      invariant left <= g.Keys
      invariant forall a | a in g && a !in left :: Rooted(g, a)
      decreases |left|
    {
      var item :| item in left;
      var good := WalkDeclaration(g, item);
      if !good {
        return false;
      }
      left := left - {item};
    }
    RootedDecides(g);
    ok := true;
  }
}
