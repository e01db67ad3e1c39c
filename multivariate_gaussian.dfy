/** The multivariate Gaussian model: a fully connected DAG over real variables, in which
    every variable has all later variables of the list as parents. */
module MultivariateGaussian {
  import opened Wrappers
  import opened Variables

  /** What the configuration check can throw: `Optional.get()` on an empty reduction. */
  datatype Error = NoSuchElement

  // ---------------------------------------------------------------------------------
  // The DAG structure the builder is specified against
  // ---------------------------------------------------------------------------------

  /** The parent list of position `i` among `n` variables: the positions after `i`. */
  function ParentsOf(n: nat, i: nat): (r: seq<nat>)
    ensures forall p :: p in r <==> i < p < n
    ensures forall a, b :: 0 <= a < b < |r| ==> r[a] < r[b]
  {
    var r := seq(if i + 1 < n then n - i - 1 else 0, k => i + 1 + k);
    assert forall p :: i < p < n ==> p in r by {
      forall p | i < p < n
        ensures p in r
      {
        assert r[p - i - 1] == p;
      }
    }
    r
  }

  /** The parent lists of all `n` positions of the fully connected DAG. */
  function FullyConnected(n: nat): seq<seq<nat>>
  {
    seq(n, i requires 0 <= i => ParentsOf(n, i))
  }

  /** The number of parent links of a DAG given by its parent lists. */
  function LinkCount(g: seq<seq<nat>>): nat
  {
    if g == [] then 0 else LinkCount(g[..|g| - 1]) + |g[|g| - 1]|
  }

  /** Every parent of a position comes later in the list. */
  ghost predicate Downward(g: seq<seq<nat>>)
  {
    forall c, p :: 0 <= c < |g| && p in g[c] ==> c < p
  }

  /** `path` follows child-to-parent links of `g`, starting and staying on positions of `g`. */
  ghost predicate IsPath(g: seq<seq<nat>>, path: seq<nat>)
  {
    && |path| >= 1
    && (forall k :: 0 <= k < |path| ==> path[k] < |g|)
    && (forall k :: 0 <= k < |path| - 1 ==> path[k + 1] in g[path[k]])
  }

  /** No path of one or more links returns to where it started. */
  ghost predicate Acyclic(g: seq<seq<nat>>)
  {
    forall path :: IsPath(g, path) && |path| >= 2 ==> path[0] != path[|path| - 1]
  }

  // ---------------------------------------------------------------------------------
  // The DAG container (only what the builder uses of it)
  // ---------------------------------------------------------------------------------

  /** A DAG over a variable list: one parent list per variable position. */
  class DAG {
    const parents: array<seq<nat>>

    /** `new DAG(vars)`: every variable starts with an empty parent set. */
    constructor (n: nat)
      ensures fresh(parents) && parents.Length == n
      ensures forall i :: 0 <= i < n ==> parents[i] == []
    {
      parents := new seq<nat>[n](_ => []);
    }

    /** `getParentSet(child).addParent(parent)`: appends one link. */
    method AddParent(child: nat, parent: nat)
      requires child < parents.Length
      modifies parents
      ensures parents[child] == old(parents[child]) + [parent]
      ensures forall k :: 0 <= k < parents.Length && k != child ==> parents[k] == old(parents[k])
    {
      parents[child] := parents[child] + [parent];
    }
  }

  // ---------------------------------------------------------------------------------
  // The model
  // ---------------------------------------------------------------------------------

  function IsReal(v: Variable): bool
  {
    v.stateSpace == Real
  }

  /** `Stream.reduce((n1, n2) -> n1 && n2)`: a left fold that is empty on an empty stream. */
  function ReduceAnd(bs: seq<bool>): (r: Option<bool>)
    ensures r.None? <==> bs == []
    ensures r.Some? ==> (r.value <==> forall k :: 0 <= k < |bs| ==> bs[k])
  {
    if bs == [] then None
    else if |bs| == 1 then Some(bs[0])
    else Some(ReduceAnd(bs[..|bs| - 1]).value && bs[|bs| - 1])
  }

  class MultivariateGaussianDistribution {
    const vars: seq<Variable>
    var dag: DAG?

    constructor (vars: seq<Variable>)
      ensures this.vars == vars && dag == null
    {
      this.vars := vars;
      dag := null;
    }

    /** Builds a fresh DAG over `vars` in which position `i` has every later position as a
        parent, added in increasing order. */
    method BuildDAG()
      modifies this
      ensures dag != null && fresh(dag) && fresh(dag.parents)
      ensures dag.parents[..] == FullyConnected(|vars|)
    {
      var n := |vars|;
      var d := new DAG(n);
      var i := 0;
      while i + 1 < n
        invariant i <= n
        invariant forall k :: 0 <= k < i ==> d.parents[k] == ParentsOf(n, k)
        invariant forall k :: i <= k < n ==> d.parents[k] == []
      {
        var j := i + 1;
        while j < n
          invariant i + 1 <= j <= n
          invariant d.parents[i] == seq(j - i - 1, k => i + 1 + k)
          invariant forall k :: 0 <= k < i ==> d.parents[k] == ParentsOf(n, k)
          invariant forall k :: i < k < n ==> d.parents[k] == []
        {
          d.AddParent(i, j);
          j := j + 1;
        }
        i := i + 1;
      }
      assert forall k :: 0 <= k < n ==> d.parents[k] == FullyConnected(n)[k];
      dag := d;
    }

    /** True iff every variable is REAL; an empty list makes the reduction's `get()` throw. */
    function IsValidConfiguration(): (r: Result<bool, Error>)
      ensures r.Failure? <==> vars == []
      ensures r.Success? ==> (r.value <==> forall v :: v in vars ==> IsReal(v))
    {
      var flags := seq(|vars|, k requires 0 <= k < |vars| => IsReal(vars[k]));
      assert (forall k :: 0 <= k < |flags| ==> flags[k]) <==> (forall v :: v in vars ==> IsReal(v)) by {
        assert forall k :: 0 <= k < |vars| ==> flags[k] == IsReal(vars[k]);
      }
      match ReduceAnd(flags)
      case None => Failure(NoSuchElement)
      case Some(allReal) => Success(allReal)
    }
  }

  // ---------------------------------------------------------------------------------
  // Properties of the built DAG
  // ---------------------------------------------------------------------------------

  /** No variable is its own parent. */
  lemma NoSelfLoops(n: nat, i: nat)
    requires i < n
    ensures i !in FullyConnected(n)[i]
  {
  }

  /** The last variable, and so a lone variable, has no parents. */
  lemma LastHasNoParents(n: nat)
    requires n > 0
    ensures FullyConnected(n)[n - 1] == []
  {
  }

  /** Along a path of a downward DAG positions strictly increase. */
  lemma {:induction false} DownwardPathAscends(g: seq<seq<nat>>, path: seq<nat>)
    requires Downward(g) && IsPath(g, path) && |path| >= 2
    ensures path[0] < path[|path| - 1]
  {
    assert path[1] in g[path[0]];
    if |path| > 2 {
      DownwardPathAscends(g, path[1..]);
    }
  }

  /** The fully connected DAG is downward, hence acyclic. */
  lemma FullyConnectedIsAcyclic(n: nat)
    ensures Downward(FullyConnected(n))
    ensures Acyclic(FullyConnected(n))
  {
    var g := FullyConnected(n);
    forall path | IsPath(g, path) && |path| >= 2
      ensures path[0] != path[|path| - 1]
    {
      DownwardPathAscends(g, path);
    }
  }

  /** The first `m` positions carry m*(2n-m-1)/2 links between them. */
  lemma {:induction false} PrefixLinkCount(n: nat, m: nat)
    requires m <= n
    ensures 2 * LinkCount(FullyConnected(n)[..m]) == m * (2 * n - m - 1)
  {
    if m > 0 {
      var g := FullyConnected(n);
      assert g[..m][..m - 1] == g[..m - 1];
      PrefixLinkCount(n, m - 1);
      assert |g[m - 1]| == n - m;
      calc {
        2 * LinkCount(g[..m]);
        2 * LinkCount(g[..m - 1]) + 2 * (n - m);
        (m - 1) * (2 * n - m) + 2 * (n - m);
        m * (2 * n - m - 1);
      }
    }
  }

  /** The builder adds n(n-1)/2 links for n variables. */
  lemma FullyConnectedLinkCount(n: nat)
    ensures LinkCount(FullyConnected(n)) == n * (n - 1) / 2
  {
    var g := FullyConnected(n);
    PrefixLinkCount(n, n);
    assert g[..n] == g;
  }
}
