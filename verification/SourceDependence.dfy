/** The sources each calculator depends on, found in one pass over the sorted nodes. */
module SourceDependence {
  import opened GraphValidation

  /** For each calculator, the parent of the producer of each of its input streams.
      Graph inputs count as nodes after all calculators. */
  type Links = seq<seq<NodeRef>>

  predicate WellFormed(links: Links) {
    forall c, k :: 0 <= c < |links| && 0 <= k < |links[c]| && links[c][k].NodeAt? ==> links[c][k].index < |links|
  }

  /** What one input stream adds to node `c`, given the sets of the nodes before it. */
  function Contribution(links: Links, c: nat, k: nat): set<nat>
    requires c < |links| && k < |links[c]|
    decreases c, 0
  {
    match links[c][k]
    case GraphInput(i) => {|links| + i}
    case NodeAt(b) => if b < c then Ancestors(links, b) else {}
  }

  function Contributions(links: Links, c: nat, n: nat): set<nat>
    requires c < |links| && n <= |links[c]|
    decreases c, 1, n
  {
    if n == 0 then {} else Contributions(links, c, n - 1) + Contribution(links, c, n - 1)
  }

  function Ancestors(links: Links, c: nat): set<nat>
    requires c < |links|
    decreases c, 2
  {
    if links[c] == [] then {c} else Contributions(links, c, |links[c]|)
  }

  class ValidatedGraph {
    const links: Links
    var ancestorSources: seq<set<nat>>

    /** All inputs of node `c`. An input from a later node, or from `c` itself, adds
        nothing new. */
    method AddSourcesForNode(c: nat)
      requires WellFormed(links) && c < |links| == |ancestorSources| && links[c] != []
      requires forall b :: 0 <= b < |links| ==> ancestorSources[b] == if b < c then Ancestors(links, b) else {}
      modifies `ancestorSources
      ensures |ancestorSources| == |links|
      ensures forall b :: 0 <= b < |links| ==> ancestorSources[b] == if b <= c then Ancestors(links, b) else {}
    {
      for k := 0 to |links[c]|
        invariant |ancestorSources| == |links|
        invariant ancestorSources[c] == Contributions(links, c, k)
        invariant forall b :: 0 <= b < |links| && b != c ==>
          ancestorSources[b] == if b < c then Ancestors(links, b) else {}
      {
        match links[c][k] {
          case GraphInput(i) =>
            ancestorSources := ancestorSources[c := ancestorSources[c] + {|links| + i}];
          case NodeAt(b) =>
            ancestorSources := ancestorSources[c := ancestorSources[c] + ancestorSources[b]];
        }
      }
    }

    method ComputeSourceDependence()
      requires WellFormed(links)
      modifies `ancestorSources
      ensures |ancestorSources| == |links| && forall c :: 0 <= c < |links| ==> ancestorSources[c] == Ancestors(links, c)
    {
      ancestorSources := seq(|links|, _ => {});
      for c := 0 to |links|
        invariant |ancestorSources| == |links|
        invariant forall b :: 0 <= b < |links| ==> ancestorSources[b] == if b < c then Ancestors(links, b) else {}
      {
        if links[c] == [] {
          ancestorSources := ancestorSources[c := ancestorSources[c] + {c}];
        } else {
          AddSourcesForNode(c);
        }
      }
    }
  }

  // ----- Reachability -----

  /** A path along streams from lower to higher nodes. */
  predicate IsPath(links: Links, path: seq<nat>) {
    && path != []
    && (forall j :: 0 <= j < |path| ==> path[j] < |links|)
    && (forall j :: 0 <= j < |path| - 1 ==> path[j] < path[j + 1] && NodeAt(path[j]) in links[path[j + 1]])
  }

  /** A path to `c` from the source `s`: from a calculator without inputs, or from one
      that reads the graph input `s`. */
  predicate Leads(links: Links, s: nat, path: seq<nat>, c: nat) {
    && IsPath(links, path) && path[|path| - 1] == c
    && if s < |links| then path[0] == s && links[s] == [] else GraphInput(s - |links|) in links[path[0]]
  }

  lemma {:induction false} ContributionsAre(links: Links, c: nat, n: nat, s: nat)
    requires c < |links| && n <= |links[c]|
    ensures s in Contributions(links, c, n) <==> SomeContributes(links, c, n, s)
  {
    if n > 0 {
      ContributionsAre(links, c, n - 1, s);
      assert s in Contributions(links, c, n) <==>
        s in Contributions(links, c, n - 1) || s in Contribution(links, c, n - 1);
      assert SomeContributes(links, c, n, s) <==>
        SomeContributes(links, c, n - 1, s) || s in Contribution(links, c, n - 1);
    }
  }

  predicate SomeContributes(links: Links, c: nat, n: nat, s: nat)
    requires c < |links| && n <= |links[c]|
  {
    exists k :: 0 <= k < n && s in Contribution(links, c, k)
  }

  lemma {:induction false} AncestorHasPath(links: Links, c: nat, s: nat) returns (path: seq<nat>)
    requires c < |links| && s in Ancestors(links, c)
    ensures Leads(links, s, path, c)
    decreases c
  {
    if links[c] == [] {
      return [c];
    }
    ContributionsAre(links, c, |links[c]|, s);
    var k :| 0 <= k < |links[c]| && s in Contribution(links, c, k);
    match links[c][k]
    case GraphInput(i) => path := [c];
    case NodeAt(b) =>
      path := AncestorHasPath(links, b, s);
      path := path + [c];
  }

  lemma {:induction false} PathMakesAncestor(links: Links, c: nat, s: nat, path: seq<nat>)
    requires Leads(links, s, path, c)
    ensures c < |links| && s in Ancestors(links, c)
    decreases |path|
  {
    if |path| == 1 {
      if s >= |links| {
        var k :| 0 <= k < |links[c]| && links[c][k] == GraphInput(s - |links|);
        assert s in Contribution(links, c, k);
        ContributionsAre(links, c, |links[c]|, s);
      }
    } else {
      var b := path[|path| - 2];
      PathMakesAncestor(links, b, s, path[..|path| - 1]);
      var k :| 0 <= k < |links[c]| && links[c][k] == NodeAt(b);
      assert s in Contribution(links, c, k);
      ContributionsAre(links, c, |links[c]|, s);
      assert Ancestors(links, c) == Contributions(links, c, |links[c]|);
    }
  }

  /** One pass finds exactly what can be reached: a back edge or a self-loop leads to
      a lower or the same node, and contributes nothing. */
  lemma AncestorsAreReachable(links: Links, c: nat, s: nat)
    requires c < |links|
    ensures s in Ancestors(links, c) <==> exists path :: Leads(links, s, path, c)
  {
    if s in Ancestors(links, c) {
      var path := AncestorHasPath(links, c, s);
    }
    if path :| Leads(links, s, path, c) {
      PathMakesAncestor(links, c, s, path);
    }
  }
}
