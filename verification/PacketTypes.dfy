/** Packet types linked by "same as": a union-find forest without path compression,
    and the resolution of Any types along the edges of a graph. */
module PacketTypes {

  datatype TypeSpec =
    | Uninitialized
    | Exact(typeId: nat)
    | OneOf(typeIds: seq<nat>)
    | SameAs(other: PacketType)
    | AnyType
    | NoneType

  /** The specs of some packet types, with ranks that decrease along every link. */
  datatype Forest = Forest(specs: map<PacketType, TypeSpec>, ranks: map<PacketType, nat>) {
    ghost predicate Valid() {
      && specs.Keys == ranks.Keys
      && forall p :: p in specs && specs[p].SameAs? ==> specs[p].other in specs && ranks[specs[p].other] < ranks[p]
    }

    ghost predicate IsRoot(p: PacketType)
      requires p in specs
    {
      !specs[p].SameAs?
    }

    ghost function Root(p: PacketType): (r: PacketType)
      requires Valid() && p in specs
      ensures r in specs && IsRoot(r)
      decreases ranks[p]
    {
      if IsRoot(p) then p else Root(specs[p].other)
    }

    ghost predicate RootIsAny(p: PacketType)
      requires Valid() && p in specs
    {
      specs[Root(p)].AnyType?
    }

    ghost function WithSpec(p: PacketType, spec: TypeSpec): Forest
      requires p in specs
    {
      Forest(specs[p := spec], ranks)
    }

    /** The effect of p.SetSameAs(type): a cycle becomes Any. */
    ghost function WithLink(p: PacketType, t: PacketType): Forest
      requires Valid() && p in specs && t in specs
    {
      var root := Root(t);
      if root == p then WithSpec(p, AnyType)
      else Forest(specs[p := SameAs(root)], map q | q in ranks :: if q == root then 0 else ranks[q] + 1)
    }
  }

  /** SetAny, SetNone, Set and SetOneOf keep the forest; so does SetSameAs, whatever
      the two types are. */
  lemma CallsKeepForest(f: Forest, p: PacketType, spec: TypeSpec, t: PacketType)
    requires f.Valid() && p in f.specs && t in f.specs
    ensures !spec.SameAs? ==> f.WithSpec(p, spec).Valid()
    ensures f.WithLink(p, t).Valid()
  {
  }

  lemma LinkChangesOne(f: Forest, p: PacketType, t: PacketType)
    requires f.Valid() && p in f.specs && t in f.specs
    ensures f.WithLink(p, t).specs == f.specs[p := if f.Root(t) == p then AnyType else SameAs(f.Root(t))]
  {
  }

  /** Linking a root moves its whole tree under the root of the other type, and no
      other tree. */
  lemma {:induction false} LinkMovesTree(f: Forest, p: PacketType, t: PacketType, q: PacketType)
    requires f.Valid() && p in f.specs && t in f.specs && q in f.specs && f.IsRoot(p)
    ensures f.WithLink(p, t).Valid()
    ensures f.WithLink(p, t).Root(q) == if f.Root(q) == p then f.Root(t) else f.Root(q)
    decreases f.ranks[q]
  {
    CallsKeepForest(f, p, AnyType, t);
    if !f.IsRoot(q) {
      LinkMovesTree(f, p, t, f.specs[q].other);
    }
    assert f.WithLink(p, t).Root(f.Root(t)) == f.Root(t);
  }

  /** The way from `q` to its root passes `p`. */
  ghost predicate Passes(f: Forest, q: PacketType, p: PacketType)
    requires f.Valid() && q in f.specs
    decreases f.ranks[q]
  {
    q == p || (!f.IsRoot(q) && Passes(f, f.specs[q].other, p))
  }

  /** Linking any type moves what is linked through it, and nothing else. */
  lemma {:induction false} LinkMovesSubtree(f: Forest, p: PacketType, t: PacketType, q: PacketType)
    requires f.Valid() && p in f.specs && t in f.specs && q in f.specs
    ensures f.WithLink(p, t).Valid()
    ensures f.WithLink(p, t).Root(q) == if Passes(f, q, p) then f.Root(t) else f.Root(q)
    decreases f.ranks[q]
  {
    CallsKeepForest(f, p, AnyType, t);
    if q != p && !f.IsRoot(q) {
      LinkMovesSubtree(f, p, t, f.specs[q].other);
    }
    assert f.WithLink(p, t).Root(f.Root(t)) == f.Root(t);
  }

  /** A type that is linked to one of its own tree makes that tree Any; else what is linked
      through it is Any exactly if the other tree is. */
  lemma LinkDecidesAny(f: Forest, p: PacketType, t: PacketType, q: PacketType)
    requires f.Valid() && p in f.specs && t in f.specs && q in f.specs
    ensures f.WithLink(p, t).Valid()
    ensures f.WithLink(p, t).RootIsAny(q) <==>
            if Passes(f, q, p) then f.Root(t) == p || f.RootIsAny(t) else f.RootIsAny(q)
  {
    LinkMovesSubtree(f, p, t, q);
    if !Passes(f, q, p) {
      RootIsPassed(f, q, p);
    }
  }

  lemma {:induction false} RootIsPassed(f: Forest, q: PacketType, p: PacketType)
    requires f.Valid() && q in f.specs && p in f.specs
    ensures f.Root(q) == p ==> Passes(f, q, p)
    decreases f.ranks[q]
  {
    if !f.IsRoot(q) {
      RootIsPassed(f, f.specs[q].other, p);
    }
  }

  datatype Call = SetTo(p: PacketType, spec: TypeSpec) | Link(p: PacketType, t: PacketType)

  ghost predicate CanCall(f: Forest, call: Call) {
    call.p in f.specs && match call case SetTo(_, spec) => !spec.SameAs? case Link(_, t) => t in f.specs
  }

  ghost function After(f: Forest, calls: seq<Call>): (r: Forest)
    requires f.Valid() && forall call :: call in calls ==> CanCall(f, call)
    ensures r.Valid() && r.specs.Keys == f.specs.Keys
  {
    if calls == [] then f
    else
      var g, call := After(f, calls[..|calls| - 1]), calls[|calls| - 1];
      assert call in calls && CanCall(f, call) && CanCall(g, call);
      CallsKeepForest(g, call.p, AnyType, if call.Link? then call.t else call.p);
      match call
      case SetTo(p, spec) => g.WithSpec(p, spec)
      case Link(p, t) => g.WithLink(p, t)
  }

  ghost function Specs(all: set<PacketType>): map<PacketType, TypeSpec>
    reads all
  {
    map p | p in all :: p.spec
  }

  lemma OneChanged(all: set<PacketType>, p: PacketType, before: map<PacketType, TypeSpec>)
    requires p in all && before.Keys == all && forall q :: q in all && q != p ==> q.spec == before[q]
    ensures Specs(all) == before[p := p.spec]
  {
  }

  class PacketType {
    var spec: TypeSpec

    constructor ()
      ensures spec == Uninitialized
    {
      spec := Uninitialized;
    }

    method SetAny()
      modifies this
      ensures spec == AnyType
    {
      spec := AnyType;
    }

    method SetNone()
      modifies this
      ensures spec == NoneType
    {
      spec := NoneType;
    }

    /** Follows the links to the root. */
    method GetSameAs(ghost all: set<PacketType>, ghost f: Forest) returns (root: PacketType)
      requires f.specs == Specs(all) && f.Valid() && this in all
      ensures root in all && root == f.Root(this)
      decreases f.ranks[this]
    {
      assert f.specs[this] == spec;
      match spec {
        case SameAs(other) => root := other.GetSameAs(all, f);
        case _ => root := this;
      }
    }

    method SetSameAs(t: PacketType, ghost all: set<PacketType>, ghost f: Forest)
      requires f.specs == Specs(all) && f.Valid() && this in all && t in all
      modifies this
      ensures Specs(all) == f.WithLink(this, t).specs && f.WithLink(this, t).Valid()
    {
      CallsKeepForest(f, this, AnyType, t);
      var sameAs := t.GetSameAs(all, f);
      LinkChangesOne(f, this, t);
      hide Forest.Valid, Forest.WithLink, Forest.Root;
      if sameAs == this {
        SetAny();
      } else {
        spec := SameAs(sameAs);
      }
      OneChanged(all, this, f.specs);
    }

    predicate IsAny()
      reads this
    {
      spec.AnyType?
    }
  }

  // ----- Resolving Any types -----

  /** An input edge: the index of its producer's output edge, or -1. */
  datatype Edge = Edge(upstream: int, packetType: PacketType)

  ghost predicate EdgesOk(f: Forest, inputs: seq<Edge>, outputs: seq<PacketType>) {
    && (forall t :: t in outputs ==> t in f.specs)
    && (forall e :: e in inputs ==> e.packetType in f.specs && -1 <= e.upstream < |outputs|)
  }

  /** One edge: an Any root is linked to the other end. */
  ghost function Resolved(f: Forest, input: PacketType, output: PacketType): (r: Forest)
    requires f.Valid() && input in f.specs && output in f.specs
    ensures r.Valid() && r.specs.Keys == f.specs.Keys
  {
    CallsKeepForest(f, f.Root(input), AnyType, output);
    CallsKeepForest(f, f.Root(output), AnyType, input);
    if f.RootIsAny(input) then f.WithLink(f.Root(input), output)
    else if f.RootIsAny(output) then f.WithLink(f.Root(output), input)
    else f
  }

  ghost function ResolvedAll(f: Forest, inputs: seq<Edge>, outputs: seq<PacketType>, n: nat): (r: Forest)
    requires f.Valid() && EdgesOk(f, inputs, outputs) && n <= |inputs|
    ensures r.Valid() && r.specs.Keys == f.specs.Keys
  {
    if n == 0 then f
    else
      var g, e := ResolvedAll(f, inputs, outputs, n - 1), inputs[n - 1];
      if e.upstream == -1 then g else Resolved(g, e.packetType, outputs[e.upstream])
  }

  method ResolveEdge(input: PacketType, output: PacketType, ghost all: set<PacketType>, ghost f: Forest)
    requires f.specs == Specs(all) && f.Valid() && input in all && output in all
    modifies all
    ensures Specs(all) == Resolved(f, input, output).specs
  {
    var inputRoot := input.GetSameAs(all, f);
    var outputRoot := output.GetSameAs(all, f);
    assert f.specs[inputRoot] == inputRoot.spec && f.specs[outputRoot] == outputRoot.spec;
    if inputRoot.IsAny() {
      inputRoot.SetSameAs(output, all, f);
    } else if outputRoot.IsAny() {
      outputRoot.SetSameAs(input, all, f);
    }
  }

  method ResolveAnyTypes(inputs: seq<Edge>, outputs: seq<PacketType>, ghost all: set<PacketType>, ghost f: Forest)
    requires f.specs == Specs(all) && f.Valid() && EdgesOk(f, inputs, outputs)
    modifies all
    ensures Specs(all) == ResolvedAll(f, inputs, outputs, |inputs|).specs
  {
    hide Resolved, Forest.Valid;
    for n := 0 to |inputs|
      invariant Specs(all) == ResolvedAll(f, inputs, outputs, n).specs
    {
      var e := inputs[n];
      if e.upstream == -1 {
        continue;
      }
      ghost var g := ResolvedAll(f, inputs, outputs, n);
      assert e in inputs && outputs[e.upstream] in outputs;
      assert e.packetType in f.specs && outputs[e.upstream] in f.specs && g.specs.Keys == f.specs.Keys;
      ResolveEdge(e.packetType, outputs[e.upstream], all, g);
    }
  }

  /** The two ends of an edge agree: same root, or two roots that are not Any. */
  ghost predicate EndsAgree(f: Forest, input: PacketType, output: PacketType)
    requires f.Valid() && input in f.specs && output in f.specs
  {
    f.Root(input) == f.Root(output) || (!f.RootIsAny(input) && !f.RootIsAny(output))
  }

  /** A type whose root is not Any keeps that root, with its spec. */
  ghost predicate KeepsConcrete(f: Forest, r: Forest, q: PacketType)
    requires f.Valid() && r.Valid() && q in f.specs && q in r.specs
  {
    !f.RootIsAny(q) ==> r.Root(q) == f.Root(q) && r.specs[r.Root(q)] == f.specs[f.Root(q)]
  }

  /** Resolving one edge makes its ends agree, leaves agreement elsewhere, and changes
      no concrete root. */
  lemma ResolvedAgrees(f: Forest, input: PacketType, output: PacketType, a: PacketType, b: PacketType)
    requires f.Valid() && input in f.specs && output in f.specs && a in f.specs && b in f.specs
    ensures EndsAgree(Resolved(f, input, output), input, output)
    ensures EndsAgree(f, a, b) ==> EndsAgree(Resolved(f, input, output), a, b)
    ensures KeepsConcrete(f, Resolved(f, input, output), a)
  {
    if f.RootIsAny(input) {
      RootsMove(f, f.Root(input), output, input, output);
      RootsMove(f, f.Root(input), output, a, b);
    } else if f.RootIsAny(output) {
      RootsMove(f, f.Root(output), input, input, output);
      RootsMove(f, f.Root(output), input, a, b);
    }
  }

  /** The input follows the output if it can; the output follows the input only otherwise. */
  lemma AnyFollows(f: Forest, input: PacketType, output: PacketType)
    requires f.Valid() && input in f.specs && output in f.specs
    ensures var r := Resolved(f, input, output);
            if f.RootIsAny(input) then r.Root(input) == r.Root(output) == f.Root(output)
            else if f.RootIsAny(output) then r.Root(input) == r.Root(output) == f.Root(input)
            else r == f
  {
    hide Forest.WithLink, Forest.Valid;
    if f.RootIsAny(input) {
      RootsMove(f, f.Root(input), output, input, output);
    } else if f.RootIsAny(output) {
      RootsMove(f, f.Root(output), input, input, output);
    }
  }

  lemma RootsMove(f: Forest, p: PacketType, t: PacketType, a: PacketType, b: PacketType)
    requires f.Valid() && p in f.specs && t in f.specs && a in f.specs && b in f.specs && f.IsRoot(p)
    ensures f.WithLink(p, t).Valid()
    ensures f.WithLink(p, t).Root(a) == if f.Root(a) == p then f.Root(t) else f.Root(a)
    ensures f.WithLink(p, t).Root(b) == if f.Root(b) == p then f.Root(t) else f.Root(b)
  {
    LinkMovesTree(f, p, t, a);
    LinkMovesTree(f, p, t, b);
  }

  /** After ResolveAnyTypes every type that had a concrete root still has it. */
  lemma {:induction false} ResolvingKeepsConcrete(f: Forest, inputs: seq<Edge>, outputs: seq<PacketType>, n: nat,
          q: PacketType)
    requires f.Valid() && EdgesOk(f, inputs, outputs) && n <= |inputs| && q in f.specs
    ensures KeepsConcrete(f, ResolvedAll(f, inputs, outputs, n), q)
  {
    hide Resolved, Forest.Valid, Forest.Root, EndsAgree;
    if n > 0 {
      ResolvingKeepsConcrete(f, inputs, outputs, n - 1, q);
      var g, e := ResolvedAll(f, inputs, outputs, n - 1), inputs[n - 1];
      if e.upstream >= 0 {
        ResolvedAgrees(g, e.packetType, outputs[e.upstream], q, q);
      }
    }
  }

  /** After ResolveAnyTypes the ends of every connected edge agree. */
  lemma {:induction false} ResolvingAgrees(f: Forest, inputs: seq<Edge>, outputs: seq<PacketType>, n: nat, j: nat)
    requires f.Valid() && EdgesOk(f, inputs, outputs) && j < n <= |inputs| && inputs[j].upstream >= 0
    ensures EndsAgree(ResolvedAll(f, inputs, outputs, n), inputs[j].packetType, outputs[inputs[j].upstream])
  {
    hide Resolved, Forest.Valid, Forest.Root, EndsAgree, KeepsConcrete;
    var g, e, a, b :=
        ResolvedAll(f, inputs, outputs, n - 1), inputs[n - 1], inputs[j].packetType, outputs[inputs[j].upstream];
    if j < n - 1 {
      ResolvingAgrees(f, inputs, outputs, n - 1, j);
    }
    if e.upstream >= 0 {
      ResolvedAgrees(g, e.packetType, outputs[e.upstream], a, b);
    }
  }
}
