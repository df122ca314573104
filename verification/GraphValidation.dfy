/** Which graphs are accepted: the passes that link each input stream and input side
    packet to its producer, in the given order or after sorting the nodes. */
module GraphValidation {
  import opened Results

  datatype Input = Input(name: nat, backEdge: bool)

  /** A node with the names on its streams and side packets. */
  datatype Node = Node(inputs: seq<Input>, outputs: seq<nat>, inputSidePackets: seq<nat>, outputSidePackets: seq<nat>)

  datatype Kind = Stream | SidePacket

  datatype NodeRef = GraphInput(index: nat) | NodeAt(index: nat)

  /** One side of an edge; an input edge has the index of its producer's output edge,
      or -1. */
  datatype EdgeInfo = EdgeInfo(upstream: int, parent: NodeRef, name: nat, backEdge: bool)

  /** What one pass collects about streams, or about side packets. */
  datatype Table = Table(
    inputs: seq<EdgeInfo>,
    outputs: seq<EdgeInfo>,
    producer: map<nat, nat>,
    required: set<nat>,
    needSorting: bool,
    ok: bool)

  const EMPTY := Table([], [], map[], {}, false, true)

  /** The inputs of a node of one kind; side packets have no back edges. */
  function Ins(node: Node, kind: Kind): seq<Input> {
    if kind.Stream? then node.inputs
    else
      var names := node.inputSidePackets;
      seq(|names|, i requires 0 <= i < |names| => Input(names[i], false))
  }

  function Outs(node: Node, kind: Kind): seq<nat> {
    if kind.Stream? then node.outputs else node.outputSidePackets
  }

  // ----- One pass -----

  /** Adds one input. A stream that has no producer yet calls for sorting, or is an
      error on the pass after sorting; a side packet may still be given from outside. */
  function AddInput(t: Table, c: nat, input: Input, kind: Kind, sorting: bool): Table {
    var found := input.name in t.producer;
    var edge := EdgeInfo(if found && !input.backEdge then t.producer[input.name] else -1, NodeAt(c), input.name,
                         input.backEdge);
    var r := t.(inputs := t.inputs + [edge]);
    if kind.SidePacket? then (if found then r else r.(required := r.required + {input.name}))
    else if found || input.backEdge then r
    else if sorting then r.(needSorting := true)
    else r.(ok := false)
  }

  /** Adds one output. A second producer is an error; a side packet that was used
      before calls for sorting, or is an error on the pass after sorting. */
  function AddOutput(t: Table, parent: NodeRef, name: nat, sorting: bool): Table {
    var r := t.(outputs := t.outputs + [EdgeInfo(-1, parent, name, false)]);
    if name in t.producer then r.(ok := false)
    else
      var s := r.(producer := r.producer[name := |t.outputs|]);
      if name !in t.required then s else if sorting then s.(needSorting := true) else s.(ok := false)
  }

  function AddInputs(t: Table, c: nat, inputs: seq<Input>, n: nat, kind: Kind, sorting: bool): Table
    requires n <= |inputs|
  {
    if n == 0 then t else AddInput(AddInputs(t, c, inputs, n - 1, kind, sorting), c, inputs[n - 1], kind, sorting)
  }

  function AddOutputs(t: Table, parent: NodeRef, names: seq<nat>, n: nat, sorting: bool): Table
    requires n <= |names|
  {
    if n == 0 then t else AddOutput(AddOutputs(t, parent, names, n - 1, sorting), parent, names[n - 1], sorting)
  }

  function AddGraphInputs(graphInputs: seq<nat>, n: nat): Table
    requires n <= |graphInputs|
  {
    if n == 0 then EMPTY
    else AddOutput(AddGraphInputs(graphInputs, n - 1), GraphInput(n - 1), graphInputs[n - 1], false)
  }

  function AddNodes(t: Table, nodes: seq<Node>, k: nat, kind: Kind, sorting: bool): Table
    requires k <= |nodes|
  {
    if k == 0 then t
    else
      var r := AddNodes(t, nodes, k - 1, kind, sorting);
      var ins, outs := Ins(nodes[k - 1], kind), Outs(nodes[k - 1], kind);
      AddOutputs(AddInputs(r, k - 1, ins, |ins|, kind, sorting), NodeAt(k - 1), outs, |outs|, sorting)
  }

  /** The whole pass. Only streams come from graph inputs. */
  function Pass(graphInputs: seq<nat>, nodes: seq<Node>, kind: Kind, sorting: bool): Table {
    AddNodes(if kind.Stream? then AddGraphInputs(graphInputs, |graphInputs|) else EMPTY, nodes, |nodes|, kind, sorting)
  }

  // ----- What a pass finds -----

  predicate DeclaredBy(graphInputs: seq<nat>, nodes: seq<Node>, k: nat, kind: Kind, name: nat)
    requires k <= |nodes|
  {
    (kind.Stream? && name in graphInputs) || exists c :: 0 <= c < k && name in Outs(nodes[c], kind)
  }

  ghost predicate Distinct(names: seq<nat>) {
    forall i, j :: 0 <= i < j < |names| ==> names[i] != names[j]
  }

  /** No name has two producers. */
  ghost predicate Unique(graphInputs: seq<nat>, nodes: seq<Node>, k: nat, kind: Kind)
    requires k <= |nodes|
  {
    && (kind.Stream? ==> Distinct(graphInputs))
    && (forall c :: 0 <= c < k ==> Distinct(Outs(nodes[c], kind)))
    && (kind.Stream? ==> forall c, name :: 0 <= c < k && name in Outs(nodes[c], kind) ==> name !in graphInputs)
    && (forall b, c, name :: 0 <= b < k && 0 <= c < k && b != c && name in Outs(nodes[b], kind) ==>
          name !in Outs(nodes[c], kind))
  }

  /** Node `c` comes before something it needs: one of its input streams has no
      producer among the nodes before it, or one of its output side packets was used
      by a node up to `c`. */
  ghost predicate OutOfOrder(graphInputs: seq<nat>, nodes: seq<Node>, kind: Kind, c: nat)
    requires c < |nodes|
  {
    if kind.Stream? then
      exists input :: input in nodes[c].inputs && !input.backEdge
        && !DeclaredBy(graphInputs, nodes, c, kind, input.name)
    else
      exists name, b :: name in nodes[c].outputSidePackets && 0 <= b <= c && RequiredAt(graphInputs, nodes, b, name)
  }

  predicate RequiredAt(graphInputs: seq<nat>, nodes: seq<Node>, b: nat, name: nat)
    requires b < |nodes|
  {
    name in nodes[b].inputSidePackets && !DeclaredBy(graphInputs, nodes, b, SidePacket, name)
  }

  predicate Before(parent: NodeRef, c: nat) {
    parent.NodeAt? ==> parent.index < c
  }

  /** An output edge stands at the place that declares its name. */
  predicate Declares(graphInputs: seq<nat>, nodes: seq<Node>, kind: Kind, e: EdgeInfo) {
    match e.parent
    case GraphInput(i) => kind.Stream? && i < |graphInputs| && graphInputs[i] == e.name
    case NodeAt(c) => c < |nodes| && e.name in Outs(nodes[c], kind)
  }

  ghost predicate SomeOutOfOrder(graphInputs: seq<nat>, nodes: seq<Node>, k: nat, kind: Kind)
    requires k <= |nodes|
  {
    exists c :: 0 <= c < k && OutOfOrder(graphInputs, nodes, kind, c)
  }

  /** What the pass knows of its outputs once `k` nodes are added. */
  ghost predicate OutputsOk(t: Table, graphInputs: seq<nat>, nodes: seq<Node>, k: nat, kind: Kind)
    requires k <= |nodes|
  {
    && (forall name :: name in t.producer <==> DeclaredBy(graphInputs, nodes, k, kind, name))
    && (forall name :: name in t.producer ==>
          t.producer[name] < |t.outputs| && t.outputs[t.producer[name]].name == name)
    && (forall j :: 0 <= j < |t.outputs| ==>
        Declares(graphInputs, nodes, kind, t.outputs[j]) && Before(t.outputs[j].parent, k))
  }

  /** An input edge is linked, to an output before it, exactly if it is no back edge and
      its name is declared before its node. */
  ghost predicate LinkOk(t: Table, graphInputs: seq<nat>, nodes: seq<Node>, k: nat, kind: Kind, e: EdgeInfo)
    requires k <= |nodes|
  {
    && e.parent.NodeAt? && e.parent.index < k
    && Input(e.name, e.backEdge) in Ins(nodes[e.parent.index], kind)
    && (if !e.backEdge && DeclaredBy(graphInputs, nodes, e.parent.index, kind, e.name)
        then 0 <= e.upstream < |t.outputs| && t.outputs[e.upstream].name == e.name
          && Before(t.outputs[e.upstream].parent, e.parent.index)
        else e.upstream == -1)
  }

  ghost predicate LinksOk(t: Table, graphInputs: seq<nat>, nodes: seq<Node>, k: nat, kind: Kind)
    requires k <= |nodes|
  {
    forall j :: 0 <= j < |t.inputs| ==> LinkOk(t, graphInputs, nodes, k, kind, t.inputs[j])
  }

  predicate IsEdgeOf(e: EdgeInfo, c: nat, input: Input) {
    e.parent == NodeAt(c) && e.name == input.name && e.backEdge == input.backEdge
  }

  ghost predicate HasEdge(t: Table, c: nat, input: Input) {
    exists j :: 0 <= j < |t.inputs| && IsEdgeOf(t.inputs[j], c, input)
  }

  /** Every input of the first `k` nodes has its edge. */
  ghost predicate Covered(t: Table, nodes: seq<Node>, k: nat, kind: Kind)
    requires k <= |nodes|
  {
    forall c, input :: 0 <= c < k && input in Ins(nodes[c], kind) ==> HasEdge(t, c, input)
  }

  ghost predicate RequiredOk(t: Table, graphInputs: seq<nat>, nodes: seq<Node>, k: nat, kind: Kind)
    requires k <= |nodes|
  {
    forall name :: name in t.required <==>
      kind.SidePacket? && exists b :: 0 <= b < k && RequiredAt(graphInputs, nodes, b, name)
  }

  /** A pass over `k` nodes: its verdict, and what a pass that succeeds has found. */
  ghost predicate PassInv(t: Table, graphInputs: seq<nat>, nodes: seq<Node>, k: nat, kind: Kind, sorting: bool)
    requires k <= |nodes|
  {
    && (t.ok <==> Unique(graphInputs, nodes, k, kind) && (sorting || !SomeOutOfOrder(graphInputs, nodes, k, kind)))
    && (t.ok ==>
          && (t.needSorting <==> sorting && SomeOutOfOrder(graphInputs, nodes, k, kind))
          && OutputsOk(t, graphInputs, nodes, k, kind)
          && LinksOk(t, graphInputs, nodes, k, kind)
          && Covered(t, nodes, k, kind)
          && RequiredOk(t, graphInputs, nodes, k, kind))
  }

  predicate Missing(t: Table, input: Input) {
    !input.backEdge && input.name !in t.producer
  }

  function InputEdge(t: Table, c: nat, input: Input): EdgeInfo {
    EdgeInfo(if input.name in t.producer && !input.backEdge then t.producer[input.name] else -1, NodeAt(c),
             input.name, input.backEdge)
  }

  ghost predicate SomeMissing(t: Table, inputs: seq<Input>, n: nat)
    requires n <= |inputs|
  {
    exists i :: 0 <= i < n && Missing(t, inputs[i])
  }

  ghost predicate SomeNamed(inputs: seq<Input>, n: nat, name: nat)
    requires n <= |inputs|
  {
    exists i :: 0 <= i < n && inputs[i].name == name
  }

  /** Adding `n` inputs of node `c`: the edges, and then the flags. */
  ghost predicate InputsAdded(t: Table, r: Table, c: nat, inputs: seq<Input>, n: nat)
    requires n <= |inputs|
  {
    && r.outputs == t.outputs && r.producer == t.producer
    && r.inputs == t.inputs + seq(n, i requires 0 <= i < n => InputEdge(t, c, inputs[i]))
  }

  ghost predicate InputFlags(t: Table, r: Table, inputs: seq<Input>, n: nat, kind: Kind, sorting: bool)
    requires n <= |inputs|
  {
    && (forall name :: name in r.required <==>
          name in t.required || (kind.SidePacket? && name !in t.producer && SomeNamed(inputs, n, name)))
    && r.ok == (t.ok && !(kind.Stream? && !sorting && SomeMissing(t, inputs, n)))
    && r.needSorting == (t.needSorting || (kind.Stream? && sorting && SomeMissing(t, inputs, n)))
  }

  lemma {:induction false} AddInputsIs(t: Table, c: nat, inputs: seq<Input>, n: nat, kind: Kind, sorting: bool)
    requires n <= |inputs|
    ensures InputsAdded(t, AddInputs(t, c, inputs, n, kind, sorting), c, inputs, n)
    ensures InputFlags(t, AddInputs(t, c, inputs, n, kind, sorting), inputs, n, kind, sorting)
  {
    if n > 0 {
      var q := AddInputs(t, c, inputs, n - 1, kind, sorting);
      AddInputsIs(t, c, inputs, n - 1, kind, sorting);
      AddInputIs(t, q, c, inputs, n, kind, sorting);
    }
  }

  lemma AddInputIs(t: Table, q: Table, c: nat, inputs: seq<Input>, n: nat, kind: Kind, sorting: bool)
    requires 0 < n <= |inputs| && InputsAdded(t, q, c, inputs, n - 1) && InputFlags(t, q, inputs, n - 1, kind, sorting)
    ensures InputsAdded(t, AddInput(q, c, inputs[n - 1], kind, sorting), c, inputs, n)
    ensures InputFlags(t, AddInput(q, c, inputs[n - 1], kind, sorting), inputs, n, kind, sorting)
  {
  }

  ghost predicate SomeRequired(t: Table, names: seq<nat>) {
    exists i :: 0 <= i < |names| && names[i] in t.required
  }

  /** Adding outputs of one parent to a table. */
  ghost predicate OutputsAdded(t: Table, r: Table, parent: NodeRef, names: seq<nat>) {
    && r.inputs == t.inputs && r.required == t.required
    && r.outputs == t.outputs + seq(|names|, i requires 0 <= i < |names| => EdgeInfo(-1, parent, names[i], false))
    && (forall name :: name in r.producer <==> name in t.producer || name in names)
    && (forall name :: name in t.producer ==> r.producer[name] == t.producer[name])
    && (forall name :: name in names && name !in t.producer ==>
          |t.outputs| <= r.producer[name] < |r.outputs| && r.outputs[r.producer[name]].name == name)
  }

  ghost predicate OutputFlags(t: Table, r: Table, names: seq<nat>, sorting: bool) {
    && r.ok == (t.ok && OutputsFit(t, names, sorting))
    && (r.ok ==> r.needSorting == (t.needSorting || (sorting && SomeRequired(t, names))))
  }

  /** When adding outputs succeeds. */
  ghost predicate OutputsFit(t: Table, names: seq<nat>, sorting: bool) {
    && Distinct(names)
    && (forall i :: 0 <= i < |names| ==> names[i] !in t.producer)
    && (sorting || !SomeRequired(t, names))
  }

  lemma NoOutputsAdded(t: Table, parent: NodeRef, sorting: bool)
    ensures OutputsAdded(t, t, parent, []) && OutputFlags(t, t, [], sorting)
  {
  }

  lemma {:induction false} AddOutputsIs(t: Table, parent: NodeRef, names: seq<nat>, n: nat, sorting: bool)
    requires n <= |names|
    ensures OutputsAdded(t, AddOutputs(t, parent, names, n, sorting), parent, names[..n])
    ensures OutputFlags(t, AddOutputs(t, parent, names, n, sorting), names[..n], sorting)
  {
    hide OutputsAdded, OutputFlags, AddOutput;
    if n == 0 {
      assert names[..0] == [];
      NoOutputsAdded(t, parent, sorting);
    } else {
      AddOutputsIs(t, parent, names, n - 1, sorting);
      var q, before, name := AddOutputs(t, parent, names, n - 1, sorting), names[..n - 1], names[n - 1];
      assert names[..n] == before + [name];
      assert AddOutputs(t, parent, names, n, sorting) == AddOutput(q, parent, name, sorting);
      hide AddOutputs;
      AddOutputIs(t, q, parent, before, name, sorting);
    }
  }

  lemma AddOutputIs(t: Table, q: Table, parent: NodeRef, names: seq<nat>, name: nat, sorting: bool)
    requires OutputsAdded(t, q, parent, names) && OutputFlags(t, q, names, sorting)
    ensures OutputsAdded(t, AddOutput(q, parent, name, sorting), parent, names + [name])
    ensures OutputFlags(t, AddOutput(q, parent, name, sorting), names + [name], sorting)
  {
    hide OutputFlags;
    AddOutputFlags(t, q, parent, names, name, sorting);
    var r, more := AddOutput(q, parent, name, sorting), names + [name];
    assert r.outputs == q.outputs + [EdgeInfo(-1, parent, name, false)]
        && r.producer == if name in q.producer then q.producer else q.producer[name := |q.outputs|];
    assert r.inputs == q.inputs && r.required == q.required;
    hide AddOutput;
    assert r.outputs == t.outputs + seq(|more|, i requires 0 <= i < |more| => EdgeInfo(-1, parent, more[i], false));
  }

  lemma AddOutputFlags(t: Table, q: Table, parent: NodeRef, names: seq<nat>, name: nat, sorting: bool)
    requires OutputsAdded(t, q, parent, names) && OutputFlags(t, q, names, sorting)
    ensures OutputFlags(t, AddOutput(q, parent, name, sorting), names + [name], sorting)
  {
    var more := names + [name];
    assert more[|names|] == name && forall i :: 0 <= i < |names| ==> more[i] == names[i];
    assert SomeRequired(t, more) <==> SomeRequired(t, names) || name in t.required;
    assert Distinct(more) <==> Distinct(names) && name !in names;
    assert (forall i :: 0 <= i < |more| ==> more[i] !in t.producer) <==>
           (forall i :: 0 <= i < |names| ==> names[i] !in t.producer) && name !in t.producer;
    hide SomeRequired, Distinct;
  }

  ghost predicate GraphInputsIn(t: Table, names: seq<nat>) {
    && t.inputs == [] && t.required == {} && !t.needSorting && t.ok == Distinct(names)
    && t.outputs == seq(|names|, i requires 0 <= i < |names| => EdgeInfo(-1, GraphInput(i), names[i], false))
    && (forall name :: name in t.producer <==> name in names)
    && (forall name :: name in t.producer ==> t.producer[name] < |names| && names[t.producer[name]] == name)
  }

  lemma GraphInputAdded(t: Table, names: seq<nat>, name: nat)
    requires GraphInputsIn(t, names)
    ensures GraphInputsIn(AddOutput(t, GraphInput(|names|), name, false), names + [name])
  {
    var r, more := AddOutput(t, GraphInput(|names|), name, false), names + [name];
    assert more[|names|] == name && forall i :: 0 <= i < |names| ==> more[i] == names[i];
    assert r.outputs == seq(|more|, i requires 0 <= i < |more| => EdgeInfo(-1, GraphInput(i), more[i], false));
    assert Distinct(more) <==> Distinct(names) && name !in names;
    hide Distinct;
  }

  lemma {:induction false} GraphInputsAdded(graphInputs: seq<nat>, n: nat)
    requires n <= |graphInputs|
    ensures GraphInputsIn(AddGraphInputs(graphInputs, n), graphInputs[..n])
  {
    if n == 0 {
      assert GraphInputsIn(EMPTY, []);
    } else {
      hide GraphInputsIn, AddOutput;
      GraphInputsAdded(graphInputs, n - 1);
      assert graphInputs[..n] == graphInputs[..n - 1] + [graphInputs[n - 1]] && |graphInputs[..n - 1]| == n - 1;
      GraphInputAdded(AddGraphInputs(graphInputs, n - 1), graphInputs[..n - 1], graphInputs[n - 1]);
    }
  }

  lemma UniqueGrows(graphInputs: seq<nat>, nodes: seq<Node>, k: nat, kind: Kind)
    requires k < |nodes|
    ensures Unique(graphInputs, nodes, k + 1, kind) <==>
            && Unique(graphInputs, nodes, k, kind) && Distinct(Outs(nodes[k], kind))
            && forall name :: name in Outs(nodes[k], kind) ==> !DeclaredBy(graphInputs, nodes, k, kind, name)
  {
  }

  /** What the flags of one node say. */
  lemma NodeFlags(t: Table, q: Table, graphInputs: seq<nat>, nodes: seq<Node>, k: nat, kind: Kind, sorting: bool)
    requires k < |nodes| && OutputsOk(t, graphInputs, nodes, k, kind) && RequiredOk(t, graphInputs, nodes, k, kind)
    requires InputFlags(t, q, Ins(nodes[k], kind), |Ins(nodes[k], kind)|, kind, sorting)
    ensures RequiredOk(q, graphInputs, nodes, k + 1, kind)
    ensures kind.Stream? ==>
      (SomeMissing(t, nodes[k].inputs, |nodes[k].inputs|) <==>
        OutOfOrder(graphInputs, nodes, kind, k)) && !SomeRequired(q, nodes[k].outputs)
    ensures kind.SidePacket? ==> (SomeRequired(q, nodes[k].outputSidePackets) <==>
            OutOfOrder(graphInputs, nodes, kind, k))
  {
    var ins := Ins(nodes[k], kind);
    if kind.Stream? {
      forall i | 0 <= i < |ins|
        ensures Missing(t, ins[i]) <==> !ins[i].backEdge && !DeclaredBy(graphInputs, nodes, k, kind, ins[i].name)
      {
      }
    } else {
      forall name: nat
        ensures name !in t.producer && SomeNamed(ins, |ins|, name) <==> RequiredAt(graphInputs, nodes, k, name)
      {
        SideNamed(nodes[k], name);
      }
    }
  }

  lemma SideNamed(node: Node, name: nat)
    ensures SomeNamed(Ins(node, SidePacket), |Ins(node, SidePacket)|, name) <==> name in node.inputSidePackets
  {
    if name in node.inputSidePackets {
      var i :| 0 <= i < |node.inputSidePackets| && node.inputSidePackets[i] == name;
      assert Ins(node, SidePacket)[i].name == name;
    }
  }

  lemma KindNames(node: Node, kind: Kind)
    ensures Ins(node, Stream) == node.inputs
    ensures Outs(node, kind) == if kind.Stream? then node.outputs else node.outputSidePackets
  {
  }

  lemma NewNames(t: Table, graphInputs: seq<nat>, nodes: seq<Node>, k: nat, kind: Kind)
    requires k < |nodes| && OutputsOk(t, graphInputs, nodes, k, kind)
    ensures var outs := Outs(nodes[k], kind);
            (forall i :: 0 <= i < |outs| ==> outs[i] !in t.producer) <==>
            (forall name :: name in outs ==> !DeclaredBy(graphInputs, nodes, k, kind, name))
  {
  }

  /** The verdict of a pass after one more node. */
  lemma VerdictGrows(t: Table, q: Table, r: Table, graphInputs: seq<nat>, nodes: seq<Node>, k: nat, kind: Kind,
          sorting: bool)
    requires k < |nodes| && PassInv(t, graphInputs, nodes, k, kind, sorting)
    requires InputFlags(t, q, Ins(nodes[k], kind), |Ins(nodes[k], kind)|, kind, sorting) && q.producer == t.producer
    requires OutputFlags(q, r, Outs(nodes[k], kind), sorting)
    ensures r.ok <==>
            Unique(graphInputs, nodes, k + 1, kind) && (sorting || !SomeOutOfOrder(graphInputs, nodes, k + 1, kind))
    ensures r.ok ==> (r.needSorting <==> sorting && SomeOutOfOrder(graphInputs, nodes, k + 1, kind))
  {
    hide Unique, DeclaredBy, OutOfOrder, OutputsOk, LinksOk, Covered, RequiredOk, Ins, Outs, Distinct;
    UniqueGrows(graphInputs, nodes, k, kind);
    assert SomeOutOfOrder(graphInputs, nodes, k + 1, kind) <==>
           SomeOutOfOrder(graphInputs, nodes, k, kind) || OutOfOrder(graphInputs, nodes, kind, k);
    if t.ok {
      NodeFlags(t, q, graphInputs, nodes, k, kind, sorting);
      NewNames(t, graphInputs, nodes, k, kind);
      KindNames(nodes[k], kind);
    }
  }

  lemma DeclaredGrows(graphInputs: seq<nat>, nodes: seq<Node>, k: nat, kind: Kind, name: nat)
    requires k < |nodes|
    ensures DeclaredBy(graphInputs, nodes, k + 1, kind, name) <==>
      DeclaredBy(graphInputs, nodes, k, kind, name) || name in Outs(nodes[k], kind)
  {
    hide Outs;
  }

  lemma OutputsOkGrows(t: Table, r: Table, graphInputs: seq<nat>, nodes: seq<Node>, k: nat, kind: Kind)
    requires k < |nodes| && OutputsOk(t, graphInputs, nodes, k, kind)
    requires OutputsAdded(t, r, NodeAt(k), Outs(nodes[k], kind))
    ensures OutputsOk(r, graphInputs, nodes, k + 1, kind)
  {
    hide DeclaredBy, Outs;
    forall name: nat ensures name in r.producer <==> DeclaredBy(graphInputs, nodes, k + 1, kind, name) {
      DeclaredGrows(graphInputs, nodes, k, kind, name);
    }
    forall j | 0 <= j < |r.outputs|
      ensures Declares(graphInputs, nodes, kind, r.outputs[j]) && Before(r.outputs[j].parent, k + 1)
    {
      if j < |t.outputs| {
        assert r.outputs[j] == t.outputs[j];
      } else {
        assert r.outputs[j] == EdgeInfo(-1, NodeAt(k), Outs(nodes[k], kind)[j - |t.outputs|], false);
      }
    }
    hide Declares, Before;
  }

  lemma LinksGrow(t: Table, q: Table, r: Table, graphInputs: seq<nat>, nodes: seq<Node>, k: nat, kind: Kind)
    requires k < |nodes| && OutputsOk(t, graphInputs, nodes, k, kind) && LinksOk(t, graphInputs, nodes, k, kind)
    requires InputsAdded(t, q, k, Ins(nodes[k], kind), |Ins(nodes[k], kind)|)
    requires OutputsAdded(q, r, NodeAt(k), Outs(nodes[k], kind))
    ensures LinksOk(r, graphInputs, nodes, k + 1, kind)
  {
  }

  lemma CoveredGrows(t: Table, r: Table, nodes: seq<Node>, k: nat, kind: Kind)
    requires k < |nodes| && Covered(t, nodes, k, kind)
    requires InputsAdded(t, t.(inputs := r.inputs), k, Ins(nodes[k], kind), |Ins(nodes[k], kind)|)
    ensures Covered(r, nodes, k + 1, kind)
  {
    forall c, input | 0 <= c < k + 1 && input in Ins(nodes[c], kind) ensures HasEdge(r, c, input) {
      if c < k {
        assert HasEdge(t, c, input);
        var j :| 0 <= j < |t.inputs| && IsEdgeOf(t.inputs[j], c, input);
        assert r.inputs[j] == t.inputs[j];
      } else {
        var i :| 0 <= i < |Ins(nodes[k], kind)| && Ins(nodes[k], kind)[i] == input;
        assert r.inputs[|t.inputs| + i] == InputEdge(t, k, input);
      }
    }
  }

  lemma {:induction false} NodesAdded(t: Table, graphInputs: seq<nat>, nodes: seq<Node>, k: nat, kind: Kind,
          sorting: bool)
    requires k <= |nodes| && PassInv(t, graphInputs, nodes, 0, kind, sorting)
    ensures PassInv(AddNodes(t, nodes, k, kind, sorting), graphInputs, nodes, k, kind, sorting)
  {
    hide PassInv, AddInputs, AddOutputs, Ins, Outs;
    if k > 0 {
      NodesAdded(t, graphInputs, nodes, k - 1, kind, sorting);
      NodeAdded(AddNodes(t, nodes, k - 1, kind, sorting), graphInputs, nodes, k - 1, kind, sorting);
    }
  }

  lemma NodeAdded(t: Table, graphInputs: seq<nat>, nodes: seq<Node>, k: nat, kind: Kind, sorting: bool)
    requires k < |nodes| && PassInv(t, graphInputs, nodes, k, kind, sorting)
    ensures var ins, outs := Ins(nodes[k], kind), Outs(nodes[k], kind);
            PassInv(AddOutputs(AddInputs(t, k, ins, |ins|, kind, sorting), NodeAt(k), outs, |outs|, sorting),
                    graphInputs, nodes, k + 1, kind, sorting)
  {
    hide AddInputs, AddOutputs, Ins, Outs, Unique, SomeOutOfOrder, LinksOk, Covered, DeclaredBy;
    var ins, outs := Ins(nodes[k], kind), Outs(nodes[k], kind);
    var q := AddInputs(t, k, ins, |ins|, kind, sorting);
    var r := AddOutputs(q, NodeAt(k), outs, |outs|, sorting);
    AddInputsIs(t, k, ins, |ins|, kind, sorting);
    AddOutputsIs(q, NodeAt(k), outs, |outs|, sorting);
    assert outs[..|outs|] == outs;
    VerdictGrows(t, q, r, graphInputs, nodes, k, kind, sorting);
    if r.ok {
      NodeFlags(t, q, graphInputs, nodes, k, kind, sorting);
      OutputsOkGrows(q, r, graphInputs, nodes, k, kind);
      LinksGrow(t, q, r, graphInputs, nodes, k, kind);
      CoveredGrows(t, r, nodes, k, kind);
    }
  }

  lemma PassIs(graphInputs: seq<nat>, nodes: seq<Node>, kind: Kind, sorting: bool)
    ensures PassInv(Pass(graphInputs, nodes, kind, sorting), graphInputs, nodes, |nodes|, kind, sorting)
  {
    hide AddNodes, Outs, Ins, AddGraphInputs;
    GraphInputsAdded(graphInputs, |graphInputs|);
    assert graphInputs[..|graphInputs|] == graphInputs;
    var start := if kind.Stream? then AddGraphInputs(graphInputs, |graphInputs|) else EMPTY;
    NodesAdded(start, graphInputs, nodes, |nodes|, kind, sorting);
  }

  // ----- Sorting -----

  /** Node `c` uses a stream, not as a back edge, or a side packet that `p` produces. */
  ghost predicate DependsOn(nodes: seq<Node>, p: nat, c: nat, kind: Kind)
    requires p < |nodes| && c < |nodes|
  {
    exists input :: input in Ins(nodes[c], kind) && !input.backEdge && input.name in Outs(nodes[p], kind)
  }

  datatype Dependency = Dependency(producer: nat, consumer: nat)

  predicate IsPermutation(order: seq<nat>, n: nat) {
    && |order| == n
    && (forall i :: 0 <= i < n ==> order[i] < n)
    && (forall i, j :: 0 <= i < j < n ==> order[i] != order[j])
    && (forall c :: 0 <= c < n ==> c in order)
  }

  /** A topological order: every edge points forward. */
  predicate IsOrder(n: nat, edges: set<Dependency>, order: seq<nat>) {
    IsPermutation(order, n) && forall i, j :: 0 <= i < n && 0 <= j < n && Dependency(order[i], order[j]) in edges ==>
      i < j
  }

  type Sorter = (nat, set<Dependency>) -> Option<seq<nat>>

  /** TopologicalSorter: an order, or none when there is none. */
  ghost predicate IsSorter(sorter: Sorter) {
    forall n, edges ::
      match sorter(n, edges)
      case Some(order) => IsOrder(n, edges, order)
      case None => forall order :: !IsOrder(n, edges, order)
  }

  /** Whether an input edge is given to the sorter: graph inputs and back edges are not. */
  predicate IsSorted(t: Table, e: EdgeInfo) {
    && e.parent.NodeAt? && !e.backEdge && e.name in t.producer && t.producer[e.name] < |t.outputs|
    && t.outputs[t.producer[e.name]].parent.NodeAt?
  }

  function SorterEdge(t: Table, e: EdgeInfo): Dependency
    requires IsSorted(t, e)
  {
    Dependency(t.outputs[t.producer[e.name]].parent.index, e.parent.index)
  }

  function SorterEdges(t: Table, n: nat): set<Dependency>
    requires n <= |t.inputs|
  {
    if n == 0 then {}
    else SorterEdges(t, n - 1) + if IsSorted(t, t.inputs[n - 1]) then {SorterEdge(t, t.inputs[n - 1])} else {}
  }

  predicate IsSortedAs(t: Table, e: EdgeInfo, p: nat, c: nat) {
    IsSorted(t, e) && SorterEdge(t, e) == Dependency(p, c)
  }

  lemma {:induction false} SorterEdgesAre(t: Table, n: nat, p: nat, c: nat)
    requires n <= |t.inputs|
    ensures Dependency(p, c) in SorterEdges(t, n) <==> SomeSortedAs(t, n, p, c)
  {
    if n > 0 {
      SorterEdgesAre(t, n - 1, p, c);
      assert Dependency(p, c) in SorterEdges(t, n) <==>
        Dependency(p, c) in SorterEdges(t, n - 1) || IsSortedAs(t, t.inputs[n - 1], p, c);
      assert SomeSortedAs(t, n, p, c) <==> SomeSortedAs(t, n - 1, p, c) || IsSortedAs(t, t.inputs[n - 1], p, c);
    }
  }

  ghost predicate SomeSortedAs(t: Table, n: nat, p: nat, c: nat)
    requires n <= |t.inputs|
  {
    exists j :: 0 <= j < n && IsSortedAs(t, t.inputs[j], p, c)
  }

  /** The one node that declares a name is the parent of its producer. */
  lemma ProducerIsParent(t: Table, graphInputs: seq<nat>, nodes: seq<Node>, kind: Kind, name: nat, p: nat)
    requires OutputsOk(t, graphInputs, nodes, |nodes|, kind) && Unique(graphInputs, nodes, |nodes|, kind)
    requires p < |nodes| && name in t.producer
    ensures name in Outs(nodes[p], kind) <==> t.outputs[t.producer[name]].parent == NodeAt(p)
  {
    var e := t.outputs[t.producer[name]];
    assert Declares(graphInputs, nodes, kind, e) && e.name == name;
    assert e.parent.GraphInput? ==> name in graphInputs && name !in Outs(nodes[p], kind);
    assert e.parent.NodeAt? && e.parent.index != p ==> name !in Outs(nodes[p], kind);
  }

  /** The sorter is given exactly the dependencies between nodes. */
  lemma SorterEdgesAreDependencies(t: Table, graphInputs: seq<nat>, nodes: seq<Node>, kind: Kind, sorting: bool,
          p: nat, c: nat)
    requires PassInv(t, graphInputs, nodes, |nodes|, kind, sorting) && t.ok && p < |nodes| && c < |nodes|
    ensures Dependency(p, c) in SorterEdges(t, |t.inputs|) <==> DependsOn(nodes, p, c, kind)
  {
    SorterEdgesAre(t, |t.inputs|, p, c);
    if SomeSortedAs(t, |t.inputs|, p, c) {
      SortedIsDependency(t, graphInputs, nodes, kind, p, c);
    }
    if DependsOn(nodes, p, c, kind) {
      DependencyIsSorted(t, graphInputs, nodes, kind, p, c);
    }
  }

  lemma SortedIsDependency(t: Table, graphInputs: seq<nat>, nodes: seq<Node>, kind: Kind, p: nat, c: nat)
    requires OutputsOk(t, graphInputs, nodes, |nodes|, kind) && Unique(graphInputs, nodes, |nodes|, kind)
    requires LinksOk(t, graphInputs, nodes, |nodes|, kind)
    requires p < |nodes| && c < |nodes| && SomeSortedAs(t, |t.inputs|, p, c)
    ensures DependsOn(nodes, p, c, kind)
  {
  }

  lemma DependencyIsSorted(t: Table, graphInputs: seq<nat>, nodes: seq<Node>, kind: Kind, p: nat, c: nat)
    requires OutputsOk(t, graphInputs, nodes, |nodes|, kind) && Unique(graphInputs, nodes, |nodes|, kind)
    requires Covered(t, nodes, |nodes|, kind)
    requires p < |nodes| && c < |nodes| && DependsOn(nodes, p, c, kind)
    ensures SomeSortedAs(t, |t.inputs|, p, c)
  {
    var input :| input in Ins(nodes[c], kind) && !input.backEdge && input.name in Outs(nodes[p], kind);
    assert HasEdge(t, c, input);
    hide Covered, Ins, OutputsOk, Unique;
    NodeIsParent(t, graphInputs, nodes, kind, input.name, p);
    var j :| 0 <= j < |t.inputs| && IsEdgeOf(t.inputs[j], c, input);
    assert IsSortedAs(t, t.inputs[j], p, c);
  }

  lemma NodeIsParent(t: Table, graphInputs: seq<nat>, nodes: seq<Node>, kind: Kind, name: nat, p: nat)
    requires OutputsOk(t, graphInputs, nodes, |nodes|, kind) && Unique(graphInputs, nodes, |nodes|, kind)
    requires p < |nodes| && name in Outs(nodes[p], kind)
    ensures name in t.producer && t.producer[name] < |t.outputs| && t.outputs[t.producer[name]].parent == NodeAt(p)
  {
    assert DeclaredBy(graphInputs, nodes, |nodes|, kind, name);
    hide Unique, Outs;
    ProducerIsParent(t, graphInputs, nodes, kind, name, p);
  }

  // ----- Acceptance -----

  ghost predicate DependsAtAll(nodes: seq<Node>, p: nat, c: nat)
    requires p < |nodes| && c < |nodes|
  {
    DependsOn(nodes, p, c, Stream) || DependsOn(nodes, p, c, SidePacket)
  }

  ghost predicate Respects(nodes: seq<Node>, order: seq<nat>) {
    && IsPermutation(order, |nodes|)
    && (forall i, j :: 0 <= i < |nodes| && 0 <= j < |nodes| && DependsAtAll(nodes, order[i], order[j]) ==> i < j)
  }

  /** Every input stream has a producer, with or without the back edges. */
  ghost predicate Produced(graphInputs: seq<nat>, nodes: seq<Node>, backEdges: bool) {
    forall c, input :: 0 <= c < |nodes| && input in nodes[c].inputs && (backEdges || !input.backEdge) ==>
      DeclaredBy(graphInputs, nodes, |nodes|, Stream, input.name)
  }

  ghost predicate AllUnique(graphInputs: seq<nat>, nodes: seq<Node>) {
    Unique(graphInputs, nodes, |nodes|, Stream) && Unique(graphInputs, nodes, |nodes|, SidePacket)
  }

  /** The graphs that should be accepted: names have one producer, every input stream
      has one, and the dependencies have no cycle. */
  ghost predicate Acceptable(graphInputs: seq<nat>, nodes: seq<Node>) {
    && AllUnique(graphInputs, nodes)
    && Produced(graphInputs, nodes, true)
    && exists order :: Respects(nodes, order)
  }

  ghost predicate Forward(nodes: seq<Node>) {
    forall p, c :: 0 <= p < |nodes| && 0 <= c < |nodes| && DependsAtAll(nodes, p, c) ==> p < c
  }

  ghost predicate InOrder(graphInputs: seq<nat>, nodes: seq<Node>) {
    !SomeOutOfOrder(graphInputs, nodes, |nodes|, Stream) && !SomeOutOfOrder(graphInputs, nodes, |nodes|, SidePacket)
  }

  lemma InOrderIsForward(graphInputs: seq<nat>, nodes: seq<Node>, p: nat, c: nat)
    requires AllUnique(graphInputs, nodes) && InOrder(graphInputs, nodes)
    requires p < |nodes| && c < |nodes| && DependsAtAll(nodes, p, c)
    ensures p < c
  {
    assert !OutOfOrder(graphInputs, nodes, Stream, c) && !OutOfOrder(graphInputs, nodes, SidePacket, p);
    if DependsOn(nodes, p, c, Stream) {
      var input :| input in Ins(nodes[c], Stream) && !input.backEdge && input.name in Outs(nodes[p], Stream);
      assert DeclaredBy(graphInputs, nodes, c, Stream, input.name);
    } else {
      var input :| input in Ins(nodes[c], SidePacket) && !input.backEdge && input.name in Outs(nodes[p], SidePacket);
      assert input.name in nodes[c].inputSidePackets && input.name in nodes[p].outputSidePackets;
      if !DeclaredBy(graphInputs, nodes, c, SidePacket, input.name) {
        assert RequiredAt(graphInputs, nodes, c, input.name);
      }
    }
  }

  /** The nodes are in order exactly if dependencies point forward and every input
      stream that is no back edge has a producer. */
  lemma InOrderIsExact(graphInputs: seq<nat>, nodes: seq<Node>)
    requires AllUnique(graphInputs, nodes)
    ensures InOrder(graphInputs, nodes) <==> Forward(nodes) && Produced(graphInputs, nodes, false)
  {
    if InOrder(graphInputs, nodes) {
      forall p, c | 0 <= p < |nodes| && 0 <= c < |nodes| && DependsAtAll(nodes, p, c) ensures p < c {
        InOrderIsForward(graphInputs, nodes, p, c);
      }
      forall c, input | 0 <= c < |nodes| && input in nodes[c].inputs && !input.backEdge
        ensures DeclaredBy(graphInputs, nodes, |nodes|, Stream, input.name)
      {
        assert !OutOfOrder(graphInputs, nodes, Stream, c);
      }
    }
    if Forward(nodes) && Produced(graphInputs, nodes, false) {
      forall c | 0 <= c < |nodes|
        ensures !OutOfOrder(graphInputs, nodes, Stream, c) && !OutOfOrder(graphInputs, nodes, SidePacket, c)
      {
        ForwardIsInOrder(graphInputs, nodes, c);
      }
    }
  }

  lemma ForwardIsInOrder(graphInputs: seq<nat>, nodes: seq<Node>, c: nat)
    requires Forward(nodes) && Produced(graphInputs, nodes, false) && c < |nodes|
    ensures !OutOfOrder(graphInputs, nodes, Stream, c) && !OutOfOrder(graphInputs, nodes, SidePacket, c)
  {
    forall input | input in nodes[c].inputs && !input.backEdge
      ensures DeclaredBy(graphInputs, nodes, c, Stream, input.name)
    {
      if input.name !in graphInputs {
        var p :| 0 <= p < |nodes| && input.name in Outs(nodes[p], Stream);
        assert DependsOn(nodes, p, c, Stream);
        assert DependsAtAll(nodes, p, c);
      }
    }
    forall name, b | name in nodes[c].outputSidePackets && 0 <= b < |nodes| && name in nodes[b].inputSidePackets
      ensures c < b
    {
      var i :| 0 <= i < |nodes[b].inputSidePackets| && nodes[b].inputSidePackets[i] == name;
      assert Ins(nodes[b], SidePacket)[i] == Input(name, false);
      assert DependsOn(nodes, c, b, SidePacket);
      assert DependsAtAll(nodes, c, b);
    }
  }

  function Permuted(nodes: seq<Node>, order: seq<nat>): (r: seq<Node>)
    requires IsPermutation(order, |nodes|)
    ensures |r| == |nodes| && forall i :: 0 <= i < |r| ==> r[i] == nodes[order[i]]
  {
    seq(|nodes|, i requires 0 <= i < |nodes| => nodes[order[i]])
  }

  lemma PermutedIsUnique(graphInputs: seq<nat>, nodes: seq<Node>, order: seq<nat>, kind: Kind)
    requires IsPermutation(order, |nodes|) && Unique(graphInputs, nodes, |nodes|, kind)
    ensures Unique(graphInputs, Permuted(nodes, order), |nodes|, kind)
  {
  }

  lemma PermutedIsDeclared(graphInputs: seq<nat>, nodes: seq<Node>, order: seq<nat>, kind: Kind, name: nat)
    requires IsPermutation(order, |nodes|)
    ensures DeclaredBy(graphInputs, Permuted(nodes, order), |nodes|, kind, name) <==>
            DeclaredBy(graphInputs, nodes, |nodes|, kind, name)
  {
    var r := Permuted(nodes, order);
    if c :| 0 <= c < |nodes| && name in Outs(nodes[c], kind) {
      assert c in order;
      var i :| 0 <= i < |order| && order[i] == c;
      assert name in Outs(r[i], kind);
    }
  }

  lemma PermutedIsProduced(graphInputs: seq<nat>, nodes: seq<Node>, order: seq<nat>, backEdges: bool)
    requires IsPermutation(order, |nodes|)
    ensures Produced(graphInputs, Permuted(nodes, order), backEdges) <==> Produced(graphInputs, nodes, backEdges)
  {
    var r := Permuted(nodes, order);
    forall name: nat
      ensures DeclaredBy(graphInputs, r, |nodes|, Stream, name) <==>
              DeclaredBy(graphInputs, nodes, |nodes|, Stream, name)
    {
      PermutedIsDeclared(graphInputs, nodes, order, Stream, name);
    }
    hide DeclaredBy;
    if Produced(graphInputs, r, backEdges) {
      forall c, input | 0 <= c < |nodes| && input in nodes[c].inputs && (backEdges || !input.backEdge)
        ensures DeclaredBy(graphInputs, nodes, |nodes|, Stream, input.name)
      {
        assert c in order;
        var i :| 0 <= i < |order| && order[i] == c;
        assert input in r[i].inputs;
      }
    }
  }

  lemma PermutedIsForward(nodes: seq<Node>, order: seq<nat>)
    requires IsPermutation(order, |nodes|)
    ensures Forward(Permuted(nodes, order)) <==> Respects(nodes, order)
  {
    var r := Permuted(nodes, order);
    forall i, j | 0 <= i < |nodes| && 0 <= j < |nodes|
      ensures DependsAtAll(r, i, j) <==> DependsAtAll(nodes, order[i], order[j])
    {
    }
  }

  // ----- The passes as they are run -----

  /** A pass stops at its first error. */
  predicate Agrees(r: Table, whole: Table) {
    r.ok == whole.ok && (whole.ok ==> r == whole)
  }

  lemma {:induction false} FailureStays(t: Table, c: nat, inputs: seq<Input>, names: seq<nat>, n: nat, m: nat,
          kind: Kind, sorting: bool)
    ensures n <= m <= |inputs| && !AddInputs(t, c, inputs, n, kind, sorting).ok ==>
      !AddInputs(t, c, inputs, m, kind, sorting).ok
    ensures n <= m <= |names| && !AddOutputs(t, NodeAt(c), names, n, sorting).ok ==>
      !AddOutputs(t, NodeAt(c), names, m, sorting).ok
  {
    if n < m {
      FailureStays(t, c, inputs, names, n, m - 1, kind, sorting);
    }
  }

  lemma NodeFailureStays(t: Table, c: nat, node: Node, kind: Kind, sorting: bool)
    requires !t.ok
    ensures var ins, outs := Ins(node, kind), Outs(node, kind);
            !AddOutputs(AddInputs(t, c, ins, |ins|, kind, sorting), NodeAt(c), outs, |outs|, sorting).ok
  {
    var ins, outs := Ins(node, kind), Outs(node, kind);
    FailureStays(t, c, ins, outs, 0, |ins|, kind, sorting);
    FailureStays(AddInputs(t, c, ins, |ins|, kind, sorting), c, ins, outs, 0, |outs|, kind, sorting);
  }

  lemma {:induction false} FailedPassStays(t: Table, nodes: seq<Node>, n: nat, m: nat, kind: Kind, sorting: bool)
    requires n <= m <= |nodes| && !AddNodes(t, nodes, n, kind, sorting).ok
    ensures !AddNodes(t, nodes, m, kind, sorting).ok
  {
    hide AddInputs, AddOutputs, Ins, Outs;
    if n < m {
      FailedPassStays(t, nodes, n, m - 1, kind, sorting);
      NodeFailureStays(AddNodes(t, nodes, m - 1, kind, sorting), m - 1, nodes[m - 1], kind, sorting);
    }
  }

  method AddInputsForNode(t: Table, c: nat, node: Node, kind: Kind, sorting: bool) returns (r: Table)
    requires t.ok
    ensures Agrees(r, AddInputs(t, c, Ins(node, kind), |Ins(node, kind)|, kind, sorting))
  {
    var inputs := Ins(node, kind);
    r := t;
    for i := 0 to |inputs|
      invariant r.ok && r == AddInputs(t, c, inputs, i, kind, sorting)
    {
      r := AddInput(r, c, inputs[i], kind, sorting);
      if !r.ok {
        FailureStays(t, c, inputs, [], i + 1, |inputs|, kind, sorting);
        return;
      }
    }
  }

  method AddOutputsForNode(t: Table, c: nat, node: Node, kind: Kind, sorting: bool) returns (r: Table)
    requires t.ok
    ensures Agrees(r, AddOutputs(t, NodeAt(c), Outs(node, kind), |Outs(node, kind)|, sorting))
  {
    var names := Outs(node, kind);
    r := t;
    for i := 0 to |names|
      invariant r.ok && r == AddOutputs(t, NodeAt(c), names, i, sorting)
    {
      r := AddOutput(r, NodeAt(c), names[i], sorting);
      if !r.ok {
        FailureStays(t, c, [], names, i + 1, |names|, kind, sorting);
        return;
      }
    }
  }

  lemma {:induction false} FailedInputsStay(graphInputs: seq<nat>, n: nat, m: nat)
    requires n <= m <= |graphInputs| && !AddGraphInputs(graphInputs, n).ok
    ensures !AddGraphInputs(graphInputs, m).ok
  {
    if n < m {
      FailedInputsStay(graphInputs, n, m - 1);
    }
  }

  /** InitializeStreamInfo or InitializeSidePacketInfo. */
  method RunPass(graphInputs: seq<nat>, nodes: seq<Node>, kind: Kind, sorting: bool) returns (r: Table)
    ensures Agrees(r, Pass(graphInputs, nodes, kind, sorting))
  {
    r := EMPTY;
    if kind == Stream {
      for i := 0 to |graphInputs|
        invariant r.ok && r == AddGraphInputs(graphInputs, i)
      {
        r := AddOutput(r, GraphInput(i), graphInputs[i], false);
        if !r.ok {
          FailedInputsStay(graphInputs, i + 1, |graphInputs|);
          FailedPassStays(AddGraphInputs(graphInputs, |graphInputs|), nodes, 0, |nodes|, kind, sorting);
          return;
        }
      }
    }
    ghost var start := r;
    for c := 0 to |nodes|
      invariant r.ok && r == AddNodes(start, nodes, c, kind, sorting)
    {
      var q := AddInputsForNode(r, c, nodes[c], kind, sorting);
      ghost var ins, outs := Ins(nodes[c], kind), Outs(nodes[c], kind);
      if !q.ok {
        FailureStays(AddInputs(r, c, ins, |ins|, kind, sorting), c, ins, outs, 0, |outs|, kind, sorting);
        FailedPassStays(start, nodes, c + 1, |nodes|, kind, sorting);
        return q;
      }
      r := AddOutputsForNode(q, c, nodes[c], kind, sorting);
      if !r.ok {
        FailedPassStays(start, nodes, c + 1, |nodes|, kind, sorting);
        return;
      }
    }
  }

  method CollectEdges(t: Table) returns (edges: set<Dependency>)
    ensures edges == SorterEdges(t, |t.inputs|)
  {
    edges := {};
    for j := 0 to |t.inputs|
      invariant edges == SorterEdges(t, j)
    {
      if IsSorted(t, t.inputs[j]) {
        edges := edges + {SorterEdge(t, t.inputs[j])};
      }
    }
  }

  /** A back edge that is not linked yet and has a producer. */
  predicate CanFill(t: Table, e: EdgeInfo) {
    e.upstream == -1 && e.name in t.producer
  }

  /** The inputs with the back edges among the first `n` linked. */
  function Filled(t: Table, n: nat): seq<EdgeInfo>
    requires n <= |t.inputs|
  {
    seq(|t.inputs|, j requires 0 <= j < |t.inputs| =>
      if j < n && t.inputs[j].backEdge && t.inputs[j].name in t.producer
      then t.inputs[j].(upstream := t.producer[t.inputs[j].name])
      else t.inputs[j])
  }

  /** Every input edge has its producer's output, and comes after it unless it is a
      back edge. */
  ghost predicate Linked(t: Table) {
    forall j :: 0 <= j < |t.inputs| ==>
      var e := t.inputs[j];
      && 0 <= e.upstream < |t.outputs| && t.outputs[e.upstream].name == e.name
      && e.parent.NodeAt? && (!e.backEdge ==> Before(t.outputs[e.upstream].parent, e.parent.index))
  }

  lemma FilledIsLinked(t: Table, graphInputs: seq<nat>, nodes: seq<Node>)
    requires OutputsOk(t, graphInputs, nodes, |nodes|, Stream) && LinksOk(t, graphInputs, nodes, |nodes|, Stream)
    requires InOrder(graphInputs, nodes) && forall j :: 0 <= j < |t.inputs| && t.inputs[j].backEdge ==>
      CanFill(t, t.inputs[j])
    ensures Linked(t.(inputs := Filled(t, |t.inputs|)))
  {
    forall j | 0 <= j < |t.inputs| && !t.inputs[j].backEdge ensures t.inputs[j].upstream >= 0 {
      assert LinkOk(t, graphInputs, nodes, |nodes|, Stream, t.inputs[j]);
      var c := t.inputs[j].parent.index;
      assert !OutOfOrder(graphInputs, nodes, Stream, c);
      assert Input(t.inputs[j].name, false) in nodes[c].inputs;
    }
    forall j | 0 <= j < |t.inputs| ensures LinkOk(t, graphInputs, nodes, |nodes|, Stream, t.inputs[j]) {
    }
  }

  lemma BackEdgesProduced(t: Table, graphInputs: seq<nat>, nodes: seq<Node>)
    requires OutputsOk(t, graphInputs, nodes, |nodes|, Stream) && LinksOk(t, graphInputs, nodes, |nodes|, Stream)
    requires Covered(t, nodes, |nodes|, Stream) && Produced(graphInputs, nodes, false)
    ensures (forall j :: 0 <= j < |t.inputs| && t.inputs[j].backEdge ==> CanFill(t, t.inputs[j])) <==>
            Produced(graphInputs, nodes, true)
  {
    forall c, input | 0 <= c < |nodes| && input in nodes[c].inputs ensures HasEdge(t, c, input) {
      assert input in Ins(nodes[c], Stream);
    }
    forall j | 0 <= j < |t.inputs| ensures LinkOk(t, graphInputs, nodes, |nodes|, Stream, t.inputs[j]) {
    }
    if Produced(graphInputs, nodes, true) {
      forall j | 0 <= j < |t.inputs| ensures t.inputs[j].name in t.producer {
        assert Input(t.inputs[j].name, t.inputs[j].backEdge) in nodes[t.inputs[j].parent.index].inputs;
      }
    }
  }

  function Identity(n: nat): seq<nat> {
    seq(n, i => i)
  }

  lemma ForwardIsAcyclic(nodes: seq<Node>)
    requires Forward(nodes)
    ensures Respects(nodes, Identity(|nodes|))
  {
    var order := Identity(|nodes|);
    forall c | 0 <= c < |nodes| ensures c in order {
      assert order[c] == c;
    }
  }

  /** What one analysis decides: with sorting allowed, that names are unique and whether
      the nodes are in order; without, both. */
  lemma AnalysisVerdict(graphInputs: seq<nat>, nodes: seq<Node>, sorting: bool)
    ensures var s, p := Pass(graphInputs, nodes, Stream, sorting), Pass(graphInputs, nodes, SidePacket, sorting);
            && (s.ok && p.ok <==> AllUnique(graphInputs, nodes) && (sorting || InOrder(graphInputs, nodes)))
            && (s.ok && p.ok ==> (s.needSorting || p.needSorting <==> sorting && !InOrder(graphInputs, nodes)))
  {
    PassIs(graphInputs, nodes, Stream, sorting);
    PassIs(graphInputs, nodes, SidePacket, sorting);
    hide Unique, SomeOutOfOrder, OutputsOk, LinksOk, Covered, RequiredOk, Pass;
  }

  ghost predicate CanFillAll(t: Table) {
    forall j :: 0 <= j < |t.inputs| && t.inputs[j].backEdge ==> CanFill(t, t.inputs[j])
  }

  /** What is left to decide of nodes in order is whether the back edges can be linked. */
  lemma InOrderVerdict(t: Table, graphInputs: seq<nat>, nodes: seq<Node>, sorting: bool)
    requires AllUnique(graphInputs, nodes) && InOrder(graphInputs, nodes)
    requires t == Pass(graphInputs, nodes, Stream, sorting) && t.ok
    ensures CanFillAll(t) <==> Acceptable(graphInputs, nodes)
    ensures Forward(nodes) && Respects(nodes, Identity(|nodes|)) && Permuted(nodes, Identity(|nodes|)) == nodes
    ensures CanFillAll(t) ==> Linked(t.(inputs := Filled(t, |t.inputs|)))
    ensures Covered(t.(inputs := Filled(t, |t.inputs|)), nodes, |nodes|, Stream)
    ensures OutputsOk(t.(inputs := Filled(t, |t.inputs|)), graphInputs, nodes, |nodes|, Stream)
  {
    PassIs(graphInputs, nodes, Stream, sorting);
    hide Pass;
    FilledKeepsOutputs(t, graphInputs, nodes);
    InOrderIsExact(graphInputs, nodes);
    ForwardIsAcyclic(nodes);
    BackEdgesProduced(t, graphInputs, nodes);
    if CanFillAll(t) {
      FilledIsLinked(t, graphInputs, nodes);
    }
    hide InOrder, AllUnique, Produced, Respects, Forward, Linked, OutputsOk, LinksOk, RequiredOk, PassInv;
    FilledIsCovered(t, nodes);
  }

  lemma FilledKeepsOutputs(t: Table, graphInputs: seq<nat>, nodes: seq<Node>)
    requires OutputsOk(t, graphInputs, nodes, |nodes|, Stream)
    ensures OutputsOk(t.(inputs := Filled(t, |t.inputs|)), graphInputs, nodes, |nodes|, Stream)
  {
    hide DeclaredBy, Declares, Before;
  }

  ghost predicate IsUsed(nodes: seq<Node>, name: nat) {
    exists b :: 0 <= b < |nodes| && name in nodes[b].inputSidePackets
  }

  /** Each input side packet that some node produces is linked to that output, which
      comes before it; exactly the others are required from outside. */
  ghost predicate SidePacketsLinked(p: Table, graphInputs: seq<nat>, nodes: seq<Node>) {
    && (forall j :: 0 <= j < |p.inputs| ==> SidePacketLinked(p, graphInputs, nodes, p.inputs[j]))
    && (forall name :: name in p.required <==>
          IsUsed(nodes, name) && !DeclaredBy(graphInputs, nodes, |nodes|, SidePacket, name))
  }

  ghost predicate SidePacketLinked(p: Table, graphInputs: seq<nat>, nodes: seq<Node>, e: EdgeInfo) {
    && e.parent.NodeAt? && e.parent.index < |nodes| && e.name in nodes[e.parent.index].inputSidePackets
    && if DeclaredBy(graphInputs, nodes, |nodes|, SidePacket, e.name)
       then 0 <= e.upstream < |p.outputs| && p.outputs[e.upstream].name == e.name
         && Before(p.outputs[e.upstream].parent, e.parent.index)
       else e.upstream == -1
  }

  /** With the nodes in order, a side packet that no node before its user produces is
      produced by no node at all. */
  lemma UsedInOrder(graphInputs: seq<nat>, nodes: seq<Node>, b: nat, name: nat)
    requires InOrder(graphInputs, nodes) && b < |nodes| && name in nodes[b].inputSidePackets
    ensures DeclaredBy(graphInputs, nodes, b, SidePacket, name) <==>
            DeclaredBy(graphInputs, nodes, |nodes|, SidePacket, name)
  {
    assert RequiredAt(graphInputs, nodes, b, name) <==> !DeclaredBy(graphInputs, nodes, b, SidePacket, name);
    forall c | 0 <= c < |nodes| && name in Outs(nodes[c], SidePacket)
      ensures DeclaredBy(graphInputs, nodes, b, SidePacket, name)
    {
      assert !OutOfOrder(graphInputs, nodes, SidePacket, c);
    }
  }

  lemma SideInput(node: Node, input: Input)
    requires input in Ins(node, SidePacket)
    ensures input.name in node.inputSidePackets && !input.backEdge
  {
  }

  lemma InOrderLinksSidePackets(p: Table, graphInputs: seq<nat>, nodes: seq<Node>, sorting: bool)
    requires InOrder(graphInputs, nodes) && p == Pass(graphInputs, nodes, SidePacket, sorting) && p.ok
    ensures OutputsOk(p, graphInputs, nodes, |nodes|, SidePacket) && Covered(p, nodes, |nodes|, SidePacket)
    ensures SidePacketsLinked(p, graphInputs, nodes)
  {
    PassIs(graphInputs, nodes, SidePacket, sorting);
    hide Pass, OutputsOk, Covered, InOrder, Unique, SomeOutOfOrder, RequiredOk;
    forall j | 0 <= j < |p.inputs| ensures SidePacketLinked(p, graphInputs, nodes, p.inputs[j]) {
      var e := p.inputs[j];
      assert LinkOk(p, graphInputs, nodes, |nodes|, SidePacket, e);
      SideInput(nodes[e.parent.index], Input(e.name, e.backEdge));
      UsedInOrder(graphInputs, nodes, e.parent.index, e.name);
    }
    RequiredFromOutside(p, graphInputs, nodes);
  }

  lemma RequiredFromOutside(p: Table, graphInputs: seq<nat>, nodes: seq<Node>)
    requires InOrder(graphInputs, nodes) && RequiredOk(p, graphInputs, nodes, |nodes|, SidePacket)
    ensures forall name :: name in p.required <==>
              IsUsed(nodes, name) && !DeclaredBy(graphInputs, nodes, |nodes|, SidePacket, name)
  {
    hide InOrder, DeclaredBy;
    forall b, name | 0 <= b < |nodes| && name in nodes[b].inputSidePackets
      ensures RequiredAt(graphInputs, nodes, b, name) <==> !DeclaredBy(graphInputs, nodes, |nodes|, SidePacket, name)
    {
      UsedInOrder(graphInputs, nodes, b, name);
    }
  }

  lemma FilledIsCovered(t: Table, nodes: seq<Node>)
    requires Covered(t, nodes, |nodes|, Stream)
    ensures Covered(t.(inputs := Filled(t, |t.inputs|)), nodes, |nodes|, Stream)
  {
    var r := t.(inputs := Filled(t, |t.inputs|));
    forall c, input | 0 <= c < |nodes| && input in Ins(nodes[c], Stream) ensures HasEdge(r, c, input) {
      assert HasEdge(t, c, input);
      var j :| 0 <= j < |t.inputs| && IsEdgeOf(t.inputs[j], c, input);
      assert IsEdgeOf(r.inputs[j], c, input);
    }
  }

  /** The sorter's answer orders the nodes by their dependencies. */
  lemma OrdersRespect(s: Table, p: Table, graphInputs: seq<nat>, nodes: seq<Node>, order: seq<nat>)
    requires s == Pass(graphInputs, nodes, Stream, true) && p == Pass(graphInputs, nodes, SidePacket, true) && s.ok
             && p.ok
    ensures IsOrder(|nodes|, SorterEdges(s, |s.inputs|) + SorterEdges(p, |p.inputs|), order) <==> Respects(nodes, order)
  {
    PassIs(graphInputs, nodes, Stream, true);
    PassIs(graphInputs, nodes, SidePacket, true);
    hide Pass, PassInv, DependsOn, SorterEdges;
    if IsPermutation(order, |nodes|) {
      forall i, j | 0 <= i < |nodes| && 0 <= j < |nodes|
        ensures Dependency(order[i], order[j]) in SorterEdges(s, |s.inputs|) + SorterEdges(p, |p.inputs|) <==>
                DependsAtAll(nodes, order[i], order[j])
      {
        SorterEdgesAreDependencies(s, graphInputs, nodes, Stream, true, order[i], order[j]);
        SorterEdgesAreDependencies(p, graphInputs, nodes, SidePacket, true, order[i], order[j]);
      }
    }
  }

  /** Sorting neither helps nor harms what can be accepted, and leaves only missing
      producers to be found. */
  lemma SortingKeepsVerdict(graphInputs: seq<nat>, nodes: seq<Node>, order: seq<nat>)
    requires AllUnique(graphInputs, nodes) && Respects(nodes, order)
    ensures AllUnique(graphInputs, Permuted(nodes, order))
    ensures Acceptable(graphInputs, Permuted(nodes, order)) <==> Acceptable(graphInputs, nodes)
    ensures !InOrder(graphInputs, Permuted(nodes, order)) ==> !Acceptable(graphInputs, nodes)
  {
    var r := Permuted(nodes, order);
    PermutedIsUnique(graphInputs, nodes, order, Stream);
    PermutedIsUnique(graphInputs, nodes, order, SidePacket);
    PermutedIsProduced(graphInputs, nodes, order, true);
    PermutedIsProduced(graphInputs, nodes, order, false);
    PermutedIsForward(nodes, order);
    ForwardIsAcyclic(r);
    InOrderIsExact(graphInputs, r);
    AllProducedIncludesForward(graphInputs, nodes);
    hide Unique, Produced, Forward, InOrder;
  }

  lemma AllProducedIncludesForward(graphInputs: seq<nat>, nodes: seq<Node>)
    ensures Produced(graphInputs, nodes, true) ==> Produced(graphInputs, nodes, false)
  {
  }

  class ValidatedGraphConfig {
    const graphInputs: seq<nat>
    var nodes: seq<Node>
    var streams: Table
    var sidePackets: Table

    method TopologicalSortNodes(sorter: Sorter) returns (status: Status)
      requires IsSorter(sorter)
      modifies `nodes
      ensures var edges := SorterEdges(streams, |streams.inputs|) + SorterEdges(sidePackets, |sidePackets.inputs|);
              match sorter(|old(nodes)|, edges)
              case None => status == Error && nodes == old(nodes)
              case Some(order) =>
                status == Ok && IsOrder(|old(nodes)|, edges, order) && nodes == Permuted(old(nodes), order)
    {
      var streamEdges := CollectEdges(streams);
      var sideEdges := CollectEdges(sidePackets);
      var answer := sorter(|nodes|, streamEdges + sideEdges);
      if answer == None {
        return Error;
      }
      assert IsOrder(|nodes|, streamEdges + sideEdges, answer.value);
      var sorted := [];
      for i := 0 to |answer.value|
        invariant sorted == Permuted(nodes, answer.value)[..i]
      {
        sorted := sorted + [nodes[answer.value[i]]];
      }
      nodes := sorted;
      return Ok;
    }

    method FillUpstreamFieldForBackEdges() returns (status: Status)
      modifies `streams
      ensures var t := old(streams);
              if CanFillAll(t)
              then status == Ok && streams == t.(inputs := Filled(t, |t.inputs|))
              else status == Error
    {
      ghost var t := streams;
      assert Filled(t, 0) == t.inputs;
      for j := 0 to |streams.inputs|
        invariant streams == t.(inputs := Filled(t, j))
        invariant forall k :: 0 <= k < j && t.inputs[k].backEdge ==> CanFill(t, t.inputs[k])
      {
        var e := streams.inputs[j];
        if e.backEdge {
          if e.upstream != -1 || e.name !in streams.producer {
            return Error;
          }
          streams := streams.(inputs := streams.inputs[j := e.(upstream := streams.producer[e.name])]);
        }
        assert Filled(t, j + 1) == streams.inputs;
      }
      return Ok;
    }

    /** Both passes over the nodes as they are. */
    method Analyse(sorting: bool) returns (status: Status)
      modifies `streams, `sidePackets
      ensures status == Ok <==>
              Pass(graphInputs, nodes, SidePacket, sorting).ok && Pass(graphInputs, nodes, Stream, sorting).ok
      ensures status == Ok ==>
        sidePackets == Pass(graphInputs, nodes, SidePacket, sorting)
          && streams == Pass(graphInputs, nodes, Stream, sorting)
    {
      sidePackets := RunPass(graphInputs, nodes, SidePacket, sorting);
      if !sidePackets.ok {
        return Error;
      }
      streams := RunPass(graphInputs, nodes, Stream, sorting);
      return if streams.ok then Ok else Error;
    }

    /** A graph is accepted exactly if it should be; its nodes are then in an order
        that respects the dependencies, every input is linked to its producer, and the
        side packets that no node produces are required from outside. */
    method Initialize(sorter: Sorter) returns (status: Status)
      requires IsSorter(sorter)
      modifies this
      ensures status == Ok <==> Acceptable(graphInputs, old(nodes))
      ensures status == Ok ==> Linked(streams) && Forward(nodes) && Covered(streams, nodes, |nodes|, Stream)
      ensures status == Ok ==>
              SidePacketsLinked(sidePackets, graphInputs, nodes) && Covered(sidePackets, nodes, |nodes|, SidePacket)
      ensures status == Ok ==> OutputsOk(streams, graphInputs, nodes, |nodes|, Stream)
      ensures status == Ok ==> OutputsOk(sidePackets, graphInputs, nodes, |nodes|, SidePacket)
      ensures status == Ok ==> exists order :: Respects(old(nodes), order) && nodes == Permuted(old(nodes), order)
    {
      hide *;
      ghost var given := nodes;
      AnalysisVerdict(graphInputs, given, true);
      status := Analyse(true);
      if status == Error {
        NotUnique(graphInputs, given);
        return;
      }
      if sidePackets.needSorting || streams.needSorting {
        ghost var (s, p) := (streams, sidePackets);
        status := TopologicalSortNodes(sorter);
        Sorts(sorter, s, p, graphInputs, given);
        if status == Error {
          return;
        }
        ghost var order := sorter(|given|, SorterEdges(s, |s.inputs|) + SorterEdges(p, |p.inputs|)).value;
        SortingKeepsVerdict(graphInputs, given, order);
        AnalysisVerdict(graphInputs, nodes, false);
        status := Analyse(false);
        if status == Error {
          return;
        }
        InOrderVerdict(streams, graphInputs, nodes, false);
        InOrderLinksSidePackets(sidePackets, graphInputs, nodes, false);
      } else {
        InOrderVerdict(streams, graphInputs, nodes, true);
        InOrderLinksSidePackets(sidePackets, graphInputs, nodes, true);
      }
      status := FillUpstreamFieldForBackEdges();
    }
  }

  lemma NotUnique(graphInputs: seq<nat>, nodes: seq<Node>)
    requires !AllUnique(graphInputs, nodes)
    ensures !Acceptable(graphInputs, nodes)
  {
  }

  lemma Sorts(sorter: Sorter, s: Table, p: Table, graphInputs: seq<nat>, nodes: seq<Node>)
    requires IsSorter(sorter)
    requires s == Pass(graphInputs, nodes, Stream, true) && p == Pass(graphInputs, nodes, SidePacket, true) && s.ok
             && p.ok
    ensures match sorter(|nodes|, SorterEdges(s, |s.inputs|) + SorterEdges(p, |p.inputs|))
            case None => !Acceptable(graphInputs, nodes)
            case Some(order) => Respects(nodes, order)
  {
    var edges := SorterEdges(s, |s.inputs|) + SorterEdges(p, |p.inputs|);
    hide Pass, SorterEdges, Respects;
    forall order ensures IsOrder(|nodes|, edges, order) <==> Respects(nodes, order) {
      OrdersRespect(s, p, graphInputs, nodes, order);
    }
    assert match sorter(|nodes|, edges)
           case Some(order) => IsOrder(|nodes|, edges, order)
           case None => forall order :: !IsOrder(|nodes|, edges, order);
  }
}
