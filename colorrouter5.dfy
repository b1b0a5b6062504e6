/**
 * The `MpfbColorRouter5` shader group: a value is compared against four
 * thresholds and routed to one of five section colours through a chain of
 * four mix nodes.
 *
 * The group builder's state (declared sockets, created nodes, links) is kept
 * as sequences that `CreateGroup` appends to in the source's call order. The
 * lemmas after the class state what the finished group looks like: its
 * sockets, its nodes, and the shape of its link graph.
 */
module ColorRouter5 {

  const GROUP_NAME := "MpfbColorRouter5"
  const GROUP_INPUT := "Group Input"
  const GROUP_OUTPUT := "Group Output"

  /** A declared default value. Colours stay as the literal RGBA components. */
  datatype SocketDefault = FloatDefault(value: real) | ColorDefault(rgba: seq<real>)

  datatype Socket = Socket(name: string, socketType: string, defaultValue: SocketDefault)

  /** What a node is. Node locations and the atoms' literal input values are cosmetic and left out. */
  datatype NodeKind =
    | GroupInputNode
    | GroupOutputNode
    | MathNode(operation: string, useClamp: bool)
    | MixRGBNode(blendType: string, useAlpha: bool, useClamp: bool)

  datatype Node = Node(name: string, kind: NodeKind)

  /** A node as `add_link` receives it: its position among the nodes created so far. */
  type NodeHandle = nat

  /** A link from an output socket of one node to an input socket of another. */
  datatype Link = Link(fromNode: NodeHandle, fromSocket: string, toNode: NodeHandle, toSocket: string)

  const MATH_NAMES: seq<string> := ["Math", "Math.001", "Math.002", "Math.003"]
  const MIX_NAMES: seq<string> := ["Mix", "Mix.001", "Mix.002", "Mix.003"]
  /** Socket names. `Value` names a group input as well as the first input and the
      output of a math node; `Color` the group output as well as a mix node's output. */
  const VALUE := "Value"
  const THRESHOLD1 := "Threshold1"
  const THRESHOLD2 := "Threshold2"
  const THRESHOLD3 := "Threshold3"
  const THRESHOLD4 := "Threshold4"
  const SECTION1_COLOR := "Section1Color"
  const SECTION2_COLOR := "Section2Color"
  const SECTION3_COLOR := "Section3Color"
  const SECTION4_COLOR := "Section4Color"
  const SECTION5_COLOR := "Section5Color"
  const VALUE_001 := "Value_001"
  const FAC := "Fac"
  const COLOR1 := "Color1"
  const COLOR2 := "Color2"
  const COLOR := "Color"

  const THRESHOLD_NAMES: seq<string> := [THRESHOLD1, THRESHOLD2, THRESHOLD3, THRESHOLD4]
  const SECTION_COLOR_NAMES: seq<string> := [SECTION1_COLOR, SECTION2_COLOR, SECTION3_COLOR, SECTION4_COLOR, SECTION5_COLOR]

  const GREATER_THAN := MathNode("GREATER_THAN", false)
  const MIX := MixRGBNode("MIX", false, false)

  // ---------------------------------------------------------------------------
  // The group as `create_group` leaves it

  const GROUP_INPUTS: seq<Socket> := [
    Socket(VALUE, "NodeSocketFloat", FloatDefault(0.5)),
    Socket(THRESHOLD1, "NodeSocketFloat", FloatDefault(0.5)),
    Socket(THRESHOLD2, "NodeSocketFloat", FloatDefault(0.5)),
    Socket(THRESHOLD3, "NodeSocketFloat", FloatDefault(0.5)),
    Socket(THRESHOLD4, "NodeSocketFloat", FloatDefault(0.8)),
    Socket(SECTION1_COLOR, "NodeSocketColor", ColorDefault([1.0, 0.0, 0.0010608520824462175, 1.0])),
    Socket(SECTION2_COLOR, "NodeSocketColor", ColorDefault([0.0, 1.0, 0.0012432460207492113, 1.0])),
    Socket(SECTION3_COLOR, "NodeSocketColor", ColorDefault([0.0, 0.0007007885142229497, 1.0, 1.0])),
    Socket(SECTION4_COLOR, "NodeSocketColor", ColorDefault([0.5, 0.5, 0.5, 1.0])),
    Socket(SECTION5_COLOR, "NodeSocketColor", ColorDefault([0.5, 0.5, 0.5, 1.0]))
  ]

  const GROUP_OUTPUTS: seq<Socket> := [Socket(COLOR, "NodeSocketColor", ColorDefault([0.0, 0.0, 0.0, 0.0]))]

  /** The nodes in creation order: the two boundary pseudo-nodes, then the eight internal ones. */
  const GROUP_NODES: seq<Node> := [Node(GROUP_INPUT, GroupInputNode), Node(GROUP_OUTPUT, GroupOutputNode)] + INTERNAL_NODES

  /** The eight atom nodes in creation order. */
  const INTERNAL_NODES: seq<Node> := [
    Node("Mix", MIX), Node("Math", GREATER_THAN), Node("Math.001", GREATER_THAN), Node("Mix.001", MIX),
    Node("Math.002", GREATER_THAN), Node("Mix.002", MIX), Node("Math.003", GREATER_THAN), Node("Mix.003", MIX)
  ]

  /** Handles of the nodes, in creation order (`GROUP_NODES[h]` is the node with handle `h`). */
  const GI: NodeHandle := 0
  const GO: NodeHandle := 1
  const MIX0: NodeHandle := 2
  const MATH0: NodeHandle := 3
  const MATH1: NodeHandle := 4
  const MIX1: NodeHandle := 5
  const MATH2: NodeHandle := 6
  const MIX2: NodeHandle := 7
  const MATH3: NodeHandle := 8
  const MIX3: NodeHandle := 9

  const MATH_HANDLES: seq<NodeHandle> := [MATH0, MATH1, MATH2, MATH3]
  const MIX_HANDLES: seq<NodeHandle> := [MIX0, MIX1, MIX2, MIX3]

  /** The links in the order `create_group` adds them, in four runs: the first section
      (`Math`, `Mix`), then each further threshold's comparison and mix. */
  const LINKS_FIRST: seq<Link> := [
    Link(GI, VALUE, MATH0, VALUE),
    Link(GI, THRESHOLD1, MATH0, VALUE_001),
    Link(MATH0, VALUE, MIX0, FAC),
    Link(GI, SECTION1_COLOR, MIX0, COLOR1),
    Link(GI, SECTION2_COLOR, MIX0, COLOR2)
  ]

  const LINKS_SECOND: seq<Link> := [
    Link(MIX0, COLOR, MIX1, COLOR1),
    Link(MATH1, VALUE, MIX1, FAC),
    Link(GI, SECTION3_COLOR, MIX1, COLOR2),
    Link(GI, VALUE, MATH1, VALUE),
    Link(GI, THRESHOLD2, MATH1, VALUE_001)
  ]

  const LINKS_THIRD: seq<Link> := [
    Link(MIX1, COLOR, MIX2, COLOR1),
    Link(GI, SECTION4_COLOR, MIX2, COLOR2),
    Link(GI, VALUE, MATH2, VALUE),
    Link(GI, THRESHOLD3, MATH2, VALUE_001),
    Link(MATH2, VALUE, MIX2, FAC)
  ]

  const LINKS_FOURTH: seq<Link> := [
    Link(MIX2, COLOR, MIX3, COLOR1),
    Link(MATH3, VALUE, MIX3, FAC),
    Link(GI, VALUE, MATH3, VALUE),
    Link(GI, THRESHOLD4, MATH3, VALUE_001),
    Link(GI, SECTION5_COLOR, MIX3, COLOR2),
    Link(MIX3, COLOR, GO, COLOR)
  ]

  const GROUP_LINKS: seq<Link> := LINKS_FIRST + LINKS_SECOND + LINKS_THIRD + LINKS_FOURTH

  // ---------------------------------------------------------------------------
  // Well-formedness of a link against the builder state

  predicate HasSocket(sockets: seq<Socket>, name: string)
  {
    exists k :: 0 <= k < |sockets| && sockets[k].name == name
  }

  /** Both endpoints are nodes created so far, and a socket on the group boundary is a
      declared one: the group input node offers the declared inputs, the group output
      node takes the declared outputs. */
  predicate LinkEndpointsExist(nodes: seq<Node>, inputs: seq<Socket>, outputs: seq<Socket>, l: Link)
  {
    l.fromNode < |nodes| && l.toNode < |nodes| &&
    (nodes[l.fromNode].kind == GroupInputNode ==> HasSocket(inputs, l.fromSocket)) &&
    (nodes[l.toNode].kind == GroupOutputNode ==> HasSocket(outputs, l.toSocket))
  }

  predicate WiredGraph(nodes: seq<Node>, inputs: seq<Socket>, outputs: seq<Socket>, links: seq<Link>)
  {
    forall k :: 0 <= k < |links| ==> LinkEndpointsExist(nodes, inputs, outputs, links[k])
  }

  // ---------------------------------------------------------------------------
  // The builder

  class MpfbColorRouter5 {
    const groupName: string
    var inputs: seq<Socket>
    var outputs: seq<Socket>
    var nodes: seq<Node>
    var links: seq<Link>

    constructor ()
      ensures groupName == GROUP_NAME
      ensures inputs == [] && outputs == [] && nodes == [] && links == []
    {
      groupName := GROUP_NAME;
      inputs, outputs, nodes, links := [], [], [], [];
    }

    /** `create_input_and_output`: the group's boundary pseudo-nodes. */
    method CreateInputAndOutput() returns (groupInput: NodeHandle, groupOutput: NodeHandle)
      modifies this
      ensures nodes == old(nodes) + [Node(GROUP_INPUT, GroupInputNode), Node(GROUP_OUTPUT, GroupOutputNode)]
      ensures inputs == old(inputs) && outputs == old(outputs) && links == old(links)
      ensures groupInput == |old(nodes)| && groupOutput == |old(nodes)| + 1
    {
      groupInput, groupOutput := |nodes|, |nodes| + 1;
      nodes := nodes + [Node(GROUP_INPUT, GroupInputNode), Node(GROUP_OUTPUT, GroupOutputNode)];
    }

    method AddInputSocket(name: string, socketType: string, defaultValue: SocketDefault)
      modifies this
      ensures inputs == old(inputs) + [Socket(name, socketType, defaultValue)]
      ensures outputs == old(outputs) && nodes == old(nodes) && links == old(links)
    {
      inputs := inputs + [Socket(name, socketType, defaultValue)];
    }

    method AddOutputSocket(name: string, socketType: string, defaultValue: SocketDefault)
      modifies this
      ensures outputs == old(outputs) + [Socket(name, socketType, defaultValue)]
      ensures inputs == old(inputs) && nodes == old(nodes) && links == old(links)
    {
      outputs := outputs + [Socket(name, socketType, defaultValue)];
    }

    /** An atom node (`createShaderNodeMath` or `createShaderNodeMixRGB`) and its handle. */
    method CreateAtom(name: string, kind: NodeKind) returns (handle: NodeHandle)
      modifies this
      ensures nodes == old(nodes) + [Node(name, kind)]
      ensures inputs == old(inputs) && outputs == old(outputs) && links == old(links)
      ensures handle == |old(nodes)|
    {
      handle := |nodes|;
      nodes := nodes + [Node(name, kind)];
    }

    /** `add_link`: records the link. */
    method AddLink(fromNode: NodeHandle, fromSocket: string, toNode: NodeHandle, toSocket: string)
      modifies this
      ensures links == old(links) + [Link(fromNode, fromSocket, toNode, toSocket)]
      ensures inputs == old(inputs) && outputs == old(outputs) && nodes == old(nodes)
    {
      links := links + [Link(fromNode, fromSocket, toNode, toSocket)];
    }

    /** `create_group`: run once on a fresh builder, it declares the sockets, creates the
        nodes and adds the links, ending in exactly the group described below. */
    method CreateGroup()
      requires inputs == [] && outputs == [] && nodes == [] && links == []
      modifies this
      ensures inputs == GROUP_INPUTS && outputs == GROUP_OUTPUTS
      ensures nodes == GROUP_NODES && links == GROUP_LINKS
      ensures WiredGraph(nodes, inputs, outputs, links) && DistinctDestinations(links)
    {
      var gi, go := CreateInputAndOutput();
      DeclareSockets();
      var mix, math, math1, mix1, math2, mix2, math3, mix3 := CreateAtoms();
      assert nodes == GROUP_NODES;
      LinkFirstSection(gi, math, mix);
      LinkSecondSection(gi, mix, math1, mix1);
      LinkThirdSection(gi, mix1, math2, mix2);
      LinkFourthSection(gi, go, mix2, math3, mix3);
      assert links == LINKS_FIRST + LINKS_SECOND + LINKS_THIRD + LINKS_FOURTH;
      GroupLinksWired();
      GroupDestinationsDistinct();
    }

    /** The ten input sockets and the one output socket, in declaration order. */
    method DeclareSockets()
      modifies this
      ensures inputs == old(inputs) + GROUP_INPUTS && outputs == old(outputs) + GROUP_OUTPUTS
      ensures nodes == old(nodes) && links == old(links)
    {
      AddInputSocket(VALUE, "NodeSocketFloat", FloatDefault(0.5));
      AddInputSocket(THRESHOLD1, "NodeSocketFloat", FloatDefault(0.5));
      AddInputSocket(THRESHOLD2, "NodeSocketFloat", FloatDefault(0.5));
      AddInputSocket(THRESHOLD3, "NodeSocketFloat", FloatDefault(0.5));
      AddInputSocket(THRESHOLD4, "NodeSocketFloat", FloatDefault(0.8));
      AddInputSocket(SECTION1_COLOR, "NodeSocketColor", ColorDefault([1.0, 0.0, 0.0010608520824462175, 1.0]));
      AddInputSocket(SECTION2_COLOR, "NodeSocketColor", ColorDefault([0.0, 1.0, 0.0012432460207492113, 1.0]));
      AddInputSocket(SECTION3_COLOR, "NodeSocketColor", ColorDefault([0.0, 0.0007007885142229497, 1.0, 1.0]));
      AddInputSocket(SECTION4_COLOR, "NodeSocketColor", ColorDefault([0.5, 0.5, 0.5, 1.0]));
      AddInputSocket(SECTION5_COLOR, "NodeSocketColor", ColorDefault([0.5, 0.5, 0.5, 1.0]));
      AddOutputSocket(COLOR, "NodeSocketColor", ColorDefault([0.0, 0.0, 0.0, 0.0]));
    }

    /** The eight internal nodes, in creation order, and their handles. */
    method CreateAtoms() returns (mix: NodeHandle, math: NodeHandle, math1: NodeHandle, mix1: NodeHandle,
                                  math2: NodeHandle, mix2: NodeHandle, math3: NodeHandle, mix3: NodeHandle)
      modifies this
      ensures nodes == old(nodes) + INTERNAL_NODES
      ensures inputs == old(inputs) && outputs == old(outputs) && links == old(links)
      ensures var n := |old(nodes)|;
        mix == n && math == n + 1 && math1 == n + 2 && mix1 == n + 3 &&
        math2 == n + 4 && mix2 == n + 5 && math3 == n + 6 && mix3 == n + 7
    {
      mix := CreateAtom("Mix", MIX);
      math := CreateAtom("Math", GREATER_THAN);
      math1 := CreateAtom("Math.001", GREATER_THAN);
      mix1 := CreateAtom("Mix.001", MIX);
      math2 := CreateAtom("Math.002", GREATER_THAN);
      mix2 := CreateAtom("Mix.002", MIX);
      math3 := CreateAtom("Math.003", GREATER_THAN);
      mix3 := CreateAtom("Mix.003", MIX);
    }

    /** The first section: `Value` against `Threshold1` chooses between the first two colours. */
    method LinkFirstSection(gi: NodeHandle, math: NodeHandle, mix: NodeHandle)
      modifies this
      ensures links == old(links) + [
        Link(gi, VALUE, math, VALUE), Link(gi, THRESHOLD1, math, VALUE_001), Link(math, VALUE, mix, FAC),
        Link(gi, SECTION1_COLOR, mix, COLOR1), Link(gi, SECTION2_COLOR, mix, COLOR2)]
      ensures inputs == old(inputs) && outputs == old(outputs) && nodes == old(nodes)
    {
      AddLink(gi, VALUE, math, VALUE);
      AddLink(gi, THRESHOLD1, math, VALUE_001);
      AddLink(math, VALUE, mix, FAC);
      AddLink(gi, SECTION1_COLOR, mix, COLOR1);
      AddLink(gi, SECTION2_COLOR, mix, COLOR2);
    }

    /** The second section: the previous mix against the third colour, chosen by `Threshold2`. */
    method LinkSecondSection(gi: NodeHandle, mix: NodeHandle, math1: NodeHandle, mix1: NodeHandle)
      modifies this
      ensures links == old(links) + [
        Link(mix, COLOR, mix1, COLOR1), Link(math1, VALUE, mix1, FAC), Link(gi, SECTION3_COLOR, mix1, COLOR2),
        Link(gi, VALUE, math1, VALUE), Link(gi, THRESHOLD2, math1, VALUE_001)]
      ensures inputs == old(inputs) && outputs == old(outputs) && nodes == old(nodes)
    {
      AddLink(mix, COLOR, mix1, COLOR1);
      AddLink(math1, VALUE, mix1, FAC);
      AddLink(gi, SECTION3_COLOR, mix1, COLOR2);
      AddLink(gi, VALUE, math1, VALUE);
      AddLink(gi, THRESHOLD2, math1, VALUE_001);
    }

    /** The third section: the previous mix against the fourth colour, chosen by `Threshold3`. */
    method LinkThirdSection(gi: NodeHandle, mix1: NodeHandle, math2: NodeHandle, mix2: NodeHandle)
      modifies this
      ensures links == old(links) + [
        Link(mix1, COLOR, mix2, COLOR1), Link(gi, SECTION4_COLOR, mix2, COLOR2), Link(gi, VALUE, math2, VALUE),
        Link(gi, THRESHOLD3, math2, VALUE_001), Link(math2, VALUE, mix2, FAC)]
      ensures inputs == old(inputs) && outputs == old(outputs) && nodes == old(nodes)
    {
      AddLink(mix1, COLOR, mix2, COLOR1);
      AddLink(gi, SECTION4_COLOR, mix2, COLOR2);
      AddLink(gi, VALUE, math2, VALUE);
      AddLink(gi, THRESHOLD3, math2, VALUE_001);
      AddLink(math2, VALUE, mix2, FAC);
    }

    /** The fourth section, chosen by `Threshold4`, and the last mix feeding the group output. */
    method LinkFourthSection(gi: NodeHandle, go: NodeHandle, mix2: NodeHandle, math3: NodeHandle, mix3: NodeHandle)
      modifies this
      ensures links == old(links) + [
        Link(mix2, COLOR, mix3, COLOR1), Link(math3, VALUE, mix3, FAC), Link(gi, VALUE, math3, VALUE),
        Link(gi, THRESHOLD4, math3, VALUE_001), Link(gi, SECTION5_COLOR, mix3, COLOR2), Link(mix3, COLOR, go, COLOR)]
      ensures inputs == old(inputs) && outputs == old(outputs) && nodes == old(nodes)
    {
      AddLink(mix2, COLOR, mix3, COLOR1);
      AddLink(math3, VALUE, mix3, FAC);
      AddLink(gi, VALUE, math3, VALUE);
      AddLink(gi, THRESHOLD4, math3, VALUE_001);
      AddLink(gi, SECTION5_COLOR, mix3, COLOR2);
      AddLink(mix3, COLOR, go, COLOR);
    }
  }

  // ---------------------------------------------------------------------------
  // What the finished group looks like

  function SocketNames(sockets: seq<Socket>): (names: seq<string>)
    ensures |names| == |sockets|
    ensures forall k :: 0 <= k < |sockets| ==> names[k] == sockets[k].name
  {
    if sockets == [] then [] else [sockets[0].name] + SocketNames(sockets[1..])
  }

  /** Ten inputs in declaration order (`Value`, the four thresholds, the five section colours),
      with defaults 0.5 for `Value` and `Threshold1`..`Threshold3` and 0.8 for `Threshold4`;
      one output, `Color`. */
  lemma GroupSockets()
    ensures |GROUP_INPUTS| == 10
    ensures SocketNames(GROUP_INPUTS) == ["Value"] + THRESHOLD_NAMES + SECTION_COLOR_NAMES
    ensures forall k :: 0 <= k < 4 ==> GROUP_INPUTS[k].defaultValue == FloatDefault(0.5)
    ensures GROUP_INPUTS[4].defaultValue == FloatDefault(0.8)
    ensures SocketNames(GROUP_OUTPUTS) == ["Color"]
  {
  }

  /** The socket names the links use on the group boundary are all declared. */
  lemma BoundarySocketsDeclared()
    ensures HasSocket(GROUP_INPUTS, VALUE)
    ensures HasSocket(GROUP_INPUTS, THRESHOLD1) && HasSocket(GROUP_INPUTS, THRESHOLD2)
    ensures HasSocket(GROUP_INPUTS, THRESHOLD3) && HasSocket(GROUP_INPUTS, THRESHOLD4)
    ensures HasSocket(GROUP_INPUTS, SECTION1_COLOR) && HasSocket(GROUP_INPUTS, SECTION2_COLOR)
    ensures HasSocket(GROUP_INPUTS, SECTION3_COLOR) && HasSocket(GROUP_INPUTS, SECTION4_COLOR)
    ensures HasSocket(GROUP_INPUTS, SECTION5_COLOR)
    ensures HasSocket(GROUP_OUTPUTS, COLOR)
  {
    var i := GROUP_INPUTS;
    assert i[0].name == VALUE;
    assert i[1].name == THRESHOLD1 && i[2].name == THRESHOLD2 && i[3].name == THRESHOLD3 && i[4].name == THRESHOLD4;
    assert i[5].name == SECTION1_COLOR && i[6].name == SECTION2_COLOR && i[7].name == SECTION3_COLOR;
    assert i[8].name == SECTION4_COLOR && i[9].name == SECTION5_COLOR;
    assert GROUP_OUTPUTS[0].name == COLOR;
  }

  /** A link list is wired exactly when both of its parts are. */
  lemma WiredGraphConcat(nodes: seq<Node>, inputs: seq<Socket>, outputs: seq<Socket>, a: seq<Link>, b: seq<Link>)
    ensures WiredGraph(nodes, inputs, outputs, a + b) <==>
            WiredGraph(nodes, inputs, outputs, a) && WiredGraph(nodes, inputs, outputs, b)
  {
    if WiredGraph(nodes, inputs, outputs, a) && WiredGraph(nodes, inputs, outputs, b) {
      forall k | 0 <= k < |a + b|
        ensures LinkEndpointsExist(nodes, inputs, outputs, (a + b)[k])
      {
        if k >= |a| {
          assert (a + b)[k] == b[k - |a|];
        }
      }
    }
    if WiredGraph(nodes, inputs, outputs, a + b) {
      forall k | 0 <= k < |a|
        ensures LinkEndpointsExist(nodes, inputs, outputs, a[k])
      {
        assert (a + b)[k] == a[k];
      }
      forall k | 0 <= k < |b|
        ensures LinkEndpointsExist(nodes, inputs, outputs, b[k])
      {
        assert (a + b)[|a| + k] == b[k];
      }
    }
  }

  /** The handles the links use name the nodes created for them: the two boundary
      pseudo-nodes, then the math comparisons and the colour mixes. */
  lemma GroupNodeKinds()
    ensures |GROUP_NODES| == 10
    ensures GROUP_NODES[GI] == Node(GROUP_INPUT, GroupInputNode)
    ensures GROUP_NODES[GO] == Node(GROUP_OUTPUT, GroupOutputNode)
    ensures forall k :: 0 <= k < 4 ==> GROUP_NODES[MATH_HANDLES[k]] == Node(MATH_NAMES[k], GREATER_THAN)
    ensures forall k :: 0 <= k < 4 ==> GROUP_NODES[MIX_HANDLES[k]] == Node(MIX_NAMES[k], MIX)
  {
  }

  /** A run of links whose endpoints all exist in the finished group. */
  lemma RunWired(run: seq<Link>)
    requires run == LINKS_FIRST || run == LINKS_SECOND || run == LINKS_THIRD || run == LINKS_FOURTH
    ensures WiredGraph(GROUP_NODES, GROUP_INPUTS, GROUP_OUTPUTS, run)
  {
    BoundarySocketsDeclared();
    forall l | l in run
      ensures LinkEndpointsExist(GROUP_NODES, GROUP_INPUTS, GROUP_OUTPUTS, l)
    {
      LinkWired(l);
    }
  }

  /** A single link between created nodes whose boundary sockets are declared ones. */
  lemma LinkWired(l: Link)
    requires l.fromNode < 10 && l.toNode < 10
    requires l.fromNode == GI ==> HasSocket(GROUP_INPUTS, l.fromSocket)
    requires l.toNode == GO ==> HasSocket(GROUP_OUTPUTS, l.toSocket)
    ensures LinkEndpointsExist(GROUP_NODES, GROUP_INPUTS, GROUP_OUTPUTS, l)
  {
    GroupNodeKinds();
  }

  /** Every link satisfies `LinkEndpointsExist` against the finished group: both ends are
      created nodes, and each socket it uses on the group boundary is a declared one. */
  lemma GroupLinksWired()
    ensures WiredGraph(GROUP_NODES, GROUP_INPUTS, GROUP_OUTPUTS, GROUP_LINKS)
  {
    var n, i, o := GROUP_NODES, GROUP_INPUTS, GROUP_OUTPUTS;
    RunWired(LINKS_FIRST);
    RunWired(LINKS_SECOND);
    RunWired(LINKS_THIRD);
    RunWired(LINKS_FOURTH);
    WiredGraphConcat(n, i, o, LINKS_FIRST, LINKS_SECOND);
    WiredGraphConcat(n, i, o, LINKS_FIRST + LINKS_SECOND, LINKS_THIRD);
    WiredGraphConcat(n, i, o, LINKS_FIRST + LINKS_SECOND + LINKS_THIRD, LINKS_FOURTH);
  }

  /** The internal nodes: eight of them, with distinct names, besides the two boundary nodes. */
  lemma InternalNodesDistinct()
    ensures |INTERNAL_NODES| == 8
    ensures forall j, k :: 0 <= j < k < |GROUP_NODES| ==> GROUP_NODES[j].name != GROUP_NODES[k].name
  {
  }

  // ---------------------------------------------------------------------------
  // Destinations

  /** No (destination node, destination socket) pair receives two links. */
  predicate DistinctDestinations(links: seq<Link>)
  {
    forall j, k :: 0 <= j < k < |links| ==>
      links[j].toNode != links[k].toNode || links[j].toSocket != links[k].toSocket
  }

  /** No link of `a` ends at a node some link of `b` ends at. */
  predicate DisjointDestinationNodes(a: seq<Link>, b: seq<Link>)
  {
    forall j, k :: 0 <= j < |a| && 0 <= k < |b| ==> a[j].toNode != b[k].toNode
  }

  lemma DistinctDestinationsConcat(a: seq<Link>, b: seq<Link>)
    requires DistinctDestinations(a) && DistinctDestinations(b)
    requires DisjointDestinationNodes(a, b)
    ensures DistinctDestinations(a + b)
  {
    var ab := a + b;
    forall j, k | 0 <= j < k < |ab|
      ensures ab[j].toNode != ab[k].toNode || ab[j].toSocket != ab[k].toSocket
    {
      if k < |a| {
        assert ab[j] == a[j] && ab[k] == a[k];
      } else if j < |a| {
        assert ab[j] == a[j] && ab[k] == b[k - |a|];
      } else {
        assert ab[j] == b[j - |a|] && ab[k] == b[k - |a|];
      }
    }
  }

  lemma DisjointDestinationNodesConcat(a: seq<Link>, b: seq<Link>, c: seq<Link>)
    requires DisjointDestinationNodes(a, c) && DisjointDestinationNodes(b, c)
    ensures DisjointDestinationNodes(a + b, c)
  {
    var ab := a + b;
    forall j, k | 0 <= j < |ab| && 0 <= k < |c|
      ensures ab[j].toNode != c[k].toNode
    {
      if j < |a| {
        assert ab[j] == a[j];
      } else {
        assert ab[j] == b[j - |a|];
      }
    }
  }

  /** Within a run of links no socket is fed twice. */
  lemma RunsDistinctDestinations()
    ensures DistinctDestinations(LINKS_FIRST) && DistinctDestinations(LINKS_SECOND)
    ensures DistinctDestinations(LINKS_THIRD) && DistinctDestinations(LINKS_FOURTH)
  {
  }

  /** Each run of links ends only at its own section's nodes (the fourth also at the group output). */
  lemma RunsDisjointDestinations()
    ensures DisjointDestinationNodes(LINKS_FIRST, LINKS_SECOND)
    ensures DisjointDestinationNodes(LINKS_FIRST, LINKS_THIRD) && DisjointDestinationNodes(LINKS_SECOND, LINKS_THIRD)
    ensures DisjointDestinationNodes(LINKS_FIRST, LINKS_FOURTH) && DisjointDestinationNodes(LINKS_SECOND, LINKS_FOURTH)
    ensures DisjointDestinationNodes(LINKS_THIRD, LINKS_FOURTH)
  {
  }

  /** The 21 links feed 21 different (node, socket) pairs. */
  lemma GroupDestinationsDistinct()
    ensures |GROUP_LINKS| == 21
    ensures DistinctDestinations(GROUP_LINKS)
  {
    RunsDistinctDestinations();
    RunsDisjointDestinations();
    DistinctDestinationsConcat(LINKS_FIRST, LINKS_SECOND);
    DisjointDestinationNodesConcat(LINKS_FIRST, LINKS_SECOND, LINKS_THIRD);
    DistinctDestinationsConcat(LINKS_FIRST + LINKS_SECOND, LINKS_THIRD);
    DisjointDestinationNodesConcat(LINKS_FIRST, LINKS_SECOND, LINKS_FOURTH);
    DisjointDestinationNodesConcat(LINKS_FIRST + LINKS_SECOND, LINKS_THIRD, LINKS_FOURTH);
    DistinctDestinationsConcat(LINKS_FIRST + LINKS_SECOND + LINKS_THIRD, LINKS_FOURTH);
  }

  // ---------------------------------------------------------------------------
  // The routing

  /** Each section `k` compares `Value` against `Threshold<k+1>` in the k-th math node,
      whose result drives the factor of the k-th mix node. */
  lemma ComparisonLinks()
    ensures forall k :: 0 <= k < 4 ==> Link(GI, VALUE, MATH_HANDLES[k], VALUE) in GROUP_LINKS
    ensures forall k :: 0 <= k < 4 ==> Link(GI, THRESHOLD_NAMES[k], MATH_HANDLES[k], VALUE_001) in GROUP_LINKS
    ensures forall k :: 0 <= k < 4 ==> Link(MATH_HANDLES[k], VALUE, MIX_HANDLES[k], FAC) in GROUP_LINKS
  {
    forall k | 0 <= k < 4
      ensures Link(GI, VALUE, MATH_HANDLES[k], VALUE) in GROUP_LINKS
      ensures Link(GI, THRESHOLD_NAMES[k], MATH_HANDLES[k], VALUE_001) in GROUP_LINKS
      ensures Link(MATH_HANDLES[k], VALUE, MIX_HANDLES[k], FAC) in GROUP_LINKS
    {
      SectionComparison(k);
    }
  }

  lemma SectionComparison(k: nat)
    requires k < 4
    ensures Link(GI, VALUE, MATH_HANDLES[k], VALUE) in GROUP_LINKS
    ensures Link(GI, THRESHOLD_NAMES[k], MATH_HANDLES[k], VALUE_001) in GROUP_LINKS
    ensures Link(MATH_HANDLES[k], VALUE, MIX_HANDLES[k], FAC) in GROUP_LINKS
  {
    var g := GROUP_LINKS;
    if k == 0 {
      assert LINKS_FIRST[0] in g && LINKS_FIRST[1] in g && LINKS_FIRST[2] in g;
    } else if k == 1 {
      assert LINKS_SECOND[1] in g && LINKS_SECOND[3] in g && LINKS_SECOND[4] in g;
    } else if k == 2 {
      assert LINKS_THIRD[2] in g && LINKS_THIRD[3] in g && LINKS_THIRD[4] in g;
    } else {
      assert LINKS_FOURTH[1] in g && LINKS_FOURTH[2] in g && LINKS_FOURTH[3] in g;
    }
  }

  /** The mix nodes form a chain through `Color` into `Color1`: the first mixes the first two
      section colours, each later one mixes the previous result with the next colour, and the
      last one alone feeds the group output. */
  lemma MixChainLinks()
    ensures Link(GI, SECTION1_COLOR, MIX0, COLOR1) in GROUP_LINKS
    ensures forall k :: 0 <= k < 4 ==> Link(GI, SECTION_COLOR_NAMES[k + 1], MIX_HANDLES[k], COLOR2) in GROUP_LINKS
    ensures forall k :: 0 <= k < 3 ==> Link(MIX_HANDLES[k], COLOR, MIX_HANDLES[k + 1], COLOR1) in GROUP_LINKS
    ensures Link(MIX3, COLOR, GO, COLOR) in GROUP_LINKS
  {
    var g := GROUP_LINKS;
    assert LINKS_FIRST[3] in g;
    assert LINKS_FOURTH[5] in g;
    forall k | 0 <= k < 4
      ensures Link(GI, SECTION_COLOR_NAMES[k + 1], MIX_HANDLES[k], COLOR2) in GROUP_LINKS
      ensures k < 3 ==> Link(MIX_HANDLES[k], COLOR, MIX_HANDLES[k + 1], COLOR1) in GROUP_LINKS
    {
      SectionMix(k);
    }
  }

  lemma SectionMix(k: nat)
    requires k < 4
    ensures Link(GI, SECTION_COLOR_NAMES[k + 1], MIX_HANDLES[k], COLOR2) in GROUP_LINKS
    ensures k < 3 ==> Link(MIX_HANDLES[k], COLOR, MIX_HANDLES[k + 1], COLOR1) in GROUP_LINKS
  {
    var g := GROUP_LINKS;
    if k == 0 {
      assert LINKS_FIRST[4] in g && LINKS_SECOND[0] in g;
    } else if k == 1 {
      assert LINKS_SECOND[2] in g && LINKS_THIRD[0] in g;
    } else if k == 2 {
      assert LINKS_THIRD[1] in g && LINKS_FOURTH[0] in g;
    } else {
      assert LINKS_FOURTH[4] in g;
    }
  }

  /** The group output is fed by one link only, from the last mix node's `Color`. */
  lemma GroupOutputFedByLastMix()
    ensures forall l :: l in GROUP_LINKS && l.toNode == GO ==> l == Link(MIX3, COLOR, GO, COLOR)
  {
    forall l | l in GROUP_LINKS && l.toNode == GO
      ensures l == Link(MIX3, COLOR, GO, COLOR)
    {
      assert l in LINKS_FIRST || l in LINKS_SECOND || l in LINKS_THIRD || l in LINKS_FOURTH;
    }
  }

  /** Some link reads the named socket of the group input node. */
  predicate InputUsed(links: seq<Link>, name: string)
  {
    exists l :: l in links && l.fromNode == GI && l.fromSocket == name
  }

  /** Every declared input is read by at least one link. */
  lemma EveryInputUsed()
    ensures forall k :: 0 <= k < |GROUP_INPUTS| ==> InputUsed(GROUP_LINKS, GROUP_INPUTS[k].name)
  {
    forall k | 0 <= k < |GROUP_INPUTS|
      ensures InputUsed(GROUP_LINKS, GROUP_INPUTS[k].name)
    {
      InputUsedAt(k);
    }
  }

  lemma InputUsedAt(k: nat)
    requires k < |GROUP_INPUTS|
    ensures InputUsed(GROUP_LINKS, GROUP_INPUTS[k].name)
  {
    var name := GROUP_INPUTS[k].name;
    if k == 0 {
      assert name == VALUE;
      SectionComparison(0);
      assert Link(GI, VALUE, MATH_HANDLES[0], VALUE) in GROUP_LINKS;
    } else if k < 5 {
      assert name == THRESHOLD_NAMES[k - 1];
      SectionComparison(k - 1);
      assert Link(GI, THRESHOLD_NAMES[k - 1], MATH_HANDLES[k - 1], VALUE_001) in GROUP_LINKS;
    } else if k == 5 {
      assert name == SECTION1_COLOR;
      assert LINKS_FIRST[3] in GROUP_LINKS;
    } else {
      assert name == SECTION_COLOR_NAMES[k - 5];
      SectionMix(k - 6);
      assert Link(GI, SECTION_COLOR_NAMES[k - 5], MIX_HANDLES[k - 6], COLOR2) in GROUP_LINKS;
    }
  }

  // ---------------------------------------------------------------------------
  // Acyclicity

  /** A position in the group's data flow: inputs first, then the comparisons, then the
      mixes in chain order, then the output. */
  function Rank(h: NodeHandle): nat
  {
    if h == GI then 0
    else if h == MATH0 || h == MATH1 || h == MATH2 || h == MATH3 then 1
    else if h == MIX0 then 2
    else if h == MIX1 then 3
    else if h == MIX2 then 4
    else if h == MIX3 then 5
    else 6
  }

  /** A non-empty sequence of links, each ending where the next begins. */
  predicate IsPath(links: seq<Link>, path: seq<Link>)
  {
    |path| > 0 &&
    (forall i :: 0 <= i < |path| ==> path[i] in links) &&
    (forall i :: 0 <= i < |path| - 1 ==> path[i].toNode == path[i + 1].fromNode)
  }

  predicate Climbs(links: seq<Link>)
  {
    forall l :: l in links ==> Rank(l.fromNode) < Rank(l.toNode)
  }

  /** Along a path of links that each climb in rank, the rank climbs by at least the path's length. */
  lemma {:induction false} PathClimbs(links: seq<Link>, path: seq<Link>)
    requires Climbs(links) && IsPath(links, path)
    ensures Rank(path[0].fromNode) + |path| <= Rank(path[|path| - 1].toNode)
    decreases |path|
  {
    assert path[0] in links;
    if |path| > 1 {
      var rest := path[1..];
      assert IsPath(links, rest) by {
        forall i | 0 <= i < |rest| - 1 ensures rest[i].toNode == rest[i + 1].fromNode {
          assert rest[i] == path[i + 1] && rest[i + 1] == path[i + 2];
        }
      }
      PathClimbs(links, rest);
      assert path[0].toNode == rest[0].fromNode;
    }
  }

  lemma GroupLinksClimb()
    ensures Climbs(GROUP_LINKS)
  {
    forall l | l in GROUP_LINKS
      ensures Rank(l.fromNode) < Rank(l.toNode)
    {
      assert l in LINKS_FIRST || l in LINKS_SECOND || l in LINKS_THIRD || l in LINKS_FOURTH;
    }
  }

  /** The link graph has no cycle: no path of links returns to the node it started from. */
  lemma GroupAcyclic()
    ensures forall path: seq<Link> :: IsPath(GROUP_LINKS, path) ==> path[0].fromNode != path[|path| - 1].toNode
  {
    GroupLinksClimb();
    forall path: seq<Link> | IsPath(GROUP_LINKS, path)
      ensures path[0].fromNode != path[|path| - 1].toNode
    {
      PathClimbs(GROUP_LINKS, path);
    }
  }
}
