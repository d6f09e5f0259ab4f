/**
 * The part of nipype's workflow engine the wiring code relies on: a workflow
 * is the list of connections made on it, and `connect` appends to that list.
 * A node inside a sub-workflow is addressed by a dotted port name
 * ("outputnode.dwi_file"), exactly as the wiring code writes it.
 */
module Graph {
  import opened Py

  /** One connection: (source node, source port) -> (destination node, destination port). */
  datatype Edge = Edge(srcNode: string, srcPort: string, dstNode: string, dstPort: string)

  /** The edges of one `(src, dst, [(out, in), ...])` tuple handed to `connect`, in order. */
  function Connections(src: string, dst: string, ports: seq<(string, string)>): (r: seq<Edge>)
    ensures |r| == |ports|
    ensures forall i :: 0 <= i < |r| ==> r[i].srcNode == src && r[i].dstNode == dst
    ensures forall i :: 0 <= i < |r| ==> r[i].srcPort == ports[i].0 && r[i].dstPort == ports[i].1
  {
    if ports == [] then [] else [Edge(src, ports[0].0, dst, ports[0].1)] + Connections(src, dst, ports[1..])
  }

  /** The edges that end in port `port` of node `node`. */
  function Into(es: seq<Edge>, node: string, port: string): (r: seq<Edge>)
    ensures |r| <= |es|
  {
    if es == [] then []
    else (if es[0].dstNode == node && es[0].dstPort == port then [es[0]] else []) + Into(es[1..], node, port)
  }

  /** `Into` keeps exactly the edges of `es` that end in that port. */
  lemma {:induction false} IntoMembers(es: seq<Edge>, node: string, port: string)
    ensures forall e :: e in Into(es, node, port) <==> e in es && e.dstNode == node && e.dstPort == port
    decreases |es|
  {
    if es != [] {
      IntoMembers(es[1..], node, port);
      assert es == [es[0]] + es[1..];
    }
  }

  /** Edge `i` ends in port `port` of node `node`, and no other edge does. */
  predicate FedOnceAt(es: seq<Edge>, node: string, port: string, i: int)
  {
    0 <= i < |es| && es[i].dstNode == node && es[i].dstPort == port
    && forall j :: 0 <= j < |es| && j != i ==> !(es[j].dstNode == node && es[j].dstPort == port)
  }

  /** A port fed by a single edge collects exactly that edge. */
  lemma {:induction false} IntoOnce(es: seq<Edge>, node: string, port: string, i: int)
    requires FedOnceAt(es, node, port, i)
    ensures Into(es, node, port) == [es[i]]
    decreases |es|
  {
    if i == 0 {
      IntoNone(es[1..], node, port);
    } else {
      assert FedOnceAt(es[1..], node, port, i - 1);
      IntoOnce(es[1..], node, port, i - 1);
    }
  }

  /** Collecting from two edge lists one after the other. */
  lemma {:induction false} IntoAppend(a: seq<Edge>, b: seq<Edge>, node: string, port: string)
    ensures Into(a + b, node, port) == Into(a, node, port) + Into(b, node, port)
    decreases |a|
  {
    if a == [] {
      assert a + b == b;
    } else {
      var head := if a[0].dstNode == node && a[0].dstPort == port then [a[0]] else [];
      calc {
        Into(a + b, node, port);
        { assert (a + b)[0] == a[0] && (a + b)[1..] == a[1..] + b; }
        head + Into(a[1..] + b, node, port);
        { IntoAppend(a[1..], b, node, port); }
        head + (Into(a[1..], node, port) + Into(b, node, port));
        (head + Into(a[1..], node, port)) + Into(b, node, port);
        Into(a, node, port) + Into(b, node, port);
      }
    }
  }

  /** A port no edge ends in collects nothing. */
  lemma {:induction false} IntoNone(es: seq<Edge>, node: string, port: string)
    requires forall j :: 0 <= j < |es| ==> !(es[j].dstNode == node && es[j].dstPort == port)
    ensures Into(es, node, port) == []
    decreases |es|
  {
    if es != [] {
      IntoNone(es[1..], node, port);
    }
  }

  /** No edge of `es` ends in node `node`, whatever the port. */
  predicate Avoids(es: seq<Edge>, node: string)
  {
    forall i :: 0 <= i < |es| ==> es[i].dstNode != node
  }

  /** A `pe.Workflow` as far as its construction goes: a name, a base directory and its connections. */
  class Workflow {
    var name: string
    var baseDir: Option<string>
    var edges: seq<Edge>

    constructor (name: string)
      ensures this.name == name && baseDir == None && edges == []
    {
      this.name := name;
      baseDir := None;
      edges := [];
    }

    /** `wf.connect(src, dst, ports)`: appends one edge per port pair. */
    method Connect(src: string, dst: string, ports: seq<(string, string)>)
      modifies this
      ensures edges == old(edges) + Connections(src, dst, ports)
      ensures name == old(name) && baseDir == old(baseDir)
    {
      edges := edges + Connections(src, dst, ports);
    }

    /** `wf.connect([...])` with an already assembled list of edges. */
    method ConnectAll(es: seq<Edge>)
      modifies this
      ensures edges == old(edges) + es
      ensures name == old(name) && baseDir == old(baseDir)
    {
      edges := edges + es;
    }
  }

  /**
   * A `pe.Node` wrapping an `IdentityInterface`: its declared fields and the
   * values set on its inputs so far (a field never set is absent).
   */
  class InputNode {
    var name: string
    var fields: seq<string>
    var inputs: map<string, Value>

    constructor (name: string, fields: seq<string>)
      ensures this.name == name && this.fields == fields && inputs == map[]
    {
      this.name := name;
      this.fields := fields;
      inputs := map[];
    }

    /** `node.inputs.<key> = value` (also `node.set_input(key, value)`). */
    method SetInput(key: string, value: Value)
      modifies this
      ensures inputs == old(inputs)[key := value]
      ensures name == old(name) && fields == old(fields)
    {
      inputs := inputs[key := value];
    }
  }

  /** A Python `list` of field names that callers share and builders extend in place. */
  class FieldList {
    var items: seq<string>

    constructor (items: seq<string>)
      ensures this.items == items
    {
      this.items := items;
    }

    /** `fields.copy()`: a new list with the same items. */
    method Copy() returns (c: FieldList)
      ensures fresh(c) && c.items == items
    {
      c := new FieldList(items);
    }

    /** `fields += xs`. */
    method Extend(xs: seq<string>)
      modifies this
      ensures items == old(items) + xs
    {
      items := items + xs;
    }
  }
}
