/**
 * `json_nodes.py`: a node group is turned into plain data (`Node_Tree.serialize`)
 * and plain data back into a new node group (`Node_Tree.create`). Python
 * reflection (`dir`, `getattr`) is an explicit attribute list per element;
 * the host's node types and which property assignments it accepts are
 * parameters.
 */
module JsonNodes {
  import opened Wrappers
  import opened PyList

  /** A Python value as the serialiser meets it. */
  datatype Datum =
    | Int(i: int)
    | Str(s: string)
    | Float(f: real)
    | Bool(b: bool)
    | Null                                  // None: neither iterable nor named
    | Items(items: seq<Datum>)              // any iterable that is not a string: list, tuple, vector, colour
    | Thing(id: nat, name: Option<string>)  // any other host value; `name` when `dir` lists one

  /** No host value with a name is left anywhere inside. */
  predicate Plain(d: Datum)
    decreases d
  {
    match d
    case Items(items) => forall i :: 0 <= i < |items| ==> Plain(items[i])
    case Thing(_, name) => name.None?
    case _ => true
  }

  /**
   * `sanitize`, lines 49-59: numbers, strings and booleans are returned
   * unchanged; a non-iterable comes back as its name when it has one and
   * unchanged otherwise; an iterable becomes the list of its sanitised
   * items, of the same length and in the same order.
   */
  function Sanitize(d: Datum): (r: Datum)
    ensures d.Int? || d.Str? || d.Float? || d.Bool? || d.Null? ==> r == d
    ensures d.Thing? ==> r == if d.name.Some? then Str(d.name.value) else d
    ensures d.Items? ==> r.Items? && |r.items| == |d.items|
    ensures Plain(r)
    decreases d
  {
    match d
    case Items(items) => Items(seq(|items|, i requires 0 <= i < |items| => Sanitize(items[i])))
    case Thing(_, name) => if name.Some? then Str(name.value) else d
    case _ => d
  }

  /** A value with no named host value inside is its own sanitised form; so sanitising twice is sanitising once. */
  lemma {:induction false} PlainFixed(d: Datum)
    requires Plain(d)
    ensures Sanitize(d) == d
    decreases d
  {
    if d.Items? {
      forall i | 0 <= i < |d.items|
        ensures Sanitize(d.items[i]) == d.items[i]
      {
        PlainFixed(d.items[i]);
      }
      assert Sanitize(d).items == d.items;
    }
  }

  /** `sanitize` is idempotent. */
  lemma SanitizeIdempotent(d: Datum)
    ensures Sanitize(Sanitize(d)) == Sanitize(d)
  {
    PlainFixed(Sanitize(d));
  }

  /** Item i of a sanitised iterable is item i sanitised. */
  lemma SanitizeItems(d: Datum, i: nat)
    requires d.Items? && i < |d.items|
    ensures Sanitize(d).items[i] == Sanitize(d.items[i])
  {
  }

  /** The first entry under key `k` of a list of pairs: an attribute of `dir`, or a key of a dict. */
  function Find<T>(entries: seq<(string, T)>, k: string): (r: Option<T>)
    ensures r.Some? ==> (k, r.value) in entries
    ensures r.None? <==> forall i :: 0 <= i < |entries| ==> entries[i].0 != k
  {
    if entries == [] then None
    else if entries[0].0 == k then Some(entries[0].1)
    else Find(entries[1..], k)
  }

  /** Python's `d[k] = v` on a dict: an existing key keeps its place and takes the new value, a new key goes last. */
  function Put<T>(entries: seq<(string, T)>, k: string, v: T): (r: seq<(string, T)>)
    ensures Find(r, k) == Some(v)
    ensures forall j :: j != k ==> Find(r, j) == Find(entries, j)
    ensures Find(entries, k).None? ==> r == entries + [(k, v)]
  {
    if entries == [] then [(k, v)]
    else if entries[0].0 == k then [(k, v)] + entries[1..]
    else [entries[0]] + Put(entries[1..], k, v)
  }

  /** Every key appears once, as in `dir`'s list or a dict. */
  predicate UniqueKeys<T>(entries: seq<(string, T)>)
  {
    forall i, j :: 0 <= i < j < |entries| ==> entries[i].0 != entries[j].0
  }

  /** An attribute as `getattr` reads it: its value, and whether it is callable (a method). */
  datatype Attr = Attr(value: Datum, callable: bool)

  /** An element of a node group (a node, link or socket) as `dir` lists its attributes, in order. */
  type Element = seq<(string, Attr)>

  /** A serialised element: a dict from property names to sanitised values, in insertion order. */
  type Fields = seq<(string, Datum)>

  /** `Node_Tree.exclusion`, lines 37-39. */
  const EXCLUSION: seq<string> := ["dimensions", "height", "internal_links", "inputs", "outputs", "rna_type"]

  /** The prefixes `include` rejects, line 64. */
  const PREFIXES: seq<string> := ["bl_", "_", "is_", "rna_"]

  /** Line 64: the name starts with one of the rejected prefixes. */
  predicate Hidden(prop: string)
  {
    exists pre :: pre in PREFIXES && pre <= prop
  }

  /**
   * `include`, lines 61-72: a property is serialised unless its name has a
   * rejected prefix or is excluded, or its value is callable; reading a
   * missing attribute raises AttributeError, but only after both name tests.
   */
  function Include(e: Element, prop: string): (r: Result<bool, PyError>)
    ensures Hidden(prop) || prop in EXCLUSION ==> r == Ok(false)
    ensures r == Ok(true) ==> Find(e, prop).Some? && !Find(e, prop).value.callable
    ensures r.Err? <==> !Hidden(prop) && prop !in EXCLUSION && Find(e, prop).None?
  {
    if Hidden(prop) then Ok(false)
    else if prop in EXCLUSION then Ok(false)
    else match Find(e, prop)
      case None => Err(AttributeError)
      case Some(a) => Ok(!a.callable)
  }

  /** The names `include` lets through: no rejected prefix, not excluded, present and not callable. */
  predicate Included(e: Element, prop: string)
  {
    Include(e, prop) == Ok(true)
  }

  /** Lines 76-80: `{prop: sanitize(getattr(element, prop)) for prop in dir(element) if include(element, prop)}`, over the names in `names`. */
  function Listed(e: Element, names: seq<string>): (r: Fields)
    decreases |names|
  {
    if names == [] then []
    else
      var rest := Listed(e, names[1..]);
      if Included(e, names[0]) then [(names[0], Sanitize(Find(e, names[0]).value.value))] + rest else rest
  }

  /** The names `dir` lists, in order. */
  function Names<T>(entries: seq<(string, T)>): (r: seq<string>)
    ensures |r| == |entries| && forall i :: 0 <= i < |entries| ==> r[i] == entries[i].0
  {
    seq(|entries|, i requires 0 <= i < |entries| => entries[i].0)
  }

  /** The comprehension holds exactly the included names among those listed, each with its sanitised value. */
  lemma {:induction false} ListedFind(e: Element, names: seq<string>)
    ensures forall k ::
              Find(Listed(e, names), k) == if k in names && Included(e, k) then Some(Sanitize(Find(e, k).value.value)) else None
    decreases |names|
  {
    if names != [] {
      ListedFind(e, names[1..]);
      forall k
        ensures k in names <==> k == names[0] || k in names[1..]
      {
        if k in names && k != names[0] {
          var i :| 0 <= i < |names| && names[i] == k;
          assert names[1..][i - 1] == k;
        }
      }
    }
  }

  /** When `dir` lists each name once, so does the comprehension. */
  lemma {:induction false} ListedUnique(e: Element, names: seq<string>)
    requires forall i, j :: 0 <= i < j < |names| ==> names[i] != names[j]
    ensures UniqueKeys(Listed(e, names))
    decreases |names|
  {
    if names != [] {
      ListedUnique(e, names[1..]);
      ListedFind(e, names[1..]);
      var rest := Listed(e, names[1..]);
      assert names[0] !in names[1..] by {
        forall i | 0 <= i < |names[1..]|
          ensures names[1..][i] != names[0]
        {
          assert names[1..][i] == names[i + 1];
        }
      }
      if Included(e, names[0]) {
        var r := Listed(e, names);
        assert Find(rest, names[0]).None?;
        assert r == [(names[0], Sanitize(Find(e, names[0]).value.value))] + rest;
        forall i, j | 0 <= i < j < |r|
          ensures r[i].0 != r[j].0
        {
          assert r[j] == rest[j - 1];
          if i > 0 {
            assert r[i] == rest[i - 1];
          }
        }
      }
    }
  }

  /** Lines 81-82: each name in `additions` is read (AttributeError when missing) and stored, in order. */
  function Additions(f: Fields, e: Element, additions: seq<string>): (r: Result<Fields, PyError>)
    ensures r.Err? <==> exists i :: 0 <= i < |additions| && Find(e, additions[i]).None?
    ensures r.Err? ==> r.error == AttributeError
    decreases |additions|
  {
    if additions == [] then Ok(f)
    else match Find(e, additions[0])
      case None => Err(AttributeError)
      case Some(a) => Additions(Put(f, additions[0], Sanitize(a.value)), e, additions[1..])
  }

  /** After the additions, a key is present exactly when it was before or is added; an added key holds its attribute's sanitised value. */
  lemma {:induction false} AdditionsKeys(f: Fields, e: Element, additions: seq<string>)
    requires Additions(f, e, additions).Ok?
    ensures var r := Additions(f, e, additions).value;
      forall k :: (Find(r, k).Some? <==> Find(f, k).Some? || k in additions) &&
        (k in additions ==> Find(r, k) == Some(Sanitize(Find(e, k).value.value))) &&
        (k !in additions ==> Find(r, k) == Find(f, k))
    decreases |additions|
  {
    if additions != [] {
      var a := Find(e, additions[0]).value;
      var f1 := Put(f, additions[0], Sanitize(a.value));
      AdditionsKeys(f1, e, additions[1..]);
      forall k
        ensures k in additions <==> k == additions[0] || k in additions[1..]
      {
        if k in additions && k != additions[0] {
          var i :| 0 <= i < |additions| && additions[i] == k;
          assert additions[1..][i - 1] == k;
        }
      }
    }
  }

  /** `serialize_element`, lines 74-83. */
  function SerializeElement(e: Element, additions: seq<string>): (r: Result<Fields, PyError>)
    ensures r.Err? <==> exists i :: 0 <= i < |additions| && Find(e, additions[i]).None?
  {
    Additions(Listed(e, Names(e)), e, additions)
  }

  /**
   * What `serialize_element` gives for an element whose `dir` lists each
   * name once: it fails exactly when an addition is missing; otherwise
   * its keys are the included names and the additions, each holding the
   * attribute's sanitised value.
   */
  lemma SerializeElementKeys(e: Element, additions: seq<string>)
    requires UniqueKeys(e)
    requires SerializeElement(e, additions).Ok?
    ensures var r := SerializeElement(e, additions).value;
      forall k :: (Find(r, k).Some? <==> Included(e, k) || k in additions) &&
        (Find(r, k).Some? ==> Find(r, k) == Some(Sanitize(Find(e, k).value.value)))
  {
    var names := Names(e);
    ListedFind(e, names);
    AdditionsKeys(Listed(e, names), e, additions);
    forall k | Included(e, k)
      ensures k in names
    {
      var i :| 0 <= i < |e| && e[i] == (k, Find(e, k).value);
      assert names[i] == k;
    }
  }

  /** The socket properties lines 88-92 read, for inputs and for outputs. */
  const INPUT_PROPS: seq<string> := ["description", "enabled", "link_limit", "name", "node", "show_expanded", "type", "default_value"]
  const OUTPUT_PROPS: seq<string> := ["description", "enabled", "name"]

  /** Lines 98-101 for one socket: `{prop: sanitize(getattr(element, prop)) for prop in props if prop in dir(element)}`. */
  function SocketFields(el: Element, props: seq<string>): (r: Fields)
    ensures forall k :: Find(r, k).Some? <==> k in props && Find(el, k).Some?
    ensures forall k :: Find(r, k).Some? ==> Find(r, k) == Some(Sanitize(Find(el, k).value.value))
    decreases |props|
  {
    if props == [] then []
    else
      var rest := SocketFields(el, props[1..]);
      match Find(el, props[0])
      case None => rest
      case Some(a) => [(props[0], Sanitize(a.value))] + rest
  }

  /** A node of the group being serialised: its name, its `dir` attributes, and its sockets' attributes. */
  datatype Node = Node(name: string, attrs: Element, inputs: seq<Element>, outputs: seq<Element>)

  /** A node group: its nodes, links and interface sockets. */
  datatype Group = Group(nodes: seq<Node>, links: seq<Element>, inputs: seq<Element>, outputs: seq<Element>)

  /**
   * A serialised node: the dict `serialize_element` made, and the lists
   * lines 97-101 store under "inputs" and "outputs" (keys `include` never
   * lets into the dict itself).
   */
  datatype NodeData = NodeData(fields: Fields, inputs: seq<Fields>, outputs: seq<Fields>)

  /** `tree_data`: exactly the four keys lines 114-130 write. */
  datatype TreeData = TreeData(nodes: seq<(string, NodeData)>, links: seq<Fields>, inputs: seq<Fields>, outputs: seq<Fields>)

  /** `serialize_node`, lines 85-102. */
  function SerializeNode(n: Node): (r: Result<NodeData, PyError>)
    ensures r.Err? <==> Find(n.attrs, "bl_idname").None?
    ensures r.Ok? ==> |r.value.inputs| == |n.inputs| && |r.value.outputs| == |n.outputs|
  {
    match SerializeElement(n.attrs, ["bl_idname"])
    case Err(e) => Err(e)
    case Ok(f) =>
      Ok(NodeData(f, seq(|n.inputs|, i requires 0 <= i < |n.inputs| => SocketFields(n.inputs[i], INPUT_PROPS)),
                     seq(|n.outputs|, i requires 0 <= i < |n.outputs| => SocketFields(n.outputs[i], OUTPUT_PROPS))))
  }

  /**
   * A serialised node carries its `bl_idname`, never an "inputs" or
   * "outputs" key among its own fields, and for each socket exactly the
   * listed properties that socket has.
   */
  lemma SerializedNode(n: Node)
    requires UniqueKeys(n.attrs) && SerializeNode(n).Ok?
    ensures var d := SerializeNode(n).value;
      Find(d.fields, "bl_idname") == Some(Sanitize(Find(n.attrs, "bl_idname").value.value)) &&
      Find(d.fields, "inputs").None? && Find(d.fields, "outputs").None? &&
      (forall i, k :: 0 <= i < |n.inputs| ==> (Find(d.inputs[i], k).Some? <==> k in INPUT_PROPS && Find(n.inputs[i], k).Some?)) &&
      (forall i, k :: 0 <= i < |n.outputs| ==> (Find(d.outputs[i], k).Some? <==> k in OUTPUT_PROPS && Find(n.outputs[i], k).Some?))
  {
    SerializeElementKeys(n.attrs, ["bl_idname"]);
    assert "inputs" in EXCLUSION && "outputs" in EXCLUSION;
  }

  /** Lines 115-118: `{node.name: serialize_node(node) for node in nodes}`, stored after `acc`. */
  function SerializeNodes(acc: seq<(string, NodeData)>, nodes: seq<Node>): (r: Result<seq<(string, NodeData)>, PyError>)
    decreases |nodes|
  {
    if nodes == [] then Ok(acc)
    else match SerializeNode(nodes[0])
      case Err(e) => Err(e)
      case Ok(d) => SerializeNodes(Put(acc, nodes[0].name, d), nodes[1..])
  }

  /** Lines 119-129: one serialised dict per link or interface socket, in order. */
  function SerializeAll(elements: seq<Element>, additions: seq<string>): (r: Result<seq<Fields>, PyError>)
    ensures r.Ok? ==> |r.value| == |elements|
    ensures r.Ok? ==> forall i :: 0 <= i < |elements| ==> SerializeElement(elements[i], additions) == Ok(r.value[i])
    decreases |elements|
  {
    if elements == [] then Ok([])
    else match SerializeElement(elements[0], additions)
      case Err(e) => Err(e)
      case Ok(f) =>
        match SerializeAll(elements[1..], additions)
        case Err(e) => Err(e)
        case Ok(rest) => Ok([f] + rest)
  }

  /** `serialize`, lines 112-130: nodes keyed by name, then links (`serialize_link`), then the interface (`serialize_group_io`). */
  function Serialize(g: Group): (r: Result<TreeData, PyError>)
  {
    match SerializeNodes([], g.nodes)
    case Err(e) => Err(e)
    case Ok(nodes) =>
      match SerializeAll(g.links, [])
      case Err(e) => Err(e)
      case Ok(links) =>
        match SerializeAll(g.inputs, ["bl_socket_idname"])
        case Err(e) => Err(e)
        case Ok(inputs) =>
          match SerializeAll(g.outputs, ["bl_socket_idname"])
          case Err(e) => Err(e)
          case Ok(outputs) => Ok(TreeData(nodes, links, inputs, outputs))
  }

  /** The names of a list of nodes, in order. */
  function NodeNames(nodes: seq<Node>): (r: seq<string>)
    ensures |r| == |nodes| && forall i :: 0 <= i < |nodes| ==> r[i] == nodes[i].name
  {
    seq(|nodes|, i requires 0 <= i < |nodes| => nodes[i].name)
  }

  /** The serialised nodes are keyed by exactly the group's node names, other keys keeping what they held before. */
  lemma {:induction false} SerializedNodeKeys(acc: seq<(string, NodeData)>, nodes: seq<Node>)
    requires SerializeNodes(acc, nodes).Ok?
    ensures var r := SerializeNodes(acc, nodes).value;
      forall k :: (k in NodeNames(nodes) ==> Find(r, k).Some?) && (k !in NodeNames(nodes) ==> Find(r, k) == Find(acc, k))
    decreases |nodes|
  {
    if nodes != [] {
      var d := SerializeNode(nodes[0]).value;
      SerializedNodeKeys(Put(acc, nodes[0].name, d), nodes[1..]);
      assert NodeNames(nodes) == [nodes[0].name] + NodeNames(nodes[1..]);
    }
  }

  /** When node names are distinct, each name is keyed to that node serialised. */
  lemma {:induction false} SerializedNodeValues(acc: seq<(string, NodeData)>, nodes: seq<Node>)
    requires SerializeNodes(acc, nodes).Ok?
    requires forall i, j :: 0 <= i < j < |nodes| ==> nodes[i].name != nodes[j].name
    ensures var r := SerializeNodes(acc, nodes).value;
      forall i :: 0 <= i < |nodes| ==> Find(r, nodes[i].name).Some? && SerializeNode(nodes[i]) == Ok(Find(r, nodes[i].name).value)
    decreases |nodes|
  {
    if nodes != [] {
      var d := SerializeNode(nodes[0]).value;
      var acc1 := Put(acc, nodes[0].name, d);
      SerializedNodeValues(acc1, nodes[1..]);
      SerializedNodeKeys(acc1, nodes[1..]);
      assert nodes[0].name !in NodeNames(nodes[1..]);
      forall i | 0 < i < |nodes|
        ensures nodes[1..][i - 1] == nodes[i]
      {
      }
    }
  }

  /** The serialised group: nodes keyed by exactly their names, one dict per link and interface socket, in order. */
  lemma SerializeShape(g: Group)
    requires Serialize(g).Ok?
    ensures var t := Serialize(g).value;
      (forall k :: Find(t.nodes, k).Some? <==> k in NodeNames(g.nodes)) &&
      |t.links| == |g.links| && |t.inputs| == |g.inputs| && |t.outputs| == |g.outputs|
  {
    SerializedNodeKeys([], g.nodes);
  }

  // ---------------------------------------------------------------------
  // Building a node group from its serialised form (`create`)
  // ---------------------------------------------------------------------

  /** Python truthiness of a (deserialised) value. */
  predicate Truthy(d: Datum)
  {
    match d
    case Int(i) => i != 0
    case Str(s) => s != ""
    case Float(f) => f != 0.0
    case Bool(b) => b
    case Null => false
    case Items(items) => items != []
    case Thing(_, _) => true
  }

  /** A property set on an element the build creates, by name. */
  type Props = map<string, Datum>

  /** A node type the host knows, with the names of the sockets a new node of that type gets. */
  datatype NodeKind = NodeKind(inputs: seq<string>, outputs: seq<string>)

  /** The host's part of building a group: its node types, and which property assignments `setattr` accepts. */
  datatype Host = Host(kinds: map<string, NodeKind>, accepts: (string, Datum) -> bool)

  /** A node in the group being built. */
  datatype BuiltNode = BuiltNode(name: string, kind: string, props: Props, parent: Option<string>, inputs: seq<Props>, outputs: seq<Props>)

  /** A link, from output socket `fromSocket` of node `fromNode` to input socket `toSocket` of node `toNode` (positions in the group). */
  datatype Link = Link(fromNode: nat, fromSocket: nat, toNode: nat, toSocket: nat)

  /** What the group being built holds. */
  datatype Graph = Graph(inputs: seq<Props>, outputs: seq<Props>, nodes: seq<BuiltNode>, links: seq<Link>)

  /** A build step's result: the group as far as it got, and the exception that stopped it, if any. */
  datatype Built = Built(graph: Graph, error: Option<PyError>)

  datatype Side = In | Out

  /**
   * `set_element`, lines 132-138, as a value: each pair is assigned in order;
   * an assignment the host refuses is reported (its name in the second half)
   * and skipped, and the rest still go ahead.
   */
  function Assigned(props: Props, items: Fields, accepts: (string, Datum) -> bool): (r: (Props, seq<string>))
    decreases |items|
  {
    if items == [] then (props, [])
    else
      var rest := Assigned(if accepts(items[0].0, items[0].1) then props[items[0].0 := items[0].1] else props, items[1..], accepts);
      (rest.0, (if accepts(items[0].0, items[0].1) then [] else [items[0].0]) + rest.1)
  }

  /**
   * With each name once among the pairs: every accepted pair is set, every
   * refused name is reported (and only those), and properties not assigned
   * successfully keep their value.
   */
  lemma {:induction false} AssignedSets(props: Props, items: Fields, accepts: (string, Datum) -> bool)
    requires UniqueKeys(items)
    ensures var r := Assigned(props, items, accepts);
      forall i :: 0 <= i < |items| && accepts(items[i].0, items[i].1) ==> items[i].0 in r.0 && r.0[items[i].0] == items[i].1
    ensures var r := Assigned(props, items, accepts);
      forall k :: k in r.1 <==> exists i :: 0 <= i < |items| && items[i].0 == k && !accepts(items[i].0, items[i].1)
    ensures var r := Assigned(props, items, accepts);
      forall k :: (forall i :: 0 <= i < |items| && items[i].0 == k ==> !accepts(items[i].0, items[i].1)) ==>
        (k in r.0 <==> k in props) && (k in props ==> r.0[k] == props[k])
    decreases |items|
  {
    AssignedReports(props, items, accepts);
    AssignedKeeps(props, items, accepts);
    if items != [] {
      var (k0, v0) := items[0];
      var p1 := if accepts(k0, v0) then props[k0 := v0] else props;
      AssignedSets(p1, items[1..], accepts);
      assert forall i :: 0 < i < |items| ==> items[1..][i - 1] == items[i];
      forall i | 0 < i < |items|
        ensures items[i].0 != k0
      {
        assert items[0].0 != items[i].0;
      }
      AssignedKeeps(p1, items[1..], accepts);
    }
  }

  /** The names reported are exactly those of the refused pairs. */
  lemma {:induction false} AssignedReports(props: Props, items: Fields, accepts: (string, Datum) -> bool)
    ensures var r := Assigned(props, items, accepts);
      forall k :: k in r.1 <==> exists i :: 0 <= i < |items| && items[i].0 == k && !accepts(items[i].0, items[i].1)
    decreases |items|
  {
    if items != [] {
      var (k0, v0) := items[0];
      var p1 := if accepts(k0, v0) then props[k0 := v0] else props;
      var tail := items[1..];
      AssignedReports(p1, tail, accepts);
      var rest := Assigned(p1, tail, accepts).1;
      assert var r := Assigned(p1, tail, accepts);
        forall k :: k in r.1 <==> exists i :: 0 <= i < |tail| && tail[i].0 == k && !accepts(tail[i].0, tail[i].1);
      var head := if accepts(k0, v0) then [] else [k0];
      assert Assigned(props, items, accepts).1 == head + rest;
      forall k
        ensures k in head + rest <==> exists i :: 0 <= i < |items| && items[i].0 == k && !accepts(items[i].0, items[i].1)
      {
        if k in rest {
          var j :| 0 <= j < |tail| && tail[j].0 == k && !accepts(tail[j].0, tail[j].1);
          assert items[j + 1] == tail[j];
        }
        if exists i :: 0 <= i < |items| && items[i].0 == k && !accepts(items[i].0, items[i].1) {
          var i :| 0 <= i < |items| && items[i].0 == k && !accepts(items[i].0, items[i].1);
          if i > 0 {
            assert tail[i - 1] == items[i];
          }
        }
      }
    }
  }

  /** A property every one of whose pairs is refused keeps its value (or stays absent). */
  lemma {:induction false} AssignedKeeps(props: Props, items: Fields, accepts: (string, Datum) -> bool)
    ensures var r := Assigned(props, items, accepts);
      forall k :: (forall i :: 0 <= i < |items| && items[i].0 == k ==> !accepts(items[i].0, items[i].1)) ==>
        (k in r.0 <==> k in props) && (k in props ==> r.0[k] == props[k])
    decreases |items|
  {
    if items != [] {
      var (k0, v0) := items[0];
      var p1 := if accepts(k0, v0) then props[k0 := v0] else props;
      AssignedKeeps(p1, items[1..], accepts);
      assert forall i :: 0 < i < |items| ==> items[1..][i - 1] == items[i];
    }
  }

  /** `set_element`, lines 132-138: the assignments in order, refused ones reported and skipped. */
  method SetElement(props: Props, items: Fields, accepts: (string, Datum) -> bool) returns (r: Props, failed: seq<string>)
    ensures (r, failed) == Assigned(props, items, accepts)
  {
    r, failed := props, [];
    var i := 0;
    assert items[i..] == items;
    while i < |items|
      invariant 0 <= i <= |items|
      invariant Assigned(r, items[i..], accepts).0 == Assigned(props, items, accepts).0
      invariant failed + Assigned(r, items[i..], accepts).1 == Assigned(props, items, accepts).1
    {
      var (prop, data) := items[i];
      assert items[i..][1..] == items[i + 1..];
      ghost var rest := Assigned(if accepts(prop, data) then r[prop := data] else r, items[i + 1..], accepts);
      assert Assigned(r, items[i..], accepts) == (rest.0, (if accepts(prop, data) then [] else [prop]) + rest.1);
      if accepts(prop, data) {
        r := r[prop := data];
      } else {
        assert failed + ([prop] + rest.1) == (failed + [prop]) + rest.1;
        failed := failed + [prop];
      }
      i := i + 1;
    }
    assert items[i..] == [];
    assert failed + [] == failed;
  }

  /** Which of a list of host objects `collection[key]` picks: by name for a string, by (possibly negative) position for an int. */
  function Pick(names: seq<string>, key: Datum): (r: Result<nat, PyError>)
    ensures r.Ok? ==> r.value < |names|
    ensures key.Str? ==> (r.Ok? <==> key.s in names) && (r.Ok? ==> names[r.value] == key.s)
    ensures !key.Str? && !key.Int? ==> r == Err(TypeError)
  {
    match key
    case Str(s) => if s in names then Ok(FirstIndex(names, s).value) else Err(KeyError)
    case Int(i) => if 0 <= i < |names| then Ok(i) else if -|names| <= i < 0 then Ok(|names| + i) else Err(IndexError)
    case _ => Err(TypeError)
  }

  /** The names of the nodes built so far, in order. */
  function BuiltNames(nodes: seq<BuiltNode>): (r: seq<string>)
    ensures |r| == |nodes| && forall i :: 0 <= i < |nodes| ==> r[i] == nodes[i].name
  {
    seq(|nodes|, i requires 0 <= i < |nodes| => nodes[i].name)
  }

  /** A socket's name as the host looks it up (a socket whose name was set to a non-string answers to none). */
  function SocketNames(sockets: seq<Props>): (r: seq<string>)
    ensures |r| == |sockets|
  {
    seq(|sockets|, i requires 0 <= i < |sockets| =>
      if "name" in sockets[i] && sockets[i]["name"].Str? then sockets[i]["name"].s else "")
  }

  /** Lines 153-155: one interface socket made from its type and name (KeyError when either is missing), then its properties set. */
  function AddIo(g: Graph, side: Side, el: Fields, accepts: (string, Datum) -> bool): (r: Built)
    ensures r.graph.nodes == g.nodes && r.graph.links == g.links
    ensures r.error.None? ==>
      (side == In ==> |r.graph.inputs| == |g.inputs| + 1 && r.graph.outputs == g.outputs) &&
      (side == Out ==> |r.graph.outputs| == |g.outputs| + 1 && r.graph.inputs == g.inputs)
    ensures r.error.Some? <==> Find(el, "bl_socket_idname").None? || Find(el, "name").None?
  {
    match Find(el, "bl_socket_idname")
    case None => Built(g, Some(KeyError))
    case Some(kind) =>
      match Find(el, "name")
      case None => Built(g, Some(KeyError))
      case Some(name) =>
        var made := Assigned(map["bl_socket_idname" := kind, "name" := name], el, accepts).0;
        Built(if side == In then g.(inputs := g.inputs + [made]) else g.(outputs := g.outputs + [made]), None)
  }

  /** Lines 152-155: the interface sockets of one side, in order, stopping at the first exception. */
  function AddIos(g: Graph, side: Side, els: seq<Fields>, accepts: (string, Datum) -> bool): (r: Built)
    ensures r.graph.nodes == g.nodes && r.graph.links == g.links
    decreases |els|
  {
    if els == [] then Built(g, None)
    else
      var b := AddIo(g, side, els[0], accepts);
      if b.error.Some? then b else AddIos(b.graph, side, els[1..], accepts)
  }

  /** A node of type `kind` as `nodes.new` makes it, named `name`, with its type's sockets. */
  function NewNode(name: string, kind: string, k: NodeKind): BuiltNode
  {
    BuiltNode(name, kind, map[], None, FreshSockets(k.inputs), FreshSockets(k.outputs))
  }

  /** New sockets with the given names, in order. */
  function FreshSockets(names: seq<string>): (r: seq<Props>)
    ensures |r| == |names| && forall i :: 0 <= i < |names| ==> r[i] == map["name" := Str(names[i])]
  {
    if names == [] then [] else [map["name" := Str(names[0])]] + FreshSockets(names[1..])
  }

  /** The pairs of `items` whose key is not one of `keys`. */
  function Without(items: Fields, keys: seq<string>): (r: Fields)
    ensures forall k :: Find(r, k) == if k in keys then None else Find(items, k)
    decreases |items|
  {
    if items == [] then []
    else if items[0].0 in keys then Without(items[1..], keys)
    else [items[0]] + Without(items[1..], keys)
  }

  /**
   * Lines 165-172: the node is made from its "bl_idname" (KeyError when
   * missing, TypeError when not a string, RuntimeError when the host knows
   * no such type), named, and given every property of its data except
   * "parent", "inputs" and "outputs".
   */
  function Made(g: Graph, name: string, nd: NodeData, host: Host): (r: Built)
    ensures r.graph.links == g.links && r.graph.inputs == g.inputs && r.graph.outputs == g.outputs
    ensures r.error.Some? ==> r.graph == g
    ensures r.error.None? <==> (Find(nd.fields, "bl_idname").Some? && Find(nd.fields, "bl_idname").value.Str? &&
      Find(nd.fields, "bl_idname").value.s in host.kinds)
    ensures r.error.None? ==> (|r.graph.nodes| == |g.nodes| + 1 && (forall i :: 0 <= i < |g.nodes| ==> r.graph.nodes[i] == g.nodes[i]) &&
      r.graph.nodes[|g.nodes|].name == name && r.graph.nodes[|g.nodes|].kind == Find(nd.fields, "bl_idname").value.s &&
      r.graph.nodes[|g.nodes|].parent.None?)
  {
    match Find(nd.fields, "bl_idname")
    case None => Built(g, Some(KeyError))
    case Some(kind) =>
      if !kind.Str? then Built(g, Some(TypeError))
      else if kind.s !in host.kinds then Built(g, Some(RuntimeError))
      else
        var node := NewNode(name, kind.s, host.kinds[kind.s]);
        var props := Assigned(node.props, Without(nd.fields, ["parent", "inputs", "outputs"]), host.accepts).0;
        Built(g.(nodes := g.nodes + [node.(props := props)]), None)
  }

  /** Two node lists hold the same names in the same places. */
  predicate SameNames(a: seq<BuiltNode>, b: seq<BuiltNode>)
  {
    |a| == |b| && forall i :: 0 <= i < |a| ==> a[i].name == b[i].name
  }

  /** `tree_data['nodes'][parent_name]['location']` (line 179): a KeyError for an unknown name or a missing location, a TypeError for an unhashable key. */
  function DataLocation(data: TreeData, key: Datum): (r: Result<Datum, PyError>)
    ensures r.Ok? ==> key.Str? && Find(data.nodes, key.s).Some? && Find(Find(data.nodes, key.s).value.fields, "location") == Some(r.value)
  {
    if key.Items? then Err(TypeError)
    else if !key.Str? then Err(KeyError)
    else match Find(data.nodes, key.s)
      case None => Err(KeyError)
      case Some(pd) =>
        match Find(pd.fields, "location")
        case None => Err(KeyError)
        case Some(loc) => Ok(loc)
  }

  /**
   * Lines 173-179, for the node just made (the last): only a truthy
   * "parent" is looked up among the nodes made so far and set; then the
   * node's own location is set again, and then the parent's, from the data.
   */
  function Parented(g: Graph, nd: NodeData, data: TreeData): (r: Built)
    requires |g.nodes| > 0
    ensures r.graph.links == g.links && r.graph.inputs == g.inputs && r.graph.outputs == g.outputs
    ensures SameNames(r.graph.nodes, g.nodes)
    ensures forall i :: 0 <= i < |g.nodes| ==> (r.graph.nodes[i].kind == g.nodes[i].kind &&
      r.graph.nodes[i].inputs == g.nodes[i].inputs && r.graph.nodes[i].outputs == g.nodes[i].outputs)
  {
    var last := |g.nodes| - 1;
    match Find(nd.fields, "parent")
    case None => Built(g, None)
    case Some(parentName) =>
      if !Truthy(parentName) then Built(g, None)
      else match Pick(BuiltNames(g.nodes), parentName)
        case Err(e) => Built(g, Some(e))
        case Ok(p) =>
          var nodes1 := g.nodes[last := g.nodes[last].(parent := Some(g.nodes[p].name))];
          match Find(nd.fields, "location")
          case None => Built(g.(nodes := nodes1), Some(KeyError))
          case Some(loc) =>
            var nodes2 := nodes1[last := nodes1[last].(props := nodes1[last].props["location" := loc])];
            match DataLocation(data, parentName)
            case Err(e) => Built(g.(nodes := nodes2), Some(e))
            case Ok(ploc) => Built(g.(nodes := nodes2[p := nodes2[p].(props := nodes2[p].props["location" := ploc])]), None)
  }

  /**
   * The parent rule: a node gets a parent exactly when its data names a
   * truthy "parent" that is found among the nodes made so far; nothing at
   * all changes without one; with one, the node's location is its own
   * data's and the parent's location is the parent's data's, set last.
   */
  lemma ParentRule(g: Graph, nd: NodeData, data: TreeData)
    requires |g.nodes| > 0 && g.nodes[|g.nodes| - 1].parent.None?
    ensures var r := Parented(g, nd, data); var pn := Find(nd.fields, "parent");
      (!(pn.Some? && Truthy(pn.value)) ==> r == Built(g, None)) &&
      (r.error.None? ==> (r.graph.nodes[|g.nodes| - 1].parent.Some? <==> pn.Some? && Truthy(pn.value)))
    ensures var r := Parented(g, nd, data); var pn := Find(nd.fields, "parent");
      r.error.None? && pn.Some? && Truthy(pn.value) ==>
        var p := Pick(BuiltNames(g.nodes), pn.value).value;
        var last := |g.nodes| - 1;
        r.graph.nodes[last].parent == Some(g.nodes[p].name) &&
        r.graph.nodes[p].props["location"] == DataLocation(data, pn.value).value &&
        (p != last ==> r.graph.nodes[last].props["location"] == Find(nd.fields, "location").value)
  {
  }

  /** Lines 180-182 for one side of the node just made: socket i takes element i's properties; IndexError past the last socket. */
  function Socketed(g: Graph, side: Side, els: seq<Fields>, i: nat, accepts: (string, Datum) -> bool): (r: Built)
    requires |g.nodes| > 0
    ensures r.graph.links == g.links && r.graph.inputs == g.inputs && r.graph.outputs == g.outputs
    ensures SameNames(r.graph.nodes, g.nodes)
    ensures r.error.Some? <==> |els| > i && |els| > |if side == In then g.nodes[|g.nodes| - 1].inputs else g.nodes[|g.nodes| - 1].outputs|
    decreases |els| - i
  {
    if i >= |els| then Built(g, None)
    else
      var last := g.nodes[|g.nodes| - 1];
      var sockets := if side == In then last.inputs else last.outputs;
      if i >= |sockets| then Built(g, Some(IndexError))
      else
        var updated := Assigned(sockets[i], els[i], accepts).0;
        var node := if side == In then last.(inputs := sockets[i := updated]) else last.(outputs := sockets[i := updated]);
        Socketed(g.(nodes := g.nodes[|g.nodes| - 1 := node]), side, els, i + 1, accepts)
  }

  /** One socket of the last node set: the rest of the elements go on from the graph it leaves. */
  lemma SocketedStep(g: Graph, side: Side, els: seq<Fields>, i: nat, accepts: (string, Datum) -> bool)
    requires |g.nodes| > 0 && i < |els|
    requires i < |if side == In then g.nodes[|g.nodes| - 1].inputs else g.nodes[|g.nodes| - 1].outputs|
    ensures var last := g.nodes[|g.nodes| - 1];
      var sockets := if side == In then last.inputs else last.outputs;
      var updated := Assigned(sockets[i], els[i], accepts).0;
      var node := if side == In then last.(inputs := sockets[i := updated]) else last.(outputs := sockets[i := updated]);
      Socketed(g, side, els, i, accepts) == Socketed(g.(nodes := g.nodes[|g.nodes| - 1 := node]), side, els, i + 1, accepts)
  {
  }

  /**
   * Lines 164-182: the nodes in the given order, stopping at the first
   * exception. Node i made is entry i of the order, and when nothing
   * raises there is one node per entry.
   */
  function AddNodes(g: Graph, order: seq<(string, NodeData)>, data: TreeData, host: Host): (r: Built)
    ensures r.graph.links == g.links && r.graph.inputs == g.inputs && r.graph.outputs == g.outputs
    ensures |g.nodes| <= |r.graph.nodes| <= |g.nodes| + |order|
    ensures r.error.None? ==> |r.graph.nodes| == |g.nodes| + |order|
    ensures forall i :: 0 <= i < |g.nodes| ==> r.graph.nodes[i].name == g.nodes[i].name
    ensures forall i :: 0 <= i < |order| && |g.nodes| + i < |r.graph.nodes| ==> r.graph.nodes[|g.nodes| + i].name == order[i].0
    decreases |order|, 5
  {
    if order == [] then Built(g, None) else AddFirstNode(g, order, data, host)
  }

  /** Lines 165-172 for the first entry of a non-empty order, then the rest of its steps and the rest of the nodes. */
  function AddFirstNode(g: Graph, order: seq<(string, NodeData)>, data: TreeData, host: Host): (r: Built)
    requires order != []
    ensures r.graph.links == g.links && r.graph.inputs == g.inputs && r.graph.outputs == g.outputs
    ensures |g.nodes| <= |r.graph.nodes| <= |g.nodes| + |order|
    ensures r.error.None? ==> |r.graph.nodes| == |g.nodes| + |order|
    ensures forall i :: 0 <= i < |g.nodes| ==> r.graph.nodes[i].name == g.nodes[i].name
    ensures forall i :: 0 <= i < |order| && |g.nodes| + i < |r.graph.nodes| ==> r.graph.nodes[|g.nodes| + i].name == order[i].0
    decreases |order|, 4
  {
    var b := Made(g, order[0].0, order[0].1, host);
    if b.error.Some? then b else AfterMade(g, b.graph, order, data, host)
  }

  /** The steps after lines 165-172, on the graph `made` that holds one more node than `g`, named after the order's first entry. */
  function AfterMade(g: Graph, made: Graph, order: seq<(string, NodeData)>, data: TreeData, host: Host): (r: Built)
    requires order != [] && |made.nodes| == |g.nodes| + 1 && made.nodes[|g.nodes|].name == order[0].0
    requires made.links == g.links && made.inputs == g.inputs && made.outputs == g.outputs
    requires forall i :: 0 <= i < |g.nodes| ==> made.nodes[i].name == g.nodes[i].name
    ensures r.graph.links == g.links && r.graph.inputs == g.inputs && r.graph.outputs == g.outputs
    ensures |g.nodes| <= |r.graph.nodes| <= |g.nodes| + |order|
    ensures r.error.None? ==> |r.graph.nodes| == |g.nodes| + |order|
    ensures forall i :: 0 <= i < |g.nodes| ==> r.graph.nodes[i].name == g.nodes[i].name
    ensures forall i :: 0 <= i < |order| && |g.nodes| + i < |r.graph.nodes| ==> r.graph.nodes[|g.nodes| + i].name == order[i].0
    decreases |order|, 3
  {
    var rest := order[1..];
    var r := ParentStage(made, order[0].1, rest, data, host);
    ShiftedNames(g.nodes, made.nodes, r.graph.nodes, order, rest);
    r
  }

  /** Lines 173-179 for the node just made, then its sockets and the remaining nodes `rest`. */
  function ParentStage(g: Graph, nd: NodeData, rest: seq<(string, NodeData)>, data: TreeData, host: Host): (r: Built)
    requires |g.nodes| > 0
    ensures r.graph.links == g.links && r.graph.inputs == g.inputs && r.graph.outputs == g.outputs
    ensures |g.nodes| <= |r.graph.nodes| <= |g.nodes| + |rest|
    ensures r.error.None? ==> |r.graph.nodes| == |g.nodes| + |rest|
    ensures forall i :: 0 <= i < |g.nodes| ==> r.graph.nodes[i].name == g.nodes[i].name
    ensures forall i :: 0 <= i < |rest| && |g.nodes| + i < |r.graph.nodes| ==> r.graph.nodes[|g.nodes| + i].name == rest[i].0
    decreases |rest| + 1, 2
  {
    var b := Parented(g, nd, data);
    if b.error.Some? then b else SocketStage(b.graph, In, nd, rest, data, host)
  }

  /** Lines 180-182 for one side of the node just made; inputs, then outputs, then the remaining nodes `rest`. */
  function SocketStage(g: Graph, side: Side, nd: NodeData, rest: seq<(string, NodeData)>, data: TreeData, host: Host): (r: Built)
    requires |g.nodes| > 0
    ensures r.graph.links == g.links && r.graph.inputs == g.inputs && r.graph.outputs == g.outputs
    ensures |g.nodes| <= |r.graph.nodes| <= |g.nodes| + |rest|
    ensures r.error.None? ==> |r.graph.nodes| == |g.nodes| + |rest|
    ensures forall i :: 0 <= i < |g.nodes| ==> r.graph.nodes[i].name == g.nodes[i].name
    ensures forall i :: 0 <= i < |rest| && |g.nodes| + i < |r.graph.nodes| ==> r.graph.nodes[|g.nodes| + i].name == rest[i].0
    decreases |rest| + 1, if side == In then 1 else 0
  {
    var b := Socketed(g, side, if side == In then nd.inputs else nd.outputs, 0, host.accepts);
    if b.error.Some? then b
    else if side == In then SocketStage(b.graph, Out, nd, rest, data, host)
    else AddNodes(b.graph, rest, data, host)
  }

  /** One node made with the first name, then the rest made in order, is every node made in order. */
  lemma ShiftedNames(before: seq<BuiltNode>, made: seq<BuiltNode>, after: seq<BuiltNode>, order: seq<(string, NodeData)>, rest: seq<(string, NodeData)>)
    requires |order| > 0 && rest == order[1..] && |made| == |before| + 1
    requires made[|before|].name == order[0].0
    requires |after| >= |made|
    requires forall i :: 0 <= i < |made| ==> after[i].name == made[i].name
    requires forall j :: 0 <= j < |rest| && |made| + j < |after| ==> after[|made| + j].name == rest[j].0
    ensures forall i :: 0 <= i < |order| && |before| + i < |after| ==> after[|before| + i].name == order[i].0
  {
    forall i | 0 <= i < |order| && |before| + i < |after|
      ensures after[|before| + i].name == order[i].0
    {
      if i > 0 {
        assert after[|made| + (i - 1)].name == rest[i - 1].0;
      }
    }
  }

  /** One end of a link (line 185 or 186): the node by `nodeKey`, then its socket by `socketKey`, each lookup failing as the host's does. */
  function Endpoint(g: Graph, link: Fields, nodeKey: string, socketKey: string, side: Side): (r: Result<(nat, nat), PyError>)
    ensures r.Ok? ==> (r.value.0 < |g.nodes| &&
      r.value.1 < |if side == In then g.nodes[r.value.0].inputs else g.nodes[r.value.0].outputs|)
  {
    match Find(link, nodeKey)
    case None => Err(KeyError)
    case Some(nodeName) =>
      match Pick(BuiltNames(g.nodes), nodeName)
      case Err(e) => Err(e)
      case Ok(n) =>
        var sockets := if side == In then g.nodes[n].inputs else g.nodes[n].outputs;
        match Find(link, socketKey)
        case None => Err(KeyError)
        case Some(socketName) =>
          match Pick(SocketNames(sockets), socketName)
          case Err(e) => Err(e)
          case Ok(k) => Ok((n, k))
  }

  /** Lines 185-187: one link, from an output socket to an input socket. */
  function AddLink(g: Graph, link: Fields): (r: Built)
    ensures r.graph.nodes == g.nodes && r.graph.inputs == g.inputs && r.graph.outputs == g.outputs
    ensures r.error.None? ==> |r.graph.links| == |g.links| + 1
    ensures r.error.Some? ==> r.graph == g
  {
    match Endpoint(g, link, "from_node", "from_socket", Out)
    case Err(e) => Built(g, Some(e))
    case Ok(from) =>
      match Endpoint(g, link, "to_node", "to_socket", In)
      case Err(e) => Built(g, Some(e))
      case Ok(to) => Built(g.(links := g.links + [Link(from.0, from.1, to.0, to.1)]), None)
  }

  /** Lines 184-187: the links in order, stopping at the first exception. */
  function AddLinks(g: Graph, links: seq<Fields>): (r: Built)
    ensures r.graph.nodes == g.nodes && r.graph.inputs == g.inputs && r.graph.outputs == g.outputs
    ensures |r.graph.links| <= |g.links| + |links|
    ensures r.error.None? ==> |r.graph.links| == |g.links| + |links|
    decreases |links|
  {
    if links == [] then Built(g, None)
    else
      var b := AddLink(g, links[0]);
      if b.error.Some? then b else AddLinks(b.graph, links[1..])
  }

  /** Line 161's sort key: the node's "type" is "FRAME". */
  predicate IsFrame(entry: (string, NodeData))
  {
    Find(entry.1.fields, "type") == Some(Str("FRAME"))
  }

  /** The entries whose sort key is `frame`, in their original order. */
  function WithKey(nodes: seq<(string, NodeData)>, frame: bool): (r: seq<(string, NodeData)>)
    ensures |r| <= |nodes|
    decreases |nodes|
  {
    if nodes == [] then []
    else if IsFrame(nodes[0]) == frame then [nodes[0]] + WithKey(nodes[1..], frame)
    else WithKey(nodes[1..], frame)
  }

  /**
   * Lines 158-162: `sort(key=..., reverse=True)` is stable, so the result
   * is the FRAME nodes, then the others, each in document order.
   */
  function FramesFirst(nodes: seq<(string, NodeData)>): (r: seq<(string, NodeData)>)
    ensures |r| == |nodes|
  {
    WithKeySplit(nodes);
    WithKey(nodes, true) + WithKey(nodes, false)
  }

  lemma {:induction false} WithKeyAppend(a: seq<(string, NodeData)>, b: seq<(string, NodeData)>, frame: bool)
    ensures WithKey(a + b, frame) == WithKey(a, frame) + WithKey(b, frame)
    decreases |a|
  {
    if a == [] {
      assert a + b == b;
    } else {
      var t := a[1..];
      WithKeyAppend(t, b, frame);
      assert a == [a[0]] + t && a + b == [a[0]] + (t + b);
      WithKeyCons(a[0], t, frame);
      WithKeyCons(a[0], t + b, frame);
      var h, x, y := if IsFrame(a[0]) == frame then [a[0]] else [], WithKey(t, frame), WithKey(b, frame);
      assert WithKey(a + b, frame) == h + (x + y);
      assert h + (x + y) == (h + x) + y;
    }
  }

  /** WithKey on a sequence with a given first entry. */
  lemma WithKeyCons(x: (string, NodeData), t: seq<(string, NodeData)>, frame: bool)
    ensures WithKey([x] + t, frame) == (if IsFrame(x) == frame then [x] else []) + WithKey(t, frame)
  {
    assert ([x] + t)[0] == x && ([x] + t)[1..] == t;
  }

  lemma {:induction false} WithKeySplit(nodes: seq<(string, NodeData)>)
    ensures multiset(WithKey(nodes, true)) + multiset(WithKey(nodes, false)) == multiset(nodes)
    ensures |WithKey(nodes, true)| + |WithKey(nodes, false)| == |nodes|
    decreases |nodes|
  {
    if nodes != [] {
      WithKeySplit(nodes[1..]);
      assert nodes == [nodes[0]] + nodes[1..];
    }
  }

  /** Every entry WithKey keeps has the key asked for. */
  lemma {:induction false} WithKeyKeyed(nodes: seq<(string, NodeData)>, frame: bool)
    ensures var r := WithKey(nodes, frame); forall i :: 0 <= i < |r| ==> IsFrame(r[i]) == frame
    decreases |nodes|
  {
    if nodes != [] {
      var tail := nodes[1..];
      WithKeyKeyed(tail, frame);
      assert nodes == [nodes[0]] + tail;
      WithKeyCons(nodes[0], tail, frame);
      var t := WithKey(tail, frame);
      assert forall i :: 0 <= i < |t| ==> IsFrame(t[i]) == frame;
    }
  }

  lemma {:induction false} WithKeyAll(nodes: seq<(string, NodeData)>, frame: bool)
    requires forall i :: 0 <= i < |nodes| ==> IsFrame(nodes[i]) == frame
    ensures WithKey(nodes, frame) == nodes && WithKey(nodes, !frame) == []
    decreases |nodes|
  {
    if nodes != [] {
      WithKeyAll(nodes[1..], frame);
    }
  }

  /**
   * The node order is a stable sort by the key, FRAME first: a permutation
   * of the document's nodes, no FRAME node after a non-FRAME one, and the
   * nodes of each key in their document order.
   */
  lemma FramesFirstSorted(nodes: seq<(string, NodeData)>)
    ensures var r := FramesFirst(nodes);
      multiset(r) == multiset(nodes) && |r| == |nodes| &&
      (forall i, j :: 0 <= i < j < |r| && IsFrame(r[j]) ==> IsFrame(r[i])) &&
      WithKey(r, true) == WithKey(nodes, true) && WithKey(r, false) == WithKey(nodes, false)
  {
    var f, o := WithKey(nodes, true), WithKey(nodes, false);
    WithKeyKeyed(nodes, true);
    WithKeyKeyed(nodes, false);
    WithKeySplit(nodes);
    WithKeyAppend(f, o, true);
    WithKeyAppend(f, o, false);
    WithKeyAll(f, true);
    WithKeyAll(o, false);
    assert f + [] == f && [] + o == o;
  }

  /** The empty group `node_groups.new` makes. */
  const EMPTY := Graph([], [], [], [])

  /** Lines 150-155: the interface inputs, then outputs, of a new group. */
  function BuildInterface(data: TreeData, host: Host): (r: Built)
    ensures r.graph.nodes == [] && r.graph.links == []
  {
    var b := AddIos(EMPTY, In, data.inputs, host.accepts);
    if b.error.Some? then b else AddIos(b.graph, Out, data.outputs, host.accepts)
  }

  /**
   * `create`, lines 150-189, after the new group is made: the interface,
   * then the nodes FRAME first, then the links; the first exception stops
   * it, leaving what was made so far. Whatever happens, node i is entry i
   * of the FRAME-first order; and links are made only after every node, so
   * once the group holds a link it holds one node per entry of the data.
   */
  function Build(data: TreeData, host: Host): (r: Built)
    ensures |r.graph.nodes| <= |data.nodes|
    ensures forall i :: 0 <= i < |r.graph.nodes| ==> r.graph.nodes[i].name == FramesFirst(data.nodes)[i].0
    ensures |r.graph.links| > 0 ==> |r.graph.nodes| == |data.nodes|
  {
    var b := BuildInterface(data, host);
    if b.error.Some? then b
    else
      NodesFromEmpty(b.graph, FramesFirst(data.nodes), data, host);
      var b := AddNodes(b.graph, FramesFirst(data.nodes), data, host);
      if b.error.Some? then b
      else AddLinks(b.graph, data.links)
  }

  /** Node i of a build that started with no nodes is entry i of the order. */
  lemma NodesFromEmpty(g: Graph, order: seq<(string, NodeData)>, data: TreeData, host: Host)
    requires g.nodes == []
    ensures var r := AddNodes(g, order, data, host);
      forall i :: 0 <= i < |r.graph.nodes| ==> r.graph.nodes[i].name == order[i].0
  {
    var r := AddNodes(g, order, data, host);
    forall i | 0 <= i < |r.graph.nodes|
      ensures r.graph.nodes[i].name == order[i].0
    {
      assert |g.nodes| + i == i;
    }
  }

  /** A node group in the blend file, as `create` fills it. */
  class NodeGroup {
    const name: string
    var inputs: seq<Props>
    var outputs: seq<Props>
    var nodes: seq<BuiltNode>
    var links: seq<Link>

    function State(): Graph
      reads this
    {
      Graph(inputs, outputs, nodes, links)
    }

    /** `node_groups.new(name, "GeometryNodeTree")`: an empty group. */
    constructor (name: string)
      ensures this.name == name && State() == EMPTY
    {
      this.name := name;
      inputs, outputs, nodes, links := [], [], [], [];
    }

    /** Lines 152-155 for one side of the interface. */
    method MakeIos(side: Side, els: seq<Fields>, accepts: (string, Datum) -> bool) returns (err: Option<PyError>)
      modifies this
      ensures Built(State(), err) == AddIos(old(State()), side, els, accepts)
    {
      var i := 0;
      while i < |els|
        invariant 0 <= i <= |els|
        invariant AddIos(State(), side, els[i..], accepts) == AddIos(old(State()), side, els, accepts)
      {
        assert els[i..][1..] == els[i + 1..];
        var el := els[i];
        var kind := Find(el, "bl_socket_idname");
        if kind.None? {
          return Some(KeyError);
        }
        var ioName := Find(el, "name");
        if ioName.None? {
          return Some(KeyError);
        }
        var made, _ := SetElement(map["bl_socket_idname" := kind.value, "name" := ioName.value], el, accepts);
        if side == In {
          inputs := inputs + [made];
        } else {
          outputs := outputs + [made];
        }
        i := i + 1;
      }
      assert els[i..] == [];
      err := None;
    }

    /** Lines 180-182 for one side of the node made last. */
    method SetSockets(side: Side, els: seq<Fields>, accepts: (string, Datum) -> bool) returns (err: Option<PyError>)
      requires |nodes| > 0
      modifies this
      ensures Built(State(), err) == Socketed(old(State()), side, els, 0, accepts)
    {
      var g := State();
      var i := 0;
      while i < |els|
        invariant 0 <= i <= |els| && |g.nodes| > 0
        invariant State() == old(State()) && g == State().(nodes := g.nodes)
        invariant Socketed(g, side, els, i, accepts) == Socketed(old(State()), side, els, 0, accepts)
      {
        var last := g.nodes[|g.nodes| - 1];
        var sockets := if side == In then last.inputs else last.outputs;
        if i >= |sockets| {
          nodes := g.nodes;
          return Some(IndexError);
        }
        SocketedStep(g, side, els, i, accepts);
        var updated, _ := SetElement(sockets[i], els[i], accepts);
        var node := if side == In then last.(inputs := sockets[i := updated]) else last.(outputs := sockets[i := updated]);
        g := g.(nodes := g.nodes[|g.nodes| - 1 := node]);
        i := i + 1;
      }
      nodes := g.nodes;
      err := None;
    }

    /** Lines 173-179: the parent rule for the node made last. */
    method SetParent(nd: NodeData, data: TreeData) returns (err: Option<PyError>)
      requires |nodes| > 0
      modifies this
      ensures Built(State(), err) == Parented(old(State()), nd, data)
    {
      var last := |nodes| - 1;
      var parentName := Find(nd.fields, "parent");
      if parentName.None? || !Truthy(parentName.value) {
        return None;
      }
      var pick := Pick(BuiltNames(nodes), parentName.value);
      if pick.Err? {
        return Some(pick.error);
      }
      var p := pick.value;
      nodes := nodes[last := nodes[last].(parent := Some(nodes[p].name))];
      var loc := Find(nd.fields, "location");
      if loc.None? {
        return Some(KeyError);
      }
      nodes := nodes[last := nodes[last].(props := nodes[last].props["location" := loc.value])];
      var ploc := DataLocation(data, parentName.value);
      if ploc.Err? {
        return Some(ploc.error);
      }
      nodes := nodes[p := nodes[p].(props := nodes[p].props["location" := ploc.value])];
      err := None;
    }

    /** Lines 165-182 for the first entry of `order`: the node made, named, given its properties, parented and given its sockets' properties. */
    method MakeNode(order: seq<(string, NodeData)>, data: TreeData, host: Host) returns (err: Option<PyError>)
      requires order != []
      modifies this
      ensures err.Some? ==> Built(State(), err) == AddFirstNode(old(State()), order, data, host)
      ensures err.None? ==> AddNodes(State(), order[1..], data, host) == AddFirstNode(old(State()), order, data, host)
    {
      var (nodeName, nd) := order[0];
      var kind := Find(nd.fields, "bl_idname");
      if kind.None? {
        return Some(KeyError);
      }
      if !kind.value.Str? {
        return Some(TypeError);
      }
      if kind.value.s !in host.kinds {
        return Some(RuntimeError);
      }
      var node := NewNode(nodeName, kind.value.s, host.kinds[kind.value.s]);
      var props, _ := SetElement(node.props, Without(nd.fields, ["parent", "inputs", "outputs"]), host.accepts);
      nodes := nodes + [node.(props := props)];
      assert State() == Made(old(State()), nodeName, nd, host).graph;
      assert AddFirstNode(old(State()), order, data, host) == ParentStage(State(), nd, order[1..], data, host);
      ghost var before := State();
      err := SetParent(nd, data);
      if err.Some? {
        return;
      }
      assert ParentStage(before, nd, order[1..], data, host) == SocketStage(State(), In, nd, order[1..], data, host);
      before := State();
      err := SetSockets(In, nd.inputs, host.accepts);
      if err.Some? {
        return;
      }
      assert SocketStage(before, In, nd, order[1..], data, host) == SocketStage(State(), Out, nd, order[1..], data, host);
      before := State();
      err := SetSockets(Out, nd.outputs, host.accepts);
      if err.Some? {
        return;
      }
      assert SocketStage(before, Out, nd, order[1..], data, host) == AddNodes(State(), order[1..], data, host);
    }

    /** Lines 164-182: the nodes in the given order. */
    method MakeNodes(order: seq<(string, NodeData)>, data: TreeData, host: Host) returns (err: Option<PyError>)
      modifies this
      ensures Built(State(), err) == AddNodes(old(State()), order, data, host)
    {
      var i := 0;
      while i < |order|
        invariant 0 <= i <= |order|
        invariant AddNodes(State(), order[i..], data, host) == AddNodes(old(State()), order, data, host)
      {
        assert order[i..][1..] == order[i + 1..];
        err := MakeNode(order[i..], data, host);
        if err.Some? {
          return;
        }
        i := i + 1;
      }
      assert order[i..] == [];
      err := None;
    }

    /** Lines 184-187: the links in order. */
    method MakeLinks(linkData: seq<Fields>) returns (err: Option<PyError>)
      modifies this
      ensures Built(State(), err) == AddLinks(old(State()), linkData)
    {
      var i := 0;
      while i < |linkData|
        invariant 0 <= i <= |linkData|
        invariant AddLinks(State(), linkData[i..]) == AddLinks(old(State()), linkData)
      {
        assert linkData[i..][1..] == linkData[i + 1..];
        var from := Endpoint(State(), linkData[i], "from_node", "from_socket", Out);
        if from.Err? {
          return Some(from.error);
        }
        var to := Endpoint(State(), linkData[i], "to_node", "to_socket", In);
        if to.Err? {
          return Some(to.error);
        }
        links := links + [Link(from.value.0, from.value.1, to.value.0, to.value.1)];
        i := i + 1;
      }
      assert linkData[i..] == [];
      err := None;
    }
  }

  /** `bpy.data`: the node groups of the blend file by name. */
  class BlendData {
    var nodeGroups: map<string, NodeGroup>

    constructor (nodeGroups: map<string, NodeGroup>)
      ensures this.nodeGroups == nodeGroups
    {
      this.nodeGroups := nodeGroups;
    }
  }

  /** `Node_Tree`: a group's name, its serialised form, and the group once it exists. */
  class NodeTree {
    const name: string
    var treeData: Option<TreeData>
    var nodeGroup: Option<NodeGroup>

    /** Lines 41-45: the group of that name, if the blend file has one. */
    constructor (name: string, treeData: Option<TreeData>, bdata: BlendData)
      ensures this.name == name && this.treeData == treeData
      ensures nodeGroup == if name in bdata.nodeGroups then Some(bdata.nodeGroups[name]) else None
    {
      this.name := name;
      this.treeData := treeData;
      nodeGroup := if name in bdata.nodeGroups then Some(bdata.nodeGroups[name]) else None;
    }

    /** `serialize` storing its result (line 114); `view` is the group as `dir` and `getattr` see it. */
    method SerializeGroup(view: Group) returns (err: Option<PyError>)
      modifies this
      ensures nodeGroup == old(nodeGroup)
      ensures Serialize(view).Ok? ==> err.None? && treeData == Some(Serialize(view).value)
      ensures Serialize(view).Err? ==> err == Some(Serialize(view).error) && treeData == old(treeData)
    {
      var r := Serialize(view);
      if r.Err? {
        return Some(r.error);
      }
      treeData := Some(r.value);
      err := None;
    }

    /**
     * `create`, lines 140-189: an existing group is returned untouched;
     * otherwise a new empty group is registered under the name and built
     * from the serialised data (TypeError straight away when there is none).
     */
    method Create(bdata: BlendData, host: Host) returns (g: NodeGroup, err: Option<PyError>)
      requires nodeGroup.None? ==> name !in bdata.nodeGroups
      modifies this, bdata
      ensures old(nodeGroup).Some? ==>
        g == old(nodeGroup).value && err.None? && unchanged(this) && unchanged(bdata)
      ensures old(nodeGroup).None? ==>
        fresh(g) && g.name == name && nodeGroup == Some(g) && treeData == old(treeData) &&
        bdata.nodeGroups == old(bdata.nodeGroups)[name := g]
      ensures old(nodeGroup).None? && treeData.None? ==> err == Some(TypeError) && g.State() == EMPTY
      ensures old(nodeGroup).None? && treeData.Some? ==> Built(g.State(), err) == Build(treeData.value, host)
    {
      if nodeGroup.Some? {
        return nodeGroup.value, None;
      }
      g := new NodeGroup(name);
      bdata.nodeGroups := bdata.nodeGroups[name := g];
      nodeGroup := Some(g);
      if treeData.None? {
        return g, Some(TypeError);
      }
      var data := treeData.value;
      err := g.MakeIos(In, data.inputs, host.accepts);
      if err.Some? {
        return;
      }
      err := g.MakeIos(Out, data.outputs, host.accepts);
      if err.Some? {
        return;
      }
      err := g.MakeNodes(FramesFirst(data.nodes), data, host);
      if err.Some? {
        return;
      }
      err := g.MakeLinks(data.links);
    }
  }

  /** `Node_Tree(name, tree_data)`, lines 41-47: an existing group's data is replaced by its serialised form. */
  method Open(name: string, treeData: Option<TreeData>, bdata: BlendData, view: Group) returns (t: NodeTree, err: Option<PyError>)
    ensures fresh(t) && t.name == name
    ensures name in bdata.nodeGroups ==> (t.nodeGroup == Some(bdata.nodeGroups[name]) &&
      (err.None? <==> Serialize(view).Ok?) && (err.None? ==> t.treeData == Some(Serialize(view).value)))
    ensures name !in bdata.nodeGroups ==> t.nodeGroup.None? && t.treeData == treeData && err.None?
  {
    t := new NodeTree(name, treeData, bdata);
    err := None;
    if t.nodeGroup.Some? {
      err := t.SerializeGroup(view);
    }
  }
}
