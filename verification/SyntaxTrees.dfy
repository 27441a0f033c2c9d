/** Syntax trees as the Code Moniker parser returns them (packages/sql/src/analysis/syntaxNodes.ts). */
module SyntaxTrees {
  import opened Options

  /** `start` and `end` are byte offsets, `line` and `endLine` lines; `language` is that of an embedded region. */
  datatype Node = Node(kind: string, start: nat, end: nat, line: nat, endLine: nat,
                       language: Option<string>, children: seq<Node>)

  /** All nodes that satisfy the predicate, in document order. */
  function FindNodes(root: Node, p: Node -> bool): (r: seq<Node>)
    ensures forall n | n in r :: p(n)
    decreases root, 0
  {
    (if p(root) then [root] else []) + FindAmong(root.children, p)
  }

  function FindAmong(nodes: seq<Node>, p: Node -> bool): (r: seq<Node>)
    ensures forall n | n in r :: p(n)
    decreases nodes, 1
  {
    if nodes == [] then [] else FindNodes(nodes[0], p) + FindAmong(nodes[1..], p)
  }

  function FindKind(root: Node, kind: string): seq<Node> {
    FindNodes(root, (n: Node) => n.kind == kind)
  }

  function DirectChildren(node: Node, kind: string): seq<Node> {
    OfKind(node.children, kind)
  }

  function OfKind(nodes: seq<Node>, kind: string): (r: seq<Node>)
    ensures forall n | n in r :: n in nodes && n.kind == kind
  {
    if nodes == [] then []
    else (if nodes[0].kind == kind then [nodes[0]] else []) + OfKind(nodes[1..], kind)
  }

  function DirectChild(node: Node, kind: string): Option<Node> {
    var found := DirectChildren(node, kind);
    if found == [] then None else Some(found[0])
  }

  // ----- What is found -----------------------------------------------------------------------------

  /** The node itself, or a node inside one of its children. */
  ghost predicate Within(n: Node, root: Node)
    decreases root
  {
    n == root || exists c | c in root.children :: Within(n, c)
  }

  /** Exactly the nodes of the tree that satisfy the predicate are found. */
  lemma {:induction false} FindsExactly(root: Node, p: Node -> bool, n: Node)
    ensures n in FindNodes(root, p) <==> p(n) && Within(n, root)
    decreases root, 0
  {
    FindsAmong(root.children, p, n);
  }

  lemma {:induction false} FindsAmong(nodes: seq<Node>, p: Node -> bool, n: Node)
    ensures n in FindAmong(nodes, p) <==> p(n) && exists c | c in nodes :: Within(n, c)
    decreases nodes, 1
  {
    if nodes != [] {
      FindsExactly(nodes[0], p, n);
      FindsAmong(nodes[1..], p, n);
      assert forall c :: c in nodes <==> c == nodes[0] || c in nodes[1..];
    }
  }

  lemma KindIsFound(root: Node, kind: string, n: Node)
    ensures n in FindKind(root, kind) <==> n.kind == kind && Within(n, root)
  {
    FindsExactly(root, (n: Node) => n.kind == kind, n);
  }

  /** The first child of the kind, if there is one. */
  lemma {:induction false} FirstOfKind(nodes: seq<Node>, kind: string)
    ensures OfKind(nodes, kind) == [] <==> forall n | n in nodes :: n.kind != kind
    ensures OfKind(nodes, kind) != [] ==>
              exists i :: 0 <= i < |nodes| && nodes[i] == OfKind(nodes, kind)[0] && nodes[i].kind == kind
                          && forall j :: 0 <= j < i ==> nodes[j].kind != kind
  {
    if nodes != [] {
      FirstOfKind(nodes[1..], kind);
      if nodes[0].kind == kind {
        assert nodes[0] == OfKind(nodes, kind)[0];
      } else if OfKind(nodes, kind) != [] {
        var i :| 0 <= i < |nodes[1..]| && nodes[1..][i] == OfKind(nodes[1..], kind)[0] && nodes[1..][i].kind == kind
                 && forall j :: 0 <= j < i ==> nodes[1..][j].kind != kind;
        assert nodes[i + 1] == OfKind(nodes, kind)[0];
        forall j | 0 <= j < i + 1 ensures nodes[j].kind != kind {
          if j > 0 {
            assert nodes[j] == nodes[1..][j - 1];
          }
        }
      }
    }
  }

  ghost predicate HasChild(node: Node, kind: string) {
    exists c | c in node.children :: c.kind == kind
  }

  lemma ChildIsFirst(node: Node, kind: string)
    ensures DirectChild(node, kind).Some? <==> HasChild(node, kind)
    ensures DirectChild(node, kind).Some? ==>
              exists i :: 0 <= i < |node.children| && node.children[i] == DirectChild(node, kind).value && node.children[i].kind == kind
                          && forall j :: 0 <= j < i ==> node.children[j].kind != kind
  {
    FirstOfKind(node.children, kind);
  }
}
