/** The EMDN classification lookup: a first-match, pre-order, depth-first
    search over a forest of nomenclature nodes. */
module Classification {
  import opened Common

  /** An EMDN nomenclature node; a `null` subtype list is the empty sequence. */
  datatype EmdnNode = EmdnNode(code: string, name: string, subtypes: seq<EmdnNode>)

  /** `findByCodeInSubtypes`: the node itself when its code matches, otherwise
      the first match among its subtypes, searched left to right. */
  function FindByCodeInSubtypes(node: EmdnNode, code: string): (r: Option<EmdnNode>)
    ensures r.Some? ==> r.value.code == code
    decreases node, 1
  {
    if node.code == code then Some(node) else FindInList(node.subtypes, code)
  }

  /** The loop over a list of nodes shared by both Java methods: the first node
      whose subtree holds a match wins. */
  function FindInList(nodes: seq<EmdnNode>, code: string): (r: Option<EmdnNode>)
    ensures r.Some? ==> r.value.code == code
    decreases nodes, 0
  {
    if nodes == [] then None
    else
      match FindByCodeInSubtypes(nodes[0], code)
      case Some(found) => Some(found)
      case None => FindInList(nodes[1..], code)
  }

  /** `findByCodeRecursive` over the whole forest returned by the repository. */
  function FindByCodeRecursive(forest: seq<EmdnNode>, code: string): (r: Option<EmdnNode>)
    ensures r.Some? ==> r.value.code == code
  {
    FindInList(forest, code)
  }

  // ---------------------------------------------------------------------------
  // Reference definitions: occurrence at any depth, and the pre-order listing.

  /** Some node of the tree rooted at `node`, at any depth, carries `code`. */
  predicate Occurs(node: EmdnNode, code: string)
    decreases node
  {
    node.code == code || exists child | child in node.subtypes :: Occurs(child, code)
  }

  /** Some node of the forest, at any depth, carries `code`. */
  predicate OccursInForest(forest: seq<EmdnNode>, code: string) {
    exists root | root in forest :: Occurs(root, code)
  }

  /** The nodes of a tree in pre-order: the root, then each subtree in turn. */
  function PreOrder(node: EmdnNode): seq<EmdnNode>
    decreases node, 1
  {
    [node] + PreOrderList(node.subtypes)
  }

  function PreOrderList(nodes: seq<EmdnNode>): seq<EmdnNode>
    decreases nodes, 0
  {
    if nodes == [] then [] else PreOrder(nodes[0]) + PreOrderList(nodes[1..])
  }

  /** Index of the first node of `s` carrying `code`, if any. */
  function FirstIndexWithCode(s: seq<EmdnNode>, code: string): (r: Option<nat>)
    ensures r.None? <==> forall i | 0 <= i < |s| :: s[i].code != code
    ensures r.Some? ==> r.value < |s| && s[r.value].code == code
                        && forall j | 0 <= j < r.value :: s[j].code != code
  {
    if s == [] then None
    else if s[0].code == code then Some(0)
    else match FirstIndexWithCode(s[1..], code)
      case None => None
      case Some(i) => Some(i + 1)
  }

  /** The node `FirstIndexWithCode` points at. */
  function FirstWithCode(s: seq<EmdnNode>, code: string): Option<EmdnNode> {
    match FirstIndexWithCode(s, code)
    case None => None
    case Some(i) => Some(s[i])
  }

  // ---------------------------------------------------------------------------
  // The search is the first match in pre-order.

  lemma {:induction false} FirstWithCodeAppend(a: seq<EmdnNode>, b: seq<EmdnNode>, code: string)
    ensures FirstWithCode(a + b, code)
         == if FirstWithCode(a, code).Some? then FirstWithCode(a, code) else FirstWithCode(b, code)
  {
    if a == [] {
      assert a + b == b;
    } else {
      assert (a + b)[1..] == a[1..] + b;
      FirstWithCodeAppend(a[1..], b, code);
    }
  }

  lemma {:induction false} SubtreeSearchIsPreOrderFirst(node: EmdnNode, code: string)
    ensures FindByCodeInSubtypes(node, code) == FirstWithCode(PreOrder(node), code)
    decreases node, 1
  {
    if node.code != code {
      ListSearchIsPreOrderFirst(node.subtypes, code);
      FirstWithCodeAppend([node], PreOrderList(node.subtypes), code);
    }
  }

  lemma {:induction false} ListSearchIsPreOrderFirst(nodes: seq<EmdnNode>, code: string)
    ensures FindInList(nodes, code) == FirstWithCode(PreOrderList(nodes), code)
    decreases nodes, 0
  {
    if nodes != [] {
      SubtreeSearchIsPreOrderFirst(nodes[0], code);
      ListSearchIsPreOrderFirst(nodes[1..], code);
      FirstWithCodeAppend(PreOrder(nodes[0]), PreOrderList(nodes[1..]), code);
    }
  }

  /** When several nodes carry the code, the one met first in a pre-order walk
      of the forest is returned; the result is empty exactly when no node of
      the pre-order listing carries the code. */
  lemma FindByCodeRecursiveIsFirstInPreOrder(forest: seq<EmdnNode>, code: string)
    ensures var s := PreOrderList(forest);
            var r := FindByCodeRecursive(forest, code);
            (r.None? <==> forall i | 0 <= i < |s| :: s[i].code != code)
            && (r.Some? ==> exists i | 0 <= i < |s| :: s[i] == r.value
                              && forall j | 0 <= j < i :: s[j].code != code)
  {
    ListSearchIsPreOrderFirst(forest, code);
  }

  lemma {:induction false} SubtreeSearchFindsAnyDepth(node: EmdnNode, code: string)
    ensures FindByCodeInSubtypes(node, code).Some? <==> Occurs(node, code)
    decreases node, 1
  {
    if node.code != code {
      ListSearchFindsAnyDepth(node.subtypes, code);
    }
  }

  lemma {:induction false} ListSearchFindsAnyDepth(nodes: seq<EmdnNode>, code: string)
    ensures FindInList(nodes, code).Some? <==> OccursInForest(nodes, code)
    decreases nodes, 0
  {
    if nodes != [] {
      SubtreeSearchFindsAnyDepth(nodes[0], code);
      ListSearchFindsAnyDepth(nodes[1..], code);
      assert forall n :: n in nodes <==> n == nodes[0] || n in nodes[1..];
    }
  }

  /** The lookup succeeds exactly when some node at some depth of the forest
      carries the code, however deep it is nested. */
  lemma FindByCodeRecursiveIffOccurs(forest: seq<EmdnNode>, code: string)
    ensures FindByCodeRecursive(forest, code).Some? <==> OccursInForest(forest, code)
  {
    ListSearchFindsAnyDepth(forest, code);
  }
}
