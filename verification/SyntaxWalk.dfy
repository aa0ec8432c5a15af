/**
 The walk over a syntax tree of backend/app/rag/chunk.py, which emits one piece per declaration.
 A node's type and text enter only through its declaration kind and name; children are the named ones.
 */
module SyntaxWalk {
  import opened Basics

  /**
   `kind` is what the language's table calls a node of this type, `name` what `_node_name` finds; the span
   is in bytes.
   */
  datatype Node = Node(kind: Option<string>, name: Option<string>, start: nat, end: nat, children: seq<Node>)

  /** What `_make_chunk` is called with, and where in the tree: child indices from the root. */
  datatype Piece = Piece(
    start: nat, end: nat, symbol: Option<string>, kind: string, parent: Option<string>, at: seq<nat>)

  const WRAPPER_KINDS := {"decorated", "export"}
  const CONTAINER_KINDS := {"class", "impl", "struct", "trait", "module"}
  const MAX_WALK_DEPTH := 14

  predicate IsWrapper(n: Node) {
    n.kind.Some? && n.kind.value in WRAPPER_KINDS
  }

  predicate IsContainer(n: Node) {
    n.kind.Some? && n.kind.value in CONTAINER_KINDS
  }

  function OrElse(name: Option<string>, parent: Option<string>): Option<string> {
    if name.Some? then name else parent
  }

  /** `_inner_declaration`: the first child from `i` on that is a declaration and not a wrapper. */
  function InnerFrom(n: Node, i: nat): (j: Option<nat>)
    requires i <= |n.children|
    ensures j.Some? ==> i <= j.value < |n.children| && n.children[j.value].kind.Some? && !IsWrapper(n.children[j.value])
    ensures j.Some? ==> forall k :: i <= k < j.value ==> n.children[k].kind.None? || IsWrapper(n.children[k])
    ensures j.None? ==> forall k :: i <= k < |n.children| ==> n.children[k].kind.None? || IsWrapper(n.children[k])
    decreases |n.children| - i
  {
    if i == |n.children| then None
    else if n.children[i].kind.Some? && !IsWrapper(n.children[i]) then Some(i)
    else InnerFrom(n, i + 1)
  }

  function PieceOf(n: Node, named: Node, parent: Option<string>, at: seq<nat>): Piece
    requires named.kind.Some?
  {
    Piece(n.start, n.end, named.name, named.kind.value, parent, at)
  }

  /** The pieces of one child of a visited node. */
  function Emit(child: Node, at: seq<nat>, parent: Option<string>, depth: nat): seq<Piece>
    decreases child, |child.children| + 2
  {
    if IsWrapper(child) then (
      match InnerFrom(child, 0)
      case None => []
      case Some(j) =>
        var inner := child.children[j];
        if IsContainer(inner) then
          var pieces := Walk(inner, at + [j], OrElse(inner.name, parent), depth + 1);
          if pieces != [] then pieces else [PieceOf(child, inner, parent, at)]
        else [PieceOf(child, inner, parent, at)])
    else if IsContainer(child) then
      var pieces := Walk(child, at, OrElse(child.name, parent), depth + 1);
      if pieces != [] then pieces else [PieceOf(child, child, parent, at)]
    else if child.kind.Some? then [PieceOf(child, child, parent, at)]
    else if child.children != [] then Walk(child, at, parent, depth + 1)
    else []
  }

  function WalkUpTo(node: Node, i: nat, at: seq<nat>, parent: Option<string>, depth: nat): seq<Piece>
    requires i <= |node.children|
    decreases node, i
  {
    if i == 0 then []
    else WalkUpTo(node, i - 1, at, parent, depth) + Emit(node.children[i - 1], at + [i - 1], parent, depth)
  }

  /** The pieces of everything below a node, in order. */
  function Walk(node: Node, at: seq<nat>, parent: Option<string>, depth: nat): seq<Piece>
    decreases node, |node.children| + 1
  {
    if depth > MAX_WALK_DEPTH then [] else WalkUpTo(node, |node.children|, at, parent, depth)
  }

  // ------------------------------------------------------------------ the walk as the source runs it

  method InnerDeclaration(n: Node) returns (inner: Option<nat>)
    ensures inner == InnerFrom(n, 0)
  {
    for i := 0 to |n.children|
      invariant InnerFrom(n, 0) == InnerFrom(n, i)
    {
      var kind := n.children[i].kind;
      if kind.Some? && kind.value !in WRAPPER_KINDS {
        return Some(i);
      }
    }
    inner := None;
  }

  /** `_walk`: the loop over the children, extending the list of pieces. */
  method WalkTree(node: Node, at: seq<nat>, parent: Option<string>, depth: nat) returns (pieces: seq<Piece>)
    ensures pieces == Walk(node, at, parent, depth)
    decreases node
  {
    if depth > MAX_WALK_DEPTH {
      return [];
    }
    pieces := [];
    for i := 0 to |node.children|
      invariant pieces == WalkUpTo(node, i, at, parent, depth)
    {
      var child := node.children[i];
      if IsWrapper(child) {
        var j := InnerDeclaration(child);
        if j.None? {
          continue;
        }
        var inner := child.children[j.value];
        if IsContainer(inner) {
          var innerPieces := WalkTree(inner, at + [i] + [j.value], OrElse(inner.name, parent), depth + 1);
          pieces := pieces + if innerPieces != [] then innerPieces else [PieceOf(child, inner, parent, at + [i])];
        } else {
          pieces := pieces + [PieceOf(child, inner, parent, at + [i])];
        }
        continue;
      }
      if IsContainer(child) {
        var innerPieces := WalkTree(child, at + [i], OrElse(child.name, parent), depth + 1);
        pieces := pieces + if innerPieces != [] then innerPieces else [PieceOf(child, child, parent, at + [i])];
        continue;
      }
      if child.kind.Some? {
        pieces := pieces + [PieceOf(child, child, parent, at + [i])];
        continue;
      }
      if child.children != [] {
        var innerPieces := WalkTree(child, at + [i], parent, depth + 1);
        pieces := pieces + innerPieces;
      }
    }
  }

  // ------------------------------------------------------------------ spans

  /** Children lie inside their parent, one after another. */
  ghost predicate Nested(n: Node)
    decreases n
  {
    && n.start <= n.end
    && (forall i :: 0 <= i < |n.children| ==> n.start <= n.children[i].start && n.children[i].end <= n.end)
    && (forall i :: 0 < i < |n.children| ==> n.children[i - 1].end <= n.children[i].start)
    && (forall i :: 0 <= i < |n.children| ==> Nested(n.children[i]))
  }

  /** Pieces inside `lo..hi`, disjoint and in source order. */
  ghost predicate InOrder(pieces: seq<Piece>, lo: nat, hi: nat) {
    && (forall i :: 0 <= i < |pieces| ==> lo <= pieces[i].start <= pieces[i].end <= hi)
    && (forall i, j :: 0 <= i < j < |pieces| ==> pieces[i].end <= pieces[j].start)
  }

  lemma InOrderAppends(a: seq<Piece>, b: seq<Piece>, lo: nat, mid: nat, later: nat, hi: nat)
    requires InOrder(a, lo, mid) && InOrder(b, later, hi) && lo <= mid <= later <= hi
    ensures InOrder(a + b, lo, hi)
  {
  }

  lemma InOrderWidens(pieces: seq<Piece>, lo: nat, hi: nat, lo': nat, hi': nat)
    requires InOrder(pieces, lo, hi) && lo' <= lo && hi <= hi'
    ensures InOrder(pieces, lo', hi')
  {
  }

  lemma {:induction false} EmitInOrder(child: Node, at: seq<nat>, parent: Option<string>, depth: nat)
    requires Nested(child)
    ensures InOrder(Emit(child, at, parent, depth), child.start, child.end)
    decreases child, |child.children| + 2
  {
    if IsWrapper(child) {
      var j := InnerFrom(child, 0);
      if j.Some? {
        var inner := child.children[j.value];
        if IsContainer(inner) {
          WalkInOrder(inner, at + [j.value], OrElse(inner.name, parent), depth + 1);
          InOrderWidens(Walk(inner, at + [j.value], OrElse(inner.name, parent), depth + 1), inner.start, inner.end,
                        child.start, child.end);
        }
      }
    } else if IsContainer(child) {
      WalkInOrder(child, at, OrElse(child.name, parent), depth + 1);
    } else if child.kind.None? {
      WalkInOrder(child, at, parent, depth + 1);
    }
  }

  lemma {:induction false} WalkUpToInOrder(node: Node, i: nat, at: seq<nat>, parent: Option<string>, depth: nat)
    requires Nested(node) && i <= |node.children|
    ensures InOrder(WalkUpTo(node, i, at, parent, depth), node.start,
                    if i == 0 then node.start else node.children[i - 1].end)
    decreases node, i
  {
    if i > 0 {
      var child := node.children[i - 1];
      assert Nested(child);
      WalkUpToInOrder(node, i - 1, at, parent, depth);
      EmitInOrder(child, at + [i - 1], parent, depth);
      InOrderAppends(WalkUpTo(node, i - 1, at, parent, depth), Emit(child, at + [i - 1], parent, depth),
                     node.start, if i == 1 then node.start else node.children[i - 2].end, child.start, child.end);
    }
  }

  /**
   The pieces of any well-nested tree lie inside the walked node, are pairwise disjoint and come
   in source order, through wrappers, containers, the empty-container fallback and the depth limit.
   */
  lemma {:induction false} WalkInOrder(node: Node, at: seq<nat>, parent: Option<string>, depth: nat)
    requires Nested(node)
    ensures InOrder(Walk(node, at, parent, depth), node.start, node.end)
    decreases node, |node.children| + 1
  {
    if depth <= MAX_WALK_DEPTH {
      var n := |node.children|;
      WalkUpToInOrder(node, n, at, parent, depth);
      InOrderWidens(WalkUpTo(node, n, at, parent, depth),
                    node.start, if n == 0 then node.start else node.children[n - 1].end, node.start, node.end);
    }
  }

  // ------------------------------------------------------------------ parents

  /** The node reached from `node` by child indices. */
  function NodeAt(node: Node, path: seq<nat>): Option<Node>
    decreases |path|
  {
    if path == [] then Some(node)
    else if path[0] >= |node.children| then None
    else NodeAt(node.children[path[0]], path[1..])
  }

  /**
   The name of the nearest named container strictly between the walked node and the node at
   `path`, or `outer` if there is none. Read off the tree alone.
   */
  function NearestContainer(node: Node, path: seq<nat>, outer: Option<string>): Option<string>
    decreases |path|
  {
    if |path| <= 1 || path[0] >= |node.children| then outer
    else
      var child := node.children[path[0]];
      NearestContainer(child, path[1..], if IsContainer(child) then OrElse(child.name, outer) else outer)
  }

  /** The declaration a node stands for: the first one inside a wrapper, otherwise the node itself. */
  function DeclarationOf(n: Node): Node {
    if IsWrapper(n) && InnerFrom(n, 0).Some? then n.children[InnerFrom(n, 0).value] else n
  }

  /** A piece has the span of its node, and the name and kind of the declaration the node stands for. */
  predicate Describes(p: Piece, n: Node) {
    && p.start == n.start && p.end == n.end
    && p.symbol == DeclarationOf(n).name && Some(p.kind) == DeclarationOf(n).kind
  }

  /** It describes the node it was emitted for, and its parent is that node's nearest named container. */
  ghost predicate Faithful(node: Node, at: seq<nat>, parent: Option<string>, p: Piece) {
    && at < p.at
    && var path := p.at[|at|..];
       && NodeAt(node, path).Some?
       && Describes(p, NodeAt(node, path).value)
       && p.parent == NearestContainer(node, path, parent)
  }

  ghost predicate AllFaithful(node: Node, at: seq<nat>, parent: Option<string>, pieces: seq<Piece>) {
    forall i :: 0 <= i < |pieces| ==> Faithful(node, at, parent, pieces[i])
  }

  /** A piece emitted for a child itself. */
  lemma OwnPiece(node: Node, i: nat, at: seq<nat>, parent: Option<string>, p: Piece)
    requires i < |node.children| && p.at == at + [i] && p.parent == parent
    requires Describes(p, node.children[i])
    ensures Faithful(node, at, parent, p)
  {
  }

  /** A piece of a child's own walk is faithful one level up. */
  lemma DeeperPiece(node: Node, i: nat, at: seq<nat>, parent: Option<string>, p: Piece)
    requires i < |node.children|
    requires var child := node.children[i];
             Faithful(child, at + [i], if IsContainer(child) then OrElse(child.name, parent) else parent, p)
    ensures Faithful(node, at, parent, p)
  {
  }

  lemma {:induction false} EmitFaithful(node: Node, i: nat, at: seq<nat>, parent: Option<string>, depth: nat)
    requires i < |node.children|
    ensures AllFaithful(node, at, parent, Emit(node.children[i], at + [i], parent, depth))
    decreases node.children[i], |node.children[i].children| + 2
  {
    var child := node.children[i];
    if IsWrapper(child) {
      var j := InnerFrom(child, 0);
      if j.Some? {
        WrappedFaithful(node, i, j.value, at, parent, depth);
      }
    } else if IsContainer(child) || child.kind.None? {
      var inner := if IsContainer(child) then OrElse(child.name, parent) else parent;
      WalkFaithful(child, at + [i], inner, depth + 1);
      var below := Walk(child, at + [i], inner, depth + 1);
      forall k | 0 <= k < |below| ensures Faithful(node, at, parent, below[k]) {
        assert Faithful(child, at + [i], inner, below[k]);
        DeeperPiece(node, i, at, parent, below[k]);
      }
      if IsContainer(child) {
        WrapperIsNoContainer(child);
        OwnPiece(node, i, at, parent, PieceOf(child, child, parent, at + [i]));
      }
    } else {
      OwnPiece(node, i, at, parent, PieceOf(child, child, parent, at + [i]));
    }
  }

  /** Two levels at once: a container inside a wrapper. */
  lemma {:induction false} WrappedFaithful(node: Node, i: nat, j: nat, at: seq<nat>, parent: Option<string>, depth: nat)
    requires i < |node.children| && IsWrapper(node.children[i]) && InnerFrom(node.children[i], 0) == Some(j)
    ensures AllFaithful(node, at, parent, Emit(node.children[i], at + [i], parent, depth))
    decreases node.children[i], |node.children[i].children| + 1
  {
    var child := node.children[i];
    var inner := child.children[j];
    OwnPiece(node, i, at, parent, PieceOf(child, inner, parent, at + [i]));
    if IsContainer(inner) {
      var name := OrElse(inner.name, parent);
      WalkFaithful(inner, at + [i] + [j], name, depth + 1);
      var below := Walk(inner, at + [i] + [j], name, depth + 1);
      WrapperIsNoContainer(child);
      forall k | 0 <= k < |below| ensures Faithful(node, at, parent, below[k]) {
        assert Faithful(inner, at + [i] + [j], name, below[k]);
        DeeperPiece(child, j, at + [i], parent, below[k]);
        DeeperPiece(node, i, at, parent, below[k]);
      }
    }
  }

  lemma WrapperIsNoContainer(n: Node)
    ensures !(IsWrapper(n) && IsContainer(n))
  {
  }

  lemma {:induction false} WalkUpToFaithful(node: Node, i: nat, at: seq<nat>, parent: Option<string>, depth: nat)
    requires i <= |node.children|
    ensures AllFaithful(node, at, parent, WalkUpTo(node, i, at, parent, depth))
    decreases node, i
  {
    if i > 0 {
      WalkUpToFaithful(node, i - 1, at, parent, depth);
      EmitFaithful(node, i - 1, at, parent, depth);
    }
  }

  /** Every piece carries as parent the nearest enclosing named container on the walk. */
  lemma {:induction false} WalkFaithful(node: Node, at: seq<nat>, parent: Option<string>, depth: nat)
    ensures AllFaithful(node, at, parent, Walk(node, at, parent, depth))
    decreases node, |node.children| + 1
  {
    if depth <= MAX_WALK_DEPTH {
      WalkUpToFaithful(node, |node.children|, at, parent, depth);
    }
  }

  /** A node that gives what is inside it a parent: a class, impl, struct, trait or module with a name. */
  predicate NamesItsInside(n: Option<Node>) {
    && n.Some? && n.value.kind.Some? && n.value.name.Some?
    && n.value.kind.value in {"class", "impl", "struct", "trait", "module"}
  }

  /** No node strictly between `from` levels below the walked node and the node at `path` gives a parent. */
  ghost predicate NoneNames(node: Node, path: seq<nat>, from: nat) {
    forall k: nat :: from <= k < |path| ==> !NamesItsInside(NodeAt(node, path[..k]))
  }

  lemma NodeBelow(node: Node, path: seq<nat>, k: nat)
    requires 0 < k <= |path|
    ensures NodeAt(node, path[..k]) ==
            if path[0] >= |node.children| then None else NodeAt(node.children[path[0]], path[1..][..k - 1])
  {
    assert path[..k][1..] == path[1..][..k - 1];
  }

  lemma NoneNamesBelow(node: Node, path: seq<nat>, from: nat)
    requires path != [] && path[0] < |node.children|
    ensures NoneNames(node, path, from + 1) <==> NoneNames(node.children[path[0]], path[1..], from)
  {
    var child, rest := node.children[path[0]], path[1..];
    if NoneNames(child, rest, from) {
      forall k: nat | from + 1 <= k < |path| ensures !NamesItsInside(NodeAt(node, path[..k])) {
        NodeBelow(node, path, k);
        assert !NamesItsInside(NodeAt(child, rest[..k - 1]));
      }
    }
    if NoneNames(node, path, from + 1) {
      forall k: nat | from <= k < |rest| ensures !NamesItsInside(NodeAt(child, rest[..k])) {
        NodeBelow(node, path, k + 1);
        assert !NamesItsInside(NodeAt(node, path[..k + 1]));
      }
    }
  }

  /** The last node on the way that gives a parent, by its depth; or none does. */
  ghost predicate LastToName(node: Node, path: seq<nat>, k: nat, name: Option<string>) {
    && 0 < k < |path| && NamesItsInside(NodeAt(node, path[..k]))
    && name == NodeAt(node, path[..k]).value.name && NoneNames(node, path, k + 1)
  }

  /**
   What the nearest container is, by depth: the name of the last node strictly on the way from the walked
   node to the one at `path` that is a container and has a name, whatever the outer ones are called; and
   the name handed in from outside exactly when there is no such node.
   */
  lemma {:induction false} NearestIsTheLastNamed(node: Node, path: seq<nat>, outer: Option<string>)
    requires NodeAt(node, path).Some?
    ensures NoneNames(node, path, 1) ==> NearestContainer(node, path, outer) == outer
    ensures !NoneNames(node, path, 1) ==>
              exists k: nat :: LastToName(node, path, k, NearestContainer(node, path, outer))
    decreases |path|
  {
    if |path| > 1 {
      var child, rest := node.children[path[0]], path[1..];
      var inner := if IsContainer(child) then OrElse(child.name, outer) else outer;
      NearestIsTheLastNamed(child, rest, inner);
      NoneNamesBelow(node, path, 1);
      NodeBelow(node, path, 1);
      assert path[1..][..0] == [] && NodeAt(child, []) == Some(child);
      if !NoneNames(child, rest, 1) {
        var k: nat :| LastToName(child, rest, k, NearestContainer(child, rest, inner));
        NodeBelow(node, path, k + 1);
        NoneNamesBelow(node, path, k + 1);
        assert LastToName(node, path, k + 1, NearestContainer(node, path, outer));
      } else if NamesItsInside(Some(child)) {
        assert NearestContainer(node, path, outer) == child.name;
        assert LastToName(node, path, 1, NearestContainer(node, path, outer));
      } else {
        FirstDoesNotName(node, path);
      }
    }
  }

  lemma FirstDoesNotName(node: Node, path: seq<nat>)
    requires |path| > 1 && path[0] < |node.children| && !NamesItsInside(Some(node.children[path[0]]))
    requires NoneNames(node, path, 2)
    ensures NoneNames(node, path, 1)
  {
    NodeBelow(node, path, 1);
    assert path[1..][..0] == [];
  }

  // ------------------------------------------------------------------ nothing disappears

  /** The walk looks at the node at `path` below `node`: through structural nodes, containers and wrapped containers. */
  predicate Visits(node: Node, path: seq<nat>, depth: nat)
    decreases |path|
  {
    && depth <= MAX_WALK_DEPTH && path != [] && path[0] < |node.children|
    && var child := node.children[path[0]];
       || |path| == 1
       || (IsContainer(child) && Visits(child, path[1..], depth + 1))
       || (child.kind.None? && Visits(child, path[1..], depth + 1))
       || (IsWrapper(child) && |path| > 2 && InnerFrom(child, 0) == Some(path[1])
           && IsContainer(child.children[path[1]]) && Visits(child.children[path[1]], path[2..], depth + 1))
  }

  /** A declaration the walk has to account for: any but a wrapper around nothing. */
  predicate Declares(n: Node) {
    n.kind.Some? && (IsWrapper(n) ==> InnerFrom(n, 0).Some?)
  }

  ghost predicate Accounted(pieces: seq<Piece>, n: Node) {
    exists k :: 0 <= k < |pieces| && n.start <= pieces[k].start && pieces[k].end <= n.end
  }

  lemma AccountedInMore(a: seq<Piece>, b: seq<Piece>, n: Node)
    requires Accounted(a, n) || Accounted(b, n)
    ensures Accounted(a + b, n)
  {
    if Accounted(a, n) {
      var k :| 0 <= k < |a| && n.start <= a[k].start && a[k].end <= n.end;
      assert (a + b)[k] == a[k];
    } else {
      var k :| 0 <= k < |b| && n.start <= b[k].start && b[k].end <= n.end;
      assert (a + b)[|a| + k] == b[k];
    }
  }

  /** One of the children's pieces are among the walk's. */
  lemma {:induction false} EmittedInWalk(node: Node, i: nat, m: nat, at: seq<nat>, parent: Option<string>, depth: nat,
                                         n: Node)
    requires i < m <= |node.children| && Accounted(Emit(node.children[i], at + [i], parent, depth), n)
    ensures Accounted(WalkUpTo(node, m, at, parent, depth), n)
    decreases m
  {
    if i < m - 1 {
      EmittedInWalk(node, i, m - 1, at, parent, depth, n);
    }
    AccountedInMore(WalkUpTo(node, m - 1, at, parent, depth),
                    Emit(node.children[m - 1], at + [m - 1], parent, depth), n);
  }

  /** A declaring child always yields a piece within its span. */
  lemma DeclaringChildIsAccounted(child: Node, at: seq<nat>, parent: Option<string>, depth: nat)
    requires Nested(child) && Declares(child)
    ensures Accounted(Emit(child, at, parent, depth), child)
  {
    EmitInOrder(child, at, parent, depth);
    assert Emit(child, at, parent, depth) != [];
    assert Emit(child, at, parent, depth)[0].end <= child.end;
  }

  /**
   No declaration the walk visits disappears: within the span of each, even of a container with
   nothing inside, some piece is emitted.
   */
  lemma {:induction false} VisitedIsAccounted(node: Node, path: seq<nat>, at: seq<nat>, parent: Option<string>,
                                              depth: nat)
    requires Nested(node) && Visits(node, path, depth) && NodeAt(node, path).Some? && Declares(NodeAt(node, path).value)
    ensures Accounted(Walk(node, at, parent, depth), NodeAt(node, path).value)
    decreases |path|
  {
    var child, n := node.children[path[0]], NodeAt(node, path).value;
    assert Nested(child);
    WrapperIsNoContainer(child);
    if |path| == 1 {
      DeclaringChildIsAccounted(child, at + [path[0]], parent, depth);
      assert path[1..] == [];
    } else if IsContainer(child) || child.kind.None? {
      var name := if IsContainer(child) then OrElse(child.name, parent) else parent;
      VisitedIsAccounted(child, path[1..], at + [path[0]], name, depth + 1);
      EmitsWhatItWalks(child, at + [path[0]], parent, depth, n);
    } else {
      var inner := child.children[path[1]];
      assert Nested(inner) && path[1..][1..] == path[2..];
      VisitedIsAccounted(inner, path[2..], at + [path[0]] + [path[1]], OrElse(inner.name, parent), depth + 1);
      EmitsWhatItUnwraps(child, path[1], at + [path[0]], parent, depth, n);
    }
    EmittedInWalk(node, path[0], |node.children|, at, parent, depth, n);
  }

  lemma NothingBelowALeaf(n: Node, at: seq<nat>, parent: Option<string>, depth: nat)
    ensures |n.children| == 0 ==> Walk(n, at, parent, depth) == []
  {
  }

  lemma EmitsWhatItWalks(child: Node, at: seq<nat>, parent: Option<string>, depth: nat, n: Node)
    requires IsContainer(child) || child.kind.None?
    requires Accounted(Walk(child, at, if IsContainer(child) then OrElse(child.name, parent) else parent, depth + 1), n)
    ensures Accounted(Emit(child, at, parent, depth), n)
  {
    WrapperIsNoContainer(child);
    var name := if IsContainer(child) then OrElse(child.name, parent) else parent;
    var pieces := Walk(child, at, name, depth + 1);
    NothingBelowALeaf(child, at, name, depth + 1);
    assert pieces != [];
    assert Emit(child, at, parent, depth) == pieces;
  }

  lemma EmitsWhatItUnwraps(child: Node, j: nat, at: seq<nat>, parent: Option<string>, depth: nat, n: Node)
    requires IsWrapper(child) && InnerFrom(child, 0) == Some(j) && IsContainer(child.children[j])
    requires Accounted(Walk(child.children[j], at + [j], OrElse(child.children[j].name, parent), depth + 1), n)
    ensures Accounted(Emit(child, at, parent, depth), n)
  {
  }

  // ------------------------------------------------------------------ what is never emitted

  /** No piece is called after a wrapper: a decorator or an export says what it wraps. */
  ghost predicate NoneIsAWrapper(pieces: seq<Piece>) {
    forall i :: 0 <= i < |pieces| ==> pieces[i].kind !in {"decorated", "export"}
  }

  lemma {:induction false} EmitsNoWrapper(child: Node, at: seq<nat>, parent: Option<string>, depth: nat)
    ensures NoneIsAWrapper(Emit(child, at, parent, depth))
    decreases child, |child.children| + 2
  {
    if IsWrapper(child) {
      var j := InnerFrom(child, 0);
      if j.Some? {
        var inner := child.children[j.value];
        WalksNoWrapper(inner, at + [j.value], OrElse(inner.name, parent), depth + 1);
      }
    } else {
      WalksNoWrapper(child, at, if IsContainer(child) then OrElse(child.name, parent) else parent, depth + 1);
    }
  }

  lemma {:induction false} WalksNoWrapperUpTo(node: Node, i: nat, at: seq<nat>, parent: Option<string>, depth: nat)
    requires i <= |node.children|
    ensures NoneIsAWrapper(WalkUpTo(node, i, at, parent, depth))
    decreases node, i
  {
    if i > 0 {
      WalksNoWrapperUpTo(node, i - 1, at, parent, depth);
      EmitsNoWrapper(node.children[i - 1], at + [i - 1], parent, depth);
    }
  }

  lemma {:induction false} WalksNoWrapper(node: Node, at: seq<nat>, parent: Option<string>, depth: nat)
    ensures NoneIsAWrapper(Walk(node, at, parent, depth))
    decreases node, |node.children| + 1
  {
    if depth <= MAX_WALK_DEPTH {
      WalksNoWrapperUpTo(node, |node.children|, at, parent, depth);
    }
  }

  /** A function under a number of nodes that mean nothing. */
  function Buried(levels: nat): Node {
    if levels == 0 then Node(Some("function"), Some("f"), 0, 0, []) else Node(None, None, 0, 0, [Buried(levels - 1)])
  }

  /** The depth limit: below fifteen nodes a declaration is found, below one more it is not. */
  lemma {:induction false} DepthLimit(levels: nat, at: seq<nat>, parent: Option<string>, depth: nat)
    ensures Walk(Buried(levels), at, parent, depth) != [] <==> 0 < levels && depth + levels <= 15
    decreases levels
  {
    if levels > 0 && depth <= MAX_WALK_DEPTH {
      var node := Buried(levels);
      assert node.children[0] == Buried(levels - 1);
      assert Walk(node, at, parent, depth) == WalkUpTo(node, 1, at, parent, depth);
      assert WalkUpTo(node, 1, at, parent, depth)
             == WalkUpTo(node, 0, at, parent, depth) + Emit(node.children[0], at + [0], parent, depth);
      assert WalkUpTo(node, 0, at, parent, depth) == [];
      if levels > 1 {
        DepthLimit(levels - 1, at + [0], parent, depth + 1);
        assert Emit(Buried(levels - 1), at + [0], parent, depth)
               == Walk(Buried(levels - 1), at + [0], parent, depth + 1);
      }
    }
  }

  /** A piece's parent is the last named container around its node, and there is none exactly when it has no parent. */
  ghost predicate ParentIsNearest(root: Node, p: Piece) {
    if NoneNames(root, p.at, 1) then p.parent.None? else exists k: nat :: LastToName(root, p.at, k, p.parent)
  }

  /** What the walk of a whole file guarantees, for every well-nested syntax tree. */
  method WalkFile(root: Node) returns (pieces: seq<Piece>)
    requires Nested(root)
    ensures InOrder(pieces, root.start, root.end)
    ensures forall i :: 0 <= i < |pieces| ==>
              && NodeAt(root, pieces[i].at).Some?
              && Describes(pieces[i], NodeAt(root, pieces[i].at).value)
              && pieces[i].parent == NearestContainer(root, pieces[i].at, None)
    ensures forall i :: 0 <= i < |pieces| ==> ParentIsNearest(root, pieces[i])
    ensures NoneIsAWrapper(pieces)
    ensures forall path :: Visits(root, path, 0) && NodeAt(root, path).Some? && Declares(NodeAt(root, path).value) ==>
              Accounted(pieces, NodeAt(root, path).value)
  {
    pieces := WalkTree(root, [], None, 0);
    WalkInOrder(root, [], None, 0);
    WalkFaithful(root, [], None, 0);
    WalksNoWrapper(root, [], None, 0);
    forall i | 0 <= i < |pieces| ensures Faithful(root, [], None, pieces[i]) && pieces[i].at[0..] == pieces[i].at {
    }
    forall i | 0 <= i < |pieces| ensures ParentIsNearest(root, pieces[i]) {
      assert Faithful(root, [], None, pieces[i]) && pieces[i].at[0..] == pieces[i].at;
      NearestIsTheLastNamed(root, pieces[i].at, None);
    }
    forall path | Visits(root, path, 0) && NodeAt(root, path).Some? && Declares(NodeAt(root, path).value)
      ensures Accounted(pieces, NodeAt(root, path).value)
    {
      VisitedIsAccounted(root, path, [], None, 0);
    }
  }
}
