/** The trie of cached topics (zeared/_prefix_index.py), in place over linked nodes. */
module PrefixIndex {
  import opened KeyExpr

  /** One trie node. `leaves` is the set under the sentinel key; an absent set is an empty one. */
  class Node {
    var children: map<string, Node>
    var leaves: set<string>

    constructor ()
      ensures children == map[] && leaves == {}
    {
      children, leaves := map[], {};
    }
  }

  /** What the walk collects for: `*` and any chunk holding `$*` reach every child. */
  predicate Reaches(q: Path, k: Path)
    decreases |q| + |k|
  {
    if q == [] then k == []
    else if q[0] == "**" then Reaches(q[1..], k) || (k != [] && Reaches(q, k[1..]))
    else k != [] && (q[0] == "*" || HasRun(q[0]) || q[0] == k[0]) && Reaches(q[1..], k[1..])
  }

  /** The walk only narrows: it never misses a key the expression matches. */
  lemma {:induction false} MatchesReaches(q: Path, k: Path)
    requires Matches(q, k)
    ensures Reaches(q, k)
    decreases |q| + |k|
  {
    if q == [] {
    } else if q[0] == "**" {
      if Matches(q[1..], k) {
        MatchesReaches(q[1..], k);
      } else {
        MatchesReaches(q, k[1..]);
      }
    } else {
      if !HasRun(q[0]) {
        LiteralChunk(q[0], k[0]);
      }
      MatchesReaches(q[1..], k[1..]);
    }
  }

  /** The topics below path `p`. */
  ghost predicate Below(p: Path, t: string) {
    p <= Split(t)
  }

  ghost predicate HasTopicBelow(topics: set<string>, p: Path) {
    exists t :: t in topics && Below(p, t)
  }

  /** The path one chunk below `p`. */
  ghost function Child(p: Path, c: string): Path {
    p + [c]
  }

  lemma ChildInjective(p: Path, c: string, q: Path, d: string)
    requires Child(p, c) == Child(q, d)
    ensures p == q && c == d
  {
    assert Child(p, c)[..|p|] == p && Child(q, d)[..|q|] == q;
    assert Child(p, c)[|p|] == c && Child(q, d)[|q|] == d;
  }

  /** The prefixes of `segs` up to length `i`. */
  ghost function Prefixes(segs: Path, i: nat): set<Path>
    requires i <= |segs|
  {
    set j | 0 <= j <= i :: segs[..j]
  }

  lemma PrefixesNext(segs: Path, i: nat)
    requires i < |segs|
    ensures Child(segs[..i], segs[i]) == segs[..i+1]
    ensures Prefixes(segs, i + 1) == Prefixes(segs, i) + {segs[..i+1]}
  {
  }

  lemma AllPrefixes(segs: Path, p: Path)
    ensures p in Prefixes(segs, |segs|) <==> p <= segs
  {
    if p <= segs {
      assert p == segs[..|p|];
    }
  }

  /** A removed topic leaves its own branch without a topic, and no other. */
  lemma WithoutTopic(live: set<string>, topic: string, p: Path)
    requires topic in live
    ensures HasTopicBelow(live, p) <==> HasTopicBelow(live - {topic}, p) || Below(p, topic)
    ensures Below(p, topic) <==> p in Prefixes(Split(topic), |Split(topic)|)
  {
    AllPrefixes(Split(topic), p);
    forall t | t in live && Below(p, t) ensures t == topic || t in live - {topic} {
    }
  }

  class Index {
    const root: Node
    var size: nat
    /** Every node of the trie, by the chunks that lead to it. */
    ghost var nodes: map<Path, Node>
    ghost var topics: set<string>

    ghost function Repr(): set<object>
      reads this
    {
      {this} + (set p | p in nodes :: nodes[p])
    }

    /** The links of the trie are exactly the one-chunk extensions of `nodes`. */
    ghost predicate Linked()
      reads this, Repr()
    {
      && [] in nodes && nodes[[]] == root
      && (forall p, q :: p in nodes && q in nodes && p != q ==> nodes[p] != nodes[q])
      && (forall p, c {:trigger Child(p, c)} ::
            Child(p, c) in nodes <==> p in nodes && c in nodes[p].children)
      && (forall p, c {:trigger Child(p, c)} :: p in nodes && c in nodes[p].children ==>
            Child(p, c) in nodes && nodes[p].children[c] == nodes[Child(p, c)])
    }

    /** Each node's leaf set holds just the topic that ends there. */
    ghost predicate LeavesAre(live: set<string>)
      reads this, Repr()
    {
      forall p, t :: p in nodes ==> (t in nodes[p].leaves <==> t in live && Split(t) == p)
    }

    /** The canonical trie of `topics`: no branch without a topic below it. */
    ghost predicate Valid()
      reads this, Repr()
    {
      && Linked()
      && LeavesAre(topics)
      && (forall p :: p in nodes <==> p == [] || HasTopicBelow(topics, p))
      && size == |topics|
    }

    constructor ()
      ensures Valid() && fresh(Repr()) && topics == {}
    {
      root := new Node();
      size := 0;
      new;
      nodes := map[[] := root];
      topics := {};
    }

    /** `node.setdefault(segs[i], {})` when the child is missing. */
    method Grow(segs: Path, i: nat, node: Node)
      requires i < |segs| && Linked() && LeavesAre(topics)
      requires segs[..i] in nodes && nodes[segs[..i]] == node && segs[i] !in node.children
      requires forall t :: t in topics ==> Split(t) in nodes
      modifies this`nodes, node
      ensures Linked() && LeavesAre(topics) && segs[i] in node.children
      ensures segs[..i+1] !in old(nodes) && segs[..i+1] in nodes
      ensures nodes == old(nodes)[segs[..i+1] := nodes[segs[..i+1]]] && fresh(nodes[segs[..i+1]])
    {
      ghost var here, below := segs[..i], segs[..i+1];
      PrefixesNext(segs, i);
      ghost var was := nodes;
      var child := new Node();
      node.children := node.children[segs[i] := child];
      nodes := nodes[below := child];
      assert forall p :: p in was && p != here ==> nodes[p].children == old(nodes[p].children);
      assert forall p :: p in was ==> nodes[p].leaves == old(nodes[p].leaves);
      forall p, c
        ensures Child(p, c) in nodes <==> p in nodes && c in nodes[p].children
        ensures p in nodes && c in nodes[p].children ==>
                  Child(p, c) in nodes && nodes[p].children[c] == nodes[Child(p, c)]
      {
        if Child(p, c) == below {
          ChildInjective(p, c, here, segs[i]);
        }
      }
    }

    /** One step of `add`'s descent: the child for `segs[i]`, grown when it is missing. */
    method Follow(segs: Path, i: nat, node: Node) returns (child: Node)
      requires i < |segs| && Linked() && LeavesAre(topics)
      requires segs[..i] in nodes && nodes[segs[..i]] == node
      requires forall t :: t in topics ==> Split(t) in nodes
      modifies this`nodes, node
      ensures Linked() && LeavesAre(topics) && segs[..i+1] in nodes && nodes[segs[..i+1]] == child
      ensures nodes.Keys == old(nodes.Keys) + {segs[..i+1]}
      ensures Repr() == old(Repr()) + {child} && (child in old(Repr()) || fresh(child))
    {
      PrefixesNext(segs, i);
      if segs[i] !in node.children {
        Grow(segs, i, node);
      }
      child := node.children[segs[i]];
    }

    /** The descending loop of `add`: follow or grow the branch of `segs`. */
    method Descend(segs: Path) returns (node: Node)
      requires Linked() && LeavesAre(topics)
      requires forall t :: t in topics ==> Split(t) in nodes
      modifies Repr()
      ensures Linked() && LeavesAre(topics) && topics == old(topics) && size == old(size)
      ensures nodes.Keys == old(nodes.Keys) + Prefixes(segs, |segs|)
      ensures segs in nodes && nodes[segs] == node
      ensures fresh(Repr() - old(Repr()))
    {
      node := root;
      var i := 0;
      while i < |segs|
        invariant 0 <= i <= |segs|
        invariant Linked() && LeavesAre(topics)
        invariant topics == old(topics) && size == old(size)
        invariant segs[..i] in nodes && nodes[segs[..i]] == node
        invariant nodes.Keys == old(nodes.Keys) + Prefixes(segs, i)
        invariant fresh(Repr() - old(Repr()))
      {
        PrefixesNext(segs, i);
        node := Follow(segs, i, node);
        i := i + 1;
      }
      assert segs[..i] == segs;
    }

    method Add(topic: string)
      requires Valid()
      modifies Repr()
      ensures Valid() && fresh(Repr() - old(Repr()))
      ensures topics == old(topics) + {topic}
    {
      var segs := Split(topic);
      forall t | t in topics ensures Split(t) in nodes {
        assert Below(Split(t), t);
      }
      var node := Descend(segs);
      AddLeaf(topic, node);
      forall p ensures p in nodes <==> p == [] || HasTopicBelow(topics, p) {
        AllPrefixes(segs, p);
        assert Below(p, topic) <==> p <= segs;
      }
    }

    method AddLeaf(topic: string, node: Node)
      requires Linked() && LeavesAre(topics) && size == |topics|
      requires Split(topic) in nodes && nodes[Split(topic)] == node
      modifies this`topics, this`size, node`leaves
      ensures Linked() && LeavesAre(topics) && size == |topics|
      ensures topics == old(topics) + {topic}
    {
      assert topic in node.leaves <==> topic in topics;
      if topic !in node.leaves {
        node.leaves := node.leaves + {topic};
        size := size + 1;
      }
      topics := topics + {topic};
      OnlyLeavesChanged();
      forall p, t | p in nodes ensures t in nodes[p].leaves <==> t in topics && Split(t) == p {
        assert nodes[p] == node || nodes[p].leaves == old(nodes[p].leaves);
      }
    }

    twostate lemma OnlyLeavesChanged()
      requires old(Linked()) && nodes == old(nodes)
      requires forall p :: p in nodes ==> nodes[p].children == old(nodes[p].children)
      ensures Linked()
    {
    }

    /** Every live branch is there, and every other one is a prefix of `segs` no longer than `i`. */
    ghost predicate PrunedTo(segs: Path, i: nat)
      requires i <= |segs|
      reads this
    {
      && (forall p :: HasTopicBelow(topics, p) ==> p in nodes)
      && (forall p :: p in nodes ==> p == [] || HasTopicBelow(topics, p) || p in Prefixes(segs, i))
    }

    lemma LiveNodeIsUsed(p: Path, t: string)
      requires Linked() && LeavesAre(topics) && p in nodes && t in topics && Below(p, t)
      requires forall q :: HasTopicBelow(topics, q) ==> q in nodes
      ensures nodes[p].children != map[] || nodes[p].leaves != {}
    {
      var k := Split(t);
      assert k[..|p|] == p;
      if |p| == |k| {
        assert t in nodes[p].leaves;
      } else {
        PrefixesNext(k, |p|);
        assert Below(Child(p, k[|p|]), t);
        assert k[|p|] in nodes[p].children;
      }
    }

    lemma EmptyNodeIsDead(p: Path)
      requires Linked() && LeavesAre(topics) && p in nodes
      requires forall q :: HasTopicBelow(topics, q) ==> q in nodes
      requires nodes[p].children == map[] && nodes[p].leaves == {}
      ensures !HasTopicBelow(topics, p)
    {
      forall t | t in topics ensures !Below(p, t) {
        if Below(p, t) {
          LiveNodeIsUsed(p, t);
        }
      }
    }

    lemma UsedNodeIsLive(segs: Path, i: nat)
      requires Linked() && LeavesAre(topics) && i <= |segs| && PrunedTo(segs, i) && segs[..i] in nodes
      requires nodes[segs[..i]].children != map[] || nodes[segs[..i]].leaves != {}
      ensures HasTopicBelow(topics, segs[..i])
    {
      var p := segs[..i];
      if nodes[p].leaves != {} {
        var t :| t in nodes[p].leaves;
        assert Below(p, t);
      } else {
        var c :| c in nodes[p].children;
        assert Child(p, c) in nodes;
        assert |Child(p, c)| == i + 1;
        var t :| t in topics && Below(Child(p, c), t);
        assert p <= Child(p, c);
        assert Below(p, t);
      }
    }

    /** The climb ends at the root or at a live branch, and the trie is canonical again. */
    lemma ClimbedIsValid(segs: Path, i: nat)
      requires Linked() && LeavesAre(topics) && size == |topics| && i <= |segs| && PrunedTo(segs, i)
      requires i > 0 ==> HasTopicBelow(topics, segs[..i])
      ensures Valid()
    {
      forall p | p in nodes && p != [] ensures HasTopicBelow(topics, p) {
        if p in Prefixes(segs, i) {
          assert p <= segs[..i];
          var t :| t in topics && Below(segs[..i], t);
          assert Below(p, t);
        }
      }
    }

    /** Unlink the empty node at `segs[..i+1]` from its parent. */
    method Unlink(segs: Path, i: nat, parent: Node)
      requires i < |segs| && Linked() && LeavesAre(topics)
      requires segs[..i] in nodes && segs[..i+1] in nodes && nodes[segs[..i]] == parent
      requires nodes[segs[..i+1]].children == map[]
      modifies this`nodes, parent`children
      ensures Linked() && LeavesAre(topics)
      ensures nodes == old(nodes) - {segs[..i+1]}
      ensures forall p :: p in nodes && nodes[p] != parent ==> nodes[p].children == old(nodes[p].children)
    {
      ghost var here, below := segs[..i], segs[..i+1];
      PrefixesNext(segs, i);
      ghost var was := nodes;
      parent.children := parent.children - {segs[i]};
      nodes := nodes - {below};
      assert forall p :: p in nodes && p != here ==> nodes[p].children == old(nodes[p].children);
      forall p, c
        ensures Child(p, c) in nodes <==> p in nodes && c in nodes[p].children
        ensures p in nodes && c in nodes[p].children ==>
                  Child(p, c) in nodes && nodes[p].children[c] == nodes[Child(p, c)]
      {
        assert Child(p, c) in was <==> p in was && c in old(was[p].children);
        if Child(p, c) == below {
          ChildInjective(p, c, here, segs[i]);
        }
      }
    }

    /** `path[j]` is the node at `segs[..j]`, for each `j` up to `i`. */
    ghost predicate Traced(segs: Path, path: seq<Node>, i: nat)
      reads this
    {
      i <= |segs| && i < |path| && forall j :: 0 <= j <= i ==> segs[..j] in nodes && path[j] == nodes[segs[..j]]
    }

    /** The walk of `remove` down the branch of `segs`. */
    method Trace(segs: Path) returns (found: bool, path: seq<Node>)
      requires Linked()
      ensures found ==> Traced(segs, path, |segs|)
      ensures !found ==> exists j :: 0 < j <= |segs| && segs[..j] !in nodes
    {
      path := [root];
      var node := root;
      var i := 0;
      while i < |segs|
        invariant 0 <= i <= |segs| && |path| == i + 1 && path[i] == node && Traced(segs, path, i)
      {
        PrefixesNext(segs, i);
        if segs[i] !in node.children {
          return false, path;
        }
        node := node.children[segs[i]];
        path := path + [node];
        i := i + 1;
      }
      found := true;
    }

    method Remove(topic: string)
      requires Valid()
      modifies Repr()
      ensures Valid() && Repr() <= old(Repr())
      ensures topics == old(topics) - {topic}
    {
      var segs := Split(topic);
      var found, path := Trace(segs);
      if !found {
        NotTraced(topic);
        return;
      }
      var node := path[|segs|];
      assert segs[..|segs|] == segs;
      if topic !in node.leaves {
        return;
      }
      DropLeaf(topic, node);
      Prune(segs, path);
    }

    lemma NotTraced(topic: string)
      requires Valid()
      requires exists j :: 0 < j <= |Split(topic)| && Split(topic)[..j] !in nodes
      ensures topic !in topics
    {
      var j :| 0 < j <= |Split(topic)| && Split(topic)[..j] !in nodes;
      assert Below(Split(topic)[..j], topic);
    }

    method DropLeaf(topic: string, node: Node)
      requires Valid() && topic in topics
      requires Split(topic) in nodes && nodes[Split(topic)] == node
      modifies this`topics, this`size, node`leaves
      ensures Linked() && LeavesAre(topics) && size == |topics|
      ensures topics == old(topics) - {topic}
      ensures PrunedTo(Split(topic), |Split(topic)|)
    {
      node.leaves := node.leaves - {topic};
      size := size - 1;
      topics := topics - {topic};
      OnlyLeavesChanged();
      forall p, t | p in nodes ensures t in nodes[p].leaves <==> t in topics && Split(t) == p {
        assert nodes[p] == node || nodes[p].leaves == old(nodes[p].leaves);
      }
      forall p ensures HasTopicBelow(topics, p) ==> p in nodes
        ensures p in nodes ==> p == [] || HasTopicBelow(topics, p) || p in Prefixes(Split(topic), |Split(topic)|)
      {
        WithoutTopic(old(topics), topic, p);
      }
    }

    /** The climbing loop of `remove`: unlink empty nodes until one is still in use. */
    method Prune(segs: Path, path: seq<Node>)
      requires Linked() && LeavesAre(topics) && size == |topics|
      requires Traced(segs, path, |segs|) && PrunedTo(segs, |segs|)
      modifies Repr()
      ensures Valid() && topics == old(topics) && nodes.Keys <= old(nodes.Keys)
      ensures forall p :: p in nodes ==> nodes[p] == old(nodes)[p]
    {
      var i := |segs|;
      while i > 0
        invariant 0 <= i <= |segs|
        invariant Linked() && LeavesAre(topics) && size == |topics| && topics == old(topics)
        invariant nodes.Keys <= old(nodes.Keys)
        invariant forall p :: p in nodes ==> nodes[p] == old(nodes)[p]
        invariant Traced(segs, path, i) && PrunedTo(segs, i)
      {
        var child := path[i];
        if child.children != map[] || child.leaves != {} {
          UsedNodeIsLive(segs, i);
          break;
        }
        PruneStep(segs, i - 1, path, path[i-1]);
        i := i - 1;
      }
      ClimbedIsValid(segs, i);
    }

    method PruneStep(segs: Path, i: nat, path: seq<Node>, parent: Node)
      requires Linked() && LeavesAre(topics) && Traced(segs, path, i + 1) && PrunedTo(segs, i + 1)
      requires parent == path[i] && path[i + 1].children == map[] && path[i + 1].leaves == {}
      modifies this`nodes, parent`children
      ensures Linked() && LeavesAre(topics) && Traced(segs, path, i) && PrunedTo(segs, i)
      ensures nodes == old(nodes) - {segs[..i+1]}
    {
      EmptyNodeIsDead(segs[..i+1]);
      PrefixesNext(segs, i);
      Unlink(segs, i, parent);
      forall j | 0 <= j <= i ensures segs[..j] in nodes && path[j] == nodes[segs[..j]] {
        assert |segs[..j]| != |segs[..i+1]|;
      }
    }

    lemma LeafAt(p: Path, t: string)
      requires Valid() && p in nodes
      ensures t in nodes[p].leaves <==> t in topics && Split(t) == p
    {
    }

    /** No history but the live topics shows in the trie: no branch is empty, and the root is empty only without
        topics. */
    lemma TrieIsTight()
      requires Valid()
      ensures topics == {} <==> root.children == map[] && root.leaves == {}
      ensures forall p :: p in nodes && p != [] ==> nodes[p].children != map[] || nodes[p].leaves != {}
    {
      forall p | p in nodes && nodes[p].children == map[] && nodes[p].leaves == {}
        ensures !HasTopicBelow(topics, p)
      {
        EmptyNodeIsDead(p);
      }
      forall t | t in topics ensures HasTopicBelow(topics, []) {
        assert Below([], t);
      }
      forall c | c in root.children ensures topics != {} {
        assert Child([], c) in nodes;
      }
    }

    /** A leaf set holds one topic, the one its path spells. */
    lemma LeafHoldsItsOwnPath(p: Path, t: string)
      requires Valid() && p in nodes && t in nodes[p].leaves
      ensures t == Join(p) && nodes[p].leaves == {t}
    {
      JoinSplit(t);
      forall u | u in nodes[p].leaves ensures u == t {
        JoinSplit(u);
      }
    }

    /** Two tries of the same topics have the same branches, leaves and size, whatever built them. */
    lemma SameTopicsSameTrie(that: Index)
      requires Valid() && that.Valid() && topics == that.topics
      ensures nodes.Keys == that.nodes.Keys && size == that.size
      ensures forall p :: p in nodes ==>
                nodes[p].children.Keys == that.nodes[p].children.Keys && nodes[p].leaves == that.nodes[p].leaves
    {
      forall p ensures p in nodes <==> p in that.nodes {
      }
      forall p | p in nodes
        ensures nodes[p].children.Keys == that.nodes[p].children.Keys
        ensures nodes[p].leaves == that.nodes[p].leaves
      {
        assert p in that.nodes;
        forall c ensures c in nodes[p].children <==> c in that.nodes[p].children {
          assert Child(p, c) in nodes <==> Child(p, c) in that.nodes;
        }
        forall t ensures t in nodes[p].leaves <==> t in that.nodes[p].leaves {
          LeafAt(p, t);
          that.LeafAt(p, t);
        }
      }
    }

    /** Whether the walk from the node at `p` with chunks `q` left collects `t`. */
    ghost predicate Collects(p: Path, q: Path, t: string)
      reads this
    {
      t in topics && Below(p, t) && Reaches(q, Split(t)[|p|..])
    }

    /** The same, through one of the children named in `via`. */
    ghost predicate CollectsVia(p: Path, via: set<string>, q: Path, t: string)
      reads this
    {
      && t in topics && Below(p, t) && |p| < |Split(t)|
      && Split(t)[|p|] in via && Reaches(q, Split(t)[|p|+1..])
    }

    /** The part of the trie at and below `p`. */
    ghost function Subtree(p: Path): set<Path>
      reads this
    {
      set q | q in nodes && p <= q
    }

    lemma SubtreeShrinks(p: Path, c: string)
      requires p in nodes
      ensures Subtree(Child(p, c)) < Subtree(p)
    {
      assert p <= Child(p, c);
      assert p in Subtree(p) && p !in Subtree(Child(p, c));
      forall q | q in Subtree(Child(p, c)) ensures q in Subtree(p) {
        assert p <= Child(p, c) <= q;
      }
    }

    lemma ViaChild(p: Path, c: string, q: Path, t: string)
      ensures Collects(Child(p, c), q, t) <==> CollectsVia(p, {c}, q, t)
    {
      var k := Split(t);
      if Below(p, t) && |p| < |k| && k[|p|] == c {
        assert k[..|p|] == p;
        PrefixesNext(k, |p|);
        assert Below(Child(p, c), t);
      }
      if Below(Child(p, c), t) {
        assert Child(p, c)[|p|] == c;
      }
    }

    lemma ChildrenCover(p: Path, t: string)
      requires Valid() && p in nodes && t in topics && Below(p, t) && |p| < |Split(t)|
      ensures Split(t)[|p|] in nodes[p].children
    {
      var c := Split(t)[|p|];
      assert Split(t)[..|p|] == p;
      PrefixesNext(Split(t), |p|);
      assert Below(Child(p, c), t);
    }

    lemma EndsHere(p: Path, t: string)
      requires Valid() && p in nodes
      ensures t in nodes[p].leaves <==> Collects(p, [], t)
    {
      if Collects(p, [], t) {
        assert Split(t) == p;
      }
    }

    method Walk(ghost p: Path, node: Node, segs: Path, i: nat) returns (out: seq<string>)
      requires Valid() && p in nodes && nodes[p] == node && i <= |segs|
      ensures forall t :: t in out <==> Collects(p, segs[i..], t)
      decreases |segs| - i, Subtree(p), 1
    {
      if i == |segs| {
        out := Elements(node.leaves);
        forall t ensures t in out <==> Collects(p, segs[i..], t) {
          EndsHere(p, t);
        }
        return;
      }
      var seg := segs[i];
      ghost var q := segs[i+1..];
      assert segs[i..] == [seg] + q;
      if seg == "**" {
        out := WalkStarStar(p, node, segs[i+1..]);
      } else if seg == "*" || HasRun(seg) {
        out := [];
        var todo := node.children.Keys;
        while todo != {}
          invariant todo <= node.children.Keys
          invariant forall t :: t in out <==> CollectsVia(p, node.children.Keys - todo, q, t)
        {
          var c :| c in todo;
          var sub := WalkChild(p, node, c, segs, i);
          out := out + sub;
          todo := todo - {c};
        }
        forall t ensures t in out <==> Collects(p, segs[i..], t) {
          OneChunk(p, segs[i..], node.children.Keys, t);
        }
      } else {
        out := [];
        if seg in node.children {
          out := WalkChild(p, node, seg, segs, i);
        }
        forall t ensures t in out <==> Collects(p, segs[i..], t) {
          OneChunk(p, segs[i..], {seg}, t);
          if CollectsVia(p, {seg}, q, t) {
            ChildrenCover(p, t);
          }
        }
      }
    }

    /** A chunk other than `**` takes one step down. */
    lemma OneChunk(p: Path, q: Path, via: set<string>, t: string)
      requires Valid() && p in nodes && q != [] && q[0] != "**"
      requires via == if q[0] == "*" || HasRun(q[0]) then nodes[p].children.Keys else {q[0]}
      ensures Collects(p, q, t) <==> CollectsVia(p, via, q[1..], t)
    {
      if t in topics && Below(p, t) && |p| < |Split(t)| {
        ChildrenCover(p, t);
        assert Split(t)[|p|..][1..] == Split(t)[|p|+1..];
      }
    }

    method WalkChild(ghost p: Path, node: Node, c: string, segs: Path, i: nat) returns (out: seq<string>)
      requires Valid() && p in nodes && nodes[p] == node && i < |segs| && c in node.children
      ensures forall t :: t in out <==> CollectsVia(p, {c}, segs[i+1..], t)
      decreases |segs| - i, Subtree(p), 0
    {
      assert Child(p, c) in nodes;
      out := Walk(Child(p, c), node.children[c], segs, i + 1);
      forall t ensures t in out <==> CollectsVia(p, {c}, segs[i+1..], t) {
        ViaChild(p, c, segs[i+1..], t);
      }
    }

    method WalkStarStar(ghost p: Path, node: Node, remaining: Path) returns (out: seq<string>)
      requires Valid() && p in nodes && nodes[p] == node
      ensures forall t :: t in out <==> Collects(p, ["**"] + remaining, t)
      decreases |remaining|, Subtree(p), 2
    {
      out := Walk(p, node, remaining, 0);
      ghost var here := out;
      assert remaining[0..] == remaining;
      var todo := node.children.Keys;
      while todo != {}
        invariant todo <= node.children.Keys
        invariant forall t :: t in out <==>
            Collects(p, remaining, t) || CollectsVia(p, node.children.Keys - todo, ["**"] + remaining, t)
      {
        var c :| c in todo;
        SubtreeShrinks(p, c);
        assert Child(p, c) in nodes;
        var sub := WalkStarStar(Child(p, c), node.children[c], remaining);
        forall t ensures t in sub <==> CollectsVia(p, {c}, ["**"] + remaining, t) {
          ViaChild(p, c, ["**"] + remaining, t);
        }
        out := out + sub;
        todo := todo - {c};
      }
      forall t ensures t in out <==> Collects(p, ["**"] + remaining, t) {
        AnyChunks(p, remaining, t);
      }
    }

    /** `**` takes no chunk here, or one and itself again below. */
    lemma AnyChunks(p: Path, remaining: Path, t: string)
      requires Valid() && p in nodes
      ensures Collects(p, ["**"] + remaining, t) <==>
                Collects(p, remaining, t) || CollectsVia(p, nodes[p].children.Keys, ["**"] + remaining, t)
    {
      var q := ["**"] + remaining;
      assert q[1..] == remaining;
      if t in topics && Below(p, t) && |p| < |Split(t)| {
        ChildrenCover(p, t);
        assert Split(t)[|p|..][1..] == Split(t)[|p|+1..];
      }
    }

    /** Each cached topic the expression intersects, once. */
    method Matching(query: string) returns (out: seq<string>)
      requires Valid()
      ensures forall t :: t in out <==> t in topics && Intersects(query, t)
      ensures forall a, b :: 0 <= a < b < |out| ==> out[a] != out[b]
    {
      var segs := Split(query);
      var walked := Walk([], root, segs, 0);
      var seen: set<string> := {};
      out := [];
      for a := 0 to |walked|
        invariant seen == set b | 0 <= b < a :: walked[b]
        invariant forall t :: t in out <==> t in seen && Intersects(query, t)
        invariant forall a, b :: 0 <= a < b < |out| ==> out[a] != out[b]
      {
        var topic := walked[a];
        if topic !in seen {
          seen := seen + {topic};
          if Intersects(query, topic) {
            out := out + [topic];
          }
        }
      }
      forall t ensures t in out <==> t in topics && Intersects(query, t) {
        assert t in walked <==> Collects([], segs[0..], t);
        assert Split(t)[0..] == Split(t) && segs[0..] == segs;
        if Intersects(query, t) {
          MatchesReaches(segs, Split(t));
        }
      }
    }
  }

  method Elements(s: set<string>) returns (out: seq<string>)
    ensures forall t :: t in out <==> t in s
  {
    out := [];
    var todo := s;
    while todo != {}
      invariant todo <= s
      invariant forall t :: t in out <==> t in s && t !in todo
    {
      var t :| t in todo;
      out := out + [t];
      todo := todo - {t};
    }
  }
}
