/** The order of a tree's cells in a bag: every cell once, before the cells it references. */
module CellOrder {
  import opened Bytes
  import opened Cells

  /** How a cell is told from another. */
  type Identifier = Cell -> Digest

  function Identity(h: Hasher): Identifier {
    (c: Cell) => if Sound(c) then Hash(h, c) else ZERO
  }

  ghost predicate Apart(id: Identifier, root: Cell) {
    forall x, y :: x in Reach(root) && y in Reach(root) && id(x) == id(y) ==> x == y
  }

  // ---- reachability ----

  lemma {:induction false} ReachTransitive(root: Cell, c: Cell, d: Cell)
    requires c in Reach(root) && d in Reach(c)
    ensures d in Reach(root)
    decreases root
  {
    if c != root {
      var i :| 0 <= i < |root.refs| && c in Reach(root.refs[i]);
      ReachTransitive(root.refs[i], c, d);
    }
  }

  lemma RefInReach(root: Cell, c: Cell, i: nat)
    requires c in Reach(root) && i < |c.refs|
    ensures c.refs[i] in Reach(root)
  {
    RefReach(c, i, c.refs[i]) by { assert c.refs[i] in {c.refs[i]}; }
    ReachTransitive(root, c, c.refs[i]);
  }

  lemma {:induction false} ReachSound(root: Cell, c: Cell)
    requires Sound(root) && c in Reach(root)
    ensures Sound(c)
    decreases root
  {
    if c != root {
      var i :| 0 <= i < |root.refs| && c in Reach(root.refs[i]);
      ReachSound(root.refs[i], c);
    }
  }

  /** A collision-free hash tells every two cells of a tree apart. */
  lemma IdentityApart(h: Hasher, root: Cell)
    requires Sound(root) && NoCellCollision(h, root, root)
    ensures Apart(Identity(h), root)
  {
    forall x, y | x in Reach(root) && y in Reach(root) && Identity(h)(x) == Identity(h)(y) ensures x == y {
      ReachSound(root, x);
      ReachSound(root, y);
      forall a, b | a in Reach(x) && b in Reach(y) && Sound(a) && Sound(b) && Hash(h, a) == Hash(h, b)
        ensures Repr(h, a) == Repr(h, b)
      {
        ReachTransitive(root, x, a);
        ReachTransitive(root, y, b);
      }
      HashIsIdentity(h, x, y);
    }
  }

  // ---- the walk ----

  ghost predicate Distinct(s: seq<Cell>) {
    forall i, j :: 0 <= i < j < |s| ==> s[i] != s[j]
  }

  /** Each cell comes behind all the cells it references. */
  ghost predicate RefsFirst(post: seq<Cell>) {
    forall i :: 0 <= i < |post| ==> RefsWithin(post[i], post[..i])
  }

  ghost predicate RefsWithin(c: Cell, s: seq<Cell>) {
    forall k :: 0 <= k < |c.refs| ==> c.refs[k] in s
  }

  /** Finished cells are in post, cells entered and not finished are open, and exactly those
      are seen. */
  ghost predicate Walked(id: Identifier, root: Cell, open: set<Cell>, seen: set<Digest>, post: seq<Cell>) {
    && open <= Reach(root)
    && (forall x :: x in post ==> x in Reach(root) && x !in open)
    && (forall x :: x in Reach(root) ==> (id(x) in seen <==> x in post || x in open))
    && Distinct(post) && RefsFirst(post)
  }

  /** No cell on the path from the root is below c. */
  ghost predicate Above(open: set<Cell>, c: Cell) {
    forall g :: g in open ==> Depth(c) < Depth(g)
  }

  lemma SeenIsDone(id: Identifier, root: Cell, open: set<Cell>, seen: set<Digest>, post: seq<Cell>, c: Cell)
    requires Walked(id, root, open, seen, post) && c in Reach(root) && Above(open, c) && id(c) in seen
    ensures c in post
  {
  }

  lemma Enter(id: Identifier, root: Cell, open: set<Cell>, seen: set<Digest>, post: seq<Cell>, c: Cell)
    requires Apart(id, root) && Walked(id, root, open, seen, post) && c in Reach(root) && id(c) !in seen
    ensures Walked(id, root, open + {c}, seen + {id(c)}, post)
  {
    hide Reach, RefsFirst, Distinct;
  }

  lemma Descend(open: set<Cell>, root: Cell, c: Cell, i: nat)
    requires Above(open, c) && i < |c.refs| && c in Reach(root)
    ensures Above(open + {c}, c.refs[i]) && c.refs[i] in Reach(root)
    ensures forall x :: x in Reach(c.refs[i]) ==> x in Reach(c)
  {
    RefIsShallower(c, i);
    RefInReach(root, c, i);
  }

  lemma Leave(id: Identifier, root: Cell, open: set<Cell>, seen: set<Digest>, post: seq<Cell>, c: Cell)
    requires Walked(id, root, open + {c}, seen, post) && c !in open && RefsWithin(c, post)
    ensures Walked(id, root, open, seen, post + [c]) && c in Reach(c)
  {
    assert c in open + {c};
    Finish(post, c);
    hide Reach, RefsFirst, RefsWithin;
    OneMore(post, c);
  }

  lemma OneMore(post: seq<Cell>, c: Cell)
    requires Distinct(post) && c !in post
    ensures Distinct(post + [c]) && forall x :: x in post + [c] <==> x in post || x == c
  {
  }

  /** Adding a cell loses none of those already there. */
  lemma Keeps(c: Cell, i: nat, was: seq<Cell>, post: seq<Cell>)
    requires was <= post && i < |c.refs| && c.refs[i] in post && forall k :: i < k < |c.refs| ==> c.refs[k] in was
    ensures forall k :: i <= k < |c.refs| ==> c.refs[k] in post
  {
  }

  class Walk {
    var seen: set<Digest>
    var post: seq<Cell>

    constructor ()
      ensures seen == {} && post == []
    {
      seen, post := {}, [];
    }

    method Visit(id: Identifier, c: Cell, ghost root: Cell, ghost open: set<Cell>)
      requires Apart(id, root) && Walked(id, root, open, seen, post) && c in Reach(root) && c !in open && Above(open, c)
      modifies this
      ensures Walked(id, root, open, seen, post) && old(post) <= post && c in post
      ensures forall x :: x in post ==> x in old(post) || x in Reach(c)
      decreases c
    {
      hide Walked, Reach, Above, Apart, Depth;
      if id(c) in seen {
        SeenIsDone(id, root, open, seen, post, c);
        return;
      }
      Enter(id, root, open, seen, post, c);
      seen := seen + {id(c)};
      ghost var before := post;
      var i := |c.refs|;
      while i > 0
        invariant 0 <= i <= |c.refs|
        invariant Walked(id, root, open + {c}, seen, post) && before <= post
        invariant forall k :: i <= k < |c.refs| ==> c.refs[k] in post
        invariant forall x :: x in post ==> x in before || x in Reach(c)
      {
        i := i - 1;
        ghost var was := post;
        Descend(open, root, c, i);
        NotOpen(open + {c}, c.refs[i]);
        Visit(id, c.refs[i], root, open + {c});
        Keeps(c, i, was, post);
      }
      Leave(id, root, open, seen, post, c);
      post := post + [c];
    }
  }

  lemma NotOpen(open: set<Cell>, c: Cell)
    requires Above(open, c)
    ensures c !in open
  {
  }

  lemma Finish(done: seq<Cell>, c: Cell)
    requires RefsFirst(done) && RefsWithin(c, done)
    ensures RefsFirst(done + [c])
  {
    var post := done + [c];
    forall i | 0 <= i < |post| ensures RefsWithin(post[i], post[..i]) {
      assert post[..i] == done[..i];
      assert done[..|done|] == done;
    }
  }

  /** Everything below a finished cell is finished. */
  lemma {:induction false} ReachFinished(post: seq<Cell>, i: nat, d: Cell)
    requires RefsFirst(post) && i < |post| && d in Reach(post[i])
    ensures d in post
    decreases i
  {
    var c := post[i];
    if d != c {
      var k :| 0 <= k < |c.refs| && d in Reach(c.refs[k]);
      assert RefsWithin(c, post[..i]);
      var j :| 0 <= j < i && post[j] == c.refs[k];
      ReachFinished(post, j, d);
    }
  }

  // ---- the order ----

  /** The root first, every cell of the tree exactly once, each before all it references. */
  ghost predicate IsOrder(root: Cell, o: seq<Cell>) {
    && o != [] && o[0] == root
    && (forall c :: c in o <==> c in Reach(root))
    && Distinct(o)
    && forall i :: 0 <= i < |o| ==> RefsWithin(o[i], o[i + 1..])
  }

  lemma ReversedIsOrder(root: Cell, post: seq<Cell>, o: seq<Cell>)
    requires post != [] && post[|post| - 1] == root && RefsFirst(post) && Distinct(post)
    requires forall c :: c in post ==> c in Reach(root)
    requires |o| == |post| && forall i :: 0 <= i < |o| ==> o[i] == post[|post| - 1 - i]
    ensures IsOrder(root, o)
  {
    var n := |post|;
    forall c ensures c in o <==> c in post {
      if c in o {
        var i :| 0 <= i < n && o[i] == c;
        assert post[n - 1 - i] == c;
      }
      if c in post {
        var i :| 0 <= i < n && post[i] == c;
        assert o[n - 1 - i] == c;
      }
    }
    forall c | c in Reach(root) ensures c in post {
      ReachFinished(post, n - 1, c);
    }
    forall i | 0 <= i < n ensures RefsWithin(o[i], o[i + 1..]) {
      RefsLater(post, o, i);
    }
  }

  lemma RefsLater(post: seq<Cell>, o: seq<Cell>, i: nat)
    requires RefsFirst(post) && i < |o| == |post| && forall k :: 0 <= k < |o| ==> o[k] == post[|post| - 1 - k]
    ensures RefsWithin(o[i], o[i + 1..])
  {
    var n := |post|;
    assert RefsWithin(post[n - 1 - i], post[..n - 1 - i]);
    forall k | 0 <= k < |o[i].refs| ensures o[i].refs[k] in o[i + 1..] {
      var j :| 0 <= j < n - 1 - i && post[j] == o[i].refs[k];
      assert o[n - 1 - j] == post[j] && o[i + 1..][n - 1 - j - (i + 1)] == o[n - 1 - j];
    }
  }

  /** Swap from both ends inwards. */
  method ReverseInPlace(a: array<Cell>)
    modifies a
    ensures forall k :: 0 <= k < a.Length ==> a[k] == old(a[a.Length - 1 - k])
  {
    var i, j := 0, a.Length - 1;
    while i < j
      invariant 0 <= i <= j + 1 && i + j == a.Length - 1
      invariant forall k :: 0 <= k < i ==> a[k] == old(a[a.Length - 1 - k]) && a[a.Length - 1 - k] == old(a[k])
      invariant forall k :: i <= k <= j ==> a[k] == old(a[k])
    {
      a[i], a[j] := a[j], a[i];
      i, j := i + 1, j - 1;
    }
  }

  method Reverse(post: seq<Cell>) returns (o: seq<Cell>)
    ensures |o| == |post| && forall i :: 0 <= i < |o| ==> o[i] == post[|post| - 1 - i]
  {
    var a := new Cell[|post|](i requires 0 <= i < |post| => post[i]);
    ReverseInPlace(a);
    o := a[..];
  }

  lemma Start(id: Identifier, root: Cell)
    ensures Walked(id, root, {}, {}, []) && Above({}, root) && root in Reach(root)
  {
  }

  lemma Done(id: Identifier, root: Cell, seen: set<Digest>, post: seq<Cell>)
    requires Walked(id, root, {}, seen, post) && root in post
    ensures post != [] && post[|post| - 1] == root && RefsFirst(post) && Distinct(post)
    ensures forall c :: c in post ==> c in Reach(root)
  {
    LastIsRoot(root, post);
  }

  method Order(id: Identifier, root: Cell) returns (o: seq<Cell>)
    requires Apart(id, root)
    ensures IsOrder(root, o)
  {
    var walk := new Walk();
    Start(id, root);
    walk.Visit(id, root, root, {});
    Done(id, root, walk.seen, walk.post);
    o := Reverse(walk.post);
    ReversedIsOrder(root, walk.post, o);
  }

  /** Nothing of a tree but its root references upwards to the root, so the root is finished last. */
  lemma LastIsRoot(root: Cell, post: seq<Cell>)
    requires RefsFirst(post) && Distinct(post) && root in post && forall c :: c in post ==> c in Reach(root)
    ensures post[|post| - 1] == root
  {
    var r :| 0 <= r < |post| && post[r] == root;
    var last := post[|post| - 1];
    if r < |post| - 1 {
      assert last in Reach(root);
      ReachEarlier(post, r, last);
    }
  }

  /** Everything below a finished cell was finished before it. */
  lemma {:induction false} ReachEarlier(post: seq<Cell>, i: nat, d: Cell)
    requires RefsFirst(post) && i < |post| && d in Reach(post[i])
    ensures d in post[..i + 1]
    decreases i
  {
    var c := post[i];
    if d != c {
      var k :| 0 <= k < |c.refs| && d in Reach(c.refs[k]);
      assert RefsWithin(c, post[..i]);
      var j :| 0 <= j < i && post[j] == c.refs[k];
      ReachEarlier(post, j, d);
    }
  }
}
