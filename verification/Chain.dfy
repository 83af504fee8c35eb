/** Blocks and the tree they form.

    A block names its parents, the block its quorum certificate is for, and the hashes of the
    commands it carries.  Hashes are taken to be collision-free, so a block is its contents: two
    blocks are the same block exactly when they are equal as values.  `extra` stands for the rest
    of what is hashed (the signatures inside the certificate and the opaque extra bytes).
  */
module Chain {

  type Command = nat

  datatype Block =
    | Genesis
    | Node(parent: Block, uncles: seq<Block>, qcBlock: Block, cmds: seq<Command>, extra: nat)

  /** The height field: one more than the height of parents[0]. */
  function Height(b: Block): nat {
    match b
    case Genesis => 0
    case Node(p, _, _, _, _) => Height(p) + 1
  }

  /** The block that the certificate inside b refers to; genesis refers to itself. */
  function QcRef(b: Block): Block {
    match b
    case Genesis => Genesis
    case Node(_, _, q, _, _) => q
  }

  /** The vector `parents`: parents[0] is the direct parent, the others are uncles. */
  function Parents(b: Block): seq<Block> {
    match b
    case Genesis => []
    case Node(p, us, _, _, _) => [p] + us
  }

  /** Block a lies on the parents[0] path that starts at b. */
  predicate Extends(b: Block, a: Block) {
    b == a || (b.Node? && Extends(b.parent, a))
  }

  /** The blocks after genesis on the way to b, oldest first. */
  function Branch(b: Block): (path: seq<Block>)
    ensures |path| == Height(b)
  {
    match b
    case Genesis => []
    case Node(p, _, _, _, _) => Branch(p) + [b]
  }

  /** The blocks of b's branch that are higher than h, oldest first. */
  function Above(b: Block, h: nat): seq<Block> {
    if h <= Height(b) then Branch(b)[h..] else []
  }

  function Members(bs: seq<Block>): set<Block> {
    set b | b in bs
  }

  function Reversed(bs: seq<Block>): (r: seq<Block>)
    ensures |r| == |bs|
  {
    if bs == [] then [] else Reversed(bs[1..]) + [bs[0]]
  }

  lemma {:induction false} ReversedSnoc(bs: seq<Block>, b: Block)
    ensures Reversed(bs + [b]) == [b] + Reversed(bs)
  {
    if bs != [] {
      ReversedSnoc(bs[1..], b);
      assert (bs + [b])[1..] == bs[1..] + [b];
    }
  }

  lemma MembersSnoc(bs: seq<Block>, b: Block)
    ensures Members(bs + [b]) == Members(bs) + {b}
  {
  }

  /** All blocks that b extends. */
  function Ancestors(b: Block): (anc: set<Block>)
    ensures forall a :: a in anc <==> Extends(b, a)
  {
    match b
    case Genesis => {Genesis}
    case Node(p, _, _, _, _) => Ancestors(p) + {b}
  }

  /** What the loop `for (b = from; b->height > h; b = b->parents[0]);` leaves in b. */
  function WalkDown(from: Block, h: nat): (b: Block)
    ensures Extends(from, b)
    ensures Height(from) <= h ==> b == from
    ensures Height(from) > h ==> Height(b) == h
  {
    if Height(from) > h then WalkDown(from.parent, h) else from
  }

  /** The walk finds the block it is compared with exactly when that block is an ancestor. */
  lemma {:induction false} WalkFindsAncestor(from: Block, a: Block)
    ensures WalkDown(from, Height(a)) == a <==> Extends(from, a)
  {
    if Height(from) > Height(a) {
      WalkFindsAncestor(from.parent, a);
    } else if Extends(from, a) {
      ExtendsHeight(from, a);
    }
  }

  lemma {:induction false} ExtendsHeight(b: Block, a: Block)
    requires Extends(b, a)
    ensures Height(a) <= Height(b)
    ensures Height(a) == Height(b) ==> a == b
  {
    if b != a {
      ExtendsHeight(b.parent, a);
    }
  }

  lemma {:induction false} ExtendsGenesis(b: Block)
    ensures Extends(b, Genesis)
  {
    if b.Node? {
      ExtendsGenesis(b.parent);
    }
  }

  lemma {:induction false} ExtendsTransitive(c: Block, b: Block, a: Block)
    requires Extends(c, b) && Extends(b, a)
    ensures Extends(c, a)
  {
    if c != b {
      ExtendsTransitive(c.parent, b, a);
    }
  }

  /** Two ancestors of one block are themselves ordered by height. */
  lemma {:induction false} AncestorsAreOrdered(c: Block, a: Block, b: Block)
    requires Extends(c, a) && Extends(c, b) && Height(a) <= Height(b)
    ensures Extends(b, a)
  {
    if c == b {
    } else if c == a {
      ExtendsHeight(c, b);
    } else {
      AncestorsAreOrdered(c.parent, a, b);
    }
  }

  lemma {:induction false} BranchIsPrefix(b: Block, a: Block)
    requires Extends(b, a)
    ensures Branch(a) <= Branch(b)
  {
    if b != a {
      BranchIsPrefix(b.parent, a);
    }
  }

  /** The k-th block of a branch has height k + 1, its predecessor is its parent. */
  lemma {:induction false} BranchIsLinked(b: Block, k: nat)
    requires k < |Branch(b)|
    ensures Extends(b, Branch(b)[k]) && Branch(b)[k].Node?
    ensures Height(Branch(b)[k]) == k + 1
    ensures Branch(b)[k].parent == if k == 0 then Genesis else Branch(b)[k - 1]
  {
    if k + 1 < |Branch(b)| {
      BranchIsLinked(b.parent, k);
    } else if k > 0 {
      assert Branch(b.parent)[k - 1] == b.parent;
    }
  }

  /** The members of a branch are the ancestors other than genesis. */
  lemma {:induction false} BranchMembers(b: Block, a: Block)
    ensures a in Branch(b) <==> Extends(b, a) && a != Genesis
  {
    if b.Node? {
      BranchMembers(b.parent, a);
      if a == b {
        assert Branch(b)[|Branch(b)| - 1] == b;
      } else if a in Branch(b) {
        var k :| 0 <= k < |Branch(b)| && Branch(b)[k] == a;
        assert Branch(b.parent)[k] == a;
      }
    }
  }
}
