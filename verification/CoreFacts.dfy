/** What every input keeps true of one replica's state, whatever the network sends. */
module CoreFacts {
  import opened Chain
  import opened Core

  /** The commit log is the branch of b_exec, the decision flags are exactly its ancestors, and
      the delivered set is closed under parents. */
  ghost predicate Shape(st: State) {
    && Genesis in st.delivered
    && st.delivered <= st.fetched
    && (forall b, p :: b in st.delivered && p in Parents(b) ==> p in st.delivered)
    && st.hqc in st.delivered && st.bLock in st.delivered && st.bExec in st.delivered
    && st.decided == Ancestors(st.bExec)
    && st.log == Branch(st.bExec)
    && Height(st.bExec) <= Height(st.bLock)
  }

  /** `tails` is exactly the delivered blocks without a delivered child. */
  ghost predicate TailsExact(st: State) {
    forall b :: b in st.tails <==> IsTail(st.delivered, b)
  }

  lemma {:induction false} AncestorsDelivered(st: State, b: Block, a: Block)
    requires Shape(st) && b in st.delivered && Extends(b, a)
    ensures a in st.delivered
  {
    if b != a {
      assert b.parent in Parents(b);
      AncestorsDelivered(st, b.parent, a);
    }
  }

  /** Walking from blk down to e passes the blocks that blk has on top of e. */
  lemma SegmentAboveAncestor(blk: Block, e: Block)
    requires Extends(blk, e)
    ensures Branch(e) + Above(blk, Height(e)) == Branch(blk)
  {
    BranchIsPrefix(blk, e);
    ExtendsHeight(blk, e);
  }

  lemma SegmentMember(blk: Block, e: Block, a: Block)
    requires Extends(blk, e)
    ensures Extends(blk, a) <==> Extends(e, a) || a in Above(blk, Height(e))
  {
    SegmentAboveAncestor(blk, e);
    BranchMembers(blk, a);
    BranchMembers(e, a);
    ExtendsGenesis(blk);
    ExtendsGenesis(e);
    assert a in Branch(blk) <==> a in Branch(e) || a in Above(blk, Height(e));
  }

  lemma SegmentAncestors(blk: Block, e: Block)
    requires Extends(blk, e)
    ensures Ancestors(blk) == Ancestors(e) + Members(Above(blk, Height(e)))
  {
    forall a ensures a in Ancestors(blk) <==> a in Ancestors(e) || a in Above(blk, Height(e)) {
      SegmentMember(blk, e, a);
    }
  }

  /** A successful commit moves b_exec to blk and appends exactly the blocks in between. */
  lemma CommitAppends(st: State, blk: Block)
    requires Shape(st)
    requires blk in st.delivered && Height(blk) <= Height(st.bLock)
    ensures Commit(st, blk).error == NoError <==> Extends(blk, st.bExec)
    ensures Commit(st, blk).error == NoError ==>
              Shape(Commit(st, blk).state) && Commit(st, blk).state.bExec == blk && st.log <= Commit(st, blk).state.log
    ensures Commit(st, blk).error != NoError ==> Commit(st, blk) == Outcome(st, SafetyBreached)
  {
    WalkFindsAncestor(blk, st.bExec);
    if Extends(blk, st.bExec) {
      SegmentAboveAncestor(blk, st.bExec);
      SegmentAncestors(blk, st.bExec);
    }
  }

  /** The shape that lets `update` commit b: three blocks (two in the two-step build) linked both
      by parents[0] and by certificate, top being the last of them. */
  predicate CommitChain(build: Build, b: Block, top: Block) {
    match build
    case ThreeStep => top.Node? && top.parent.Node? && top.qcBlock == top.parent
                      && top.parent.qcBlock == top.parent.parent == b
    case TwoStep => top.Node? && top.qcBlock == top.parent == b
  }

  /** How far down the certificates of nblk the lock looks. */
  function LockTarget(build: Build, nblk: Block): Block {
    match build
    case ThreeStep => QcRef(QcRef(nblk))
    case TwoStep => QcRef(nblk)
  }

  lemma RaisesEach(st: State, q: Block, l: Block)
    ensures var st' := RaiseLock(UpdateHqc(st, q), l);
            && st' == st.(hqc := st'.hqc, bLock := st'.bLock)
            && (st'.hqc == st.hqc || (st'.hqc == q && q in st.delivered && Height(q) > Height(st.hqc)))
            && (st'.bLock == st.bLock || (st'.bLock == l && l in st.delivered && Height(l) > Height(st.bLock)))
  {
  }

  /** Before committing, `update` only ever raises hqc and b_lock, each to a delivered block named
      by a certificate. */
  lemma BeforeCommitRaises(build: Build, st: State, nblk: Block)
    requires Shape(st)
    ensures var st2 := BeforeCommit(build, st, nblk).0;
            && st2 == st.(hqc := st2.hqc, bLock := st2.bLock)
            && Shape(st2)
            && (st2.hqc == st.hqc
                || (st2.hqc == QcRef(nblk) && QcRef(nblk) in st.delivered && Height(st2.hqc) > Height(st.hqc)))
            && (st2.bLock == st.bLock
                || (&& st2.bLock == LockTarget(build, nblk) && QcRef(nblk) in st.delivered
                    && st2.bLock in st.delivered && Height(st2.bLock) > Height(st.bLock)))
  {
    hide BeforeCommit;
    BeforeCommitIsRaise(build, st, nblk);
    RaisesEach(st, QcRef(nblk), LockTarget(build, nblk));
    RaisesEach(st, QcRef(nblk), st.bLock);
  }

  /** Up to the commit `update` raises hqc, b_lock, both or none. */
  lemma BeforeCommitIsRaise(build: Build, st: State, nblk: Block)
    ensures var st2, q := BeforeCommit(build, st, nblk).0, QcRef(nblk);
            || st2 == st || st2 == UpdateHqc(st, q)
            || (st2 == RaiseLock(UpdateHqc(st, q), LockTarget(build, nblk))
                && (q in st.delivered || st2.bLock == st.bLock))
  {
  }

  /** A block that gets as far as the commit loop heads a commit chain and is below the lock. */
  lemma CommitCandidate(build: Build, st: State, nblk: Block)
    requires Shape(st)
    requires BeforeCommit(build, st, nblk).1.Some?
    ensures var (st2, blk) := BeforeCommit(build, st, nblk);
            && CommitChain(build, blk.value, QcRef(nblk)) && QcRef(nblk) in st.delivered
            && blk.value in st.delivered && blk.value !in st.decided
            && Height(blk.value) < Height(st2.bLock)
  {
    var blk2 := QcRef(nblk);
    if build.ThreeStep? {
      assert QcRef(blk2).parent in Parents(QcRef(blk2));
    } else {
      assert blk2.parent in Parents(blk2);
    }
  }

  /** After `update` the lock is at least as high as the block a delivered chain top would commit. */
  lemma LockCoversChain(build: Build, st: State, b: Block, nblk: Block)
    requires Shape(st) && nblk in st.delivered
    requires CommitChain(build, b, nblk)
    ensures Height(b) <= Height(BeforeCommit(build, st, nblk).0.bLock)
  {
    AncestorsDelivered(st, nblk, nblk.parent);
    AncestorsDelivered(st, nblk, b);
    var b1 := QcRef(nblk);
    if b1 in st.decided {
      ExtendsHeight(st.bExec, b1);
    } else if b in st.decided {
      ExtendsHeight(st.bExec, b);
    }
  }

  lemma UpdateKeepsShape(build: Build, st: State, nblk: Block)
    requires Shape(st)
    ensures var o := Update(build, st, nblk);
            && Shape(o.state)
            && o.state.vheight == st.vheight && o.state.voted == st.voted
            && o.state.delivered == st.delivered && o.state.fetched == st.fetched && o.state.tails == st.tails
            && st.log <= o.state.log
            && Height(st.bLock) <= Height(o.state.bLock) && Height(st.hqc) <= Height(o.state.hqc)
            && o.state.hqc == BeforeCommit(build, st, nblk).0.hqc
            && o.state.bLock == BeforeCommit(build, st, nblk).0.bLock
            && (o.state.bExec == st.bExec || BeforeCommit(build, st, nblk).1 == Some(o.state.bExec))
  {
    BeforeCommitRaises(build, st, nblk);
    var (st2, blk) := BeforeCommit(build, st, nblk);
    if blk.Some? {
      CommitCandidate(build, st, nblk);
      CommitAppends(st2, blk.value);
    }
  }

  /** What `update` commits: the heads of commit chains whose last block nblk cites, with all under them.  It
      throws exactly if such a head is new and does not extend b_exec. */
  lemma UpdateDecidesExactly(build: Build, st: State, nblk: Block)
    requires Shape(st)
    ensures var o := Update(build, st, nblk);
            && (o.error == NoError ==>
                  forall b :: b in o.state.decided <==>
                    b in st.decided || exists c :: Heads(build, st, c, nblk) && Extends(c, b))
            && (o.error != NoError <==>
                  exists c :: Heads(build, st, c, nblk) && c !in st.decided && !Extends(c, st.bExec))
            && (o.error != NoError ==> o.error == SafetyBreached && o.state.log == st.log)
  {
    hide Commit;
    BeforeCommitRaises(build, st, nblk);
    var (st2, blk) := BeforeCommit(build, st, nblk);
    if blk.Some? {
      CommitCandidate(build, st, nblk);
      CommitAppends(st2, blk.value);
      assert Heads(build, st, blk.value, nblk);
    }
    forall c | Heads(build, st, c, nblk) ensures c in st.decided || blk == Some(c) {
      OneHead(build, st, c, nblk);
    }
    forall b, c | Heads(build, st, c, nblk) && c in st.decided && Extends(c, b) ensures b in st.decided {
      ExtendsTransitive(st.bExec, c, b);
    }
    forall b | b in st.decided && blk.Some? && Extends(blk.value, st.bExec) ensures Extends(blk.value, b) {
      ExtendsTransitive(blk.value, st.bExec, b);
    }
  }

  /** c heads a commit chain whose last block is delivered and cited by nblk. */
  predicate Heads(build: Build, st: State, c: Block, nblk: Block) {
    QcRef(nblk) in st.delivered && CommitChain(build, c, QcRef(nblk))
  }

  lemma OneHead(build: Build, st: State, c: Block, nblk: Block)
    requires Shape(st) && Heads(build, st, c, nblk)
    ensures c in st.decided || BeforeCommit(build, st, nblk).1 == Some(c)
  {
    var top := QcRef(nblk);
    AncestorsDelivered(st, top, top.parent);
    if top in st.decided {
      ExtendsTransitive(st.bExec, top, c);
    } else if QcRef(top) in st.decided {
      ExtendsTransitive(st.bExec, QcRef(top), c);
    }
  }

  /** When a delivered block that is received gets a vote. */
  lemma VoteIsExact(build: Build, st: State, b: Block)
    requires Shape(st) && b in st.delivered
    ensures var o := ReceiveProposal(build, st, b);
            o.error == NoError ==>
              && o.state.bLock == Update(build, st, b).state.bLock
              && (o.state.vheight != st.vheight <==>
                    && Height(b) > st.vheight
                    && ((QcRef(b) in st.delivered && Height(QcRef(b)) > Height(o.state.bLock))
                        || Extends(b, o.state.bLock)))
              && o.state.vheight in {st.vheight, Height(b)}
  {
    hide Update;
    UpdateKeepsShape(build, st, b);
  }

  lemma DeliverKeepsShape(st: State, b: Block)
    requires Shape(st)
    ensures var o := Deliver(st, b);
            && Shape(o.state)
            && o.state == st.(fetched := o.state.fetched, delivered := o.state.delivered, tails := o.state.tails)
            && st.delivered <= o.state.delivered <= st.delivered + {b}
  {
  }

  ghost predicate IsTail(delivered: set<Block>, b: Block) {
    b in delivered && forall c :: c in delivered ==> b !in Parents(c)
  }

  lemma NewTail(st: State, b: Block, x: Block)
    requires Shape(st) && b !in st.delivered
    ensures IsTail(st.delivered + {b}, x) <==> x == b || (IsTail(st.delivered, x) && x !in Parents(b))
  {
    if x == b {
      forall c | c in st.delivered + {b} ensures b !in Parents(c) {
        if b in Parents(b) {
          ParentIsSmaller(b, b);
        }
      }
    }
  }

  /** Delivering a block keeps the tails exact: its parents stop being tails, it becomes one. */
  lemma DeliverKeepsTails(st: State, b: Block)
    requires Shape(st) && TailsExact(st)
    ensures TailsExact(Deliver(st, b).state)
  {
    var st' := Deliver(st, b).state;
    if st' != st {
      forall x ensures x in st'.tails <==> IsTail(st'.delivered, x) {
        NewTail(st, b, x);
        assert x in st.tails <==> IsTail(st.delivered, x);
      }
    }
  }

  lemma ParentIsSmaller(b: Block, p: Block)
    requires p in Parents(b)
    ensures p != b
  {
    if p in b.uncles {
      assert p < b;
    }
  }

  /** In the two-step build `update` has already moved the lock to the certified block, so a vote
      is never cast through the "liveness condition". */
  lemma TwoStepLivenessTestNeverTrue(st: State, b: Block)
    requires Shape(st)
    ensures !LivenessTest(Update(TwoStep, st, b).state, b)
  {
    UpdateKeepsShape(TwoStep, st, b);
    if QcRef(b) in st.decided {
      ExtendsHeight(st.bExec, QcRef(b));
    }
  }
}
