/** What is true of the votes cast in any run, and what it implies for certified blocks. */
module Ballots {
  import opened Chain
  import opened CoreFacts
  import opened Quorums

  /** What a correct replica guarantees about each ballot at the moment it votes. */
  ghost predicate BallotOk(cfg: Config, bs: set<Ballot>, x: Ballot) {
    && x.blk.Node?
    && Certified(cfg, bs, x.lock)
    && Certified(cfg, bs, QcRef(x.blk))
    && ((cfg.build.ThreeStep? && Height(QcRef(x.blk)) > Height(x.lock)) || Extends(x.blk, x.lock))
    && (forall b :: CommitChain(cfg.build, b, x.blk) ==> Height(b) <= Height(x.lock))
  }

  /** Two ballots of one correct replica: it votes once per height, and its lock never goes down. */
  ghost predicate InOrder(x: Ballot, y: Ballot) {
    && (Height(x.blk) == Height(y.blk) ==> x == y)
    && (Height(x.blk) < Height(y.blk) ==> Height(x.lock) <= Height(y.lock))
  }

  ghost predicate FreshQuorum(cfg: Config, bs: set<Ballot>, b: Block) {
    b == Genesis || |FreshSupporters(cfg, bs, b)| >= Majority(cfg.n)
  }

  ghost predicate BallotsOk(cfg: Config, bs: set<Ballot>) {
    && (forall x :: x in bs && Correct(cfg, x.voter) ==> BallotOk(cfg, bs, x))
    && (forall x, y :: x in bs && y in bs && x.voter == y.voter && Correct(cfg, x.voter) ==> InOrder(x, y))
    && (forall b :: Certified(cfg, bs, b) ==> FreshQuorum(cfg, bs, b))
  }

  lemma BallotOkGrows(cfg: Config, bs: set<Ballot>, bs': set<Ballot>, x: Ballot)
    requires bs <= bs' && BallotOk(cfg, bs, x)
    ensures BallotOk(cfg, bs', x)
  {
    CertifiedGrows(cfg, bs, bs', x.lock);
    CertifiedGrows(cfg, bs, bs', QcRef(x.blk));
  }

  /** Before a block is certified nobody correct is locked on it, so a certificate always has a
      quorum of voters that were not. */
  lemma FreshQuorumGrows(cfg: Config, bs: set<Ballot>, x: Ballot, b: Block)
    requires BallotsOk(cfg, bs)
    requires Correct(cfg, x.voter) ==> BallotOk(cfg, bs, x)
    requires Certified(cfg, bs + {x}, b)
    ensures FreshQuorum(cfg, bs + {x}, b)
  {
    if b == Genesis {
    } else if Certified(cfg, bs, b) {
      SubsetSize(FreshSupporters(cfg, bs, b), FreshSupporters(cfg, bs + {x}, b));
    } else {
      assert FreshSupporters(cfg, bs + {x}, b) == Supporters(cfg, bs + {x}, b);
    }
  }

  lemma AddBallot(cfg: Config, bs: set<Ballot>, x: Ballot)
    requires BallotsOk(cfg, bs)
    requires Correct(cfg, x.voter) ==> BallotOk(cfg, bs, x)
    requires Correct(cfg, x.voter) ==>
               forall y :: y in bs && y.voter == x.voter ==>
                 Height(y.blk) < Height(x.blk) && Height(y.lock) <= Height(x.lock)
    ensures BallotsOk(cfg, bs + {x})
  {
    forall y | y in bs + {x} && Correct(cfg, y.voter) ensures BallotOk(cfg, bs + {x}, y) {
      BallotOkGrows(cfg, bs, bs + {x}, y);
    }
    forall b | Certified(cfg, bs + {x}, b) ensures FreshQuorum(cfg, bs + {x}, b) {
      FreshQuorumGrows(cfg, bs, x, b);
    }
  }

  /** At most one block per height is ever certified. */
  lemma OneCertifiedPerHeight(cfg: Config, bs: set<Ballot>, a: Block, b: Block)
    requires ValidConfig(cfg) && BallotsOk(cfg, bs)
    requires Certified(cfg, bs, a) && Certified(cfg, bs, b) && Height(a) == Height(b)
    ensures a == b
  {
    if a.Node? && b.Node? {
      var v := QuorumsShareCorrect(cfg, Supporters(cfg, bs, a), Supporters(cfg, bs, b));
      var x :| x in bs && x.blk == a && x.voter == v;
      var y :| y in bs && y.blk == b && y.voter == v;
      assert InOrder(x, y);
    }
  }

  /** A certified block's own certificate is valid too. */
  lemma QcRefCertified(cfg: Config, bs: set<Ballot>, b: Block)
    requires ValidConfig(cfg) && BallotsOk(cfg, bs)
    requires Certified(cfg, bs, b)
    ensures Certified(cfg, bs, QcRef(b))
  {
    if b.Node? {
      var v := QuorumsShareCorrect(cfg, Supporters(cfg, bs, b), Supporters(cfg, bs, b));
      var x :| x in bs && x.blk == b && x.voter == v;
      assert BallotOk(cfg, bs, x);
    }
  }

  /** The voting rule means what the paper needs: a vote that does not extend the lock is for a
      block that extends the higher certified block it cites. */
  ghost predicate Grounded(x: Ballot) {
    Extends(x.blk, x.lock) || Extends(x.blk, QcRef(x.blk))
  }

  ghost predicate AllGrounded(cfg: Config, bs: set<Ballot>) {
    forall x :: x in bs && Correct(cfg, x.voter) ==> Grounded(x)
  }

  /** b is certified, and so is a chain of direct descendants that commits it. */
  ghost predicate CommitCertified(cfg: Config, bs: set<Ballot>, b: Block) {
    b == Genesis || exists top :: Certified(cfg, bs, top) && CommitChain(cfg.build, b, top)
  }

  lemma ChainCertified(cfg: Config, bs: set<Ballot>, b: Block, top: Block, w: Block)
    requires ValidConfig(cfg) && BallotsOk(cfg, bs)
    requires Certified(cfg, bs, top) && CommitChain(cfg.build, b, top)
    requires Certified(cfg, bs, w) && Height(b) <= Height(w) <= Height(top)
    ensures Certified(cfg, bs, b)
    ensures Extends(w, b)
  {
    QcRefCertified(cfg, bs, top);
    QcRefCertified(cfg, bs, QcRef(top));
    if Height(w) == Height(top) {
      OneCertifiedPerHeight(cfg, bs, w, top);
    } else if Height(w) == Height(b) {
      OneCertifiedPerHeight(cfg, bs, w, b);
    } else {
      OneCertifiedPerHeight(cfg, bs, w, QcRef(top));
    }
  }

  /** The heart of safety, by induction on the height of w: once a commit chain on b is certified,
      every certified block at least as high as b extends b. */
  lemma {:induction false} CertifiedExtendsCommitted(cfg: Config, bs: set<Ballot>, b: Block, top: Block, w: Block)
    requires ValidConfig(cfg) && BallotsOk(cfg, bs) && AllGrounded(cfg, bs)
    requires Certified(cfg, bs, top) && CommitChain(cfg.build, b, top)
    requires Certified(cfg, bs, w) && Height(w) >= Height(b)
    ensures Extends(w, b)
    decreases Height(w)
  {
    if Height(w) <= Height(top) {
      ChainCertified(cfg, bs, b, top, w);
    } else {
      var v := QuorumsShareCorrect(cfg, Supporters(cfg, bs, top), FreshSupporters(cfg, bs, w));
      var x :| x in bs && x.blk == top && x.voter == v;
      var y :| y in bs && y.blk == w && y.voter == v && y.lock != w;
      assert InOrder(x, y) && BallotOk(cfg, bs, x) && BallotOk(cfg, bs, y) && Grounded(y);
      var below := if Extends(w, y.lock) then y.lock else QcRef(w);
      assert Extends(w, below) && below != w;
      ExtendsHeight(w, below);
      CertifiedExtendsCommitted(cfg, bs, b, top, below);
      ExtendsTransitive(w, below, b);
    }
  }

  /** Any two committed blocks are on one branch. */
  lemma CommittedBlocksAgree(cfg: Config, bs: set<Ballot>, a: Block, b: Block)
    requires ValidConfig(cfg) && BallotsOk(cfg, bs) && AllGrounded(cfg, bs)
    requires CommitCertified(cfg, bs, a) && CommitCertified(cfg, bs, b) && Height(a) <= Height(b)
    ensures Extends(b, a)
  {
    if a == Genesis {
      ExtendsGenesis(b);
    } else {
      var top :| Certified(cfg, bs, top) && CommitChain(cfg.build, a, top);
      if b != Genesis {
        var top' :| Certified(cfg, bs, top') && CommitChain(cfg.build, b, top');
        QcRefCertified(cfg, bs, top');
        QcRefCertified(cfg, bs, QcRef(top'));
      }
      CertifiedExtendsCommitted(cfg, bs, a, top, b);
    }
  }
}
