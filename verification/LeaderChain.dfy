/** What happens when one proposer builds each block on its last one, with the certificate for that
    block in hand: the steady state of a fixed proposer, and the chain of blocks with which a newly
    elected proposer re-proposes pending commands. */
module LeaderChain {
  import opened Chain
  import opened Core
  import opened CoreFacts
  import opened Quorums
  import opened Ballots
  import opened Protocol
  import opened Invariant
  import opened Safety
  import opened Votes

  /** Receiving a block whose certificate chain reaches back over direct parents leaves the first of
      them decided, unless the call throws. */
  lemma ChainHeadDecided(build: Build, st: State, b: Block, nblk: Block)
    requires Shape(st) && nblk in st.delivered && nblk.Node? && nblk.qcBlock == nblk.parent
    requires CommitChain(build, b, nblk.parent)
    requires Update(build, st, nblk).error == NoError
    ensures b in Update(build, st, nblk).state.decided
  {
    var top := nblk.parent;
    AncestorsDelivered(st, nblk, top);
    AncestorsDelivered(st, nblk, top.parent);
    UpdateKeepsShape(build, st, nblk);
    BeforeCommitRaises(build, st, nblk);
    var (st2, blk) := BeforeCommit(build, st, nblk);
    if blk.Some? {
      CommitCandidate(build, st, nblk);
      CommitAppends(st2, blk.value);
    } else if top in st.decided {
      ExtendsTransitive(st.bExec, top, b);
    } else if QcRef(top) in st.decided {
      ExtendsTransitive(st.bExec, QcRef(top), b);
    }
  }

  /** Right after it gets its certificate, a block nobody has built on is the only choice of parent. */
  lemma NewHqcIsTail(st: State, b: Block, t: Block)
    requires Shape(st) && TailsExact(st) && IsTail(st.delivered, b) && st.hqc == b
    requires HighestTail(st, t)
    ensures t == b
  {
    if t != b {
      NothingAbove(st, t, b);
    }
  }

  lemma {:induction false} NothingAbove(st: State, x: Block, b: Block)
    requires Shape(st) && IsTail(st.delivered, b) && x in st.delivered && Extends(x, b)
    ensures x == b
  {
    if x != b {
      assert x.parent in Parents(x);
      NothingAbove(st, x.parent, b);
    }
  }

  // ---- re-proposing ----

  /** How many blocks below the newest one the newest committed block is; also the x at which
      do_new_consensus stops. */
  function Lag(build: Build): nat {
    match build
    case ThreeStep => 3
    case TwoStep => 2
  }

  /** What proposing on `tail`, and then getting votes for the block, does to the proposer's state. */
  type Proposing = (State, Block, seq<Command>, nat) -> State

  /** The votes that arrive for each block, in this order. */
  type Arriving = Block -> seq<ReplicaId>

  function ProposeAndCertify(build: Build, nmajority: nat, voters: Arriving): Proposing {
    (st: State, tail: Block, cmds: seq<Command>, extra: nat) =>
      var b := NewBlock(st, tail, cmds, extra);
      AfterVotes(Propose(build, st, tail, cmds, extra).state, nmajority, b, voters(b))
  }

  /** At least nmajority replicas have voted for b, and their votes arrive. */
  ghost predicate Voted(cfg: Config, bs: set<Ballot>, voters: Arriving, b: Block) {
    Distinct(voters(b)) <= Supporters(cfg, bs, b) && |Distinct(voters(b))| >= Majority(cfg.n)
  }

  /** The blocks that do_new_consensus(x, cmds) issues when each gets its certificate before anything
      else happens.  `extras` is what besides parents, commands and certified block is hashed. */
  function NewConsensus(step: Proposing, last: nat, st: State, tail: Block, x: nat, cmds: seq<Command>,
                        extras: nat -> nat)
    : (bs: seq<Block>)
    requires x <= last
    ensures |bs| == last - x + 1
    decreases last - x
  {
    var b := NewBlock(st, tail, cmds, extras(x));
    if x >= last then [b]
    else [b] + NewConsensus(step, last, step(st, tail, cmds, extras(x)), b, x + 1, [], extras)
  }

  /** Each block after the first is linked to the one before by parent and by certificate. */
  ghost predicate Linked(bs: seq<Block>) {
    forall i :: 0 < i < |bs| ==> bs[i].Node? && bs[i].parent == bs[i - 1] && bs[i].qcBlock == bs[i - 1]
  }

  /** The state a proposer needs: hqc_tail extends hqc and is high enough for the next block to
      exceed vheight, and every certificate it holds is good. */
  ghost predicate Able(cfg: Config, bs: set<Ballot>, st: State, tail: Block) {
    && ValidConfig(cfg) && BallotsOk(cfg, bs) && AllGrounded(cfg, bs)
    && Shape(st) && TailsExact(st) && Certs(cfg, bs, st)
    && tail in st.delivered && Extends(tail, st.hqc) && st.vheight <= Height(tail)
  }

  /** And it has taken notice of all the certificates that its votes make up. */
  ghost predicate MayPropose(cfg: Config, bs: set<Ballot>, st: State, tail: Block) {
    Able(cfg, bs, st, tail) && CompletedKnown(st, Majority(cfg.n))
  }

  lemma ProposalSucceeds(cfg: Config, bs: set<Ballot>, st: State, tail: Block, cmds: seq<Command>, extra: nat)
    requires Able(cfg, bs, st, tail)
    ensures var o := Propose(cfg.build, st, tail, cmds, extra);
            var b := NewBlock(st, tail, cmds, extra);
            && o.error == NoError && o.state.hqc == st.hqc && b in o.state.delivered
            && Shape(o.state) && TailsExact(o.state) && Certs(cfg, bs, o.state)
            && o.state.vheight <= Height(b) && Height(b) > Height(st.hqc) && o.state.voted == st.voted
  {
    hide BeforeCommit, Commit, BallotsOk, AllGrounded, Propose, FetchAndDeliver;
    var b := NewBlock(st, tail, cmds, extra);
    var st1 := FetchAndDeliver(st, b);
    ProposeSplits(cfg.build, st, tail, cmds, extra);
    OwnDeliveredKeeps(cfg, bs, st, tail, cmds, extra);
    UpdateNeverBreaches(cfg, bs, st1, b);
    UpdateKeepsShape(cfg.build, st1, b);
    UpdateKeepsCerts(cfg, bs, st1, b);
    BeforeCommitRaises(cfg.build, st1, b);
    ExtendsHeight(tail, st.hqc);
  }

  /** Once the new block has its certificate, the same can be said for the next one. */
  ghost predicate StaysReady(cfg: Config, bs: set<Ballot>, voters: Arriving, step: Proposing) {
    forall st, tail, cmds, extra |
      MayPropose(cfg, bs, st, tail) && Voted(cfg, bs, voters, NewBlock(st, tail, cmds, extra)) ::
      var b := NewBlock(st, tail, cmds, extra);
      step(st, tail, cmds, extra).hqc == b && MayPropose(cfg, bs, step(st, tail, cmds, extra), b)
  }

  lemma CertifiedAndReady(cfg: Config, bs: set<Ballot>, voters: Arriving)
    ensures StaysReady(cfg, bs, voters, ProposeAndCertify(cfg.build, Majority(cfg.n), voters))
  {
    hide MayPropose, Voted, Propose, AfterVotes;
    forall st, tail, cmds, extra |
      MayPropose(cfg, bs, st, tail) && Voted(cfg, bs, voters, NewBlock(st, tail, cmds, extra))
      ensures var b := NewBlock(st, tail, cmds, extra);
              var st' := ProposeAndCertify(cfg.build, Majority(cfg.n), voters)(st, tail, cmds, extra);
              st'.hqc == b && MayPropose(cfg, bs, st', b)
    {
      CertifiedNext(cfg, bs, voters, st, tail, cmds, extra);
    }
  }

  lemma CertifiedNext(cfg: Config, bs: set<Ballot>, voters: Arriving, st: State, tail: Block, cmds: seq<Command>,
                      extra: nat)
    requires MayPropose(cfg, bs, st, tail) && Voted(cfg, bs, voters, NewBlock(st, tail, cmds, extra))
    ensures var b := NewBlock(st, tail, cmds, extra);
            var st' := AfterVotes(Propose(cfg.build, st, tail, cmds, extra).state, Majority(cfg.n), b, voters(b));
            st'.hqc == b && MayPropose(cfg, bs, st', b)
  {
    hide Propose, AfterVotes, BallotsOk, AllGrounded;
    var b := NewBlock(st, tail, cmds, extra);
    var st1 := Propose(cfg.build, st, tail, cmds, extra).state;
    ProposalSucceeds(cfg, bs, st, tail, cmds, extra);
    assert VotedFor(st1, b) == VotedFor(st, b);
    VotesCertify(st1, Majority(cfg.n), b, voters(b));
    VotedIsCertified(cfg, bs, voters, b);
    CertsAfterVotes(cfg, bs, st1, AfterVotes(st1, Majority(cfg.n), b, voters(b)), b, voters(b));
  }

  lemma VotedIsCertified(cfg: Config, bs: set<Ballot>, voters: Arriving, b: Block)
    requires Voted(cfg, bs, voters, b)
    ensures Certified(cfg, bs, b)
  {
    SubsetSize(Distinct(voters(b)), Supporters(cfg, bs, b));
  }

  lemma CertsAfterVotes(cfg: Config, bs: set<Ballot>, st: State, st': State, b: Block, voters: seq<ReplicaId>)
    requires Certs(cfg, bs, st) && Certified(cfg, bs, b) && Distinct(voters) <= Supporters(cfg, bs, b)
    requires st' == st.(hqc := b, voted := st'.voted) && VotedFor(st', b) <= Heard(st, b, voters)
    requires forall c :: c != b ==> VotedFor(st', c) == VotedFor(st, c)
    ensures Certs(cfg, bs, st')
  {
    forall c | c in st'.voted && c != Genesis ensures st'.voted[c] <= Supporters(cfg, bs, c) {
      assert VotedFor(st', c) <= VotedFor(st, c) + if c == b then Distinct(voters) else {};
    }
  }

  lemma LinkedCons(b: Block, rest: seq<Block>)
    requires Linked(rest) && rest != [] && rest[0].Node? && rest[0].parent == rest[0].qcBlock == b
    requires forall i :: 0 <= i < |rest| ==> rest[i].cmds == []
    ensures Linked([b] + rest) && forall i :: 0 < i < |[b] + rest| ==> ([b] + rest)[i].cmds == []
  {
    var all := [b] + rest;
    forall i | 0 < i < |all| ensures all[i].Node? && all[i].parent == all[i - 1] && all[i].qcBlock == all[i - 1] {
      assert all[i] == rest[i - 1];
      if i > 1 {
        assert all[i - 1] == rest[i - 2];
      }
    }
  }

  lemma {:induction false} NewConsensusLinks(cfg: Config, bs: set<Ballot>, voters: Arriving, step: Proposing, last: nat,
                                             st: State, tail: Block, x: nat, cmds: seq<Command>, extras: nat -> nat)
    requires StaysReady(cfg, bs, voters, step) && MayPropose(cfg, bs, st, tail) && x <= last
    requires AllButLastVoted(cfg, bs, voters, NewConsensus(step, last, st, tail, x, cmds, extras))
    ensures var blks := NewConsensus(step, last, st, tail, x, cmds, extras);
            && Linked(blks) && blks[0] == NewBlock(st, tail, cmds, extras(x))
            && forall i :: 0 < i < |blks| ==> blks[i].cmds == []
    decreases last - x
  {
    var b := NewBlock(st, tail, cmds, extras(x));
    if x < last {
      var st' := step(st, tail, cmds, extras(x));
      var rest := NewConsensus(step, last, st', b, x + 1, [], extras);
      RestVoted(cfg, bs, voters, b, rest);
      assert st'.hqc == b && MayPropose(cfg, bs, st', b);
      NewConsensusLinks(cfg, bs, voters, step, last, st', b, x + 1, [], extras);
      LinkedCons(b, rest);
    }
  }

  ghost predicate AllButLastVoted(cfg: Config, bs: set<Ballot>, voters: Arriving, blks: seq<Block>) {
    forall i :: 0 <= i < |blks| - 1 ==> Voted(cfg, bs, voters, blks[i])
  }

  lemma RestVoted(cfg: Config, bs: set<Ballot>, voters: Arriving, b: Block, rest: seq<Block>)
    requires AllButLastVoted(cfg, bs, voters, [b] + rest) && rest != []
    ensures Voted(cfg, bs, voters, b) && AllButLastVoted(cfg, bs, voters, rest)
  {
    assert ([b] + rest)[0] == b;
    forall i | 0 <= i < |rest| - 1 ensures Voted(cfg, bs, voters, rest[i]) {
      assert ([b] + rest)[i + 1] == rest[i];
    }
  }

  /** do_new_consensus(0, cmds), undisturbed, issues exactly four blocks (three in the two-step
      build): the first carries the commands, each is the parent and the certified block of the
      next, and any replica that processes the last one has then decided the first. */
  lemma ReproposalCommits(cfg: Config, bs: set<Ballot>, voters: Arriving, st: State, tail: Block, cmds: seq<Command>,
                          extras: nat -> nat, other: State)
    requires MayPropose(cfg, bs, st, tail)
    requires var step := ProposeAndCertify(cfg.build, Majority(cfg.n), voters);
             var blks := NewConsensus(step, Lag(cfg.build), st, tail, 0, cmds, extras);
             && AllButLastVoted(cfg, bs, voters, blks)
             && Shape(other) && Certs(cfg, bs, other) && blks[|blks| - 1] in other.delivered
    ensures var step := ProposeAndCertify(cfg.build, Majority(cfg.n), voters);
            var blks := NewConsensus(step, Lag(cfg.build), st, tail, 0, cmds, extras);
            && |blks| == (if cfg.build.ThreeStep? then 4 else 3)
            && Linked(blks) && blks[0].Node? && blks[0].cmds == cmds
            && Update(cfg.build, other, blks[|blks| - 1]).error == NoError
            && blks[0] in Update(cfg.build, other, blks[|blks| - 1]).state.decided
  {
    hide ProposeAndCertify, Update;
    var step := ProposeAndCertify(cfg.build, Majority(cfg.n), voters);
    var blks := NewConsensus(step, Lag(cfg.build), st, tail, 0, cmds, extras);
    CertifiedAndReady(cfg, bs, voters);
    NewConsensusLinks(cfg, bs, voters, step, Lag(cfg.build), st, tail, 0, cmds, extras);
    LastOfChainCommits(cfg, bs, blks, other);
  }

  lemma LastOfChainCommits(cfg: Config, bs: set<Ballot>, blks: seq<Block>, other: State)
    requires ValidConfig(cfg) && BallotsOk(cfg, bs) && AllGrounded(cfg, bs)
    requires Linked(blks) && |blks| == Lag(cfg.build) + 1
    requires Shape(other) && Certs(cfg, bs, other) && blks[|blks| - 1] in other.delivered
    ensures Update(cfg.build, other, blks[|blks| - 1]).error == NoError
    ensures blks[0] in Update(cfg.build, other, blks[|blks| - 1]).state.decided
  {
    var last := blks[|blks| - 1];
    assert blks[1].parent == blks[0] && blks[2].parent == blks[1];
    assert CommitChain(cfg.build, blks[0], last.parent);
    UpdateNeverBreaches(cfg, bs, other, last);
    ChainHeadDecided(cfg.build, other, blks[0], last);
  }

  // ---- the steady state of a fixed proposer ----

  function Below(h: nat, d: nat): nat {
    if h >= d then h - d else 0
  }

  /** Every block on the branch cites its parent. */
  predicate Chained(b: Block) {
    b.Node? ==> b.qcBlock == b.parent && b.uncles == [] && Chained(b.parent)
  }

  /** The positions of b_lock and b_exec on the branch of the newest block. */
  ghost predicate Positions(build: Build, st: State, top: Block) {
    && st.bLock == WalkDown(top, Below(Height(top), Lag(build) - 1))
    && st.bExec == WalkDown(top, Below(Height(top), Lag(build)))
  }

  lemma WalkDownSteps(b: Block, h: nat)
    requires b.Node? && h <= Height(b.parent)
    ensures WalkDown(b, h) == WalkDown(b.parent, h)
    ensures h == Height(b.parent) ==> WalkDown(b, h) == b.parent
    ensures b.parent.Node? && h == Height(b.parent) - 1 ==> WalkDown(b, h) == b.parent.parent
    ensures b.parent.Node? && b.parent.parent.Node? && h == Height(b.parent) - 2 ==>
              WalkDown(b, h) == b.parent.parent.parent
  {
  }

  lemma HeightZero(b: Block)
    ensures Height(b) == 0 <==> b == Genesis
  {
  }

  /** Above b_exec nothing is decided. */
  lemma HigherIsUndecided(st: State, x: Block)
    requires Shape(st) && Height(x) > Height(st.bExec)
    ensures x !in st.decided
  {
    if x in st.decided {
      ExtendsHeight(st.bExec, x);
    }
  }

  lemma ShortBranch(build: Build, st: State, b: Block)
    requires Shape(st) && b in st.delivered && Chained(b) && b.Node? && Positions(build, st, b.parent)
    requires Height(b.parent) < Lag(build)
    ensures BeforeCommit(build, st, b).1 == None
    ensures Positions(build, BeforeCommit(build, st, b).0, b)
  {
    var top := b.parent;
    assert st.bExec == Genesis && st.decided == {Genesis};
    AncestorsDelivered(st, b, top);
    if top.Node? {
      AncestorsDelivered(st, b, top.parent);
      HeightZero(top.parent);
    }
  }

  /** The blocks just below a block of height at least d, and that they are delivered. */
  lemma ThreeStepLongBranch(st: State, b: Block)
    requires Shape(st) && b in st.delivered && Chained(b) && b.Node? && Positions(ThreeStep, st, b.parent)
    requires Height(b) >= 4
    ensures BeforeCommit(ThreeStep, st, b) ==
            (st.(hqc := BeforeCommit(ThreeStep, st, b).0.hqc, bLock := b.parent.parent), Some(b.parent.parent.parent))
  {
    var b2 := b.parent;
    var b1 := b2.parent;
    AncestorsDelivered(st, b, b2);
    AncestorsDelivered(st, b2, b1);
    AncestorsDelivered(st, b1, b1.parent);
    assert Height(st.bExec) == Height(b) - 4 && Height(st.bLock) == Height(b) - 3;
    HigherIsUndecided(st, b2);
    HigherIsUndecided(st, b1);
    HigherIsUndecided(st, b1.parent);
  }

  lemma TwoStepLongBranch(st: State, b: Block)
    requires Shape(st) && b in st.delivered && Chained(b) && b.Node? && Positions(TwoStep, st, b.parent)
    requires Height(b) >= 3
    ensures BeforeCommit(TwoStep, st, b) ==
            (st.(hqc := BeforeCommit(TwoStep, st, b).0.hqc, bLock := b.parent), Some(b.parent.parent))
  {
    var b1 := b.parent;
    AncestorsDelivered(st, b, b1);
    AncestorsDelivered(st, b1, b1.parent);
    assert Height(st.bExec) == Height(b) - 3 && Height(st.bLock) == Height(b) - 2;
    HigherIsUndecided(st, b1);
    HigherIsUndecided(st, b1.parent);
  }

  lemma LongBranch(build: Build, st: State, b: Block)
    requires Shape(st) && b in st.delivered && Chained(b) && b.Node? && Positions(build, st, b.parent)
    requires Height(b.parent) >= Lag(build)
    ensures var (st2, blk) := BeforeCommit(build, st, b);
            && blk == Some(WalkDown(b, Height(b) - Lag(build)))
            && st2.bLock == WalkDown(b, Height(b) - Lag(build) + 1) && st2.bExec == st.bExec
  {
    WalkDownSteps(b, Height(b) - Lag(build));
    WalkDownSteps(b, Height(b) - Lag(build) + 1);
    match build
    case ThreeStep => ThreeStepLongBranch(st, b);
    case TwoStep => TwoStepLongBranch(st, b);
  }

  lemma CommitOnBranch(st: State, b: Block, blk: Block)
    requires Shape(st) && blk in st.delivered && Height(blk) <= Height(st.bLock)
    requires Extends(b, blk) && Extends(b, st.bExec) && Height(st.bExec) <= Height(blk)
    ensures Commit(st, blk).error == NoError && Commit(st, blk).state.bExec == blk
    ensures Commit(st, blk).state.bLock == st.bLock
  {
    AncestorsAreOrdered(b, st.bExec, blk);
    CommitAppends(st, blk);
  }

  /** `update` with the next block of a chained branch moves b_lock and b_exec up by one block each,
      once the branch is long enough for them to have left genesis. */
  lemma UpdateMovesUp(build: Build, st: State, b: Block)
    requires Shape(st) && b in st.delivered && Chained(b) && b.Node? && Positions(build, st, b.parent)
    ensures Update(build, st, b).error == NoError && Positions(build, Update(build, st, b).state, b)
  {
    if Height(b.parent) < Lag(build) {
      ShortBranch(build, st, b);
    } else {
      LongBranch(build, st, b);
      var (st2, blk) := BeforeCommit(build, st, b);
      BeforeCommitRaises(build, st, b);
      CommitCandidate(build, st, b);
      ExtendsTransitive(b, b.parent, st.bExec);
      CommitOnBranch(st2, b, blk.value);
    }
  }

  /** A replica that has processed every block of the branch of `top`, in order. */
  ghost predicate InStep(build: Build, st: State, top: Block) {
    && Shape(st) && TailsExact(st) && Chained(top) && top in st.delivered
    && st.vheight == Height(top) && Positions(build, st, top)
  }

  lemma VoteOnBranch(build: Build, st: State, b: Block)
    requires Shape(st) && Positions(build, st, b) && Height(b) > st.vheight
    ensures RecordVote(st, b) == st.(vheight := Height(b))
  {
  }

  /** A follower that gets the next block stays in step: it votes for it and commits the block Lag
      below it. */
  lemma FollowerStaysInStep(build: Build, st: State, b: Block)
    requires b.Node? && InStep(build, st, b.parent) && Chained(b)
    requires b in st.fetched
    ensures Deliver(st, b).error == NoError
    ensures var st1 := Deliver(st, b).state;
            && ReceiveProposal(build, st1, b).error == NoError
            && InStep(build, ReceiveProposal(build, st1, b).state, b)
            && ReceiveProposal(build, st1, b).state.vheight > st1.vheight
  {
    assert Parents(b) == [b.parent];
    DeliverKeepsShape(st, b);
    DeliverKeepsTails(st, b);
    var st1 := Deliver(st, b).state;
    UpdateMovesUp(build, st1, b);
    UpdateKeepsShape(build, st1, b);
    VoteOnBranch(build, Update(build, st1, b).state, b);
  }

  /** The proposer stays in step with its own block, once it has the certificate of the last one. */
  lemma ProposerStaysInStep(build: Build, st: State, top: Block, cmds: seq<Command>, extra: nat)
    requires InStep(build, st, top) && st.hqc == top
    ensures var b := NewBlock(st, top, cmds, extra);
            var o := Propose(build, st, top, cmds, extra);
            && o.error == NoError && o.state.hqc == top && InStep(build, o.state, b) && o.state.voted == st.voted
  {
    hide Update, BeforeCommit, Propose, FetchAndDeliver, Positions, Shape, TailsExact, Opinion;
    var b := NewBlock(st, top, cmds, extra);
    var st1 := FetchAndDeliver(st, b);
    ProposeSplits(build, st, top, cmds, extra);
    OwnBlockDelivered(build, st, b);
    UpdateMovesUp(build, st1, b);
    UpdateKeepsShape(build, st1, b);
    SameHqc(build, st1, b);
    var st2 := Update(build, st1, b).state;
    SameTails(st1, st2);
    VoteOnBranch(build, st2, b);
    VotedInStep(build, st2, b);
  }

  lemma OwnBlockDelivered(build: Build, st: State, b: Block)
    requires b.Node? && b.uncles == [] && b.qcBlock == b.parent == st.hqc && InStep(build, st, b.parent)
    ensures var st1 := FetchAndDeliver(st, b);
            && Shape(st1) && TailsExact(st1) && b in st1.delivered && Positions(build, st1, b.parent)
            && st1 == st.(fetched := st1.fetched, delivered := st1.delivered, tails := st1.tails) && Chained(b)
  {
    hide Positions;
    var st0 := st.(fetched := st.fetched + {b});
    assert Parents(b) == [b.parent];
    DeliverKeepsShape(st0, b);
    DeliverKeepsTails(st0, b);
    SamePositions(build, st, FetchAndDeliver(st, b), b.parent);
  }

  lemma SamePositions(build: Build, st: State, st': State, top: Block)
    requires Positions(build, st, top) && st'.bLock == st.bLock && st'.bExec == st.bExec
    ensures Positions(build, st', top)
  {
  }

  lemma SameTails(st: State, st': State)
    requires TailsExact(st) && st'.delivered == st.delivered && st'.tails == st.tails
    ensures TailsExact(st')
  {
  }

  /** A block that cites hqc does not move it. */
  lemma SameHqc(build: Build, st: State, b: Block)
    requires Shape(st) && QcRef(b) == st.hqc
    ensures Update(build, st, b).state.hqc == st.hqc
  {
    hide Commit;
    UpdateKeepsShape(build, st, b);
    BeforeCommitRaises(build, st, b);
  }

  lemma VotedInStep(build: Build, st: State, b: Block)
    requires Shape(st) && TailsExact(st) && Chained(b) && b.Node? && b in st.delivered && Positions(build, st, b)
    requires st.hqc == b.parent
    ensures InStep(build, st.(vheight := Height(b)), b)
  {
  }

  /** With nmajority votes for its block, in any order and however often repeated, it is ready for the next. */
  lemma VotesMoveOn(build: Build, nmajority: nat, st: State, b: Block, voters: seq<ReplicaId>)
    requires InStep(build, st, b) && Height(st.hqc) < Height(b) && CompletedKnown(st, nmajority)
    requires |Distinct(voters)| >= nmajority > 0
    ensures var st' := AfterVotes(st, nmajority, b, voters);
            && st'.hqc == b && InStep(build, st', b) && CompletedKnown(st', nmajority)
            && st' == st.(hqc := b, voted := st'.voted)
  {
    hide CompletedKnown;
    VotesCertify(st, nmajority, b, voters);
  }

  /** The proposer's state and newest block after proposing the given batches one by one, each when the
      votes for the one before have arrived. */
  function SteadyProposer(build: Build, n: nat, nmajority: nat, voters: Arriving, batches: seq<seq<Command>>)
    : (State, Block)
  {
    if batches == [] then (InitState(n), Genesis)
    else
      var (st, top) := SteadyProposer(build, n, nmajority, voters, batches[..|batches| - 1]);
      var b := NewBlock(st, top, batches[|batches| - 1], 0);
      (ProposeAndCertify(build, nmajority, voters)(st, top, batches[|batches| - 1], 0), b)
  }

  /** If at least nmajority replicas vote for each block, then after m proposals a fixed proposer's b_exec is
      at height max(0, m - 3), in the two-step build max(0, m - 2). */
  lemma {:induction false} ProposerExecHeight(build: Build, n: nat, nmajority: nat, voters: Arriving,
                                              batches: seq<seq<Command>>)
    requires nmajority > 0 && forall b :: |Distinct(voters(b))| >= nmajority
    ensures var (st, top) := SteadyProposer(build, n, nmajority, voters, batches);
            && Height(top) == |batches| && st.hqc == top && InStep(build, st, top) && CompletedKnown(st, nmajority)
            && Height(st.bExec) == Below(|batches|, Lag(build))
  {
    hide Propose, AfterVotes;
    if batches == [] {
      assert InitState(n).delivered == {Genesis};
    } else {
      var m := |batches| - 1;
      ProposerExecHeight(build, n, nmajority, voters, batches[..m]);
      var (st, top) := SteadyProposer(build, n, nmajority, voters, batches[..m]);
      var b := NewBlock(st, top, batches[m], 0);
      ProposerStaysInStep(build, st, top, batches[m], 0);
      VotesMoveOn(build, nmajority, Propose(build, st, top, batches[m], 0).state, b, voters(b));
    }
  }
}
