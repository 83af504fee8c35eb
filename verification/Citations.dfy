/** What holds of votes, citations and the replica's own variables in every run, whatever blocks the
    faulty replicas make up and whatever these cite. */
module Citations {
  import opened Chain
  import opened Core
  import opened CoreFacts
  import opened Quorums
  import opened Ballots
  import opened Protocol
  import opened Invariant

  // ---- votes ----

  /** vheight never falls, and a new vote of a correct replica is for a block above the old vheight and
      sets the new one. */
  ghost predicate VotesRise(cfg: Config, s: System, s': System) {
    && |s.reps| == |s'.reps| == cfg.n
    && (forall r: ReplicaId :: Correct(cfg, r) ==> s.reps[r].core.vheight <= s'.reps[r].core.vheight)
    && (forall x :: x in s'.ballots && x !in s.ballots && Correct(cfg, x.voter) ==>
          s.reps[x.voter].core.vheight < Height(x.blk) == s'.reps[x.voter].core.vheight)
  }

  lemma ReceiveRaises(build: Build, st: State, b: Block)
    requires Shape(st)
    ensures var st' := ReceiveProposal(build, st, b).state;
            st.vheight <= st'.vheight && (st'.vheight != st.vheight ==> st'.vheight == Height(b) && b in st.delivered)
  {
    hide Shape, BeforeCommit, Commit;
    if b in st.delivered {
      UpdateKeepsShape(build, st, b);
    }
  }

  lemma ProposeRaises(build: Build, st: State, tail: Block, cmds: seq<Command>, extra: nat)
    requires Shape(st) && TailsExact(st) && tail in st.delivered
    ensures var st' := Propose(build, st, tail, cmds, extra).state;
            st.vheight <= st'.vheight
            && (st'.vheight != st.vheight ==> st'.vheight == Height(NewBlock(st, tail, cmds, extra)))
  {
    hide BeforeCommit, Commit, Propose;
    var b := NewBlock(st, tail, cmds, extra);
    ProposeSplits(build, st, tail, cmds, extra);
    DeliverKeepsShape(st.(fetched := st.fetched + {b}), b);
    UpdateKeepsShape(build, FetchAndDeliver(st, b), b);
  }

  lemma LocalVotesRise(cfg: Config, s: System, s': System, r: ReplicaId)
    requires |s.reps| == |s'.reps| == cfg.n && Local(cfg, s, s', r)
    requires s.reps[r].core.vheight <= s'.reps[r].core.vheight
    requires forall x :: x in s'.ballots && x !in s.ballots ==>
               x.voter == r && s.reps[r].core.vheight < Height(x.blk) == s'.reps[r].core.vheight
    ensures VotesRise(cfg, s, s')
  {
  }

  lemma StepVotesRise(cfg: Config, s: System, e: Event, s': System)
    requires ValidConfig(cfg) && Inv(cfg, s) && Next(cfg, s, e, s')
    ensures VotesRise(cfg, s, s')
  {
    hide Certs, OwnBallots, BallotsOk, TailFollows, ReceiveProposal, Propose, Deliver, ReceiveVote;
    match e
    case Inject(b) =>
    case FaultyVote(v, b) =>
    case Fetch(r, b) => LocalVotesRise(cfg, s, s', r);
    case DeliverBlock(r, b) =>
      DeliverKeepsShape(s.reps[r].core, b);
      LocalVotesRise(cfg, s, s', r);
    case GetProposal(r, b, mute) =>
      ReceiveRaises(cfg.build, s.reps[r].core, b);
      LocalVotesRise(cfg, s, s', r);
    case ShowProposal(r, b) => LocalVotesRise(cfg, s, s', r);
    case MakeProposal(r, cmds, extra, mute) =>
      ProposeRaises(cfg.build, s.reps[r].core, s.reps[r].hqcTail, cmds, extra);
      LocalVotesRise(cfg, s, s', r);
    case GetVote(r, v, b) =>
      ReceiveVoteChanges(s.reps[r].core, Majority(cfg.n), v, b);
      LocalVotesRise(cfg, s, s', r);
  }

  /** In every run each vote of a correct replica is for a block above everything it voted for before. */
  lemma EveryVoteRises(cfg: Config, run: seq<System>, i: nat)
    requires ValidConfig(cfg) && IsRun(cfg, run) && 0 < i < |run|
    ensures VotesRise(cfg, run[i - 1], run[i])
  {
    hide Inv, Next, VotesRise;
    RunInv(cfg, run, i - 1);
    assert CanStep(cfg, run[i - 1], run[i]);
    var e :| Next(cfg, run[i - 1], e, run[i]);
    StepVotesRise(cfg, run[i - 1], e, run[i]);
  }

  // ---- who gets votes ----

  /** A correct replica votes for every block high enough that cites, as blocks of correct proposers do, one
      of its ancestors and nothing lower than b_lock: to whatever branch the lock is on, and whether or not
      the block moves it. */
  lemma HighestCertificateGetsVotes(cfg: Config, run: seq<System>, i: nat, r: ReplicaId, b: Block)
    requires ValidConfig(cfg) && IsRun(cfg, run) && i < |run| && Correct(cfg, r)
    ensures |run[i].reps| == cfg.n
    ensures var st := run[i].reps[r].core;
            var o := ReceiveProposal(cfg.build, st, b);
            && b in st.delivered && AncestralQc(b) && Height(b) > st.vheight && Height(QcRef(b)) >= Height(st.bLock)
            && o.error == NoError ==>
              o.state.vheight == Height(b)
  {
    hide CitesOk, IsRun, ReceiveProposal;
    RunInv(cfg, run, i);
    RunCites(cfg, run, i);
    assert ReplicaOk(cfg, run[i].ballots, r, run[i].reps[r]);
    var st := run[i].reps[r].core;
    if b in st.delivered && AncestralQc(b) && Height(b) > st.vheight && Height(QcRef(b)) >= Height(st.bLock)
       && ReceiveProposal(cfg.build, st, b).error == NoError {
      LockBelowCited(cfg, run[i].ballots, st, b);
      VoteIsExact(cfg.build, st, b);
    }
  }

  lemma LockBelowCited(cfg: Config, bs: set<Ballot>, st: State, b: Block)
    requires ValidConfig(cfg) && BallotsOk(cfg, bs) && CitesOk(cfg, bs) && Shape(st) && Certs(cfg, bs, st)
    requires b in st.delivered && AncestralQc(b) && Height(QcRef(b)) >= Height(st.bLock)
    ensures QcRef(b) in st.delivered
    ensures var lock := Update(cfg.build, st, b).state.bLock;
            Height(lock) <= Height(QcRef(b)) && (Height(QcRef(b)) > Height(lock) || Extends(b, lock))
  {
    hide BallotsOk, CitesOk, Update;
    var q, lock := QcRef(b), Update(cfg.build, st, b).state.bLock;
    if b.Node? {
      ExtendsTransitive(b, b.parent, q);
    }
    AncestorsDelivered(st, b, q);
    UpdateKeepsShape(cfg.build, st, b);
    BeforeCommitRaises(cfg.build, st, b);
    UpdateKeepsCerts(cfg, bs, st, b);
    if q.Node? {
      CertifiedCitesLower(cfg, bs, q, q);
    }
    if Height(q) <= Height(lock) {
      OneCertifiedPerHeight(cfg, bs, q, lock);
    }
  }

  // ---- citations ----

  /** b, or a block under it, cites a block at least as high as b. */
  ghost predicate CitesHigh(b: Block) {
    b.Node? && exists a :: Extends(b, a) && Height(QcRef(a)) >= Height(b)
  }

  /** A correct replica has voted for b. */
  ghost predicate Backed(cfg: Config, bs: set<Ballot>, b: Block) {
    exists x :: x in bs && x.blk == b && Correct(cfg, x.voter)
  }

  /** v is past the height of b, and has not voted for it. */
  ghost predicate Past(bs: set<Ballot>, v: ReplicaId, b: Block) {
    && (forall x :: x in bs && x.voter == v ==> x.blk != b)
    && exists y :: y in bs && y.voter == v && Height(y.blk) >= Height(b)
  }

  /** The correct replicas of some quorum will never vote for b. */
  ghost predicate Shut(cfg: Config, bs: set<Ballot>, b: Block) {
    exists q: set<ReplicaId> :: IsQuorum(cfg.n, NFaulty(cfg.n), q) && AllPast(cfg, bs, q, b)
  }

  ghost predicate AllPast(cfg: Config, bs: set<Ballot>, q: set<ReplicaId>, b: Block) {
    forall v: ReplicaId :: v in q && Correct(cfg, v) ==> Past(bs, v, b)
  }

  ghost predicate CitesOk(cfg: Config, bs: set<Ballot>) {
    forall b :: CitesHigh(b) && Backed(cfg, bs, b) ==> Shut(cfg, bs, b)
  }

  /** What a vote is cast with: the citations of the block and of all under it are certified, and the
      voter is below the height of the block. */
  ghost predicate CastWell(cfg: Config, bs: set<Ballot>, x: Ballot) {
    && (forall a :: Extends(x.blk, a) ==> Certified(cfg, bs, QcRef(a)))
    && (forall y :: y in bs && y.voter == x.voter ==> Height(y.blk) < Height(x.blk))
  }

  lemma StaysShut(cfg: Config, bs: set<Ballot>, x: Ballot, b: Block)
    requires Shut(cfg, bs, b) && (Correct(cfg, x.voter) ==> CastWell(cfg, bs, x))
    ensures Shut(cfg, bs + {x}, b)
  {
    var q :| IsQuorum(cfg.n, NFaulty(cfg.n), q) && AllPast(cfg, bs, q, b);
    forall v: ReplicaId | v in q && Correct(cfg, v) ensures Past(bs + {x}, v, b) {
      assert Past(bs, v, b);
    }
    assert AllPast(cfg, bs + {x}, q, b);
  }

  /** The first vote for a block that cites too high shuts it. */
  lemma FirstVoteShuts(cfg: Config, bs: set<Ballot>, x: Ballot)
    requires Correct(cfg, x.voter) && CastWell(cfg, bs, x) && CitesHigh(x.blk) && !Backed(cfg, bs, x.blk)
    ensures Shut(cfg, bs + {x}, x.blk)
  {
    var a :| Extends(x.blk, a) && Height(QcRef(a)) >= Height(x.blk);
    var z := QcRef(a);
    assert z != Genesis && Certified(cfg, bs, z);
    var q := Supporters(cfg, bs, z);
    assert IsQuorum(cfg.n, NFaulty(cfg.n), q);
    forall v: ReplicaId | v in q && Correct(cfg, v) ensures Past(bs + {x}, v, x.blk) {
      var y :| y in bs && y.blk == z && y.voter == v;
      assert v != x.voter;
    }
    assert AllPast(cfg, bs + {x}, q, x.blk);
  }

  lemma VoteKeepsCites(cfg: Config, bs: set<Ballot>, x: Ballot)
    requires CitesOk(cfg, bs) && (Correct(cfg, x.voter) ==> CastWell(cfg, bs, x))
    ensures CitesOk(cfg, bs + {x})
  {
    hide CitesHigh, Shut, CastWell;
    forall b | CitesHigh(b) && Backed(cfg, bs + {x}, b) ensures Shut(cfg, bs + {x}, b) {
      if Backed(cfg, bs, b) {
        StaysShut(cfg, bs, x, b);
      } else {
        assert x.blk == b && Correct(cfg, x.voter);
        FirstVoteShuts(cfg, bs, x);
      }
    }
  }

  /** So a certified block is higher than every block it cites, or that a block under it cites. */
  lemma CertifiedCitesLower(cfg: Config, bs: set<Ballot>, b: Block, a: Block)
    requires ValidConfig(cfg) && CitesOk(cfg, bs) && Certified(cfg, bs, b) && b.Node? && Extends(b, a)
    ensures Height(QcRef(a)) < Height(b)
  {
    if Height(QcRef(a)) >= Height(b) {
      assert CitesHigh(b);
      var v := QuorumsShareCorrect(cfg, Supporters(cfg, bs, b), Supporters(cfg, bs, b));
      assert Backed(cfg, bs, b);
      var q :| IsQuorum(cfg.n, NFaulty(cfg.n), q) && AllPast(cfg, bs, q, b);
      v := QuorumsShareCorrect(cfg, q, Supporters(cfg, bs, b));
    }
  }

  lemma ProposalCastWell(cfg: Config, bs: set<Ballot>, r: ReplicaId, st: State, b: Block, lock: Block)
    requires Shape(st) && Certs(cfg, bs, st) && OwnBallots(bs, r, st) && b in st.delivered && Height(b) > st.vheight
    ensures CastWell(cfg, bs, Ballot(r, b, lock))
  {
    forall a | Extends(b, a) ensures Certified(cfg, bs, QcRef(a)) {
      AncestorsDelivered(st, b, a);
    }
  }

  lemma OwnCastWell(cfg: Config, bs: set<Ballot>, r: ReplicaId, st: State, b: Block, lock: Block)
    requires Shape(st) && Certs(cfg, bs, st) && OwnBallots(bs, r, st) && Height(b) > st.vheight
    requires b.Node? && b.parent in st.delivered && b.qcBlock == st.hqc
    ensures CastWell(cfg, bs, Ballot(r, b, lock))
  {
    forall a | Extends(b, a) ensures Certified(cfg, bs, QcRef(a)) {
      if a != b {
        AncestorsDelivered(st, b.parent, a);
      }
    }
  }

  lemma StepKeepsCites(cfg: Config, s: System, e: Event, s': System)
    requires ValidConfig(cfg) && Inv(cfg, s) && CitesOk(cfg, s.ballots) && Next(cfg, s, e, s')
    ensures CitesOk(cfg, s'.ballots)
  {
    hide CitesOk, BallotsOk, TailFollows, ReceiveProposal, Propose, Deliver, ReceiveVote, CastWell;
    match e
    case Inject(b) =>
    case FaultyVote(v, b) => VoteKeepsCites(cfg, s.ballots, Ballot(v, b, Genesis));
    case Fetch(r, b) =>
    case DeliverBlock(r, b) =>
    case GetProposal(r, b, mute) =>
      var st, o := s.reps[r].core, ReceiveProposal(cfg.build, s.reps[r].core, b);
      ReceiveRaises(cfg.build, st, b);
      if o.state.vheight != st.vheight {
        ProposalCastWell(cfg, s.ballots, r, st, b, o.state.bLock);
        VoteKeepsCites(cfg, s.ballots, Ballot(r, b, o.state.bLock));
      }
      assert s.ballots + {} == s.ballots;
    case ShowProposal(r, b) =>
    case MakeProposal(r, cmds, extra, mute) =>
      var st, tail := s.reps[r].core, s.reps[r].hqcTail;
      var b, o := NewBlock(st, tail, cmds, extra), Propose(cfg.build, st, tail, cmds, extra);
      ProposeRaises(cfg.build, st, tail, cmds, extra);
      if o.state.vheight != st.vheight {
        OwnCastWell(cfg, s.ballots, r, st, b, o.state.bLock);
        VoteKeepsCites(cfg, s.ballots, Ballot(r, b, o.state.bLock));
      }
      assert s.ballots + {} == s.ballots;
    case GetVote(r, v, b) =>
  }

  lemma {:induction false} RunCites(cfg: Config, run: seq<System>, i: nat)
    requires ValidConfig(cfg) && IsRun(cfg, run) && i < |run|
    ensures CitesOk(cfg, run[i].ballots)
  {
    hide Inv, Next, CitesHigh, Shut;
    if i > 0 {
      RunCites(cfg, run, i - 1);
      RunInv(cfg, run, i - 1);
      assert CanStep(cfg, run[i - 1], run[i]);
      var e :| Next(cfg, run[i - 1], e, run[i]);
      StepKeepsCites(cfg, run[i - 1], e, run[i]);
    }
  }

  // ---- b_exec, b_lock and hqc ----

  lemma UpdateKeepsLockBelow(cfg: Config, bs: set<Ballot>, st: State, b: Block)
    requires ValidConfig(cfg) && CitesOk(cfg, bs) && Shape(st) && Certs(cfg, bs, st) && b in st.delivered
    requires Height(st.bLock) <= Height(st.hqc)
    ensures var st' := Update(cfg.build, st, b).state; Height(st'.bLock) <= Height(st'.hqc)
  {
    hide CitesOk, Commit, CommitCertified;
    UpdateKeepsShape(cfg.build, st, b);
    BeforeCommitRaises(cfg.build, st, b);
    var q := QcRef(b);
    if q.Node? {
      CertifiedCitesLower(cfg, bs, q, q);
    }
  }

  ghost predicate LockBelowHqc(cfg: Config, s: System) {
    |s.reps| == cfg.n && forall r: ReplicaId :: Correct(cfg, r) ==> LockOk(s.reps[r].core)
  }

  predicate LockOk(st: State) {
    Height(st.bLock) <= Height(st.hqc)
  }

  lemma ReceiveKeepsLock(cfg: Config, bs: set<Ballot>, st: State, b: Block)
    requires ValidConfig(cfg) && CitesOk(cfg, bs) && Shape(st) && Certs(cfg, bs, st) && LockOk(st)
    ensures LockOk(ReceiveProposal(cfg.build, st, b).state)
  {
    hide Update, CitesOk, Shape, Certs;
    if b in st.delivered {
      UpdateKeepsLockBelow(cfg, bs, st, b);
    }
  }

  lemma ProposeKeepsLock(cfg: Config, bs: set<Ballot>, st: State, tail: Block, cmds: seq<Command>, extra: nat)
    requires ValidConfig(cfg) && CitesOk(cfg, bs) && Shape(st) && TailsExact(st) && Certs(cfg, bs, st) && LockOk(st)
    requires tail in st.delivered
    ensures LockOk(Propose(cfg.build, st, tail, cmds, extra).state)
  {
    hide Update, CitesOk, Shape, Certs, TailsExact, Propose, FetchAndDeliver;
    var b := NewBlock(st, tail, cmds, extra);
    ProposeSplits(cfg.build, st, tail, cmds, extra);
    OwnDeliveredKeeps(cfg, bs, st, tail, cmds, extra);
    UpdateKeepsLockBelow(cfg, bs, FetchAndDeliver(st, b), b);
  }

  lemma VoteKeepsLock(st: State, nmajority: nat, v: ReplicaId, b: Block)
    requires LockOk(st)
    ensures LockOk(ReceiveVote(st, nmajority, v, b).state)
  {
  }

  lemma LocalLock(cfg: Config, s: System, s': System, r: ReplicaId)
    requires LockBelowHqc(cfg, s) && |s'.reps| == cfg.n && Local(cfg, s, s', r) && LockOk(s'.reps[r].core)
    ensures LockBelowHqc(cfg, s')
  {
  }

  lemma StepKeepsLock(cfg: Config, s: System, e: Event, s': System)
    requires ValidConfig(cfg) && Inv(cfg, s) && CitesOk(cfg, s.ballots) && LockBelowHqc(cfg, s) && Next(cfg, s, e, s')
    ensures LockBelowHqc(cfg, s')
  {
    hide Certs, OwnBallots, BallotsOk, CitesOk, TailFollows, ReceiveProposal, Propose, Deliver, ReceiveVote, LockOk,
         Shape, TailsExact;
    match e
    case Inject(b) =>
    case FaultyVote(v, b) =>
    case Fetch(r, b) =>
      SameLock(s.reps[r].core, s'.reps[r].core);
      LocalLock(cfg, s, s', r);
    case DeliverBlock(r, b) =>
      DeliverKeepsShape(s.reps[r].core, b);
      SameLock(s.reps[r].core, s'.reps[r].core);
      LocalLock(cfg, s, s', r);
    case GetProposal(r, b, mute) =>
      ReceiveKeepsLock(cfg, s.ballots, s.reps[r].core, b);
      LocalLock(cfg, s, s', r);
    case ShowProposal(r, b) => LocalLock(cfg, s, s', r);
    case MakeProposal(r, cmds, extra, mute) =>
      ProposeKeepsLock(cfg, s.ballots, s.reps[r].core, s.reps[r].hqcTail, cmds, extra);
      LocalLock(cfg, s, s', r);
    case GetVote(r, v, b) =>
      VoteKeepsLock(s.reps[r].core, Majority(cfg.n), v, b);
      LocalLock(cfg, s, s', r);
  }

  lemma SameLock(st: State, st': State)
    requires LockOk(st) && st'.bLock == st.bLock && st'.hqc == st.hqc
    ensures LockOk(st')
  {
  }

  lemma {:induction false} RunLock(cfg: Config, run: seq<System>, i: nat)
    requires ValidConfig(cfg) && IsRun(cfg, run) && i < |run|
    ensures LockBelowHqc(cfg, run[i])
  {
    hide Inv, Next, CitesOk;
    if i > 0 {
      RunLock(cfg, run, i - 1);
      RunCites(cfg, run, i - 1);
      RunInv(cfg, run, i - 1);
      assert CanStep(cfg, run[i - 1], run[i]);
      var e :| Next(cfg, run[i - 1], e, run[i]);
      StepKeepsLock(cfg, run[i - 1], e, run[i]);
    }
  }

  /** b_exec <= b_lock <= hqc in every state of every run. */
  lemma ExecLockHqc(cfg: Config, run: seq<System>, i: nat, r: ReplicaId)
    requires ValidConfig(cfg) && IsRun(cfg, run) && i < |run| && Correct(cfg, r)
    ensures |run[i].reps| == cfg.n
    ensures var st := run[i].reps[r].core; Height(st.bExec) <= Height(st.bLock) <= Height(st.hqc)
  {
    RunInv(cfg, run, i);
    RunLock(cfg, run, i);
  }

  /** Committed blocks, and all under them, cite blocks no higher than b_exec. */
  ghost predicate CitesBelowExec(st: State) {
    forall b :: b in st.decided ==> Height(QcRef(b)) <= Height(st.bExec)
  }

  lemma DecidedCiteBelow(cfg: Config, run: seq<System>, i: nat, r: ReplicaId)
    requires ValidConfig(cfg) && IsRun(cfg, run) && i < |run| && Correct(cfg, r)
    ensures |run[i].reps| == cfg.n && CitesBelowExec(run[i].reps[r].core)
  {
    hide CitesOk, BallotsOk;
    RunInv(cfg, run, i);
    RunCites(cfg, run, i);
    var bs, st := run[i].ballots, run[i].reps[r].core;
    if st.bExec.Node? {
      ExecCertified(cfg, bs, st.bExec);
      forall b | b in st.decided ensures Height(QcRef(b)) <= Height(st.bExec) {
        CertifiedCitesLower(cfg, bs, st.bExec, b);
      }
    }
  }

  lemma ExecCertified(cfg: Config, bs: set<Ballot>, b: Block)
    requires ValidConfig(cfg) && BallotsOk(cfg, bs) && CommitCertified(cfg, bs, b) && b.Node?
    ensures Certified(cfg, bs, b)
  {
    var top :| Certified(cfg, bs, top) && CommitChain(cfg.build, b, top);
    ChainCertified(cfg, bs, b, top, top);
  }

  // ---- the early returns on decided blocks ----

  /** `update` up to the commit without the tests of `decision` on the upper certified blocks; only
      the block about to be committed is still tested. */
  function WithoutShortcuts(build: Build, st: State, nblk: Block): (State, Option<Block>) {
    var top := QcRef(nblk);
    var st1 := UpdateHqc(st, top);
    if build.ThreeStep? then
      if top !in st.delivered then (st1, None) else
      var mid := QcRef(top);
      var st2 := RaiseLock(st1, mid);
      if mid !in st.delivered || QcRef(mid) in st.decided || top.Genesis? || mid.Genesis?
         || top.parent != mid || mid.parent != QcRef(mid) then (st2, None)
      else (st2, Some(QcRef(mid)))
    else
      var st2 := RaiseLock(st1, top);
      if top !in st.delivered || QcRef(top) in st.decided || top.Genesis? || top.parent != QcRef(top) then (st2, None)
      else (st2, Some(QcRef(top)))
  }

  /** The parent of a decided block is decided. */
  lemma DecidedBelow(st: State, b: Block)
    requires Shape(st) && b in st.decided
    ensures b in st.delivered && Height(b) <= Height(st.bExec) && (b.Node? ==> b.parent in st.decided)
  {
    AncestorsDelivered(st, st.bExec, b);
    ExtendsHeight(st.bExec, b);
    if b.Node? {
      ExtendsTransitive(st.bExec, b, b.parent);
    }
  }

  /** The tests are pure shortcuts: leaving them out changes nothing where b_exec <= b_lock <= hqc and
      committed blocks cite no higher than b_exec. */
  lemma ShortcutsChangeNothing(build: Build, st: State, nblk: Block)
    requires Shape(st) && LockOk(st) && CitesBelowExec(st)
    ensures WithoutShortcuts(build, st, nblk) == BeforeCommit(build, st, nblk)
  {
    var top := QcRef(nblk);
    if top in st.decided {
      DecidedBelow(st, top);
      if top.Node? {
        DecidedBelow(st, top.parent);
      }
    } else if top in st.delivered && QcRef(top) in st.decided {
      DecidedBelow(st, QcRef(top));
    }
  }

  /** So in every state of every run. */
  lemma ShortcutsInRuns(cfg: Config, run: seq<System>, i: nat, r: ReplicaId, nblk: Block)
    requires ValidConfig(cfg) && IsRun(cfg, run) && i < |run| && Correct(cfg, r)
    ensures |run[i].reps| == cfg.n
    ensures WithoutShortcuts(cfg.build, run[i].reps[r].core, nblk) == BeforeCommit(cfg.build, run[i].reps[r].core, nblk)
  {
    hide WithoutShortcuts, BeforeCommit, CitesBelowExec;
    RunInv(cfg, run, i);
    RunLock(cfg, run, i);
    DecidedCiteBelow(cfg, run, i, r);
    ShortcutsChangeNothing(cfg.build, run[i].reps[r].core, nblk);
  }
  function Higher(a: Block, b: Block): nat {
    if Height(a) >= Height(b) then Height(a) else Height(b)
  }

  /** And so `update` with a block whose citations are delivered moves hqc to the block it cites, and b_lock
      to the one that this block cites (in the two-step build, to this block), exactly if that is higher. */
  lemma UpdateRaisesExactly(cfg: Config, run: seq<System>, i: nat, r: ReplicaId, nblk: Block)
    requires ValidConfig(cfg) && IsRun(cfg, run) && i < |run| && Correct(cfg, r)
    ensures |run[i].reps| == cfg.n
    ensures var st := run[i].reps[r].core;
            var st' := Update(cfg.build, st, nblk).state;
            && QcRef(nblk) in st.delivered && LockTarget(cfg.build, nblk) in st.delivered ==>
              && Height(st'.hqc) == Higher(st.hqc, QcRef(nblk))
              && Height(st'.bLock) == Higher(st.bLock, LockTarget(cfg.build, nblk))
  {
    hide WithoutShortcuts, BeforeCommit, CitesBelowExec;
    RunInv(cfg, run, i);
    var st := run[i].reps[r].core;
    assert ReplicaOk(cfg, run[i].ballots, r, run[i].reps[r]);
    ShortcutsInRuns(cfg, run, i, r, nblk);
    UpdateKeepsShape(cfg.build, st, nblk);
    if QcRef(nblk) in st.delivered && LockTarget(cfg.build, nblk) in st.delivered {
      WithoutRaises(cfg.build, st, nblk);
    }
  }

  lemma WithoutRaises(build: Build, st: State, nblk: Block)
    requires QcRef(nblk) in st.delivered && LockTarget(build, nblk) in st.delivered
    ensures var st' := WithoutShortcuts(build, st, nblk).0;
            && Height(st'.hqc) == Higher(st.hqc, QcRef(nblk))
            && Height(st'.bLock) == Higher(st.bLock, LockTarget(build, nblk))
  {
  }
}
