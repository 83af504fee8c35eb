/** How vheight stays above b_lock in runs whose blocks cite ancestors, and exactly when it does. */
module Ordering {
  import opened Chain
  import opened Core
  import opened CoreFacts
  import opened Quorums
  import opened Ballots
  import opened Protocol
  import opened Invariant
  import opened Safety
  import opened Runs
  import opened Counterexample

  ghost predicate AllAncestral(blks: set<Block>) {
    forall b :: b in blks ==> AncestralQc(b)
  }

  ghost predicate Ordered(st: State) {
    && Height(st.bExec) <= Height(st.bLock) <= Height(st.hqc)
    && (Height(st.bLock) < st.vheight || (st.bLock == Genesis && st.vheight == 0))
  }

  /** b, and the block it cites, cite ancestors. */
  predicate CitesAncestors(st: State, b: Block) {
    AncestralQc(b) && (QcRef(b) in st.delivered ==> AncestralQc(QcRef(b)))
  }

  lemma QcRefIsLower(b: Block)
    requires AncestralQc(b) && b.Node?
    ensures Height(QcRef(b)) < Height(b) && Extends(b, QcRef(b))
  {
    ExtendsHeight(b.parent, b.qcBlock);
  }

  /** If `update` raises the lock, it raises it to a block below the one received, still at most
      hqc, and in a way that makes the replica vote if the block is new to it. */
  lemma RaisedLock(build: Build, st: State, b: Block)
    requires Shape(st) && Ordered(st) && CitesAncestors(st, b) && b in st.delivered
    ensures var st2 := BeforeCommit(build, st, b).0;
            && Height(st2.bLock) <= Height(st2.hqc)
            && (st2.bLock != st.bLock ==>
                  Height(st2.bLock) < Height(b) && (LivenessTest(st2, b) || Extends(b, st2.bLock)))
  {
    hide Shape, AncestralQc, BeforeCommit;
    var st2 := BeforeCommit(build, st, b).0;
    BeforeCommitIsRaise(build, st, b);
    BeforeCommitRaises(build, st, b);
    if st2.bLock != st.bLock {
      var q := QcRef(b);
      QcRefIsLower(b);
      QcRefIsLower(q);
    }
  }

  lemma UpdateStaysOrdered(build: Build, st: State, b: Block)
    requires Shape(st) && Ordered(st) && CitesAncestors(st, b) && b in st.delivered
    requires Update(build, st, b).error == NoError
    ensures Height(b) <= st.vheight ==> Ordered(Update(build, st, b).state)
    ensures Ordered(RecordVote(Update(build, st, b).state, b))
    ensures var u := Update(build, st, b).state;
            Opinion(u, b) ==> Height(u.bLock) < Height(b)
  {
    RaisedLock(build, st, b);
    UpdateKeepsShape(build, st, b);
    BeforeCommitRaises(build, st, b);
  }

  /** Every ballot of a correct replica is for a block above the lock it was cast under. */
  ghost predicate BallotsAboveLock(cfg: Config, bs: set<Ballot>) {
    forall x :: x in bs && Correct(cfg, x.voter) ==> Height(x.lock) < Height(x.blk)
  }

  ghost predicate OrderInv(cfg: Config, s: System) {
    && |s.reps| == cfg.n
    && (forall r: ReplicaId :: Correct(cfg, r) ==> Ordered(s.reps[r].core))
    && BallotsAboveLock(cfg, s.ballots)
  }

  lemma DeliveredAncestral(cfg: Config, s: System, r: ReplicaId)
    requires Inv(cfg, s) && AllAncestral(s.injected) && Correct(cfg, r)
    ensures AllAncestral(s.reps[r].core.delivered)
  {
    forall b | b in s.reps[r].core.delivered ensures AncestralQc(b) {
      assert b in s.proposed + s.injected + {Genesis};
    }
  }

  lemma AncestralIsGrounded(cfg: Config, s: System)
    requires Inv(cfg, s) && AllAncestral(s.injected)
    ensures AllGrounded(cfg, s.ballots)
  {
    forall x | x in s.ballots && Correct(cfg, x.voter) ensures Grounded(x) {
      assert AncestralQc(x.blk) && BallotOk(cfg, s.ballots, x);
    }
  }

  lemma GetProposalOrdered(cfg: Config, s: System, r: ReplicaId, b: Block)
    requires ValidConfig(cfg) && Inv(cfg, s) && OrderInv(cfg, s) && AllAncestral(s.injected) && Correct(cfg, r)
    ensures var st := s.reps[r].core;
            var o := ReceiveProposal(cfg.build, st, b);
            && Ordered(o.state)
            && (o.state.vheight != st.vheight ==> Height(o.state.bLock) < o.state.vheight == Height(b))
  {
    var st := s.reps[r].core;
    if b in st.delivered {
      AncestralIsGrounded(cfg, s);
      DeliveredAncestral(cfg, s, r);
      UpdateNeverBreaches(cfg, s.ballots, st, b);
      UpdateKeepsShape(cfg.build, st, b);
      UpdateStaysOrdered(cfg.build, st, b);
    }
  }

  lemma SelfReceiveOrdered(cfg: Config, bs: set<Ballot>, st1: State, b: Block)
    requires ValidConfig(cfg) && BallotsOk(cfg, bs) && AllGrounded(cfg, bs) && Certs(cfg, bs, st1)
    requires Shape(st1) && Ordered(st1) && AllAncestral(st1.delivered) && b in st1.delivered
    ensures var o := SelfReceive(Update(cfg.build, st1, b), b);
            && Ordered(o.state)
            && (o.state.vheight != st1.vheight ==>
                  o.state.vheight == Height(b) && Height(o.state.bLock) < Height(b))
  {
    UpdateNeverBreaches(cfg, bs, st1, b);
    UpdateKeepsShape(cfg.build, st1, b);
    UpdateStaysOrdered(cfg.build, st1, b);
  }

  lemma OwnDeliveredOrdered(cfg: Config, s: System, r: ReplicaId, cmds: seq<Command>, extra: nat)
    requires ValidConfig(cfg) && Inv(cfg, s) && OrderInv(cfg, s) && AllAncestral(s.injected) && Correct(cfg, r)
    ensures var b := NewBlock(s.reps[r].core, s.reps[r].hqcTail, cmds, extra);
            var st1 := FetchAndDeliver(s.reps[r].core, b);
            && Shape(st1) && Certs(cfg, s.ballots, st1) && Ordered(st1) && AllAncestral(st1.delivered)
            && b in st1.delivered && st1.vheight == s.reps[r].core.vheight
  {
    DeliveredAncestral(cfg, s, r);
    OwnDeliveredKeeps(cfg, s.ballots, s.reps[r].core, s.reps[r].hqcTail, cmds, extra);
  }

  lemma MakeProposalOrdered(cfg: Config, s: System, r: ReplicaId, cmds: seq<Command>, extra: nat)
    requires ValidConfig(cfg) && Inv(cfg, s) && OrderInv(cfg, s) && AllAncestral(s.injected) && Correct(cfg, r)
    ensures var rep := s.reps[r];
            var b := NewBlock(rep.core, rep.hqcTail, cmds, extra);
            var o := Propose(cfg.build, rep.core, rep.hqcTail, cmds, extra);
            && Ordered(o.state)
            && (o.state.vheight != rep.core.vheight ==> Height(o.state.bLock) < o.state.vheight == Height(b))
  {
    var rep := s.reps[r];
    var b := NewBlock(rep.core, rep.hqcTail, cmds, extra);
    AncestralIsGrounded(cfg, s);
    OwnDeliveredOrdered(cfg, s, r, cmds, extra);
    ProposeSplits(cfg.build, rep.core, rep.hqcTail, cmds, extra);
    SelfReceiveOrdered(cfg, s.ballots, FetchAndDeliver(rep.core, b), b);
  }

  lemma LocalOrdered(cfg: Config, s: System, s': System, r: ReplicaId)
    requires OrderInv(cfg, s) && Local(cfg, s, s', r) && |s'.reps| == cfg.n
    requires Ordered(s'.reps[r].core)
    requires forall x :: x in s'.ballots && x !in s.ballots ==> Height(x.lock) < Height(x.blk)
    ensures OrderInv(cfg, s')
  {
  }

  lemma GetProposalStepOrdered(cfg: Config, s: System, r: ReplicaId, b: Block, mute: bool, s': System)
    requires ValidConfig(cfg) && Inv(cfg, s) && OrderInv(cfg, s) && AllAncestral(s.injected)
    requires Next(cfg, s, GetProposal(r, b, mute), s')
    ensures OrderInv(cfg, s')
  {
    GetProposalOrdered(cfg, s, r, b);
    LocalOrdered(cfg, s, s', r);
  }

  lemma MakeProposalStepOrdered(cfg: Config, s: System, r: ReplicaId, cmds: seq<Command>, extra: nat, mute: bool,
                                s': System)
    requires ValidConfig(cfg) && Inv(cfg, s) && OrderInv(cfg, s) && AllAncestral(s.injected)
    requires Next(cfg, s, MakeProposal(r, cmds, extra, mute), s')
    ensures OrderInv(cfg, s')
  {
    MakeProposalOrdered(cfg, s, r, cmds, extra);
    LocalOrdered(cfg, s, s', r);
  }

  lemma DeliverStepOrdered(cfg: Config, s: System, r: ReplicaId, b: Block, s': System)
    requires ValidConfig(cfg) && OrderInv(cfg, s) && Next(cfg, s, DeliverBlock(r, b), s')
    ensures OrderInv(cfg, s')
  {
    LocalOrdered(cfg, s, s', r);
  }

  lemma GetVoteStepOrdered(cfg: Config, s: System, r: ReplicaId, v: ReplicaId, b: Block, s': System)
    requires ValidConfig(cfg) && OrderInv(cfg, s) && Next(cfg, s, GetVote(r, v, b), s')
    ensures OrderInv(cfg, s')
  {
    LocalOrdered(cfg, s, s', r);
  }

  lemma StepOrdered(cfg: Config, s: System, e: Event, s': System)
    requires ValidConfig(cfg) && Inv(cfg, s) && OrderInv(cfg, s) && AllAncestral(s.injected)
    requires Next(cfg, s, e, s')
    ensures OrderInv(cfg, s')
  {
    match e
    case Inject(b) =>
    case FaultyVote(v, b) =>
    case Fetch(r, b) => LocalOrdered(cfg, s, s', r);
    case DeliverBlock(r, b) => DeliverStepOrdered(cfg, s, r, b, s');
    case GetProposal(r, b, mute) => GetProposalStepOrdered(cfg, s, r, b, mute, s');
    case ShowProposal(r, b) => LocalOrdered(cfg, s, s', r);
    case MakeProposal(r, cmds, extra, mute) => MakeProposalStepOrdered(cfg, s, r, cmds, extra, mute, s');
    case GetVote(r, v, b) => GetVoteStepOrdered(cfg, s, r, v, b, s');
  }

  /** b_exec <= b_lock <= hqc, and b_lock below vheight, in every state of every run in which the
      faulty replicas cite ancestors only. */
  lemma {:induction false} StateOrdering(cfg: Config, run: seq<System>, i: nat)
    requires ValidConfig(cfg) && IsRun(cfg, run) && i < |run| && AllAncestral(run[i].injected)
    ensures OrderInv(cfg, run[i])
  {
    if i > 0 {
      RunGrows(cfg, run, i - 1, i);
      StateOrdering(cfg, run, i - 1);
      RunInv(cfg, run, i - 1);
      assert CanStep(cfg, run[i - 1], run[i]);
      var e :| Next(cfg, run[i - 1], e, run[i]);
      StepOrdered(cfg, run[i - 1], e, run[i]);
    }
  }

  /** Whatever the faulty replicas do, a correct replica votes at most once per height, and no two
      certified blocks share a height. */
  lemma OneVoteOneBlockPerHeight(cfg: Config, run: seq<System>, i: nat)
    requires ValidConfig(cfg) && IsRun(cfg, run) && i < |run|
    ensures forall x, y | x in run[i].ballots && y in run[i].ballots && x.voter == y.voter && Correct(cfg, x.voter) ::
              Height(x.blk) == Height(y.blk) ==> x == y
    ensures forall a, b | Certified(cfg, run[i].ballots, a) && Certified(cfg, run[i].ballots, b) ::
              Height(a) == Height(b) ==> a == b
  {
    RunInv(cfg, run, i);
    var bs := run[i].ballots;
    forall x, y | x in bs && y in bs && x.voter == y.voter && Correct(cfg, x.voter) && Height(x.blk) == Height(y.blk)
      ensures x == y
    {
      assert InOrder(x, y);
    }
    forall a, b | Certified(cfg, bs, a) && Certified(cfg, bs, b) && Height(a) == Height(b) ensures a == b {
      OneCertifiedPerHeight(cfg, bs, a, b);
    }
  }

  // ---- without the hypothesis ----

  ghost predicate AlwaysOrdered(cfg: Config) {
    forall run: seq<System>, i: nat, r: ReplicaId | IsRun(cfg, run) && Within(cfg, run, i, r) ::
      Ordered(run[i].reps[r].core)
  }

  /** How far along the certified branch the made-up block cites. */
  function Cited(build: Build): nat {
    if build.ThreeStep? then 2 else 1
  }

  /** A child of genesis with the certificate of a block that is not its ancestor. */
  function Intruder(build: Build): Block {
    Node(Genesis, [], A(Cited(build)), [], 3)
  }

  function Planned(build: Build): set<Block> {
    {A(1), A(2), Intruder(build)}
  }

  /** A replica that has delivered the blocks, but received none of them as a proposal. */
  predicate Bystander(build: Build, st: State) {
    && st.hqc == st.bLock == st.bExec == Genesis && st.vheight == 0 && st.decided == {Genesis}
    && Has(st, A(0)) && Has(st, A(1)) && Has(st, A(2)) && Has(st, Intruder(build))
  }

  /** The certificate raises b_lock to a block that is not below vheight afterwards. */
  lemma IntruderMisorders(build: Build, st: State)
    requires Bystander(build, st)
    ensures !Ordered(ReceiveProposal(build, st, Intruder(build)).state)
  {
    SmallBranches();
    var b := Intruder(build);
    assert QcRef(A(1)) == Genesis && QcRef(b) == A(Cited(build));
    if build.ThreeStep? {
      assert BeforeCommit(build, st, b) == (st.(hqc := A(2), bLock := A(1)), None);
    } else {
      assert BeforeCommit(build, st, b) == (st.(hqc := A(1), bLock := A(1)), None);
    }
  }

  lemma SeesA1(cfg: Config)
    ensures CanSee(cfg, InitState(cfg.n), A(1))
    ensures cfg.build.ThreeStep? ==> SawA(Seen(cfg, InitState(cfg.n), A(1)), 1)
  {
    var st := InitState(cfg.n);
    if cfg.build.ThreeStep? {
      assert SawA(st, 0);
      SeesA(cfg, st, 0);
    } else {
      SmallBranches();
      DeliverChild(st, A(1));
      assert Extends(A(1), Genesis);
    }
  }

  ghost predicate Prepared(cfg: Config, idle: ReplicaId, s: System) {
    && ValidConfig(cfg) && cfg.faulty != {} && Correct(cfg, idle) && Running(cfg, s)
    && s.injected == Planned(cfg.build) && s.reps[idle].core == InitState(cfg.n)
    && Certified(cfg, s.ballots, A(1)) && Certified(cfg, s.ballots, A(Cited(cfg.build)))
  }

  /** The voters certify the block that will be cited; the idle replica sees nothing. */
  lemma Prepare(cfg: Config, idle: ReplicaId) returns (s: System)
    requires ValidConfig(cfg) && cfg.faulty != {} && Correct(cfg, idle)
    ensures Prepared(cfg, idle, s)
  {
    hide Reachable, CanSee, Seen, Certified, SawA, A, Intruder;
    Start(cfg);
    SeesA1(cfg);
    PlannedBlocks(cfg.build);
    s := DoInject(cfg, InitSystem(cfg), Planned(cfg.build));
    assert {} + Planned(cfg.build) == Planned(cfg.build);
    GenesisCertified(cfg, s.ballots);
    s := Round(cfg, s, idle, A(1));
    if cfg.build.ThreeStep? {
      s := SecondRound(cfg, idle, s);
    }
  }

  lemma GenesisCertified(cfg: Config, bs: set<Ballot>)
    ensures Certified(cfg, bs, Genesis)
  {
  }

  lemma PlannedBlocks(build: Build)
    ensures A(1) in Planned(build) && A(2) in Planned(build) && Intruder(build) in Planned(build)
    ensures QcRef(A(1)) == Genesis && QcRef(A(2)) == A(1) && QcRef(Intruder(build)) == A(Cited(build))
  {
    SmallBranches();
  }

  lemma SecondRound(cfg: Config, idle: ReplicaId, s: System) returns (s': System)
    requires ValidConfig(cfg) && cfg.faulty != {} && Correct(cfg, idle) && Running(cfg, s) && cfg.build.ThreeStep?
    requires s.injected == Planned(cfg.build) && s.reps[idle].core == InitState(cfg.n)
    requires Certified(cfg, s.ballots, A(1)) && forall r :: r in Voters(cfg, idle) ==> SawA(s.reps[r].core, 1)
    ensures Prepared(cfg, idle, s')
  {
    hide Reachable, CanSee, Seen, Certified, SawA, A, Intruder;
    PlannedBlocks(cfg.build);
    forall r | r in Voters(cfg, idle) ensures CanSee(cfg, s.reps[r].core, A(2)) {
      SeesA(cfg, s.reps[r].core, 1);
    }
    s' := Round(cfg, s, idle, A(2));
    CertifiedGrows(cfg, s.ballots, s'.ballots, A(1));
  }

  /** With a faulty replica, in both builds: a run whose last state is not ordered. */
  lemma IntruderRun(cfg: Config, idle: ReplicaId) returns (run: seq<System>, i: nat)
    requires ValidConfig(cfg) && cfg.faulty != {} && Correct(cfg, idle)
    ensures IsRun(cfg, run) && Within(cfg, run, i, idle) && !Ordered(run[i].reps[idle].core)
  {
    hide Ordered;
    var s := Prepare(cfg, idle);
    s := Gather(cfg, idle, s);
    IntruderMisorders(cfg.build, s.reps[idle].core);
    s := DoGet(cfg, s, idle, Intruder(cfg.build));
    run :| IsRun(cfg, run) && run[|run| - 1] == s;
    i := |run| - 1;
  }

  lemma Gather(cfg: Config, idle: ReplicaId, s: System) returns (s': System)
    requires Prepared(cfg, idle, s)
    ensures Running(cfg, s') && s'.reps[idle].core == FetchAndDeliver(
              FetchAndDeliver(FetchAndDeliver(InitState(cfg.n), A(1)), A(2)), Intruder(cfg.build))
    ensures Bystander(cfg.build, s'.reps[idle].core)
  {
    hide Reachable, Certified, A, Intruder, FetchAndDeliver, Deliverable;
    PlannedBlocks(cfg.build);
    Gathered(cfg);
    GenesisCertified(cfg, s.ballots);
    s' := DoDeliver(cfg, s, idle, A(1));
    s' := DoDeliver(cfg, s', idle, A(2));
    s' := DoDeliver(cfg, s', idle, Intruder(cfg.build));
  }

  lemma Gathered(cfg: Config)
    ensures var st0 := InitState(cfg.n);
            var st1 := FetchAndDeliver(st0, A(1));
            var st2 := FetchAndDeliver(st1, A(2));
            && Deliverable(st0, A(1)) && Deliverable(st1, A(2)) && Deliverable(st2, Intruder(cfg.build))
            && Bystander(cfg.build, FetchAndDeliver(st2, Intruder(cfg.build)))
  {
    hide FetchAndDeliver, Deliverable;
    SmallBranches();
    var st0 := InitState(cfg.n);
    DeliverChild(st0, A(1));
    var st1 := FetchAndDeliver(st0, A(1));
    DeliverChild(st1, A(2));
    DeliverChild(FetchAndDeliver(st1, A(2)), Intruder(cfg.build));
  }

  /** So the variables are always ordered exactly when no replica is faulty. */
  lemma OrderIsExact(cfg: Config)
    requires ValidConfig(cfg)
    ensures AlwaysOrdered(cfg) <==> cfg.faulty == {}
  {
    hide Ordered;
    if cfg.faulty == {} {
      forall run: seq<System>, i: nat, r: ReplicaId | IsRun(cfg, run) && Within(cfg, run, i, r)
        ensures Ordered(run[i].reps[r].core)
      {
        NothingMadeUp(cfg, run, i);
        StateOrdering(cfg, run, i);
      }
    } else {
      var idle, r := TwoCorrect(cfg);
      var run, i := IntruderRun(cfg, idle);
    }
  }
}
