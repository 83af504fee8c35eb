/** Every step of the protocol keeps the invariant of Protocol.dfy. */
module Invariant {
  import opened Chain
  import opened Core
  import opened CoreFacts
  import opened Quorums
  import opened Ballots
  import opened Protocol

  lemma CommitCertifiedGrows(cfg: Config, bs: set<Ballot>, bs': set<Ballot>, b: Block)
    requires bs <= bs' && CommitCertified(cfg, bs, b)
    ensures CommitCertified(cfg, bs', b)
  {
    if b != Genesis {
      var top :| Certified(cfg, bs, top) && CommitChain(cfg.build, b, top);
      CertifiedGrows(cfg, bs, bs', top);
    }
  }

  lemma CertsGrow(cfg: Config, bs: set<Ballot>, bs': set<Ballot>, st: State)
    requires bs <= bs' && Certs(cfg, bs, st)
    ensures Certs(cfg, bs', st)
  {
    forall b | b in st.delivered ensures Certified(cfg, bs', QcRef(b)) {
      CertifiedGrows(cfg, bs, bs', QcRef(b));
    }
    CertifiedGrows(cfg, bs, bs', st.hqc);
    CertifiedGrows(cfg, bs, bs', st.bLock);
    CommitCertifiedGrows(cfg, bs, bs', st.bExec);
  }

  /** A ballot of somebody else leaves a replica's invariant alone. */
  lemma ReplicaOkGrows(cfg: Config, bs: set<Ballot>, bs': set<Ballot>, r: ReplicaId, rep: Replica)
    requires bs <= bs' && ReplicaOk(cfg, bs, r, rep)
    requires forall x :: x in bs' && x !in bs ==> x.voter != r
    ensures ReplicaOk(cfg, bs', r, rep)
  {
    CertsGrow(cfg, bs, bs', rep.core);
  }

  lemma UpdateKeepsCerts(cfg: Config, bs: set<Ballot>, st: State, b: Block)
    requires ValidConfig(cfg) && BallotsOk(cfg, bs)
    requires Shape(st) && Certs(cfg, bs, st) && b in st.delivered
    ensures Certs(cfg, bs, Update(cfg.build, st, b).state)
  {
    UpdateKeepsShape(cfg.build, st, b);
    BeforeCommitRaises(cfg.build, st, b);
    var st' := Update(cfg.build, st, b).state;
    assert Certified(cfg, bs, QcRef(b));
    if st'.bExec != st.bExec {
      CommitCandidate(cfg.build, st, b);
      assert CommitChain(cfg.build, st'.bExec, QcRef(b));
    }
  }

  /** The ballot a replica casts after `update` meets everything promised of correct ballots. */
  lemma VoteIsOk(cfg: Config, bs: set<Ballot>, r: ReplicaId, st: State, b: Block)
    requires ValidConfig(cfg) && BallotsOk(cfg, bs)
    requires Shape(st) && Certs(cfg, bs, st) && b in st.delivered
    requires Opinion(Update(cfg.build, st, b).state, b)
    ensures BallotOk(cfg, bs, Ballot(r, b, Update(cfg.build, st, b).state.bLock))
  {
    var lock := Update(cfg.build, st, b).state.bLock;
    UpdateKeepsCerts(cfg, bs, st, b);
    UpdateKeepsShape(cfg.build, st, b);
    if cfg.build.TwoStep? {
      TwoStepLivenessTestNeverTrue(st, b);
    }
    forall c | CommitChain(cfg.build, c, b) ensures Height(c) <= Height(lock) {
      LockCoversChain(cfg.build, st, c, b);
    }
  }

  /** `update` followed by the vote decision. */
  lemma UpdateAndVote(cfg: Config, bs: set<Ballot>, r: ReplicaId, st: State, b: Block, cast: bool)
    requires ValidConfig(cfg) && BallotsOk(cfg, bs) && Correct(cfg, r)
    requires Shape(st) && TailsExact(st) && Certs(cfg, bs, st) && OwnBallots(bs, r, st) && b in st.delivered
    requires cast ==> Opinion(Update(cfg.build, st, b).state, b)
    ensures var st' := if Update(cfg.build, st, b).error == NoError then RecordVote(Update(cfg.build, st, b).state, b)
                       else Update(cfg.build, st, b).state;
            var bs' := if cast && Update(cfg.build, st, b).error == NoError then bs + {Ballot(r, b, st'.bLock)} else bs;
            && BallotsOk(cfg, bs')
            && Shape(st') && TailsExact(st') && Certs(cfg, bs', st') && OwnBallots(bs', r, st')
            && st.log <= st'.log
  {
    var u := Update(cfg.build, st, b);
    UpdateKeepsShape(cfg.build, st, b);
    UpdateKeepsCerts(cfg, bs, st, b);
    if cast && u.error == NoError {
      VoteIsOk(cfg, bs, r, st, b);
      var x := Ballot(r, b, u.state.bLock);
      AddBallot(cfg, bs, x);
      CertsGrow(cfg, bs, bs + {x}, RecordVote(u.state, b));
    }
  }

  lemma DeliverKeepsCerts(cfg: Config, bs: set<Ballot>, st: State, b: Block)
    requires Shape(st) && TailsExact(st) && Certs(cfg, bs, st)
    requires Certified(cfg, bs, QcRef(b))
    ensures var st' := Deliver(st, b).state;
            && Shape(st') && TailsExact(st') && Certs(cfg, bs, st')
            && st' == st.(fetched := st'.fetched, delivered := st'.delivered, tails := st'.tails)
  {
    DeliverKeepsShape(st, b);
    DeliverKeepsTails(st, b);
  }

  lemma TailStaysOk(st: State, tail: Block, st': State, tail': Block)
    requires TailOk(Replica(st, tail)) && st.delivered <= st'.delivered
    requires Shape(st') && TailsExact(st') && TailFollows(st, tail, st', tail')
    ensures TailOk(Replica(st', tail'))
  {
  }

  lemma GetProposalKeeps(cfg: Config, bs: set<Ballot>, r: ReplicaId, rep: Replica, rep': Replica, b: Block, mute: bool)
    requires ValidConfig(cfg) && BallotsOk(cfg, bs) && Correct(cfg, r)
    requires ReplicaOk(cfg, bs, r, rep)
    requires GetProposalStep(cfg, rep, rep', b)
    ensures var bs' := bs + CastVote(r, b, rep.core, ReceiveProposal(cfg.build, rep.core, b), mute);
            BallotsOk(cfg, bs') && ReplicaOk(cfg, bs', r, rep')
    ensures rep'.core.fetched == rep.core.fetched && rep.core.log <= rep'.core.log
  {
    hide OwnBallots, Certs, BallotsOk, Shape, TailsExact, Update;
    var o := ReceiveProposal(cfg.build, rep.core, b);
    if b in rep.core.delivered {
      var cast := !mute && o.error == NoError && o.state.vheight != rep.core.vheight;
      UpdateKeepsShape(cfg.build, rep.core, b);
      UpdateAndVote(cfg, bs, r, rep.core, b, cast);
      TailStaysOk(rep.core, rep.hqcTail, o.state, rep'.hqcTail);
      assert bs + {} == bs;
    } else {
      assert bs + {} == bs;
    }
  }

  /** Erasing the parents from `tails` first makes no difference to what delivery leaves. */
  lemma OwnDelivery(st: State, parents: seq<Block>, cmds: seq<Command>, extra: nat)
    requires Shape(st) && TailsExact(st) && parents != [] && forall p :: p in parents ==> p in st.delivered
    ensures var b := NewBlockOn(st, parents, cmds, extra);
            Deliver(st.(tails := st.tails - Members(parents), fetched := st.fetched + {b}), b)
            == Outcome(FetchAndDeliver(st, b), NoError)
  {
    var b := NewBlockOn(st, parents, cmds, extra);
    assert Parents(b) == parents;
    var ps := Members(Parents(b));
    assert Members(parents) == ps;
    if b in st.delivered {
      forall p | p in ps ensures p !in st.tails {
        assert p in Parents(b);
      }
      assert st.tails - ps == st.tails;
    } else {
      assert st.tails - ps - ps + {b} == st.tails - ps + {b};
    }
  }

  lemma ProposeSplits(build: Build, st: State, tail: Block, cmds: seq<Command>, extra: nat)
    requires Shape(st) && TailsExact(st) && tail in st.delivered
    ensures var b := NewBlock(st, tail, cmds, extra);
            Propose(build, st, tail, cmds, extra) == SelfReceive(Update(build, FetchAndDeliver(st, b), b), b)
  {
    OwnDelivery(st, [tail], cmds, extra);
  }

  lemma OwnDeliveredKeeps(cfg: Config, bs: set<Ballot>, st: State, tail: Block, cmds: seq<Command>, extra: nat)
    requires Shape(st) && TailsExact(st) && Certs(cfg, bs, st) && tail in st.delivered
    ensures var b := NewBlock(st, tail, cmds, extra);
            var st1 := FetchAndDeliver(st, b);
            && Shape(st1) && TailsExact(st1) && Certs(cfg, bs, st1)
            && st1.delivered == st.delivered + {b} && st1.fetched == st.fetched + {b}
            && st1 == st.(fetched := st1.fetched, delivered := st1.delivered, tails := st1.tails)
  {
    var b := NewBlock(st, tail, cmds, extra);
    var st0 := st.(fetched := st.fetched + {b});
    assert Parents(b) == [tail];
    DeliverKeepsCerts(cfg, bs, st0, b);
    DeliverKeepsShape(st0, b);
  }

  lemma ProposeKeepsCore(cfg: Config, bs: set<Ballot>, r: ReplicaId, st1: State, b: Block, cast: bool)
    requires ValidConfig(cfg) && BallotsOk(cfg, bs) && Correct(cfg, r)
    requires Shape(st1) && TailsExact(st1) && Certs(cfg, bs, st1) && OwnBallots(bs, r, st1)
    requires b in st1.delivered && QcRef(b) == st1.hqc
    requires var o := SelfReceive(Update(cfg.build, st1, b), b);
             cast ==> o.error == NoError && o.state.vheight != st1.vheight
    ensures var o := SelfReceive(Update(cfg.build, st1, b), b);
            var bs' := if cast then bs + {Ballot(r, b, o.state.bLock)} else bs;
            && BallotsOk(cfg, bs')
            && Shape(o.state) && TailsExact(o.state) && Certs(cfg, bs', o.state) && OwnBallots(bs', r, o.state)
            && o.state.hqc == st1.hqc
            && o.state.delivered == st1.delivered && o.state.fetched == st1.fetched
            && st1.log <= o.state.log
  {
    UpdateKeepsShape(cfg.build, st1, b);
    BeforeCommitRaises(cfg.build, st1, b);
    var u := Update(cfg.build, st1, b);
    var o := SelfReceive(u, b);
    if o.error == NotHigherThanVheight {
      UpdateKeepsCerts(cfg, bs, st1, b);
    } else {
      UpdateAndVote(cfg, bs, r, st1, b, cast);
    }
  }

  lemma ProposeKeeps(cfg: Config, bs: set<Ballot>, r: ReplicaId, st: State, tail: Block,
                     cmds: seq<Command>, extra: nat, mute: bool)
    requires ValidConfig(cfg) && BallotsOk(cfg, bs) && Correct(cfg, r)
    requires Shape(st) && TailsExact(st) && Certs(cfg, bs, st) && OwnBallots(bs, r, st) && tail in st.delivered
    ensures var b := NewBlock(st, tail, cmds, extra);
            var o := Propose(cfg.build, st, tail, cmds, extra);
            var bs' := bs + CastVote(r, b, st, o, mute);
            && BallotsOk(cfg, bs')
            && Shape(o.state) && TailsExact(o.state) && Certs(cfg, bs', o.state) && OwnBallots(bs', r, o.state)
            && o.state.hqc == st.hqc
            && o.state.delivered == st.delivered + {b} && o.state.fetched == st.fetched + {b}
            && st.log <= o.state.log
  {
    var b := NewBlock(st, tail, cmds, extra);
    var o := Propose(cfg.build, st, tail, cmds, extra);
    var cast := !mute && o.error == NoError && o.state.vheight != st.vheight;
    assert CastVote(r, b, st, o, mute) == if cast then {Ballot(r, b, o.state.bLock)} else {};
    assert bs + {} == bs;
    ProposeSplits(cfg.build, st, tail, cmds, extra);
    OwnDeliveredKeeps(cfg, bs, st, tail, cmds, extra);
    ProposeKeepsCore(cfg, bs, r, FetchAndDeliver(st, b), b, cast);
  }

  lemma MakeProposalKeeps(cfg: Config, bs: set<Ballot>, r: ReplicaId, rep: Replica, rep': Replica,
                          cmds: seq<Command>, extra: nat, mute: bool)
    requires ValidConfig(cfg) && BallotsOk(cfg, bs) && Correct(cfg, r)
    requires ReplicaOk(cfg, bs, r, rep)
    requires MakeProposalStep(cfg, rep, rep', cmds, extra)
    ensures var b := NewBlock(rep.core, rep.hqcTail, cmds, extra);
            var bs' := bs + CastVote(r, b, rep.core, Propose(cfg.build, rep.core, rep.hqcTail, cmds, extra), mute);
            && BallotsOk(cfg, bs') && ReplicaOk(cfg, bs', r, rep')
            && AncestralQc(b)
            && rep'.core.fetched == rep.core.fetched + {b} && rep.core.log <= rep'.core.log
  {
    ProposeKeeps(cfg, bs, r, rep.core, rep.hqcTail, cmds, extra, mute);
  }

  lemma ReceiveVoteChanges(st: State, nmajority: nat, v: ReplicaId, b: Block)
    ensures var st' := ReceiveVote(st, nmajority, v, b).state;
            && st' == st.(hqc := st'.hqc, voted := st'.voted)
            && (st'.hqc == st.hqc || (b in st.delivered && st'.hqc == b && |VotedFor(st, b) + {v}| == nmajority))
            && (st'.hqc != st.hqc ==> st'.voted == st.voted[b := VotedFor(st, b) + {v}])
            && (st'.voted == st.voted || st'.voted == st.voted[b := VotedFor(st, b) + {v}])
  {
  }

  lemma ReceiveVoteKeepsCerts(cfg: Config, bs: set<Ballot>, st: State, v: ReplicaId, b: Block)
    requires Certs(cfg, bs, st) && v in Supporters(cfg, bs, b)
    ensures Certs(cfg, bs, ReceiveVote(st, Majority(cfg.n), v, b).state)
  {
    ReceiveVoteChanges(st, Majority(cfg.n), v, b);
    var votes := VotedFor(st, b) + {v};
    if b != Genesis {
      assert votes <= Supporters(cfg, bs, b);
      SubsetSize(votes, Supporters(cfg, bs, b));
    }
  }

  lemma GetVoteKeeps(cfg: Config, bs: set<Ballot>, r: ReplicaId, rep: Replica, rep': Replica, v: ReplicaId, b: Block)
    requires ReplicaOk(cfg, bs, r, rep)
    requires v in Supporters(cfg, bs, b)
    requires GetVoteStep(cfg, rep, rep', v, b)
    ensures ReplicaOk(cfg, bs, r, rep') && rep'.core.fetched == rep.core.fetched && rep'.core.log == rep.core.log
  {
    ReceiveVoteChanges(rep.core, Majority(cfg.n), v, b);
    ReceiveVoteKeepsCerts(cfg, bs, rep.core, v, b);
    assert Shape(rep'.core) && TailsExact(rep'.core);
    TailStaysOk(rep.core, rep.hqcTail, rep'.core, rep'.hqcTail);
  }

  /** What never shrinks: the commit logs, the votes cast and the blocks made up. */
  ghost predicate Grows(cfg: Config, s: System, s': System) {
    && |s.reps| == |s'.reps| == cfg.n
    && s.ballots <= s'.ballots && s.injected <= s'.injected
    && forall r: ReplicaId :: Correct(cfg, r) ==> s.reps[r].core.log <= s'.reps[r].core.log
  }

  /** What a local step of r must establish about r for the whole system to stay well. */
  ghost predicate LocallyOk(cfg: Config, s: System, s': System, r: ReplicaId) {
    && Local(cfg, s, s', r)
    && s.ballots <= s'.ballots && s.proposed <= s'.proposed
    && (forall x :: x in s'.ballots && x !in s.ballots ==> x.voter == r && x.blk in s'.proposed + s'.injected)
    && BallotsOk(cfg, s'.ballots)
    && ReplicaOk(cfg, s'.ballots, r, s'.reps[r])
    && s.reps[r].core.log <= s'.reps[r].core.log
    && s'.reps[r].core.fetched <= s'.proposed + s'.injected + {Genesis}
    && (forall b :: b in s'.proposed ==> AncestralQc(b))
  }

  lemma LocalStepKeeps(cfg: Config, s: System, s': System, r: ReplicaId)
    requires Inv(cfg, s) && |s'.reps| == cfg.n && LocallyOk(cfg, s, s', r)
    ensures Inv(cfg, s') && Grows(cfg, s, s')
  {
    forall q: ReplicaId | Correct(cfg, q)
      ensures ReplicaOk(cfg, s'.ballots, q, s'.reps[q])
      ensures s'.reps[q].core.fetched <= s'.proposed + s'.injected + {Genesis}
    {
      if q != r {
        ReplicaOkGrows(cfg, s.ballots, s'.ballots, q, s.reps[q]);
      }
    }
  }

  lemma FaultyVoteKeeps(cfg: Config, s: System, s': System, v: ReplicaId, b: Block)
    requires ValidConfig(cfg) && Inv(cfg, s) && v in cfg.faulty
    requires s' == s.(ballots := s.ballots + {Ballot(v, b, Genesis)})
    ensures Inv(cfg, s') && Grows(cfg, s, s')
  {
    AddBallot(cfg, s.ballots, Ballot(v, b, Genesis));
    forall q: ReplicaId | Correct(cfg, q) ensures ReplicaOk(cfg, s'.ballots, q, s'.reps[q]) {
      ReplicaOkGrows(cfg, s.ballots, s'.ballots, q, s.reps[q]);
    }
  }

  lemma FetchKeepsReplica(cfg: Config, bs: set<Ballot>, r: ReplicaId, rep: Replica, b: Block)
    requires ReplicaOk(cfg, bs, r, rep)
    ensures ReplicaOk(cfg, bs, r, rep.(core := rep.core.(fetched := rep.core.fetched + {b})))
  {
    var st' := rep.core.(fetched := rep.core.fetched + {b});
    assert Shape(st');
    assert TailsExact(st');
    assert Certs(cfg, bs, st');
  }

  lemma FetchKeeps(cfg: Config, s: System, s': System, r: ReplicaId, b: Block)
    requires ValidConfig(cfg) && Inv(cfg, s) && Next(cfg, s, Fetch(r, b), s')
    ensures Inv(cfg, s') && Grows(cfg, s, s')
  {
    FetchKeepsReplica(cfg, s.ballots, r, s.reps[r], b);
    assert LocallyOk(cfg, s, s', r);
    LocalStepKeeps(cfg, s, s', r);
  }

  lemma DeliverKeepsReplica(cfg: Config, bs: set<Ballot>, r: ReplicaId, rep: Replica, b: Block)
    requires ReplicaOk(cfg, bs, r, rep) && b in rep.core.fetched && Certified(cfg, bs, QcRef(b))
    ensures var st' := Deliver(rep.core, b).state;
            && ReplicaOk(cfg, bs, r, Replica(st', rep.hqcTail))
            && st'.log == rep.core.log && st'.fetched == rep.core.fetched
  {
    DeliverKeepsCerts(cfg, bs, rep.core, b);
    DeliverKeepsShape(rep.core, b);
  }

  lemma DeliverBlockKeeps(cfg: Config, s: System, s': System, r: ReplicaId, b: Block)
    requires ValidConfig(cfg) && Inv(cfg, s) && Next(cfg, s, DeliverBlock(r, b), s')
    ensures Inv(cfg, s') && Grows(cfg, s, s')
  {
    DeliverKeepsReplica(cfg, s.ballots, r, s.reps[r], b);
    LocalStepKeeps(cfg, s, s', r);
  }

  lemma GetProposalEventKeeps(cfg: Config, s: System, s': System, r: ReplicaId, b: Block, mute: bool)
    requires ValidConfig(cfg) && Inv(cfg, s) && Next(cfg, s, GetProposal(r, b, mute), s')
    ensures Inv(cfg, s') && Grows(cfg, s, s')
  {
    GetProposalKeeps(cfg, s.ballots, r, s.reps[r], s'.reps[r], b, mute);
    forall x | x in s'.ballots && x !in s.ballots ensures x.voter == r && x.blk in s'.proposed + s'.injected {
      assert BallotOk(cfg, s'.ballots, x);
    }
    LocalStepKeeps(cfg, s, s', r);
  }

  lemma ShowProposalEventKeeps(cfg: Config, s: System, s': System, r: ReplicaId, b: Block)
    requires ValidConfig(cfg) && Inv(cfg, s) && Next(cfg, s, ShowProposal(r, b), s')
    ensures Inv(cfg, s') && Grows(cfg, s, s')
  {
    LocalStepKeeps(cfg, s, s', r);
  }

  lemma MakeProposalEventKeeps(cfg: Config, s: System, s': System, r: ReplicaId,
                               cmds: seq<Command>, extra: nat, mute: bool)
    requires ValidConfig(cfg) && Inv(cfg, s) && Next(cfg, s, MakeProposal(r, cmds, extra, mute), s')
    ensures Inv(cfg, s') && Grows(cfg, s, s')
  {
    hide BallotsOk, Certs, OwnBallots, Shape, TailsExact, Propose;
    MakeProposalKeeps(cfg, s.ballots, r, s.reps[r], s'.reps[r], cmds, extra, mute);
    LocalStepKeeps(cfg, s, s', r);
  }

  lemma GetVoteEventKeeps(cfg: Config, s: System, s': System, r: ReplicaId, v: ReplicaId, b: Block)
    requires ValidConfig(cfg) && Inv(cfg, s) && Next(cfg, s, GetVote(r, v, b), s')
    ensures Inv(cfg, s') && Grows(cfg, s, s')
  {
    GetVoteKeeps(cfg, s.ballots, r, s.reps[r], s'.reps[r], v, b);
    LocalStepKeeps(cfg, s, s', r);
  }

  lemma StepKeepsInv(cfg: Config, s: System, e: Event, s': System)
    requires ValidConfig(cfg) && Inv(cfg, s) && Next(cfg, s, e, s')
    ensures Inv(cfg, s') && Grows(cfg, s, s')
  {
    match e
    case Inject(b) =>
    case FaultyVote(v, b) => FaultyVoteKeeps(cfg, s, s', v, b);
    case Fetch(r, b) => FetchKeeps(cfg, s, s', r, b);
    case DeliverBlock(r, b) => DeliverBlockKeeps(cfg, s, s', r, b);
    case GetProposal(r, b, mute) => GetProposalEventKeeps(cfg, s, s', r, b, mute);
    case ShowProposal(r, b) => ShowProposalEventKeeps(cfg, s, s', r, b);
    case MakeProposal(r, cmds, extra, mute) => MakeProposalEventKeeps(cfg, s, s', r, cmds, extra, mute);
    case GetVote(r, v, b) => GetVoteEventKeeps(cfg, s, s', r, v, b);
  }

  lemma InitInv(cfg: Config)
    requires ValidConfig(cfg)
    ensures Inv(cfg, InitSystem(cfg))
  {
    var s := InitSystem(cfg);
    forall b | Certified(cfg, {}, b) ensures FreshQuorum(cfg, {}, b) {
      if b != Genesis {
        assert Supporters(cfg, {}, b) == {};
      }
    }
  }

  /** The invariant holds in every state of every run. */
  lemma {:induction false} RunInv(cfg: Config, run: seq<System>, i: nat)
    requires ValidConfig(cfg) && IsRun(cfg, run) && i < |run|
    ensures Inv(cfg, run[i])
  {
    if i == 0 {
      InitInv(cfg);
    } else {
      RunInv(cfg, run, i - 1);
      assert CanStep(cfg, run[i - 1], run[i]);
      var e :| Next(cfg, run[i - 1], e, run[i]);
      StepKeepsInv(cfg, run[i - 1], e, run[i]);
    }
  }
}
