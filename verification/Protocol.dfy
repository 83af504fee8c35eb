/** The protocol: n replicas, of which at most nfaulty are faulty, and everything they have said.

    Faulty replicas may make up any block and cast any vote.  A correct one takes the steps of
    HotStuffCore and of the parent selection in PMHighTail.  Messages may be lost, repeated and
    reordered: a step may use anything that was ever proposed, made up or voted for.  Between the
    handling of a received proposal and the callback that shows it to the parent selection, other
    steps of the same replica may come: on_qc_finish is called there, and may lead to a proposal.
  */
module Protocol {
  import opened Chain
  import opened Core
  import opened CoreFacts
  import opened Quorums
  import opened Ballots

  /** HotStuffCore's state and the hqc_tail of the parent selection. */
  datatype Replica = Replica(core: State, hqcTail: Block)

  datatype System = System(
    reps: seq<Replica>,
    ballots: set<Ballot>,
    proposed: set<Block>,   // by correct replicas
    injected: set<Block>)   // by faulty ones

  datatype Event =
    | Inject(blk: Block)
    | FaultyVote(voter: ReplicaId, blk: Block)
    | Fetch(r: ReplicaId, blk: Block)
    | DeliverBlock(r: ReplicaId, blk: Block)
    | GetProposal(r: ReplicaId, blk: Block, mute: bool)
    | ShowProposal(r: ReplicaId, blk: Block)
    | MakeProposal(r: ReplicaId, cmds: seq<Command>, extra: nat, mute: bool)
    | GetVote(r: ReplicaId, voter: ReplicaId, blk: Block)

  function InitSystem(cfg: Config): System {
    System(seq(cfg.n, _ => Replica(InitState(cfg.n), Genesis)), {}, {}, {})
  }

  /** What the loop of reg_hqc_update may leave in hqc_tail: hqc, or a tail that extends it, with
      no extending tail higher.  The loop's order over equally high tails is not fixed. */
  ghost predicate HighestTail(st: State, t: Block) {
    && (t == st.hqc || (t in st.tails && Extends(t, st.hqc)))
    && (forall x :: x in st.tails && Extends(x, st.hqc) ==> Height(x) <= Height(t))
  }

  /** hqc_tail after a step of the core: chosen anew exactly when hqc was updated. */
  ghost predicate TailFollows(st: State, tail: Block, st': State, tail': Block) {
    if st'.hqc == st.hqc then tail' == tail else HighestTail(st', tail')
  }

  /** hqc_tail after the callback of reg_receive_proposal. */
  function TailOnProposal(st: State, tail: Block, b: Block): Block {
    if Extends(b, st.hqc) && Height(b) > Height(tail) then b else tail
  }

  /** The vote sent by a step from st to o: vheight is raised exactly when the opinion is true, and
      set_vote_disabled suppresses only the message. */
  function CastVote(r: ReplicaId, b: Block, st: State, o: Outcome, mute: bool): set<Ballot> {
    if o.error == NoError && o.state.vheight != st.vheight && !mute then {Ballot(r, b, o.state.bLock)} else {}
  }

  ghost predicate GetProposalStep(cfg: Config, rep: Replica, rep': Replica, b: Block) {
    && rep'.core == ReceiveProposal(cfg.build, rep.core, b).state
    && TailFollows(rep.core, rep.hqcTail, rep'.core, rep'.hqcTail)
  }

  ghost predicate MakeProposalStep(cfg: Config, rep: Replica, rep': Replica, cmds: seq<Command>, extra: nat) {
    var o := Propose(cfg.build, rep.core, rep.hqcTail, cmds, extra);
    && rep'.core == o.state
    && if o.error == NoError then rep'.hqcTail == NewBlock(rep.core, rep.hqcTail, cmds, extra)
       else TailFollows(rep.core, rep.hqcTail, o.state, rep'.hqcTail)
  }

  ghost predicate GetVoteStep(cfg: Config, rep: Replica, rep': Replica, voter: ReplicaId, b: Block) {
    && rep'.core == ReceiveVote(rep.core, Majority(cfg.n), voter, b).state
    && TailFollows(rep.core, rep.hqcTail, rep'.core, rep'.hqcTail)
  }

  /** A correct replica's step changes its own state only. */
  ghost predicate Local(cfg: Config, s: System, s': System, r: ReplicaId) {
    && Correct(cfg, r) && r < |s.reps| == |s'.reps|
    && s'.reps == s.reps[r := s'.reps[r]]
    && s'.injected == s.injected
  }

  ghost predicate Next(cfg: Config, s: System, e: Event, s': System) {
    |s.reps| == |s'.reps| == cfg.n &&
    match e
    case Inject(b) => cfg.faulty != {} && s' == s.(injected := s.injected + {b})
    case FaultyVote(v, b) => v in cfg.faulty && s' == s.(ballots := s.ballots + {Ballot(v, b, Genesis)})
    case Fetch(r, b) =>
      && Local(cfg, s, s', r) && b in s.proposed + s.injected
      && s'.reps[r] == s.reps[r].(core := s.reps[r].core.(fetched := s.reps[r].core.fetched + {b}))
      && s'.ballots == s.ballots && s'.proposed == s.proposed
    case DeliverBlock(r, b) =>
      // the certificate has been verified, the parents are delivered, the certified block fetched
      && Local(cfg, s, s', r) && b in s.reps[r].core.fetched && Certified(cfg, s.ballots, QcRef(b))
      && Deliver(s.reps[r].core, b).error == NoError
      && s'.reps[r] == s.reps[r].(core := Deliver(s.reps[r].core, b).state)
      && s'.ballots == s.ballots && s'.proposed == s.proposed
    case GetProposal(r, b, mute) =>
      && Local(cfg, s, s', r) && GetProposalStep(cfg, s.reps[r], s'.reps[r], b)
      && s'.ballots == s.ballots + CastVote(r, b, s.reps[r].core, ReceiveProposal(cfg.build, s.reps[r].core, b), mute)
      && s'.proposed == s.proposed
    case ShowProposal(r, b) =>
      && Local(cfg, s, s', r) && b in s.reps[r].core.delivered
      && s'.reps[r] == s.reps[r].(hqcTail := TailOnProposal(s.reps[r].core, s.reps[r].hqcTail, b))
      && s'.ballots == s.ballots && s'.proposed == s.proposed
    case MakeProposal(r, cmds, extra, mute) =>
      && Local(cfg, s, s', r) && MakeProposalStep(cfg, s.reps[r], s'.reps[r], cmds, extra)
      && var rep := s.reps[r];
         var b := NewBlock(rep.core, rep.hqcTail, cmds, extra);
         var o := Propose(cfg.build, rep.core, rep.hqcTail, cmds, extra);
         && s'.ballots == s.ballots + CastVote(r, b, rep.core, o, mute)
         && s'.proposed == s.proposed + {b}
    case GetVote(r, v, b) =>
      && Local(cfg, s, s', r) && v in Supporters(cfg, s.ballots, b)
      && GetVoteStep(cfg, s.reps[r], s'.reps[r], v, b)
      && s'.ballots == s.ballots && s'.proposed == s.proposed
  }

  /** A run: states each reached from the one before. */
  ghost predicate IsRun(cfg: Config, run: seq<System>) {
    && |run| > 0 && run[0] == InitSystem(cfg)
    && forall i :: 0 < i < |run| ==> CanStep(cfg, run[i - 1], run[i])
  }

  ghost predicate CanStep(cfg: Config, s: System, s': System) {
    exists e :: Next(cfg, s, e, s')
  }

  // ---- the invariant ----

  /** A block whose certificate is for one of its proper ancestors. */
  predicate AncestralQc(b: Block) {
    b.Genesis? || Extends(b.parent, b.qcBlock)
  }

  ghost predicate Certs(cfg: Config, bs: set<Ballot>, st: State) {
    && (forall b :: b in st.delivered ==> Certified(cfg, bs, QcRef(b)))
    && Certified(cfg, bs, st.hqc) && Certified(cfg, bs, st.bLock)
    && CommitCertified(cfg, bs, st.bExec)
    && (forall b :: b in st.voted && b != Genesis ==> st.voted[b] <= Supporters(cfg, bs, b))
  }

  ghost predicate OwnBallots(bs: set<Ballot>, r: ReplicaId, st: State) {
    forall x :: x in bs && x.voter == r ==> Height(x.blk) <= st.vheight && Height(x.lock) <= Height(st.bLock)
  }

  ghost predicate TailOk(rep: Replica) {
    rep.hqcTail in rep.core.delivered && Extends(rep.hqcTail, rep.core.hqc)
  }

  ghost predicate ReplicaOk(cfg: Config, bs: set<Ballot>, r: ReplicaId, rep: Replica) {
    && Shape(rep.core) && TailsExact(rep.core)
    && Certs(cfg, bs, rep.core)
    && OwnBallots(bs, r, rep.core)
    && TailOk(rep)
  }

  ghost predicate Inv(cfg: Config, s: System) {
    && |s.reps| == cfg.n
    && BallotsOk(cfg, s.ballots)
    && (forall r: ReplicaId :: Correct(cfg, r) ==> ReplicaOk(cfg, s.ballots, r, s.reps[r]))
    && (forall r: ReplicaId :: Correct(cfg, r) ==> s.reps[r].core.fetched <= s.proposed + s.injected + {Genesis})
    && (forall b :: b in s.proposed ==> AncestralQc(b))
    && (forall x :: x in s.ballots && Correct(cfg, x.voter) ==> x.blk in s.proposed + s.injected)
  }
}
