/** PMHighTail: which block a proposer builds on. */
module HighTail {
  import opened Chain
  import opened Core
  import opened CoreFacts
  import opened Quorums
  import opened Ballots
  import opened Protocol
  import opened Invariant
  import opened Runs

  class PMHighTail {
    var hqcTail: Block

    constructor ()
      ensures hqcTail == Genesis
    {
      hqcTail := Genesis;
    }

    method CheckAncestry(a: Block, from: Block) returns (r: bool)
      ensures r <==> Extends(from, a)
    {
      WalkFindsAncestor(from, a);
      var b := from;
      while Height(b) > Height(a)
        invariant WalkDown(b, Height(a)) == WalkDown(from, Height(a))
        decreases Height(b)
      {
        b := b.parent;
      }
      r := b == a;
    }

    /** The callback of reg_hqc_update, over the tails in any order. */
    method OnHqcUpdate(hqc: Block, tails: set<Block>)
      modifies this
      ensures forall st: State :: st.hqc == hqc && st.tails == tails ==> HighestTail(st, hqcTail)
    {
      hqcTail := hqc;
      var rest := tails;
      while rest != {}
        invariant rest <= tails
        invariant hqcTail == hqc || (hqcTail in tails && Extends(hqcTail, hqc))
        invariant forall x :: x in tails - rest && Extends(x, hqc) ==> Height(x) <= Height(hqcTail)
        decreases rest
      {
        var tail :| tail in rest;
        rest := rest - {tail};
        var onBranch := CheckAncestry(hqc, tail);
        if onBranch && Height(tail) > Height(hqcTail) {
          hqcTail := tail;
        }
      }
    }

    /** The callback of reg_proposal. */
    method OnProposal(blk: Block)
      modifies this
      ensures hqcTail == blk
    {
      hqcTail := blk;
    }

    /** The callback of reg_receive_proposal. */
    method OnReceiveProposal(hqc: Block, blk: Block)
      modifies this
      ensures forall st: State :: st.hqc == hqc ==> hqcTail == TailOnProposal(st, old(hqcTail), blk)
      ensures hqcTail == if Extends(blk, hqc) && Height(blk) > Height(old(hqcTail)) then blk else old(hqcTail)
      ensures Extends(blk, hqc) ==> Height(hqcTail) >= Height(blk)
    {
      var onBranch := CheckAncestry(hqc, blk);
      if onBranch && Height(blk) > Height(hqcTail) {
        hqcTail := blk;
      }
    }

    method GetParents() returns (parents: seq<Block>)
      ensures parents == [hqcTail]
    {
      parents := [hqcTail];
    }
  }

  /** Every block a correct replica proposes, in any run and whatever the faulty ones do, cites one
      of its own proper ancestors. */
  lemma ProposersCiteAncestors(cfg: Config, run: seq<System>, i: nat, b: Block)
    requires ValidConfig(cfg) && IsRun(cfg, run) && i < |run| && b in run[i].proposed
    ensures b.Node? && Extends(b, QcRef(b)) && Height(QcRef(b)) < Height(b)
  {
    RunInv(cfg, run, i);
    ProposedHaveOneParent(cfg, run, i);
    assert AncestralQc(b);
    ExtendsHeight(b.parent, b.qcBlock);
  }

  ghost predicate SingleParent(bs: set<Block>) {
    forall b :: b in bs ==> b.Node? && b.uncles == []
  }

  lemma {:induction false} ProposedHaveOneParent(cfg: Config, run: seq<System>, i: nat)
    requires IsRun(cfg, run) && i < |run|
    ensures SingleParent(run[i].proposed)
  {
    if i > 0 {
      ProposedHaveOneParent(cfg, run, i - 1);
      assert CanStep(cfg, run[i - 1], run[i]);
      StepProposes(cfg, run[i - 1], run[i]);
    }
  }

  lemma StepProposes(cfg: Config, s: System, s': System)
    requires CanStep(cfg, s, s') && SingleParent(s.proposed)
    ensures SingleParent(s'.proposed)
  {
    var e :| Next(cfg, s, e, s');
    match e
    case Inject(b) =>
    case FaultyVote(v, b) =>
    case Fetch(q, b) =>
    case DeliverBlock(q, b) =>
    case GetProposal(q, b, mute) =>
    case ShowProposal(q, b) =>
    case MakeProposal(q, cmds, extra, mute) =>
      assert s'.proposed == s.proposed + {NewBlock(s.reps[q].core, s.reps[q].hqcTail, cmds, extra)};
    case GetVote(q, v, b) =>
  }

  /** In every run hqc_tail extends hqc, so the next block will cite an ancestor as well. */
  lemma TailExtendsHqc(cfg: Config, run: seq<System>, i: nat, r: ReplicaId)
    requires ValidConfig(cfg) && IsRun(cfg, run) && i < |run| && Correct(cfg, r)
    ensures |run[i].reps| == cfg.n
    ensures var rep := run[i].reps[r];
            && Extends(rep.hqcTail, rep.core.hqc) && rep.hqcTail in rep.core.delivered
            && forall cmds, extra :: AncestralQc(NewBlock(rep.core, rep.hqcTail, cmds, extra))
  {
    RunInv(cfg, run, i);
  }

  // ---- what is built on ----

  /** In the step from s to s' the parent selection of r gets to see b: in a proposal received, or because r
      proposes it. */
  ghost predicate Shown(cfg: Config, s: System, s': System, r: ReplicaId, b: Block)
    requires r < |s.reps|
  {
    || Next(cfg, s, ShowProposal(r, b), s')
    || exists cmds, extra, mute ::
         && Next(cfg, s, MakeProposal(r, cmds, extra, mute), s')
         && b == NewBlock(s.reps[r].core, s.reps[r].hqcTail, cmds, extra)
         && Propose(cfg.build, s.reps[r].core, s.reps[r].hqcTail, cmds, extra).error == NoError
  }

  lemma ShownIsReached(cfg: Config, s: System, s': System, r: ReplicaId, b: Block)
    requires Inv(cfg, s) && Correct(cfg, r) && Shown(cfg, s, s', r, b) && Extends(b, s.reps[r].core.hqc)
    ensures |s'.reps| == cfg.n && Height(s'.reps[r].hqcTail) >= Height(b)
  {
    hide Update, Deliver, ReceiveProposal, ReceiveVote, Propose, Inv;
  }

  /** As long as hqc stays, hqc_tail does not go down. */
  lemma StepKeepsTail(cfg: Config, s: System, s': System, r: ReplicaId)
    requires Inv(cfg, s) && CanStep(cfg, s, s') && Correct(cfg, r) && |s'.reps| == cfg.n
    requires s'.reps[r].core.hqc == s.reps[r].core.hqc
    ensures Height(s'.reps[r].hqcTail) >= Height(s.reps[r].hqcTail)
  {
    hide Update, Deliver, ReceiveProposal, ReceiveVote, Propose, Inv;
    assert |s.reps| == cfg.n by {
      assert Inv(cfg, s);
    }
    var e :| Next(cfg, s, e, s');
    match e
    case Inject(b) =>
    case FaultyVote(v, b) =>
    case Fetch(q, b) =>
    case DeliverBlock(q, b) =>
    case GetProposal(q, b, mute) =>
    case ShowProposal(q, b) =>
    case MakeProposal(q, cmds, extra, mute) =>
      assert Height(NewBlock(s.reps[q].core, s.reps[q].hqcTail, cmds, extra)) == Height(s.reps[q].hqcTail) + 1;
    case GetVote(q, v, b) =>
  }

  /** In every run: from the step in which a replica gets to see a block that extends its hqc until hqc is
      updated, hqc_tail is at least as high as that block, and the next block it makes is higher. */
  lemma {:induction false} SeenIsBuiltOn(cfg: Config, run: seq<System>, i: nat, j: nat, r: ReplicaId, b: Block)
    requires ValidConfig(cfg) && IsRun(cfg, run) && 0 < i <= j < |run| && Correct(cfg, r)
    requires (forall k :: 0 <= k < |run| ==> |run[k].reps| == cfg.n) && Shown(cfg, run[i - 1], run[i], r, b)
    requires forall k :: i - 1 <= k <= j ==> run[k].reps[r].core.hqc == run[i].reps[r].core.hqc
    requires Extends(b, run[i].reps[r].core.hqc)
    ensures var rep := run[j].reps[r];
            && Height(rep.hqcTail) >= Height(b)
            && forall cmds, extra :: Height(NewBlock(rep.core, rep.hqcTail, cmds, extra)) > Height(b)
    decreases j
  {
    hide Inv, Next, Shown;
    RunInv(cfg, run, j - 1);
    if j == i {
      ShownIsReached(cfg, run[i - 1], run[i], r, b);
    } else {
      SeenIsBuiltOn(cfg, run, i, j - 1, r, b);
      assert CanStep(cfg, run[j - 1], run[j]);
      StepKeepsTail(cfg, run[j - 1], run[j], r);
    }
  }

  // ---- how good the choice is ----

  /** t is a highest of the delivered blocks that extend a. */
  ghost predicate HighestOn(delivered: set<Block>, a: Block, t: Block) {
    && t in delivered && Extends(t, a)
    && forall x :: x in delivered && Extends(x, a) ==> Height(x) <= Height(t)
  }

  lemma HighestExists(delivered: set<Block>, a: Block) returns (t: Block)
    requires a in delivered
    ensures HighestOn(delivered, a, t)
  {
    t := a;
    var rest := delivered;
    while rest != {}
      invariant rest <= delivered && t in delivered && Extends(t, a)
      invariant forall x :: x in delivered - rest && Extends(x, a) ==> Height(x) <= Height(t)
      decreases rest
    {
      var x :| x in rest;
      if Extends(x, a) && Height(x) > Height(t) {
        t := x;
      }
      rest := rest - {x};
    }
  }

  ghost predicate IsUncle(delivered: set<Block>, m: Block) {
    exists c :: c in delivered && c.Node? && m in c.uncles
  }

  /** Some highest block on hqc's branch is hqc itself or nobody's uncle. */
  ghost predicate HighestInView(st: State) {
    exists m :: HighestOn(st.delivered, st.hqc, m) && (m == st.hqc || !IsUncle(st.delivered, m))
  }

  /** When hqc is updated, the chosen tail is as high as any delivered block that extends hqc exactly
      if uncle links do not hide all the highest of these. */
  lemma HighestTailIsOptimal(st: State, t: Block)
    requires Shape(st) && TailsExact(st) && HighestTail(st, t)
    ensures HighestOn(st.delivered, st.hqc, t) <==> HighestInView(st)
  {
    assert t in st.tails ==> IsTail(st.delivered, t);
    if HighestOn(st.delivered, st.hqc, t) && t != st.hqc {
      assert !IsUncle(st.delivered, t) by {
        forall c | c in st.delivered && c.Node? ensures t !in c.uncles {
          assert t !in Parents(c);
        }
      }
    }
    if HighestInView(st) {
      var m :| HighestOn(st.delivered, st.hqc, m) && (m == st.hqc || !IsUncle(st.delivered, m));
      if m == st.hqc {
        ExtendsHeight(t, st.hqc);
      } else {
        HighestIsTail(st, m);
      }
    }
  }

  lemma HighestIsTail(st: State, m: Block)
    requires Shape(st) && TailsExact(st) && HighestOn(st.delivered, st.hqc, m) && !IsUncle(st.delivered, m)
    ensures m in st.tails
  {
    forall c | c in st.delivered && m in Parents(c) ensures false {
      ChildIsHigher(c, m, st.hqc);
    }
    assert IsTail(st.delivered, m);
  }

  lemma ChildIsHigher(c: Block, m: Block, a: Block)
    requires m in Parents(c) && (c.Node? ==> m !in c.uncles) && Extends(m, a)
    ensures Extends(c, a) && Height(c) == Height(m) + 1
  {
  }

  /** In every run: a step that updates hqc leaves in hqc_tail a highest block that extends it, exactly
      if uncle links do not hide all the highest of these. */
  lemma TailSelectionIsOptimal(cfg: Config, run: seq<System>, i: nat, r: ReplicaId)
    requires ValidConfig(cfg) && IsRun(cfg, run) && 0 < i < |run| && Correct(cfg, r)
    ensures |run[i - 1].reps| == |run[i].reps| == cfg.n
    ensures var rep := run[i].reps[r];
            rep.core.hqc != run[i - 1].reps[r].core.hqc ==>
              (HighestOn(rep.core.delivered, rep.core.hqc, rep.hqcTail) <==> HighestInView(rep.core))
  {
    RunInv(cfg, run, i - 1);
    RunInv(cfg, run, i);
    var s, s' := run[i - 1], run[i];
    assert CanStep(cfg, s, s');
    var e :| Next(cfg, s, e, s');
    if s'.reps[r].core.hqc != s.reps[r].core.hqc {
      HqcMovesWithTail(cfg, s, e, s', r);
      HighestTailIsOptimal(s'.reps[r].core, s'.reps[r].hqcTail);
    }
  }

  lemma ProposeKeepsHqc(cfg: Config, bs: set<Ballot>, r: ReplicaId, rep: Replica, cmds: seq<Command>, extra: nat)
    requires ValidConfig(cfg) && BallotsOk(cfg, bs) && Correct(cfg, r) && ReplicaOk(cfg, bs, r, rep)
    ensures Propose(cfg.build, rep.core, rep.hqcTail, cmds, extra).state.hqc == rep.core.hqc
  {
    ProposeKeeps(cfg, bs, r, rep.core, rep.hqcTail, cmds, extra, false);
  }

  /** A step that moves hqc also picks a highest tail. */
  lemma HqcMovesWithTail(cfg: Config, s: System, e: Event, s': System, r: ReplicaId)
    requires ValidConfig(cfg) && Inv(cfg, s) && Next(cfg, s, e, s') && Correct(cfg, r)
    requires s'.reps[r].core.hqc != s.reps[r].core.hqc
    ensures HighestTail(s'.reps[r].core, s'.reps[r].hqcTail)
  {
    hide HighestTail, Certs, OwnBallots, BallotsOk, Update, Propose, Deliver;
    var rep := s.reps[r];
    match e
    case Inject(b) =>
    case FaultyVote(v, b) =>
    case Fetch(q, b) =>
    case DeliverBlock(q, b) => DeliverKeepsShape(rep.core, b);
    case MakeProposal(q, cmds, extra, mute) => ProposeKeepsHqc(cfg, s.ballots, r, rep, cmds, extra);
    case GetVote(q, v, b) =>
    case GetProposal(q, b, mute) =>
    case ShowProposal(q, b) =>
  }

  ghost predicate NoUncles(bs: set<Block>) {
    forall b :: b in bs && b.Node? ==> b.uncles == []
  }

  /** So the choice is the best there is as long as no block with uncles is made up; correct proposers
      make none. */
  lemma BestWithoutUncles(cfg: Config, run: seq<System>, i: nat, r: ReplicaId)
    requires ValidConfig(cfg) && IsRun(cfg, run) && 0 < i < |run| && Correct(cfg, r) && NoUncles(run[i].injected)
    ensures |run[i - 1].reps| == |run[i].reps| == cfg.n
    ensures var rep := run[i].reps[r];
            rep.core.hqc != run[i - 1].reps[r].core.hqc ==> HighestOn(rep.core.delivered, rep.core.hqc, rep.hqcTail)
  {
    TailSelectionIsOptimal(cfg, run, i, r);
    RunInv(cfg, run, i);
    ProposedHaveOneParent(cfg, run, i);
    var st := run[i].reps[r].core;
    assert st.delivered <= run[i].proposed + run[i].injected + {Genesis};
    var m := HighestExists(st.delivered, st.hqc);
    assert !IsUncle(st.delivered, m);
  }

  // ---- a block that is hidden ----

  const U1 := Node(Genesis, [], Genesis, [], 0)
  const U2 := Node(U1, [], Genesis, [], 0)
  const U3 := Node(U2, [], Genesis, [], 0)
  const V := Node(Genesis, [U3], Genesis, [], 0)
  const W := Node(U1, [], U1, [], 0)
  const UNCLES := {U1, U2, U3, V, W}

  /** The replica has delivered bs and voted for U1 only. */
  predicate Knows(st: State, bs: set<Block>, tails: set<Block>) {
    && st.hqc == Genesis && st.bLock == Genesis && st.bExec == Genesis && st.vheight == 1 && st.decided == {Genesis}
    && st.delivered == bs && st.fetched == bs && st.tails == tails
  }

  lemma KnowsMore(st: State, bs: set<Block>, tails: set<Block>, b: Block)
    requires Knows(st, bs, tails) && b.Node? && b !in bs && b.qcBlock in bs && Members(Parents(b)) <= bs
    ensures Deliverable(st, b) && Knows(FetchAndDeliver(st, b), bs + {b}, tails - Members(Parents(b)) + {b})
  {
  }

  lemma SeeU1(cfg: Config)
    ensures CanSee(cfg, InitState(cfg.n), U1)
    ensures Knows(Seen(cfg, InitState(cfg.n), U1), {Genesis, U1}, {U1})
  {
    var st := InitState(cfg.n);
    DeliverChild(st, U1);
    assert Members(Parents(U1)) == {Genesis};
    assert Extends(U1, Genesis);
  }

  lemma SeeW(cfg: Config, st: State)
    requires Knows(st, {Genesis, U1, U2, U3, V, W}, {V, W})
    ensures ReceiveProposal(cfg.build, st, W).state.hqc == U1
    ensures ReceiveProposal(cfg.build, st, W).state.delivered == st.delivered
    ensures ReceiveProposal(cfg.build, st, W).state.tails == st.tails
  {
    assert QcRef(W) == U1 && QcRef(U1) == Genesis && W in st.delivered && U1 in st.delivered;
  }

  ghost predicate UncleStage(cfg: Config, s: System, r: ReplicaId, bs: set<Block>, tails: set<Block>) {
    && Running(cfg, s) && Correct(cfg, r) && s.injected == UNCLES && Certified(cfg, s.ballots, U1)
    && Knows(s.reps[r].core, bs, tails)
  }

  lemma UncleSteps(cfg: Config, idle: ReplicaId, r: ReplicaId) returns (s: System)
    requires ValidConfig(cfg) && cfg.faulty != {} && Correct(cfg, idle) && Correct(cfg, r) && r != idle
    ensures UncleStage(cfg, s, r, {Genesis, U1, U2, U3, V, W}, {V, W})
  {
    hide UncleStage;
    s := StageU1(cfg, idle, r);
    TailSets();
    s := UncleStep(cfg, s, r, {Genesis, U1}, {U1}, U2, {Genesis, U1, U2}, {U2});
    s := UncleStep(cfg, s, r, {Genesis, U1, U2}, {U2}, U3, {Genesis, U1, U2, U3}, {U3});
    s := UncleStep(cfg, s, r, {Genesis, U1, U2, U3}, {U3}, V, {Genesis, U1, U2, U3, V}, {V});
    s := UncleStep(cfg, s, r, {Genesis, U1, U2, U3, V}, {V}, W, {Genesis, U1, U2, U3, V, W}, {V, W});
  }

  lemma StageU1(cfg: Config, idle: ReplicaId, r: ReplicaId) returns (s: System)
    requires ValidConfig(cfg) && cfg.faulty != {} && Correct(cfg, idle) && Correct(cfg, r) && r != idle
    ensures UncleStage(cfg, s, r, {Genesis, U1}, {U1})
  {
    hide Reachable, Knows, CanSee, Seen;
    Start(cfg);
    SeeU1(cfg);
    s := DoInject(cfg, InitSystem(cfg), UNCLES);
    s := Round(cfg, s, idle, U1);
    assert r in Voters(cfg, idle);
  }

  /** What delivering each block does to the sets. */
  lemma TailSets()
    ensures Delivering({Genesis, U1}, {U1}, U2, {Genesis, U1, U2}, {U2})
    ensures Delivering({Genesis, U1, U2}, {U2}, U3, {Genesis, U1, U2, U3}, {U3})
    ensures Delivering({Genesis, U1, U2, U3}, {U3}, V, {Genesis, U1, U2, U3, V}, {V})
    ensures Delivering({Genesis, U1, U2, U3, V}, {V}, W, {Genesis, U1, U2, U3, V, W}, {V, W})
  {
    assert Members(Parents(U2)) == {U1} && Members(Parents(U3)) == {U2};
    assert Members(Parents(V)) == {Genesis, U3} by {
      assert Parents(V) == [Genesis, U3];
    }
    assert Members(Parents(W)) == {U1};
  }

  ghost predicate Delivering(bs: set<Block>, tails: set<Block>, b: Block, bs': set<Block>, tails': set<Block>) {
    && b in UNCLES && b !in bs && b.qcBlock in bs && QcRef(b) in {Genesis, U1} && Members(Parents(b)) <= bs
    && bs' == bs + {b} && tails' == tails - Members(Parents(b)) + {b}
  }

  lemma UncleStep(cfg: Config, s: System, r: ReplicaId, bs: set<Block>, tails: set<Block>, b: Block,
                  bs': set<Block>, tails': set<Block>)
    returns (s': System)
    requires UncleStage(cfg, s, r, bs, tails) && Delivering(bs, tails, b, bs', tails')
    ensures UncleStage(cfg, s', r, bs', tails')
  {
    hide Reachable, Knows;
    KnowsMore(s.reps[r].core, bs, tails, b);
    s' := DoDeliver(cfg, s, r, b);
  }

  /** With a faulty replica the choice can be too low, in both builds: the last step of this run moves
      hqc to U1, and hqc_tail is W; but U3, which extends U1 as well, is higher.  It is no tail,
      because V names it as an uncle, and V does not extend U1. */
  lemma UncleHidesTail(cfg: Config, idle: ReplicaId, r: ReplicaId) returns (run: seq<System>, i: nat)
    requires ValidConfig(cfg) && cfg.faulty != {} && Correct(cfg, idle) && Correct(cfg, r) && r != idle
    ensures IsRun(cfg, run) && 0 < i < |run| && |run[i - 1].reps| == |run[i].reps| == cfg.n
    ensures var rep := run[i].reps[r];
            && rep.core.hqc != run[i - 1].reps[r].core.hqc
            && exists x :: x in rep.core.delivered && Extends(x, rep.core.hqc) && Height(x) > Height(rep.hqcTail)
  {
    var s := UncleSteps(cfg, idle, r);
    var s' := DoGet(cfg, s, r, W);
    SeeW(cfg, s.reps[r].core);
    var rest :| IsRun(cfg, rest) && rest[|rest| - 1] == s;
    Extend(cfg, rest, GetProposal(r, W, false), s');
    run, i := rest + [s'], |rest|;
    assert !Extends(V, U1);
    assert U3 in s'.reps[r].core.delivered && Extends(U3, U1) && Height(U3) == 3 && Height(W) == 2;
  }

  /** Whenever a correct replica's hqc moves, its hqc_tail is a highest block on that branch. */
  ghost predicate AlwaysBest(cfg: Config) {
    forall run: seq<System>, i: nat, r: ReplicaId |
      IsRun(cfg, run) && 0 < i < |run| && Correct(cfg, r) && Moves(cfg, run, i, r) ::
      var rep := run[i].reps[r];
      HighestOn(rep.core.delivered, rep.core.hqc, rep.hqcTail)
  }

  ghost predicate Moves(cfg: Config, run: seq<System>, i: nat, r: ReplicaId)
    requires 0 < i < |run| && r < cfg.n
  {
    |run[i - 1].reps| == |run[i].reps| == cfg.n && run[i].reps[r].core.hqc != run[i - 1].reps[r].core.hqc
  }

  /** So the choice is always the best one exactly when no replica is faulty. */
  lemma BestExactlyWithoutFaults(cfg: Config)
    requires ValidConfig(cfg)
    ensures AlwaysBest(cfg) <==> cfg.faulty == {}
  {
    if cfg.faulty == {} {
      forall run: seq<System>, i: nat, r: ReplicaId |
        IsRun(cfg, run) && 0 < i < |run| && Correct(cfg, r) && Moves(cfg, run, i, r)
        ensures HighestOn(run[i].reps[r].core.delivered, run[i].reps[r].core.hqc, run[i].reps[r].hqcTail)
      {
        NothingMadeUp(cfg, run, i);
        BestWithoutUncles(cfg, run, i, r);
      }
    } else {
      var idle, r := TwoCorrect(cfg);
      var run, i := UncleHidesTail(cfg, idle, r);
      assert Moves(cfg, run, i, r);
    }
  }
}
