/** Agreement in every run, and what it needs of made-up blocks in the three-step build. */
module Safety {
  import opened Chain
  import opened Core
  import opened CoreFacts
  import opened Quorums
  import opened Ballots
  import opened Protocol
  import opened Invariant

  /** What agreement needs from the blocks that faulty replicas make up: nothing in the two-step
      build; in the three-step build, certificates for proper ancestors only, which on_deliver_blk
      does not check. */
  ghost predicate Tame(cfg: Config, injected: set<Block>) {
    cfg.build.TwoStep? || forall b :: b in injected ==> AncestralQc(b)
  }

  ghost predicate Comparable(a: seq<Block>, b: seq<Block>) {
    a <= b || b <= a
  }

  lemma TameIsGrounded(cfg: Config, s: System)
    requires Inv(cfg, s) && Tame(cfg, s.injected)
    ensures AllGrounded(cfg, s.ballots)
  {
    forall x | x in s.ballots && Correct(cfg, x.voter) ensures Grounded(x) {
      assert BallotOk(cfg, s.ballots, x);
      if cfg.build.ThreeStep? {
        assert AncestralQc(x.blk);
      }
    }
  }

  lemma LogsComparable(cfg: Config, s: System, p: ReplicaId, q: ReplicaId)
    requires ValidConfig(cfg) && Inv(cfg, s) && AllGrounded(cfg, s.ballots)
    requires Correct(cfg, p) && Correct(cfg, q)
    ensures Comparable(s.reps[p].core.log, s.reps[q].core.log)
  {
    var a, b := s.reps[p].core.bExec, s.reps[q].core.bExec;
    if Height(a) <= Height(b) {
      CommittedBlocksAgree(cfg, s.ballots, a, b);
      BranchIsPrefix(b, a);
    } else {
      CommittedBlocksAgree(cfg, s.ballots, b, a);
      BranchIsPrefix(a, b);
    }
  }

  /** The throw "safety breached" cannot be reached by `update`. */
  lemma UpdateNeverBreaches(cfg: Config, bs: set<Ballot>, st: State, b: Block)
    requires ValidConfig(cfg) && BallotsOk(cfg, bs) && AllGrounded(cfg, bs)
    requires Shape(st) && Certs(cfg, bs, st) && b in st.delivered
    ensures Update(cfg.build, st, b).error == NoError
  {
    var (st2, blk) := BeforeCommit(cfg.build, st, b);
    if blk.Some? {
      CommitCandidate(cfg.build, st, b);
      BeforeCommitRaises(cfg.build, st, b);
      assert Certified(cfg, bs, QcRef(b)) && CommitChain(cfg.build, blk.value, QcRef(b));
      CommitAppends(st2, blk.value);
      if Height(blk.value) <= Height(st.bExec) {
        CommittedBlocksAgree(cfg, bs, blk.value, st.bExec);
      } else {
        CommittedBlocksAgree(cfg, bs, st.bExec, blk.value);
      }
    }
  }

  /** Neither input that calls `update` can end in "safety breached". */
  lemma SafetyNeverBreached(cfg: Config, run: seq<System>, i: nat, r: ReplicaId, b: Block, cmds: seq<Command>,
                            extra: nat)
    requires ValidConfig(cfg) && IsRun(cfg, run) && i < |run| && Tame(cfg, run[i].injected)
    requires Correct(cfg, r)
    ensures |run[i].reps| == cfg.n
    ensures ReceiveProposal(cfg.build, run[i].reps[r].core, b).error != SafetyBreached
    ensures Propose(cfg.build, run[i].reps[r].core, run[i].reps[r].hqcTail, cmds, extra).error != SafetyBreached
  {
    RunInv(cfg, run, i);
    TameIsGrounded(cfg, run[i]);
    var rep := run[i].reps[r];
    if b in rep.core.delivered {
      UpdateNeverBreaches(cfg, run[i].ballots, rep.core, b);
    }
    ProposeNeverBreaches(cfg, run[i].ballots, r, rep, cmds, extra);
  }

  lemma ProposeNeverBreaches(cfg: Config, bs: set<Ballot>, r: ReplicaId, rep: Replica, cmds: seq<Command>, extra: nat)
    requires ValidConfig(cfg) && BallotsOk(cfg, bs) && AllGrounded(cfg, bs) && ReplicaOk(cfg, bs, r, rep)
    ensures Propose(cfg.build, rep.core, rep.hqcTail, cmds, extra).error in {NoError, NotHigherThanVheight}
  {
    var b := NewBlock(rep.core, rep.hqcTail, cmds, extra);
    OwnDeliveredKeeps(cfg, bs, rep.core, rep.hqcTail, cmds, extra);
    ProposeSplits(cfg.build, rep.core, rep.hqcTail, cmds, extra);
    UpdateNeverBreaches(cfg, bs, FetchAndDeliver(rep.core, b), b);
  }

  lemma {:induction false} RunGrows(cfg: Config, run: seq<System>, i: nat, j: nat)
    requires ValidConfig(cfg) && IsRun(cfg, run) && i <= j < |run|
    ensures Grows(cfg, run[i], run[j])
    decreases j
  {
    hide Grows, Inv, CanStep;
    if i < j {
      RunGrows(cfg, run, i, j - 1);
      StepGrows(cfg, run, j);
      GrowsTransitive(cfg, run[i], run[j - 1], run[j]);
    } else {
      RunInv(cfg, run, j);
      StandGrows(cfg, run[j]);
    }
  }

  lemma StepGrows(cfg: Config, run: seq<System>, j: nat)
    requires ValidConfig(cfg) && IsRun(cfg, run) && 0 < j < |run|
    ensures Grows(cfg, run[j - 1], run[j])
  {
    hide Grows, Inv, Next;
    RunInv(cfg, run, j - 1);
    assert CanStep(cfg, run[j - 1], run[j]);
    var e :| Next(cfg, run[j - 1], e, run[j]);
    StepKeepsInv(cfg, run[j - 1], e, run[j]);
  }

  lemma StandGrows(cfg: Config, s: System)
    requires Inv(cfg, s)
    ensures Grows(cfg, s, s)
  {
  }

  lemma GrowsTransitive(cfg: Config, a: System, b: System, c: System)
    requires Grows(cfg, a, b) && Grows(cfg, b, c)
    ensures Grows(cfg, a, c)
  {
    forall r: ReplicaId | Correct(cfg, r) ensures a.reps[r].core.log <= c.reps[r].core.log {
      assert a.reps[r].core.log <= b.reps[r].core.log <= c.reps[r].core.log;
    }
  }

  /** Agreement: what any two correct replicas have committed at any two moments of a run are prefixes
      of one sequence, provided every vote of a correct replica was for a block that extends its lock
      or the certified block it cites. */
  lemma GroundedAgreement(cfg: Config, run: seq<System>, i: nat, p: ReplicaId, j: nat, q: ReplicaId)
    requires ValidConfig(cfg) && IsRun(cfg, run) && AllGrounded(cfg, run[|run| - 1].ballots)
    requires i < |run| && j < |run| && Correct(cfg, p) && Correct(cfg, q)
    ensures |run[i].reps| == |run[j].reps| == cfg.n
    ensures Comparable(run[i].reps[p].core.log, run[j].reps[q].core.log)
  {
    var k := |run| - 1;
    RunGrows(cfg, run, i, k);
    RunGrows(cfg, run, j, k);
    RunInv(cfg, run, k);
    LogsComparable(cfg, run[k], p, q);
  }

  /** So agreement holds in every run of the two-step build, and in every run of the three-step build
      in which the blocks made up by faulty replicas cite proper ancestors. */
  lemma Agreement(cfg: Config, run: seq<System>, i: nat, p: ReplicaId, j: nat, q: ReplicaId)
    requires ValidConfig(cfg) && IsRun(cfg, run) && Tame(cfg, run[|run| - 1].injected)
    requires i < |run| && j < |run| && Correct(cfg, p) && Correct(cfg, q)
    ensures |run[i].reps| == |run[j].reps| == cfg.n
    ensures Comparable(run[i].reps[p].core.log, run[j].reps[q].core.log)
  {
    RunInv(cfg, run, |run| - 1);
    TameIsGrounded(cfg, run[|run| - 1]);
    GroundedAgreement(cfg, run, i, p, j, q);
  }
}
