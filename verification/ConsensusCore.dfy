/** HotStuffCore itself: the mutable replica and its loops.  Each method is proved to compute the
    state change defined in Core, so everything proved about runs holds of it. */
module ConsensusCore {
  import opened Chain
  import opened Core
  import opened CoreFacts
  import opened Invariant
  import opened CommitLog

  class HotStuffCore {
    const id: ReplicaId
    const build: Build
    const nmajority: nat

    var hqc: Block
    var bLock: Block
    var bExec: Block
    var vheight: nat
    var fetched: set<Block>
    var delivered: set<Block>
    var tails: set<Block>
    var decided: set<Block>
    var voted: map<Block, set<ReplicaId>>
    var voteDisabled: bool
    // what has been handed to do_consensus and to do_decide
    var log: seq<Block>
    var decisions: seq<Finality>

    ghost function View(): State
      reads this
    {
      State(hqc, bLock, bExec, vheight, fetched, delivered, tails, decided, voted, log)
    }

    ghost predicate Valid()
      reads this
    {
      Shape(View()) && decisions == Report(id, log)
    }

    constructor (id: ReplicaId, build: Build, n: nat, nmajority: nat)
      ensures this.id == id && this.build == build && this.nmajority == nmajority
      ensures Valid() && TailsExact(View()) && View() == InitState(n) && !voteDisabled
      ensures hqc == bLock == bExec == Genesis && vheight == 0 && log == []
      ensures fetched == delivered == tails == decided == {Genesis} && voted == map[Genesis := Everyone(n)]
    {
      this.id, this.build, this.nmajority := id, build, nmajority;
      hqc, bLock, bExec, vheight := Genesis, Genesis, Genesis, 0;
      fetched, delivered, tails, decided := {Genesis}, {Genesis}, {Genesis}, {Genesis};
      voted := map[Genesis := Everyone(n)];
      voteDisabled := false;
      log, decisions := [], [];
    }

    /** The height field, 0 until the block is delivered. */
    function HeightOf(b: Block): nat
      reads this`delivered
    {
      if b in delivered then Height(b) else 0
    }

    method UpdateHqc(b: Block) returns (raised: bool)
      modifies this`hqc
      ensures View() == Core.UpdateHqc(old(View()), b)
      ensures raised <==> hqc != old(hqc)
    {
      raised := HeightOf(b) > Height(hqc);
      if raised {
        hqc := b;
      }
    }

    /** The first commit loop: queue up the blocks above b_exec, youngest first. */
    method CollectQueue(blk: Block) returns (queue: seq<Block>, b: Block)
      ensures b == WalkDown(blk, Height(bExec))
      ensures b == bExec ==> Reversed(queue) == Above(blk, Height(bExec))
    {
      queue, b := [], blk;
      while Height(b) > Height(bExec)
        invariant WalkDown(b, Height(bExec)) == WalkDown(blk, Height(bExec))
        invariant Height(b) <= Height(blk)
        invariant Branch(b) + Reversed(queue) == Branch(blk)
        decreases Height(b)
      {
        ReversedSnoc(queue, b);
        assert Branch(b.parent) + ([b] + Reversed(queue)) == Branch(b) + Reversed(queue);
        queue := queue + [b];
        b := b.parent;
      }
    }

    /** The second commit loop: decide the queued blocks, oldest first. */
    method DecideQueue(queue: seq<Block>)
      requires decisions == Report(id, log)
      requires forall k :: 0 <= k < |queue| ==> queue[k].Node?
      modifies this`decided, this`log, this`decisions
      ensures log == old(log) + Reversed(queue)
      ensures decided == old(decided) + Members(Reversed(queue))
      ensures decisions == Report(id, log)
    {
      var i := |queue|;
      while i > 0
        invariant 0 <= i <= |queue|
        invariant log == old(log) + Reversed(queue[i..])
        invariant decided == old(decided) + Members(Reversed(queue[i..]))
        invariant decisions == Report(id, log)
      {
        i := i - 1;
        assert queue[i..][1..] == queue[i + 1..];
        MembersSnoc(Reversed(queue[i + 1..]), queue[i]);
        Decide(queue[i]);
      }
      assert queue[0..] == queue;
    }

    method Decide(c: Block)
      requires c.Node? && decisions == Report(id, log)
      modifies this`decided, this`log, this`decisions
      ensures log == old(log) + [c] && decided == old(decided) + {c}
      ensures decisions == Report(id, log)
    {
      decided := decided + {c};
      ReportSnoc(id, log, c);
      log := log + [c];
      DecideAll(c);
    }

    method CommitUpTo(blk: Block) returns (err: Error)
      requires Valid() && blk in delivered && Height(blk) <= Height(bLock)
      modifies this`decided, this`log, this`decisions, this`bExec
      ensures Outcome(View(), err) == Commit(old(View()), blk)
      ensures Valid()
    {
      hide Shape, Report, Above, Reversed, Members;
      ghost var o := Commit(View(), blk);
      CommitAppends(View(), blk);
      var queue, b := CollectQueue(blk);
      if b != bExec {
        return SafetyBreached;
      }
      forall k | 0 <= k < |queue| ensures queue[k].Node? {
        QueueIsAboveGenesis(blk, Height(bExec), queue, k);
      }
      DecideQueue(queue);
      bExec := blk;
      assert View() == o.state;
      return NoError;
    }

    /** One do_decide call per command of the block. */
    method DecideAll(c: Block)
      requires c.Node?
      modifies this`decisions
      ensures decisions == old(decisions) + BlockReport(id, c)
    {
      for k := 0 to |c.cmds|
        invariant decisions == old(decisions) + BlockReport(id, c)[..k]
      {
        decisions := decisions + [Finality(id, 1, k, Height(c), c.cmds[k], c)];
        assert BlockReport(id, c)[..k + 1] == BlockReport(id, c)[..k] + [FinalityOf(id, c, k)];
      }
      assert BlockReport(id, c)[..|c.cmds|] == BlockReport(id, c);
    }

    method RaiseLock(b: Block)
      modifies this`bLock
      ensures View() == Core.RaiseLock(old(View()), b)
    {
      if HeightOf(b) > Height(bLock) {
        bLock := b;
      }
    }

    /** The tests of `update` in the three-step build.  That genesis is decided from the start is
        what makes parents[0] exist on every block they look at. */
    method TestThreeStep(nblk: Block) returns (blk: Option<Block>, hqcRaised: bool)
      requires Valid()
      modifies this`hqc, this`bLock
      ensures (View(), blk) == BeforeCommit(ThreeStep, old(View()), nblk)
      ensures hqcRaised <==> hqc != old(hqc)
      ensures Valid()
    {
      BeforeCommitRaises(ThreeStep, View(), nblk);
      ExtendsGenesis(bExec);
      var blk2 := QcRef(nblk);
      if blk2 in decided { return None, false; }
      hqcRaised := UpdateHqc(blk2);
      if blk2 !in delivered { return None, hqcRaised; }
      var blk1 := QcRef(blk2);
      if blk1 in decided { return None, hqcRaised; }
      RaiseLock(blk1);
      if blk1 !in delivered { return None, hqcRaised; }
      var b := QcRef(blk1);
      if b in decided || blk2.parent != blk1 || blk1.parent != b { return None, hqcRaised; }
      return Some(b), hqcRaised;
    }

    /** The tests of `update` in the two-step build. */
    method TestTwoStep(nblk: Block) returns (blk: Option<Block>, hqcRaised: bool)
      requires Valid()
      modifies this`hqc, this`bLock
      ensures (View(), blk) == BeforeCommit(TwoStep, old(View()), nblk)
      ensures hqcRaised <==> hqc != old(hqc)
      ensures Valid()
    {
      BeforeCommitRaises(TwoStep, View(), nblk);
      ExtendsGenesis(bExec);
      var blk1 := QcRef(nblk);
      if blk1 in decided { return None, false; }
      hqcRaised := UpdateHqc(blk1);
      RaiseLock(blk1);
      if blk1 !in delivered { return None, hqcRaised; }
      var b := QcRef(blk1);
      if b in decided || blk1.parent != b { return None, hqcRaised; }
      return Some(b), hqcRaised;
    }

    method Update(nblk: Block) returns (err: Error, hqcRaised: bool)
      requires Valid() && nblk in delivered
      modifies this`hqc, this`bLock, this`bExec, this`decided, this`log, this`decisions
      ensures Outcome(View(), err) == Core.Update(build, old(View()), nblk)
      ensures hqcRaised <==> hqc != old(hqc)
      ensures Valid()
    {
      if BeforeCommit(build, View(), nblk).1.Some? {
        CommitCandidate(build, View(), nblk);
      }
      var blk;
      match build {
        case ThreeStep => blk, hqcRaised := TestThreeStep(nblk);
        case TwoStep => blk, hqcRaised := TestTwoStep(nblk);
      }
      if blk.None? { return NoError, hqcRaised; }
      err := CommitUpTo(blk.value);
    }

    /** on_deliver_blk: true if the block was delivered now, false if it already was. */
    method OnDeliverBlk(blk: Block) returns (isNew: bool, err: Error)
      requires Valid()
      modifies this`fetched, this`delivered, this`tails
      ensures Outcome(View(), err) == Core.Deliver(old(View()), blk)
      ensures isNew <==> blk !in old(delivered) && err == NoError
      ensures delivered == if isNew then old(delivered) + {blk} else old(delivered)
      ensures fetched == if isNew then old(fetched) + {blk} else old(fetched)
      ensures var ready := forall p :: p in Parents(blk) ==> p in old(delivered);
              err == if blk in old(delivered) || (ready && QcRef(blk) in old(fetched)) then NoError
                     else if ready then QcNotFetched else NotDelivered
      ensures Valid()
      ensures old(TailsExact(View())) ==> TailsExact(View())
    {
      hide Shape, TailsExact, Report;
      DeliverKeepsShape(View(), blk);
      if TailsExact(View()) {
        DeliverKeepsTails(View(), blk);
      }
      if blk in delivered { return false, NoError; }
      if exists p | p in Parents(blk) :: p !in delivered { return false, NotDelivered; }
      if QcRef(blk) !in fetched { return false, QcNotFetched; }
      tails := tails - Members(Parents(blk)) + {blk};
      fetched := fetched + {blk};
      delivered := delivered + {blk};
      return true, NoError;
    }

    /** The walk that looks for b_lock below a block. */
    method ExtendsLock(from: Block) returns (onBranch: bool)
      ensures onBranch <==> Extends(from, bLock)
    {
      WalkFindsAncestor(from, bLock);
      var b := from;
      while Height(b) > Height(bLock)
        invariant WalkDown(b, Height(bLock)) == WalkDown(from, Height(bLock))
        decreases Height(b)
      {
        b := b.parent;
      }
      onBranch := b == bLock;
    }

    /** The "liveness condition" or the "safety condition" holds: the block cites a delivered block higher than
        b_lock, or it extends b_lock. */
    predicate Acceptable(b: Block)
      reads this`delivered, this`bLock
    {
      (QcRef(b) in delivered && Height(QcRef(b)) > Height(bLock)) || Extends(b, bLock)
    }

    /** The decision to vote; true when vheight was raised. */
    method FormOpinion(bnew: Block) returns (opinion: bool)
      requires Valid()
      modifies this`vheight
      ensures View() == RecordVote(old(View()), bnew)
      ensures opinion <==> Height(bnew) > old(vheight) && Acceptable(bnew)
      ensures vheight == if opinion then Height(bnew) else old(vheight)
      ensures Valid()
    {
      opinion := false;
      if Height(bnew) > vheight {
        if HeightOf(QcRef(bnew)) > Height(bLock) {
          opinion := true;  // liveness condition
          vheight := Height(bnew);
        } else {
          var onBranch := ExtendsLock(bnew);  // safety condition
          if onBranch {
            opinion := true;
            vheight := Height(bnew);
          }
        }
      }
    }

    /** on_receive_proposal for another replica's proposal; `vote` says that do_vote is called, and `qc`
        is the block that on_qc_finish is called for, before do_vote. */
    method OnReceiveProposal(bnew: Block) returns (err: Error, vote: bool, hqcRaised: bool, qc: Option<Block>)
      requires Valid()
      modifies this`hqc, this`bLock, this`bExec, this`decided, this`log, this`decisions, this`vheight
      ensures Outcome(View(), err) == ReceiveProposal(build, old(View()), bnew)
      ensures bnew !in old(delivered) ==> err == NotDelivered && View() == old(View())
      ensures bnew in old(delivered) ==> err in {NoError, SafetyBreached}
      ensures err == NoError ==>
                vheight == if Height(bnew) > old(vheight) && Acceptable(bnew) then Height(bnew) else old(vheight)
      ensures vote <==> err == NoError && vheight != old(vheight) && !voteDisabled
      ensures hqcRaised <==> hqc != old(hqc)
      ensures qc == if err == NoError then Some(QcRef(bnew)) else None
      ensures Valid()
    {
      vote, qc := false, None;
      if bnew !in delivered { return NotDelivered, false, false, None; }
      UpdateKeepsShape(build, View(), bnew);
      err, hqcRaised := Update(bnew);
      if err != NoError { return; }
      var opinion := FormOpinion(bnew);
      qc := Some(QcRef(bnew));
      vote := opinion && !voteDisabled;
    }

    /** The first half of on_propose: build the block and deliver it to oneself. */
    method DeliverNewBlock(cmds: seq<Command>, parents: seq<Block>, extra: nat) returns (bnew: Block, err: Error)
      requires Valid() && parents != []
      modifies this`fetched, this`delivered, this`tails
      ensures bnew == Node(parents[0], parents[1..], old(hqc), cmds, extra)
      ensures Outcome(View(), err) ==
              Core.Deliver(old(View()).(tails := old(tails) - Members(parents), fetched := old(fetched) + {bnew}), bnew)
      ensures err == NoError ==> bnew in delivered
      ensures err == if forall p :: p in parents ==> p in old(delivered) then NoError else NotDelivered
      ensures vheight == old(vheight)
      ensures Valid()
      ensures old(TailsExact(View())) && (forall p :: p in parents ==> p in old(delivered)) ==> TailsExact(View())
    {
      ghost var st := View();
      NewBlockKeeps(st, parents, cmds, extra);
      tails := tails - Members(parents);
      bnew := Node(parents[0], parents[1..], hqc, cmds, extra);
      fetched := fetched + {bnew};
      var isNew;
      isNew, err := OnDeliverBlk(bnew);
    }

    /** on_propose: deliver the new block, `update` with it and receive it as its own proposal.
        The block is broadcast when no exception ends the call. */
    method OnPropose(cmds: seq<Command>, parents: seq<Block>, extra: nat)
      returns (bnew: Block, err: Error, vote: bool)
      requires Valid()
      modifies this`hqc, this`bLock, this`bExec, this`decided, this`log, this`decisions, this`vheight,
               this`fetched, this`delivered, this`tails
      ensures Outcome(View(), err) == ProposeOn(build, old(View()), parents, cmds, extra)
      ensures parents != [] ==> bnew == Node(parents[0], parents[1..], old(hqc), cmds, extra)
      ensures parents == [] ==> err == EmptyParents && View() == old(View())
      ensures err == NoError ==> Height(bnew) > old(vheight) && bnew in delivered
      ensures err == NoError ==> vheight == if Acceptable(bnew) then Height(bnew) else old(vheight)
      ensures err == NotHigherThanVheight ==> Height(bnew) <= old(vheight) == vheight
      ensures err == NotDelivered ==> exists p :: p in parents && p !in old(delivered)
      ensures (forall p :: p in parents ==> p in old(delivered)) && parents != [] ==>
                err in {NoError, SafetyBreached, NotHigherThanVheight}
      ensures vote <==> err == NoError && vheight != old(vheight) && !voteDisabled
      ensures Valid()
      ensures old(TailsExact(View())) && (forall p :: p in parents ==> p in old(delivered)) ==> TailsExact(View())
    {
      bnew, vote := Genesis, false;
      if parents == [] { return Genesis, EmptyParents, false; }
      bnew, err := DeliverNewBlock(cmds, parents, extra);
      if err != NoError { return; }
      err, vote := ReceiveOwn(bnew);
    }

    /** The second half of on_propose. */
    method ReceiveOwn(bnew: Block) returns (err: Error, vote: bool)
      requires Valid() && bnew in delivered
      modifies this`hqc, this`bLock, this`bExec, this`decided, this`log, this`decisions, this`vheight
      ensures Outcome(View(), err) == SelfReceive(Core.Update(build, old(View()), bnew), bnew)
      ensures err == NoError ==>
                Height(bnew) > old(vheight) && vheight == if Acceptable(bnew) then Height(bnew) else old(vheight)
      ensures err == NotHigherThanVheight ==> Height(bnew) <= old(vheight) == vheight
      ensures err in {NoError, SafetyBreached, NotHigherThanVheight} && delivered == old(delivered)
      ensures vote <==> err == NoError && vheight != old(vheight) && !voteDisabled
      ensures Valid()
    {
      vote := false;
      UpdateKeepsShape(build, View(), bnew);
      var hqcRaised;
      err, hqcRaised := Update(bnew);
      if err != NoError { return; }
      if Height(bnew) <= vheight { return NotHigherThanVheight, false; }
      var opinion := FormOpinion(bnew);
      vote := opinion && !voteDisabled;
    }

    /** on_receive_vote; `finished` says that on_qc_finish is called for the block. */
    method OnReceiveVote(voter: ReplicaId, blk: Block) returns (err: Error, finished: bool, hqcRaised: bool)
      requires Valid()
      modifies this`voted, this`hqc
      ensures Outcome(View(), err) == ReceiveVote(old(View()), nmajority, voter, blk)
      ensures finished <==>
                && voter !in VotedFor(old(View()), blk) && voter in VotedFor(View(), blk)
                && |VotedFor(View(), blk)| == nmajority
      ensures err == if blk in delivered then NoError else NotDelivered
      ensures voter in VotedFor(View(), blk) <==>
                voter in old(VotedFor(View(), blk)) || (blk in delivered && |old(VotedFor(View(), blk))| < nmajority)
      ensures hqc == if finished && Height(blk) > Height(old(hqc)) then blk else old(hqc)
      ensures hqcRaised <==> hqc != old(hqc)
      ensures Valid()
    {
      finished, hqcRaised := false, false;
      if blk !in delivered { return NotDelivered, false, false; }
      var votes := if blk in voted then voted[blk] else {};
      if |votes| >= nmajority { return NoError, false, false; }
      if voter in votes { return NoError, false, false; }
      voted := voted[blk := votes + {voter}];
      if |votes| + 1 == nmajority {
        hqcRaised := UpdateHqc(blk);
        finished := true;
      }
      return NoError, finished, hqcRaised;
    }
  }

  lemma NewBlockKeeps(st: State, parents: seq<Block>, cmds: seq<Command>, extra: nat)
    requires Shape(st) && parents != []
    ensures var b := NewBlockOn(st, parents, cmds, extra);
            var st0 := st.(tails := st.tails - Members(parents), fetched := st.fetched + {b});
            && Shape(st0)
            && (TailsExact(st) && (forall p :: p in parents ==> p in st.delivered) ==>
                  TailsExact(Deliver(st0, b).state))
  {
    var b := NewBlockOn(st, parents, cmds, extra);
    if TailsExact(st) && (forall p :: p in parents ==> p in st.delivered) {
      OwnDelivery(st, parents, cmds, extra);
      DeliverKeepsTails(st.(fetched := st.fetched + {b}), b);
    }
  }

  lemma QueueIsAboveGenesis(blk: Block, h: nat, queue: seq<Block>, k: nat)
    requires Reversed(queue) == Above(blk, h) && k < |queue|
    ensures queue[k].Node?
  {
    ReversedMirrors(queue, k);
    BranchIsLinked(blk, h + |queue| - 1 - k);
  }

  lemma {:induction false} ReversedMirrors(bs: seq<Block>, k: nat)
    requires k < |bs|
    ensures Reversed(bs)[|bs| - 1 - k] == bs[k]
  {
    if k > 0 {
      ReversedMirrors(bs[1..], k - 1);
    }
  }
}
