/** What a replica reports to its user, and that the log behind it is the chain. */
module CommitLog {
  import opened Chain
  import opened Core
  import opened Quorums
  import opened Protocol
  import opened Invariant

  /** The Finality handed to do_decide for one command of a committed block. */
  datatype Finality = Finality(rid: ReplicaId, decision: int, cmdIdx: nat, cmdHeight: nat, cmd: Command, blk: Block)

  function FinalityOf(id: ReplicaId, b: Block, i: nat): Finality
    requires b.Node? && i < |b.cmds|
  {
    Finality(id, 1, i, Height(b), b.cmds[i], b)
  }

  function BlockReport(id: ReplicaId, b: Block): seq<Finality> {
    if b.Genesis? then [] else seq(|b.cmds|, i requires 0 <= i < |b.cmds| => FinalityOf(id, b, i))
  }

  /** The do_decide calls made while committing blks. */
  function Report(id: ReplicaId, blks: seq<Block>): seq<Finality> {
    if blks == [] then [] else Report(id, blks[..|blks| - 1]) + BlockReport(id, blks[|blks| - 1])
  }

  lemma ReportSnoc(id: ReplicaId, blks: seq<Block>, b: Block)
    ensures Report(id, blks + [b]) == Report(id, blks) + BlockReport(id, b)
  {
    assert (blks + [b])[..|blks|] == blks;
  }

  /** Reports come in order of block height, and within a block in order of command index. */
  predicate Before(f: Finality, g: Finality) {
    f.cmdHeight < g.cmdHeight || (f.cmdHeight == g.cmdHeight && f.cmdIdx < g.cmdIdx)
  }

  /** What a report says: replica `id` has decided for the command at that index of block b. */
  ghost predicate Reported(id: ReplicaId, b: Block, f: Finality) {
    && b.Node? && f.rid == id && f.decision == 1 && f.blk == b && f.cmdHeight == Height(b)
    && f.cmdIdx < |b.cmds| && f.cmd == b.cmds[f.cmdIdx]
  }

  lemma BlockReportMembers(id: ReplicaId, b: Block)
    ensures forall f :: f in BlockReport(id, b) <==> f.blk == b && Reported(id, b, f)
    ensures forall i, j :: 0 <= i < j < |BlockReport(id, b)| ==> Before(BlockReport(id, b)[i], BlockReport(id, b)[j])
  {
    forall f: Finality | f.blk == b && Reported(id, b, f) ensures f in BlockReport(id, b) {
      assert BlockReport(id, b)[f.cmdIdx] == f;
    }
  }

  lemma {:induction false} ReportMembers(id: ReplicaId, e: Block)
    ensures forall f :: f in Report(id, Branch(e)) <==> f.blk in Branch(e) && Reported(id, f.blk, f)
  {
    if e.Node? {
      ReportMembers(id, e.parent);
      ReportSnoc(id, Branch(e.parent), e);
      BlockReportMembers(id, e);
    }
  }

  lemma {:induction false} ReportInOrder(id: ReplicaId, e: Block)
    ensures forall i, j :: 0 <= i < j < |Report(id, Branch(e))| ==>
              Before(Report(id, Branch(e))[i], Report(id, Branch(e))[j])
    ensures forall f :: f in Report(id, Branch(e)) ==> f.cmdHeight <= Height(e)
  {
    if e.Node? {
      ReportInOrder(id, e.parent);
      ReportSnoc(id, Branch(e.parent), e);
      BlockReportMembers(id, e);
      var earlier, added := Report(id, Branch(e.parent)), BlockReport(id, e);
      forall i, j | 0 <= i < j < |earlier + added| ensures Before((earlier + added)[i], (earlier + added)[j]) {
        if i < |earlier| <= j {
          assert earlier[i] in earlier && added[j - |earlier|] in added;
        }
      }
    }
  }

  /** The commands of committed blocks, in order. */
  function Answers(blks: seq<Block>): seq<Command> {
    if blks == [] then []
    else Answers(blks[..|blks| - 1]) + if blks[|blks| - 1].Node? then blks[|blks| - 1].cmds else []
  }

  /** The reports answer all of these commands, one after the other, with a decision of 1. */
  lemma {:induction false} ReportsAnswer(id: ReplicaId, blks: seq<Block>)
    ensures |Report(id, blks)| == |Answers(blks)|
    ensures forall k :: 0 <= k < |Answers(blks)| ==>
              var f := Report(id, blks)[k]; f.rid == id && f.decision == 1 && f.cmd == Answers(blks)[k]
  {
    if blks != [] {
      ReportsAnswer(id, blks[..|blks| - 1]);
    }
  }

  /** In every state of every run the committed blocks are the path from genesis to b_exec, one per
      height, linked parent to child, each decided, nothing else being decided; and the reports
      made are exactly one per command of a committed block, in order, each with that command. */
  lemma CommitLogIsTheChain(cfg: Config, run: seq<System>, i: nat, r: ReplicaId)
    requires ValidConfig(cfg) && IsRun(cfg, run) && i < |run| && Correct(cfg, r)
    ensures |run[i].reps| == cfg.n
    ensures var st := run[i].reps[r].core;
            && (forall k :: 0 <= k < |st.log| ==>
                  Height(st.log[k]) == k + 1 && st.log[k].Node?
                  && st.log[k].parent == if k == 0 then Genesis else st.log[k - 1])
            && st.bExec == (if st.log == [] then Genesis else st.log[|st.log| - 1])
            && (forall b :: b in st.decided <==> b == Genesis || b in st.log)
            && (forall f :: f in Report(r, st.log) <==> f.blk in st.log && Reported(r, f.blk, f))
            && (forall a, b :: 0 <= a < b < |Report(r, st.log)| ==> Before(Report(r, st.log)[a], Report(r, st.log)[b]))
            && |Report(r, st.log)| == |Answers(st.log)|
            && (forall k :: 0 <= k < |Answers(st.log)| ==>
                  Report(r, st.log)[k].decision == 1 && Report(r, st.log)[k].cmd == Answers(st.log)[k])
  {
    RunInv(cfg, run, i);
    var st := run[i].reps[r].core;
    forall k | 0 <= k < |st.log|
      ensures Height(st.log[k]) == k + 1 && st.log[k].Node?
      ensures st.log[k].parent == if k == 0 then Genesis else st.log[k - 1]
    {
      BranchIsLinked(st.bExec, k);
    }
    forall b ensures b in st.decided <==> b == Genesis || b in st.log {
      BranchMembers(st.bExec, b);
      ExtendsGenesis(st.bExec);
    }
    ReportMembers(r, st.bExec);
    ReportInOrder(r, st.bExec);
    ReportsAnswer(r, st.log);
  }
}
