/** The client, a fixed proposer and the other replicas put together, each taking the steps that
    Confirmation, FixedLeader and Core define, and what the counters of ClosedLoop say of the whole.

    Commands reach the proposer in the order in which they are sent, blocks reach a replica in the order
    in which they are proposed, and the answers of one replica reach the client in order.  Every replica
    has the client's submission before it commits the command.
  */
module ComposedLoop {
  import opened Chain
  import opened Core
  import opened Arithmetic
  import opened Quorums
  import opened FixedLeader
  import opened LeaderChain
  import opened CommitLog
  import opened Votes
  import L = ClosedLoop
  import C = Confirmation

  datatype Whole = Whole(
    client: C.Client,
    queue: seq<Command>,      // sent, and not yet received by the proposer
    received: seq<Command>,   // taken out of the proposer's queue
    top: Block,               // the proposer's newest block
    certs: nat,               // how many of its blocks have their certificate
    cores: seq<State>,        // the replicas, the proposer being replica 0
    replied: seq<nat>)        // answers of each replica that the client has processed

  datatype Step =
    | TakeCmd(extra: nat)
    | GetQc(voters: seq<ReplicaId>, extra: nat)
    | GetBlock(r: ReplicaId)
    | GetReply(r: ReplicaId)

  function Numbers(from: nat, to: nat): seq<Command> {
    if from <= to then seq(to - from, i => from + i) else []
  }

  function Heights(cores: seq<State>): seq<nat> {
    seq(|cores|, r requires 0 <= r < |cores| => cores[r].vheight)
  }

  ghost function Start(p: L.Params): Whole {
    var c := C.SendAll(p.maxAsync, C.Client(map[], 0, p.iters, {}));
    Whole(c, Numbers(0, c.cnt), [], Genesis, 0, seq(p.n, _ => InitState(p.n)), seq(p.n, _ => 0))
  }

  // ---- the steps ----

  predicate Ready(p: L.Params, w: Whole) {
    |w.received| >= p.blkSize * (Height(w.top) + 1) && w.certs == Height(w.top)
  }

  function NextBatch(p: L.Params, w: Whole): Batch
    requires Ready(p, w)
  {
    w.received[p.blkSize * Height(w.top)..p.blkSize * (Height(w.top) + 1)]
  }

  /** What the pipeline of FixedLeader does after a command or a certificate has come in. */
  function ProposeIfReady(p: L.Params, w: Whole, extra: nat): Whole
    requires w.cores != []
  {
    if !Ready(p, w) then w
    else w.(top := NewBlock(w.cores[0], w.top, NextBatch(p, w), extra),
            cores := w.cores[0 := Propose(p.build, w.cores[0], w.top, NextBatch(p, w), extra).state])
  }

  /** A replica fetches and delivers a block and receives its proposal. */
  function Follow(build: Build, st: State, b: Block): State {
    ReceiveProposal(build, FetchAndDeliver(st, b), b).state
  }

  function WithCmd(w: Whole): Whole
    requires w.queue != []
  {
    w.(received := w.received + [w.queue[0]], queue := w.queue[1..])
  }

  /** The replicas that have voted for the newest block: each has for the blocks up to its vheight. */
  function VotersOf(w: Whole): set<ReplicaId> {
    set r: ReplicaId | r < |w.cores| && w.cores[r].vheight >= Height(w.top)
  }

  function WithQc(p: L.Params, w: Whole, voters: seq<ReplicaId>): Whole
    requires w.cores != []
  {
    w.(certs := w.certs + 1, cores := w.cores[0 := AfterVotes(w.cores[0], Majority(p.n), w.top, voters)])
  }

  /** A certificate is made of votes that have been cast, when at least nmajority replicas' have arrived.  The
      answers of a replica are its reports. */
  ghost predicate Enabled(p: L.Params, w: Whole, e: Step) {
    match e
    case TakeCmd(extra) => w.queue != []
    case GetQc(voters, extra) =>
      w.certs < Height(w.top) && Distinct(voters) <= VotersOf(w) && |Distinct(voters)| >= Majority(p.n)
    case GetBlock(r) => r < |w.cores| && w.cores[r].vheight < Height(w.top)
    case GetReply(r) => r < |w.cores| && r < |w.replied| && w.replied[r] < |Report(r, w.cores[r].log)|
  }

  ghost function Do(p: L.Params, w: Whole, e: Step): Whole
    requires Enabled(p, w, e) && w.cores != [] && C.ClientOk(w.client)
  {
    match e
    case TakeCmd(extra) => ProposeIfReady(p, WithCmd(w), extra)
    case GetQc(voters, extra) => ProposeIfReady(p, WithQc(p, w, voters), extra)
    case GetBlock(r) => w.(cores := w.cores[r := Follow(p.build, w.cores[r], Branch(w.top)[w.cores[r].vheight])])
    case GetReply(r) =>
      var f := Report(r, w.cores[r].log)[w.replied[r]];
      var c := C.OnReply(NFaulty(p.n), p.maxAsync, w.client, f.decision, f.cmd);
      w.(client := c, queue := w.queue + Numbers(w.client.cnt, c.cnt), replied := w.replied[r := w.replied[r] + 1])
  }

  // ---- the counters ----

  function Counters(w: Whole): L.Loop {
    L.Loop(w.client.iters, w.client.cnt, |w.received|, Height(w.top), w.certs == Height(w.top), Heights(w.cores),
           w.replied, |w.client.dropped|)
  }

  /** The commands of a block and all under it. */
  function CmdsOf(b: Block): seq<Command> {
    if b.Genesis? then [] else CmdsOf(b.parent) + b.cmds
  }

  predicate Full(b: Block, size: nat) {
    b.Node? ==> |b.cmds| == size && Full(b.parent, size)
  }

  ghost predicate PipeOk(p: L.Params, cnt: nat, queue: seq<Command>, received: seq<Command>, top: Block, certs: nat) {
    && received + queue == Numbers(0, cnt)
    && certs <= Height(top) <= certs + 1
    && p.blkSize * Height(top) <= |received| && CmdsOf(top) == received[..p.blkSize * Height(top)]
    && Chained(top) && Full(top, p.blkSize)
  }

  ghost predicate CoreOk(p: L.Params, st: State, top: Block) {
    st.vheight <= Height(top) && InStep(p.build, st, WalkDown(top, st.vheight))
  }

  ghost predicate CoresOk(p: L.Params, cores: seq<State>, top: Block, certs: nat) {
    && |cores| == p.n > 0
    && (forall r :: 0 <= r < p.n ==> CoreOk(p, cores[r], top))
    && cores[0].vheight == Height(top) && CompletedKnown(cores[0], Majority(p.n))
    && (if certs == Height(top) then cores[0].hqc == top else Height(cores[0].hqc) < Height(top))
  }

  ghost predicate ClientOk(p: L.Params, c: C.Client, replied: seq<nat>) {
    && C.ClientOk(c) && |c.waiting| <= p.maxAsync && c.dropped == Everyone(|c.dropped|)
    && (forall k :: k in c.waiting ==> c.waiting[k] == L.NumAbove(replied, k) <= NFaulty(p.n))
    && (forall k: nat :: k < |c.dropped| ==> L.NumAbove(replied, k) > NFaulty(p.n))
  }

  ghost predicate RepliesOk(p: L.Params, cores: seq<State>, replied: seq<nat>) {
    |replied| == |cores| && forall r :: 0 <= r < |cores| ==> replied[r] <= L.Committed(p, cores[r].vheight)
  }

  /** During a step: what is ready may not have been proposed yet. */
  ghost predicate Loose(p: L.Params, w: Whole) {
    && L.ValidParams(p)
    && PipeOk(p, w.client.cnt, w.queue, w.received, w.top, w.certs)
    && CoresOk(p, w.cores, w.top, w.certs)
    && ClientOk(p, w.client, w.replied)
    && RepliesOk(p, w.cores, w.replied)
  }

  /** Between steps. */
  ghost predicate Inv(p: L.Params, w: Whole) {
    Loose(p, w) && !Ready(p, w) && !C.MaySend(p.maxAsync, w.client)
  }

  // ---- proposing ----

  lemma WalkBelow(b: Block, v: nat)
    requires b.Node? && v <= Height(b.parent)
    ensures WalkDown(b, v) == WalkDown(b.parent, v)
  {
  }

  lemma SameCore(p: L.Params, st: State, b: Block)
    requires b.Node? && CoreOk(p, st, b.parent)
    ensures CoreOk(p, st, b)
  {
    hide InStep;
    WalkBelow(b, st.vheight);
  }

  /** The proposer, having the certificate of its last block, proposes the next one. */
  lemma ProposerMoves(p: L.Params, st: State, top: Block, batch: Batch, extra: nat)
    requires CoreOk(p, st, top) && st.vheight == Height(top) && st.hqc == top && CompletedKnown(st, Majority(p.n))
    ensures var b, st' := NewBlock(st, top, batch, extra), Propose(p.build, st, top, batch, extra).state;
            CoreOk(p, st', b) && st'.vheight == Height(b) && CompletedKnown(st', Majority(p.n)) && st'.hqc == top
  {
    ProposerStaysInStep(p.build, st, top, batch, extra);
  }

  lemma ProposeKeepsCores(p: L.Params, w: Whole, extra: nat)
    requires CoresOk(p, w.cores, w.top, w.certs) && Ready(p, w)
    ensures var w' := ProposeIfReady(p, w, extra);
            && CoresOk(p, w'.cores, w'.top, w'.certs) && w'.certs < Height(w'.top) == Height(w.top) + 1
            && Heights(w'.cores) == Heights(w.cores)[0 := Height(w.top) + 1]
            && forall r :: 0 <= r < p.n ==> w.cores[r].vheight <= w'.cores[r].vheight
  {
    hide CoreOk, CompletedKnown, Propose;
    ProposerMoves(p, w.cores[0], w.top, NextBatch(p, w), extra);
    var w' := ProposeIfReady(p, w, extra);
    forall r | 0 < r < p.n ensures CoreOk(p, w'.cores[r], w'.top) {
      SameCore(p, w.cores[r], w'.top);
    }
    HeightInRange(p, w.cores, w.top);
  }

  lemma HeightInRange(p: L.Params, cores: seq<State>, top: Block)
    requires forall r :: 0 <= r < |cores| ==> CoreOk(p, cores[r], top)
    ensures forall r :: 0 <= r < |cores| ==> cores[r].vheight <= Height(top)
  {
  }

  lemma ProposeKeepsPipe(p: L.Params, w: Whole, extra: nat)
    requires w.cores != [] && w.cores[0].hqc == w.top && Ready(p, w)
    requires PipeOk(p, w.client.cnt, w.queue, w.received, w.top, w.certs)
    ensures var w' := ProposeIfReady(p, w, extra); PipeOk(p, w'.client.cnt, w'.queue, w'.received, w'.top, w'.certs)
  {
    hide Propose, Numbers;
    MulNext(p.blkSize, Height(w.top));
    NextSlice(w.received, p.blkSize * Height(w.top), p.blkSize);
  }

  lemma NextSlice(s: seq<Command>, h: nat, n: nat)
    requires h + n <= |s|
    ensures s[..h] + s[h..h + n] == s[..h + n]
  {
  }

  lemma CommittedGrows(p: L.Params, cores: seq<State>, cores': seq<State>, replied: seq<nat>)
    requires RepliesOk(p, cores, replied) && |cores'| == |cores|
    requires forall r :: 0 <= r < |cores| ==> cores[r].vheight <= cores'[r].vheight
    ensures RepliesOk(p, cores', replied)
  {
    hide L.Committed;
    forall r | 0 <= r < |cores| ensures replied[r] <= L.Committed(p, cores'[r].vheight) {
      L.CommittedGrows(p, cores[r].vheight, cores'[r].vheight);
    }
  }

  /** Afterwards nothing is ready, and the counters have moved by the event Propose, or not at all. */
  lemma ProposeKeeps(p: L.Params, w: Whole, extra: nat)
    requires Loose(p, w)
    ensures var w' := ProposeIfReady(p, w, extra);
            && Loose(p, w') && !Ready(p, w') && w'.client == w.client
            && if Ready(p, w) then L.Enabled(p, Counters(w), L.Propose) && Counters(w') == L.Do(Counters(w), L.Propose)
               else w' == w
  {
    hide PipeOk, CoreOk, ClientOk, RepliesOk;
    if Ready(p, w) {
      ProposeKeepsCores(p, w, extra);
      ProposeKeepsPipe(p, w, extra);
      CommittedGrows(p, w.cores, ProposeIfReady(p, w, extra).cores, w.replied);
    }
  }

  // ---- the other steps ----

  lemma TakenKeeps(p: L.Params, w: Whole)
    requires Loose(p, w) && w.queue != []
    ensures Loose(p, WithCmd(w)) && L.Enabled(p, Counters(w), L.Arrive)
    ensures Counters(WithCmd(w)) == L.Do(Counters(w), L.Arrive)
  {
    hide CoresOk, ClientOk, RepliesOk;
    var h := p.blkSize * Height(w.top);
    assert WithCmd(w).received + WithCmd(w).queue == w.received + w.queue;
    assert WithCmd(w).received[..h] == w.received[..h];
  }

  lemma CertifiedCore(p: L.Params, st: State, top: Block, voters: seq<ReplicaId>)
    requires CoreOk(p, st, top) && st.vheight == Height(top) && Height(st.hqc) < Height(top)
    requires CompletedKnown(st, Majority(p.n)) && |Distinct(voters)| >= Majority(p.n) > 0
    ensures var st' := AfterVotes(st, Majority(p.n), top, voters);
            && CoreOk(p, st', top) && st'.hqc == top && CompletedKnown(st', Majority(p.n))
            && st'.vheight == st.vheight
  {
    hide CompletedKnown;
    VotesMoveOn(p.build, Majority(p.n), st, top, voters);
  }

  /** As many replicas have voted for the newest block as are counted. */
  lemma VotersCounted(w: Whole)
    requires Height(w.top) > 0
    ensures |VotersOf(w)| == L.NumAbove(Heights(w.cores), Height(w.top) - 1)
  {
    var xs := Heights(w.cores);
    CountAbove(xs, Height(w.top) - 1);
    assert VotersOf(w) == set r: ReplicaId | r < |xs| && xs[r] > Height(w.top) - 1;
  }

  lemma {:induction false} AboveSnoc(xs: seq<nat>, x: nat, v: int)
    ensures L.NumAbove(xs + [x], v) == L.NumAbove(xs, v) + if x > v then 1 else 0
  {
    if xs != [] {
      AboveSnoc(xs[1..], x, v);
      assert (xs + [x])[1..] == xs[1..] + [x];
    }
  }

  lemma {:induction false} CountAbove(xs: seq<nat>, v: int)
    ensures |set r: ReplicaId | r < |xs| && xs[r] > v| == L.NumAbove(xs, v)
  {
    var above := set r: ReplicaId | r < |xs| && xs[r] > v;
    if xs == [] {
      assert above == {};
    } else {
      var n := |xs| - 1;
      CountAbove(xs[..n], v);
      AboveSnoc(xs[..n], xs[n], v);
      assert xs == xs[..n] + [xs[n]];
      assert above == (set r: ReplicaId | r < |xs[..n]| && xs[..n][r] > v) + if xs[n] > v then {n} else {};
    }
  }

  lemma CertifiedKeeps(p: L.Params, w: Whole, voters: seq<ReplicaId>)
    requires Loose(p, w) && w.certs < Height(w.top)
    requires Distinct(voters) <= VotersOf(w) && |Distinct(voters)| >= Majority(p.n)
    ensures Loose(p, WithQc(p, w, voters)) && L.Enabled(p, Counters(w), L.Certify)
    ensures Counters(WithQc(p, w, voters)) == L.Do(Counters(w), L.Certify)
  {
    hide CoreOk, ClientOk, L.Committed, AfterVotes, CompletedKnown, VotersOf;
    VotersCounted(w);
    SubsetSize(Distinct(voters), VotersOf(w));
    CertifiedCore(p, w.cores[0], w.top, voters);
    assert Heights(WithQc(p, w, voters).cores) == Heights(w.cores);
  }

  lemma {:induction false} ChainedBelow(top: Block, b: Block)
    requires Chained(top) && Extends(top, b)
    ensures Chained(b)
  {
    if top != b {
      ChainedBelow(top.parent, b);
    }
  }

  /** The block a replica at height v needs next. */
  lemma NextBlock(top: Block, v: nat)
    requires v < Height(top) && Chained(top)
    ensures var b := Branch(top)[v];
            && b.Node? && Height(b) == v + 1 && Chained(b)
            && WalkDown(top, v) == b.parent && WalkDown(top, v + 1) == b
  {
    var b := Branch(top)[v];
    BranchIsLinked(top, v);
    ChainedBelow(top, b);
    WalkFindsAncestor(top, b);
    ExtendsTransitive(top, b, b.parent);
    WalkFindsAncestor(top, b.parent);
  }

  lemma FollowKeeps(p: L.Params, st: State, top: Block)
    requires CoreOk(p, st, top) && st.vheight < Height(top) && Chained(top)
    ensures var st' := Follow(p.build, st, Branch(top)[st.vheight]);
            CoreOk(p, st', top) && st'.vheight == st.vheight + 1
  {
    var b := Branch(top)[st.vheight];
    NextBlock(top, st.vheight);
    FetchedInStep(p.build, st, b.parent, b);
    FollowerStaysInStep(p.build, st.(fetched := st.fetched + {b}), b);
  }

  lemma FetchedInStep(build: Build, st: State, top: Block, b: Block)
    requires InStep(build, st, top)
    ensures InStep(build, st.(fetched := st.fetched + {b}), top)
  {
  }

  lemma FollowedKeeps(p: L.Params, w: Whole, r: ReplicaId)
    requires Loose(p, w) && Enabled(p, w, GetBlock(r))
    ensures var w' := Do(p, w, GetBlock(r));
            && Loose(p, w') && (Ready(p, w') <==> Ready(p, w)) && w'.client == w.client
            && L.Enabled(p, Counters(w), L.Process(r)) && Counters(w') == L.Do(Counters(w), L.Process(r))
  {
    hide CoreOk, Follow, CompletedKnown, RepliesOk;
    FollowKeeps(p, w.cores[r], w.top);
    var w' := Do(p, w, GetBlock(r));
    assert Heights(w'.cores) == Heights(w.cores)[r := Heights(w.cores)[r] + 1];
    CommittedGrows(p, w.cores, w'.cores, w.replied);
  }

  // ---- what a replica answers ----

  lemma {:induction false} AnswersOfBranch(b: Block)
    ensures Answers(Branch(b)) == CmdsOf(b)
  {
    if b.Node? {
      AnswersOfBranch(b.parent);
      assert Branch(b)[..|Branch(b)| - 1] == Branch(b.parent);
    }
  }

  lemma {:induction false} CmdsPrefix(top: Block, a: Block, size: nat)
    requires Extends(top, a) && Full(top, size)
    ensures |CmdsOf(top)| == size * Height(top) && size * Height(a) <= size * Height(top)
    ensures CmdsOf(a) == CmdsOf(top)[..size * Height(a)]
  {
    if top == a {
      if top.Node? {
        ExtendsGenesis(top.parent);
        CmdsPrefix(top.parent, Genesis, size);
        MulNext(size, Height(top.parent));
      }
    } else {
      CmdsPrefix(top.parent, a, size);
      MulNext(size, Height(top.parent));
    }
  }

  /** The commands a replica has committed are the first ones sent, in order. */
  lemma AnswersAre(p: L.Params, w: Whole, r: nat)
    requires PipeOk(p, w.client.cnt, w.queue, w.received, w.top, w.certs)
    requires r < |w.cores| && CoreOk(p, w.cores[r], w.top)
    ensures Answers(w.cores[r].log) == Numbers(0, L.Committed(p, w.cores[r].vheight))
    ensures |Report(r, w.cores[r].log)| == L.Committed(p, w.cores[r].vheight) <= w.client.cnt
    ensures forall k :: 0 <= k < |Report(r, w.cores[r].log)| ==>
              Report(r, w.cores[r].log)[k].decision == 1 && Report(r, w.cores[r].log)[k].cmd == k
  {
    ReportsAnswer(r, w.cores[r].log);
    var st := w.cores[r];
    var top := WalkDown(w.top, st.vheight);
    ExtendsTransitive(w.top, top, st.bExec);
    AnswersOfBranch(st.bExec);
    CmdsPrefix(w.top, st.bExec, p.blkSize);
    var n := L.Committed(p, st.vheight);
    assert n == p.blkSize * Height(st.bExec);
    FirstNumbers(w.received, w.queue, w.client.cnt, n);
    assert w.received[..p.blkSize * Height(w.top)][..n] == w.received[..n];
  }

  lemma FirstNumbers(a: seq<Command>, b: seq<Command>, cnt: nat, n: nat)
    requires a + b == Numbers(0, cnt) && n <= |a|
    ensures a[..n] == Numbers(0, n) && n <= cnt
  {
    assert a[..n] == (a + b)[..n];
  }

  // ---- the client ----

  lemma {:induction false} OneMoreAbove(xs: seq<nat>, r: nat, k: nat)
    requires r < |xs|
    ensures L.NumAbove(xs[r := xs[r] + 1], k) == L.NumAbove(xs, k) + if xs[r] == k then 1 else 0
  {
    if r > 0 {
      assert xs[r := xs[r] + 1][1..] == xs[1..][r - 1 := xs[r] + 1];
      OneMoreAbove(xs[1..], r - 1, k);
    } else {
      assert xs[0 := xs[0] + 1][1..] == xs[1..];
    }
  }

  lemma {:induction false} FewerAbove(xs: seq<nat>, ys: seq<nat>, k: nat, l: nat)
    requires |xs| == |ys| && forall q :: 0 <= q < |xs| && ys[q] > l ==> xs[q] > k
    ensures L.NumAbove(ys, l) <= L.NumAbove(xs, k)
  {
    if xs != [] {
      FewerAbove(xs[1..], ys[1..], k, l);
    }
  }

  lemma {:induction false} NoneAbove(xs: seq<nat>, k: nat)
    requires forall q :: 0 <= q < |xs| ==> xs[q] <= k
    ensures L.NumAbove(xs, k) == 0
  {
    if xs != [] {
      NoneAbove(xs[1..], k);
    }
  }

  /** Only the oldest waiting command can be dropped. */
  lemma DropsOldest(p: L.Params, c: C.Client, replied: seq<nat>, r: nat)
    requires ClientOk(p, c, replied) && r < |replied| && replied[r] in c.waiting
    requires c.waiting[replied[r]] + 1 > NFaulty(p.n)
    ensures replied[r] == |c.dropped|
  {
    var k, d := replied[r], |c.dropped|;
    assert k !in c.dropped;
    if d < k {
      assert d in c.waiting;
      OneMoreAbove(replied, r, k);
      FewerAbove(replied, replied[r := k + 1], d, k);
    }
  }

  /** The counts after an answer, for the commands that waited before and for those just sent. */
  lemma CountsKept(p: L.Params, c: C.Client, c': C.Client, replied: seq<nat>, r: nat)
    requires ClientOk(p, c, replied) && r < |replied| && replied[r] < c.cnt
    requires forall q :: 0 <= q < |replied| ==> replied[q] <= c.cnt
    requires forall x :: x in c'.waiting && x >= c.cnt ==> c'.waiting[x] == 0
    requires forall x :: x in c'.waiting && x < c.cnt ==>
               x in c.waiting && c'.waiting[x] == c.waiting[x] + (if x == replied[r] then 1 else 0) <= NFaulty(p.n)
    ensures forall x :: x in c'.waiting ==>
              c'.waiting[x] == L.NumAbove(replied[r := replied[r] + 1], x) <= NFaulty(p.n)
  {
    hide C.ClientOk;
    forall x | x in c'.waiting
      ensures c'.waiting[x] == L.NumAbove(replied[r := replied[r] + 1], x) <= NFaulty(p.n)
    {
      OneMoreAbove(replied, r, x);
      if x >= c.cnt {
        NoneAbove(replied[r := replied[r] + 1], x);
      }
    }
  }

  lemma DroppedKept(p: L.Params, c: C.Client, replied: seq<nat>, r: nat, replied': seq<nat>, d: nat)
    requires ClientOk(p, c, replied) && r < |replied| && replied' == replied[r := replied[r] + 1]
    requires d == |c.dropped| || (d == |c.dropped| + 1 && replied[r] == |c.dropped| && replied[r] in c.waiting
                                  && c.waiting[replied[r]] + 1 > NFaulty(p.n))
    ensures forall x: nat :: x < d ==> L.NumAbove(replied', x) > NFaulty(p.n)
  {
    hide C.ClientOk;
    forall x: nat | x < d ensures L.NumAbove(replied', x) > NFaulty(p.n) {
      OneMoreAbove(replied, r, x);
    }
  }

  /** The answer that completes nfaulty + 1: the command is dropped, and more may be sent. */
  lemma AnswerDrops(p: L.Params, c: C.Client, replied: seq<nat>, r: nat)
    requires ClientOk(p, c, replied) && r < |replied| && replied[r] < c.cnt
    requires forall q :: 0 <= q < |replied| ==> replied[q] <= c.cnt
    requires replied[r] in c.waiting && c.waiting[replied[r]] + 1 > NFaulty(p.n)
    ensures C.ClientOk(C.Drop(c, replied[r])) && |C.Drop(c, replied[r]).dropped| == |c.dropped| + 1
    ensures var c' := C.OnReply(NFaulty(p.n), p.maxAsync, c, 1, replied[r]);
            && c' == C.SendAll(p.maxAsync, C.Drop(c, replied[r]))
            && ClientOk(p, c', replied[r := replied[r] + 1]) && c.cnt <= c'.cnt
            && replied[r] == |c.dropped| && !C.MaySend(p.maxAsync, c')
  {
    hide C.SendAll, C.ClientOk, L.NumAbove, C.MaySend, NFaulty;
    var k, d := replied[r], |c.dropped|;
    var c' := C.OnReply(NFaulty(p.n), p.maxAsync, c, 1, k);
    C.ReplyEffect(NFaulty(p.n), p.maxAsync, c, 1, k);
    DropsOldest(p, c, replied, r);
    C.DropOk(c, k);
    NotDropped(c, k);
    assert c'.dropped == Everyone(d + 1);
    KeyGone(p, c, k);
    CountsKept(p, c, c', replied, r);
    DroppedKept(p, c, replied, r, replied[r := k + 1], d + 1);
  }

  lemma NotDropped(c: C.Client, k: Command)
    requires C.ClientOk(c) && k in c.waiting
    ensures k !in c.dropped && |c.dropped + {k}| == |c.dropped| + 1
  {
  }

  lemma KeyGone(p: L.Params, c: C.Client, k: Command)
    requires C.ClientOk(c) && k in c.waiting
    ensures C.ClientOk(C.Drop(c, k)) && k !in C.SendAll(p.maxAsync, C.Drop(c, k)).waiting
  {
    C.DropOk(c, k);
  }

  /** Any other answer. */
  lemma AnswerCounts(p: L.Params, c: C.Client, replied: seq<nat>, r: nat)
    requires ClientOk(p, c, replied) && r < |replied| && replied[r] < c.cnt
    requires forall q :: 0 <= q < |replied| ==> replied[q] <= c.cnt
    requires replied[r] in c.waiting ==> c.waiting[replied[r]] + 1 <= NFaulty(p.n)
    ensures var c' := C.OnReply(NFaulty(p.n), p.maxAsync, c, 1, replied[r]);
            && ClientOk(p, c', replied[r := replied[r] + 1])
            && c' == c.(waiting := c'.waiting) && |c'.waiting| == |c.waiting|
  {
    hide C.OnReply, C.ClientOk, L.NumAbove;
    var c' := C.OnReply(NFaulty(p.n), p.maxAsync, c, 1, replied[r]);
    C.ReplyEffect(NFaulty(p.n), p.maxAsync, c, 1, replied[r]);
    NothingDropped(p, c, replied[r]);
    CountsKept(p, c, c', replied, r);
    DroppedKept(p, c, replied, r, replied[r := replied[r] + 1], |c.dropped|);
  }

  lemma NothingDropped(p: L.Params, c: C.Client, k: Command)
    requires C.ClientOk(c) && (k in c.waiting ==> c.waiting[k] + 1 <= NFaulty(p.n))
    ensures var c' := C.OnReply(NFaulty(p.n), p.maxAsync, c, 1, k);
            c' == c.(waiting := c'.waiting) && c'.waiting.Keys == c.waiting.Keys && |c'.waiting| == |c.waiting|
  {
    hide C.SendAll;
    var c' := C.OnReply(NFaulty(p.n), p.maxAsync, c, 1, k);
    assert c'.waiting.Keys == c.waiting.Keys;
    assert |c'.waiting| == |c'.waiting.Keys| == |c.waiting.Keys| == |c.waiting|;
  }

  /** The counters after the client has sent as much as it may. */
  lemma SendsAreEvents(p: L.Params, es: seq<L.Event>, s: L.Loop, c: C.Client) returns (es': seq<L.Event>)
    requires C.ClientOk(c)
    requires L.Reaches(p, es, s.(left := c.iters, sent := c.cnt, confirmed := |c.dropped|))
    ensures var c' := C.SendAll(p.maxAsync, c);
            L.Reaches(p, es', s.(left := c'.iters, sent := c'.cnt, confirmed := |c'.dropped|))
    ensures |es'| >= |es|
    decreases p.maxAsync - |c.waiting|
  {
    if C.MaySend(p.maxAsync, c) {
      var s0 := s.(left := c.iters, sent := c.cnt, confirmed := |c.dropped|);
      C.SendOneOk(c);
      C.SentIsDroppedPlusWaiting(c);
      L.ReachesSnoc(p, es, s0, L.Send);
      es' := SendsAreEvents(p, es + [L.Send], s, C.SendOne(c));
    } else {
      es' := es;
    }
  }

  // ---- the whole and the counters ----

  lemma RepliedInRange(p: L.Params, w: Whole)
    requires Loose(p, w)
    ensures forall q :: 0 <= q < |w.replied| ==> w.replied[q] <= w.client.cnt
  {
    hide ClientOk, PipeOk, CoreOk, L.Committed;
    forall q | 0 <= q < |w.replied| ensures w.replied[q] <= w.client.cnt {
      AnswersAre(p, w, q);
    }
  }

  lemma ReplyIsEvent(p: L.Params, w: Whole, r: ReplicaId)
    requires Loose(p, w) && Enabled(p, w, GetReply(r))
    ensures var f := Report(r, w.cores[r].log)[w.replied[r]]; f.decision == 1 && f.cmd == w.replied[r] < w.client.cnt
    ensures w.replied[r] < L.Committed(p, w.cores[r].vheight) && L.Enabled(p, Counters(w), L.Reply(r))
  {
    hide ClientOk, CoreOk, L.Committed, L.NumAbove, Answers, Report;
    AnswersAre(p, w, r);
  }

  /** New commands join the queue. */
  lemma QueueGrows(p: L.Params, cnt: nat, cnt': nat, queue: seq<Command>, received: seq<Command>, top: Block,
                   certs: nat)
    requires PipeOk(p, cnt, queue, received, top, certs) && cnt <= cnt'
    ensures PipeOk(p, cnt', queue + Numbers(cnt, cnt'), received, top, certs)
  {
    assert received + (queue + Numbers(cnt, cnt')) == (received + queue) + Numbers(cnt, cnt');
    assert Numbers(0, cnt) + Numbers(cnt, cnt') == Numbers(0, cnt');
  }

  lemma OneMoreReply(p: L.Params, cores: seq<State>, replied: seq<nat>, r: nat)
    requires RepliesOk(p, cores, replied) && r < |cores| && replied[r] < L.Committed(p, cores[r].vheight)
    ensures RepliesOk(p, cores, replied[r := replied[r] + 1])
  {
    hide L.Committed;
  }

  lemma AnsweredKeeps(p: L.Params, w: Whole, r: ReplicaId)
    requires Inv(p, w) && Enabled(p, w, GetReply(r))
    ensures Inv(p, Do(p, w, GetReply(r)))
  {
    hide CoresOk, L.Committed, L.NumAbove, C.SendAll, C.OnReply, PipeOk, ClientOk;
    ReplyIsEvent(p, w, r);
    RepliedInRange(p, w);
    OneMoreReply(p, w.cores, w.replied, r);
    AnswerKeepsClient(p, w.client, w.replied, r);
    InvFacts(p, w);
    var c' := Do(p, w, GetReply(r)).client;
    QueueGrows(p, w.client.cnt, c'.cnt, w.queue, w.received, w.top, w.certs);
  }

  lemma AnswerKeepsClient(p: L.Params, c: C.Client, replied: seq<nat>, r: nat)
    requires ClientOk(p, c, replied) && !C.MaySend(p.maxAsync, c) && r < |replied| && replied[r] < c.cnt
    requires forall q :: 0 <= q < |replied| ==> replied[q] <= c.cnt
    ensures var c' := C.OnReply(NFaulty(p.n), p.maxAsync, c, 1, replied[r]);
            ClientOk(p, c', replied[r := replied[r] + 1]) && c.cnt <= c'.cnt && !C.MaySend(p.maxAsync, c')
  {
    hide L.NumAbove, C.OnReply, C.SendAll, C.ClientOk;
    if replied[r] in c.waiting && c.waiting[replied[r]] + 1 > NFaulty(p.n) {
      AnswerDrops(p, c, replied, r);
    } else {
      AnswerCounts(p, c, replied, r);
    }
  }

  /** The answer as events of the counters: Reply, and if a command is dropped Confirm and what is sent. */
  lemma AnswerIsEvents(p: L.Params, w: Whole, r: ReplicaId, es: seq<L.Event>) returns (es': seq<L.Event>)
    requires Inv(p, w) && Enabled(p, w, GetReply(r)) && L.Reaches(p, es, Counters(w))
    ensures L.Reaches(p, es', Counters(Do(p, w, GetReply(r)))) && |es'| > |es|
  {
    hide CoresOk, PipeOk, L.Committed, L.NumAbove, C.SendAll, L.Reaches, ClientOk, C.ClientOk, C.MaySend, RepliesOk;
    hide Do, C.OnReply, Report;
    ReplyIsEvent(p, w, r);
    RepliedInRange(p, w);
    InvFacts(p, w);
    ReplyCounters(p, w, r);
    var k, s := w.replied[r], Counters(w);
    var s1 := L.Do(s, L.Reply(r));
    L.ReachesSnoc(p, es, s, L.Reply(r));
    es' := es + [L.Reply(r)];
    if k in w.client.waiting && w.client.waiting[k] + 1 > NFaulty(p.n) {
      AnswerDrops(p, w.client, w.replied, r);
      var s2 := L.Do(s1, L.Confirm);
      ConfirmEnabled(p, w, r);
      L.ReachesSnoc(p, es', s1, L.Confirm);
      var c := C.Drop(w.client, k);
      assert s2 == s2.(left := c.iters, sent := c.cnt, confirmed := |c.dropped|);
      es' := SendsAreEvents(p, es' + [L.Confirm], s2, c);
    } else {
      AnswerCounts(p, w.client, w.replied, r);
    }
  }

  lemma ReplyCounters(p: L.Params, w: Whole, r: ReplicaId)
    requires Enabled(p, w, GetReply(r)) && w.cores != [] && C.ClientOk(w.client)
    requires Report(r, w.cores[r].log)[w.replied[r]].decision == 1
    requires Report(r, w.cores[r].log)[w.replied[r]].cmd == w.replied[r]
    ensures var c := C.OnReply(NFaulty(p.n), p.maxAsync, w.client, 1, w.replied[r]);
            Counters(Do(p, w, GetReply(r)))
            == Counters(w).(left := c.iters, sent := c.cnt, confirmed := |c.dropped|,
                            replied := w.replied[r := w.replied[r] + 1])
  {
    hide C.OnReply, Report, Numbers;
  }

  lemma ConfirmEnabled(p: L.Params, w: Whole, r: ReplicaId)
    requires Inv(p, w) && r < |w.replied| && w.replied[r] in w.client.waiting
    requires w.client.waiting[w.replied[r]] + 1 > NFaulty(p.n) && w.replied[r] < w.client.cnt
    ensures L.Enabled(p, L.Do(Counters(w), L.Reply(r)), L.Confirm)
  {
    hide CoresOk, PipeOk;
    DropsOldest(p, w.client, w.replied, r);
    OneMoreAbove(w.replied, r, w.replied[r]);
  }

  /** Every step of the whole is a sequence of events of the counters. */
  lemma StepIsEvents(p: L.Params, w: Whole, e: Step, es: seq<L.Event>) returns (es': seq<L.Event>)
    requires Inv(p, w) && Enabled(p, w, e) && L.Reaches(p, es, Counters(w))
    ensures Inv(p, Do(p, w, e)) && L.Reaches(p, es', Counters(Do(p, w, e))) && |es'| > |es|
  {
    hide PipeOk, CoreOk, RepliesOk, L.Reaches, L.Enabled, L.Do, Counters, C.MaySend;
    match e
    case TakeCmd(extra) =>
      TakenKeeps(p, w);
      L.ReachesSnoc(p, es, Counters(w), L.Arrive);
      es' := ThenPropose(p, WithCmd(w), extra, es + [L.Arrive]);
    case GetQc(voters, extra) =>
      CertifiedKeeps(p, w, voters);
      L.ReachesSnoc(p, es, Counters(w), L.Certify);
      es' := ThenPropose(p, WithQc(p, w, voters), extra, es + [L.Certify]);
    case GetBlock(r) =>
      FollowedKeeps(p, w, r);
      L.ReachesSnoc(p, es, Counters(w), L.Process(r));
      es' := es + [L.Process(r)];
    case GetReply(r) =>
      AnsweredKeeps(p, w, r);
      es' := AnswerIsEvents(p, w, r, es);
  }

  lemma ThenPropose(p: L.Params, w: Whole, extra: nat, es: seq<L.Event>) returns (es': seq<L.Event>)
    requires Loose(p, w) && L.Reaches(p, es, Counters(w))
    ensures var w' := ProposeIfReady(p, w, extra);
            Loose(p, w') && !Ready(p, w') && w'.client == w.client && L.Reaches(p, es', Counters(w'))
    ensures |es'| >= |es|
  {
    hide PipeOk, CoreOk, RepliesOk, ClientOk, L.Reaches, L.Enabled, L.Do, Counters;
    ProposeKeeps(p, w, extra);
    es' := es;
    if Ready(p, w) {
      L.ReachesSnoc(p, es, Counters(w), L.Propose);
      es' := es + [L.Propose];
    }
  }

  lemma StartIsEvents(p: L.Params) returns (es: seq<L.Event>)
    requires L.ValidParams(p)
    ensures Inv(p, Start(p)) && L.Reaches(p, es, Counters(Start(p)))
  {
    var c0 := C.Client(map[], 0, p.iters, {});
    var s := L.InitLoop(p);
    assert L.Reaches(p, [], s);
    assert s == s.(left := c0.iters, sent := c0.cnt, confirmed := |c0.dropped|);
    es := SendsAreEvents(p, [], s, c0);
    StartInv(p);
    assert Heights(Start(p).cores) == seq(p.n, _ => 0);
  }

  lemma StartInv(p: L.Params)
    requires L.ValidParams(p)
    ensures Inv(p, Start(p))
  {
    hide PipeOk, CoresOk, ClientOk, RepliesOk, C.SendAll;
    StartPipe(p);
    StartCores(p);
    StartClient(p);
    StartReplies(p);
  }

  lemma StartPipe(p: L.Params)
    requires L.ValidParams(p)
    ensures var w := Start(p); PipeOk(p, w.client.cnt, w.queue, w.received, w.top, w.certs) && !Ready(p, w)
  {
    hide C.SendAll, PipeOk, Numbers;
    EmptyPipe(p, Start(p).client.cnt);
  }

  lemma EmptyPipe(p: L.Params, cnt: nat)
    requires L.ValidParams(p)
    ensures PipeOk(p, cnt, Numbers(0, cnt), [], Genesis, 0)
  {
  }

  lemma StartCores(p: L.Params)
    requires L.ValidParams(p)
    ensures CoresOk(p, Start(p).cores, Genesis, 0)
  {
    hide C.SendAll;
    assert InitState(p.n).delivered == {Genesis};
    assert WalkDown(Genesis, 0) == Genesis;
    assert InStep(p.build, InitState(p.n), Genesis);
    assert CoreOk(p, InitState(p.n), Genesis);
  }

  lemma StartClient(p: L.Params)
    requires L.ValidParams(p)
    ensures ClientOk(p, Start(p).client, Start(p).replied) && !C.MaySend(p.maxAsync, Start(p).client)
  {
    hide C.SendAll;
    var w := Start(p);
    forall k | k in w.client.waiting ensures L.NumAbove(w.replied, k) == 0 {
      NoneAbove(w.replied, k);
    }
  }

  lemma StartReplies(p: L.Params)
    requires L.ValidParams(p)
    ensures RepliesOk(p, Start(p).cores, Start(p).replied)
  {
    hide C.SendAll;
  }

  // ---- runs ----

  /** The whole after a sequence of steps, each enabled when it happens. */
  ghost predicate Reaches(p: L.Params, es: seq<Step>, w: Whole)
    decreases |es|
  {
    if es == [] then w == Start(p)
    else
      var n := |es| - 1;
      exists w0 :: Reaches(p, es[..n], w0) && Enabled(p, w0, es[n]) && w0.cores != [] && C.ClientOk(w0.client)
                   && w == Do(p, w0, es[n])
  }

  /** Every run of the whole is a run of the counters, at least as long. */
  lemma {:induction false} RunIsRun(p: L.Params, es: seq<Step>, w: Whole) returns (ls: seq<L.Event>)
    requires L.ValidParams(p) && Reaches(p, es, w)
    ensures Inv(p, w) && L.Reaches(p, ls, Counters(w)) && |ls| >= |es|
    decreases |es|
  {
    hide Inv, Counters, Enabled, Do, L.Reaches;
    if es == [] {
      ls := StartIsEvents(p);
    } else {
      var n := |es| - 1;
      var w0 :| Reaches(p, es[..n], w0) && Enabled(p, w0, es[n]) && w0.cores != [] && C.ClientOk(w0.client)
                && w == Do(p, w0, es[n]);
      ls := RunIsRun(p, es[..n], w0);
      ls := StepIsEvents(p, w0, es[n], ls);
    }
  }

  ghost predicate Stuck(p: L.Params, w: Whole) {
    !exists e :: Enabled(p, w, e)
  }

  /** The whole and the counters get stuck together. */
  lemma StuckTogether(p: L.Params, w: Whole)
    requires Inv(p, w)
    ensures Stuck(p, w) <==> L.Stuck(p, Counters(w))
  {
    hide CoreOk, L.Committed, L.NumAbove, C.MaySend, Answers, CompletedKnown;
    if !Stuck(p, w) {
      var e :| Enabled(p, w, e);
      var le := FirstEvent(p, w, e);
    } else {
      forall e ensures !L.Enabled(p, Counters(w), e) {
        if L.Enabled(p, Counters(w), e) {
          var c := CauseOf(p, w, e);
        }
      }
    }
  }

  lemma FirstEvent(p: L.Params, w: Whole, e: Step) returns (le: L.Event)
    requires Inv(p, w) && Enabled(p, w, e)
    ensures L.Enabled(p, Counters(w), le)
  {
    hide PipeOk, CoreOk, RepliesOk, C.MaySend;
    match e
    case TakeCmd(extra) =>
      TakenKeeps(p, w);
      le := L.Arrive;
    case GetQc(voters, extra) =>
      CertifiedKeeps(p, w, voters);
      le := L.Certify;
    case GetBlock(r) =>
      FollowedKeeps(p, w, r);
      le := L.Process(r);
    case GetReply(r) =>
      ReplyIsEvent(p, w, r);
      le := L.Reply(r);
  }

  lemma CauseOf(p: L.Params, w: Whole, le: L.Event) returns (e: Step)
    requires Inv(p, w) && L.Enabled(p, Counters(w), le)
    ensures Enabled(p, w, e)
  {
    hide CoreOk, L.Committed, L.NumAbove, CompletedKnown, Chained, Full, CmdsOf, Answers, Numbers, RepliesOk;
    match le
    case Send => C.SentIsDroppedPlusWaiting(w.client);
    case Arrive =>
      QueueLength(p, w);
      e := TakeCmd(0);
    case Propose =>
    case Process(r) => e := GetBlock(r);
    case Certify =>
      VotersCounted(w);
      var voters := InSomeOrder(VotersOf(w));
      e := GetQc(voters, 0);
    case Reply(r) =>
      ReplyCause(p, w, r);
      e := GetReply(r);
    case Confirm => NoConfirm(p, w.client, w.replied);
  }

  lemma QueueLength(p: L.Params, w: Whole)
    requires Inv(p, w)
    ensures |w.received| + |w.queue| == w.client.cnt
  {
    hide CoresOk, ClientOk, RepliesOk, Chained, Full, CmdsOf;
    assert |w.received + w.queue| == |Numbers(0, w.client.cnt)|;
  }

  lemma ReplyCause(p: L.Params, w: Whole, r: nat)
    requires Inv(p, w) && L.Enabled(p, Counters(w), L.Reply(r))
    ensures Enabled(p, w, GetReply(r))
  {
    hide CoreOk, PipeOk, ClientOk, L.Committed, CompletedKnown;
    AnswersAre(p, w, r);
  }

  lemma NoConfirm(p: L.Params, c: C.Client, replied: seq<nat>)
    requires ClientOk(p, c, replied) && |c.dropped| < c.cnt
    ensures L.NumAbove(replied, |c.dropped|) <= NFaulty(p.n)
  {
  }

  lemma ReachesSnoc(p: L.Params, es: seq<Step>, w: Whole, e: Step)
    requires Reaches(p, es, w) && Enabled(p, w, e) && w.cores != [] && C.ClientOk(w.client)
    ensures Reaches(p, es + [e], Do(p, w, e))
  {
    hide Do, Enabled, C.ClientOk;
    var all := es + [e];
    assert all[..|all| - 1] == es && all[|all| - 1] == e;
  }

  lemma RunUntilStuck(p: L.Params, es: seq<Step>, w: Whole) returns (es': seq<Step>, w': Whole)
    requires L.ValidParams(p) && L.Bounded(p) && Reaches(p, es, w)
    ensures Reaches(p, es', w') && Stuck(p, w')
    decreases L.LongestRun(p) - |es|
  {
    hide L.LongestRun, Enabled, Do, Reaches, Counters, L.Reaches, PipeOk, ClientOk, RepliesOk;
    var ls := RunIsRun(p, es, w);
    L.RunsEnd(p, ls, Counters(w));
    if Stuck(p, w) {
      es', w' := es, w;
    } else {
      var e :| Enabled(p, w, e);
      InvFacts(p, w);
      ReachesSnoc(p, es, w, e);
      ls := RunIsRun(p, es + [e], Do(p, w, e));
      L.RunsEnd(p, ls, Counters(Do(p, w, e)));
      es', w' := RunUntilStuck(p, es + [e], Do(p, w, e));
    }
  }

  lemma InvFacts(p: L.Params, w: Whole)
    requires Inv(p, w)
    ensures w.cores != [] && C.ClientOk(w.client)
  {
    hide CoreOk;
  }

  /** The client, the proposer and the replicas together can come to a standstill if and only if the
      client sends only so many commands, or keeps fewer than four blocks' worth outstanding (three in
      the two-step build). */
  lemma StandstillIsExact(p: L.Params)
    requires L.ValidParams(p)
    ensures (exists es, w :: Reaches(p, es, w) && Stuck(p, w)) <==> p.iters >= 0 || p.maxAsync < L.Depth(p) * p.blkSize
  {
    hide Reaches, Stuck, L.Reaches, L.Stuck, Inv, Counters, Start;
    L.DeadlockThreshold(p);
    if L.Bounded(p) {
      StartReached(p);
      var es, w := RunUntilStuck(p, [], Start(p));
      assert Reaches(p, es, w) && Stuck(p, w);
    } else {
      forall es, w | Reaches(p, es, w) ensures !Stuck(p, w) {
        var ls := RunIsRun(p, es, w);
        StuckTogether(p, w);
      }
    }
  }

  lemma StartReached(p: L.Params)
    ensures Reaches(p, [], Start(p))
  {
  }

  /** And then: with enough outstanding all commands have been sent, the client has dropped those of all
      full blocks but the last three (two); otherwise none was ever dropped.  Each replica has committed
      exactly the commands that were dropped. */
  lemma StandstillLeaves(p: L.Params, es: seq<Step>, w: Whole, r: nat)
    requires L.ValidParams(p) && Reaches(p, es, w) && Stuck(p, w) && r < p.n
    ensures |w.cores| == p.n && w.client.dropped == Everyone(|w.client.dropped|)
    ensures Answers(w.cores[r].log) == Numbers(0, |w.client.dropped|)
    ensures p.maxAsync >= L.Depth(p) * p.blkSize ==>
              w.client.cnt == p.iters && |w.client.dropped| == L.Confirmable(p)
    ensures p.maxAsync < L.Depth(p) * p.blkSize ==> |w.client.dropped| == 0
  {
    hide Inv, L.Reaches, Reaches, L.Stuck, Stuck, Counters;
    var ls := RunIsRun(p, es, w);
    StuckTogether(p, w);
    L.LeftOver(p, ls, Counters(w));
    L.ReachesInv(p, ls, Counters(w));
    L.StuckIsDrained(p, Counters(w));
    CountersOf(w);
    DrainedCore(p, w, r);
  }

  lemma CountersOf(w: Whole)
    ensures Counters(w).sent == w.client.cnt && Counters(w).confirmed == |w.client.dropped|
    ensures Counters(w).proposed == Height(w.top)
  {
  }

  lemma DrainedCore(p: L.Params, w: Whole, r: nat)
    requires Inv(p, w) && Stuck(p, w) && r < p.n && |w.client.dropped| == L.Committed(p, Height(w.top))
    ensures |w.cores| == p.n && w.client.dropped == Everyone(|w.client.dropped|)
    ensures Answers(w.cores[r].log) == Numbers(0, |w.client.dropped|)
  {
    hide L.Committed, L.NumAbove;
    AnswersAre(p, w, r);
    assert !Enabled(p, w, GetBlock(r));
  }

  /** A proposer of FixedLeader that has received the same commands and certificates has proposed the
      blocks of the whole, batch by batch. */
  lemma LeaderAgrees(p: L.Params, w: Whole, leader: Leader, i: nat)
    requires Inv(p, w) && leader.Valid() && leader.blkSize == p.blkSize
    requires leader.received == w.received && leader.certified == w.certs
    ensures |leader.proposed| == Height(w.top)
    ensures i < Height(w.top) ==> Branch(w.top)[i].Node? && leader.proposed[i] == Branch(w.top)[i].cmds
  {
    hide CoresOk, ClientOk, RepliesOk, CmdsOf, Chained, Full, Numbers, AllOfSize, Flatten;
    leader.ProposedCount();
    CountOf(p, w, |leader.proposed|);
    if i < Height(w.top) {
      leader.ProposedContents(i);
      BlockOf(p, w, i);
    }
  }

  lemma CountOf(p: L.Params, w: Whole, n: nat)
    requires Inv(p, w) && n * p.blkSize <= |w.received| && n <= w.certs + 1
    requires |w.received| < (n + 1) * p.blkSize || n == w.certs + 1
    ensures n == Height(w.top)
  {
    hide CoresOk, ClientOk, RepliesOk, CmdsOf, Chained, Full, Numbers;
    var h := Height(w.top);
    assert p.blkSize * h == h * p.blkSize && p.blkSize * (h + 1) == (h + 1) * p.blkSize;
    SameCount(p.blkSize, |w.received|, w.certs, n, h);
  }

  /** Block i carries the i-th group of the commands received. */
  lemma BlockOf(p: L.Params, w: Whole, i: nat)
    requires PipeOk(p, w.client.cnt, w.queue, w.received, w.top, w.certs) && i < Height(w.top)
    ensures 0 <= i * p.blkSize && i * p.blkSize + p.blkSize <= |w.received|
    ensures Branch(w.top)[i].Node? && Branch(w.top)[i].cmds == w.received[i * p.blkSize..i * p.blkSize + p.blkSize]
  {
    hide Chained, Full, Numbers, CmdsOf, Branch;
    BlockCmds(w.top, p.blkSize, i);
    var k, h := p.blkSize * i, p.blkSize * Height(w.top);
    assert k == i * p.blkSize;
    SliceOfPrefix(w.received, h, k, p.blkSize);
  }

  lemma SliceOfPrefix(s: seq<Command>, h: nat, k: nat, n: nat)
    requires k + n <= h <= |s|
    ensures s[..h][k..k + n] == s[k..k + n]
  {
  }

  lemma SameCount(size: nat, received: nat, certs: nat, a: nat, b: nat)
    requires size > 0 && a * size <= received && b * size <= received && a <= certs + 1 && b <= certs + 1
    requires received < (a + 1) * size || a == certs + 1
    requires received < (b + 1) * size || b == certs + 1
    ensures a == b
  {
    if a < b {
      MulMonotone(a + 1, b, size);
    } else if b < a {
      MulMonotone(b + 1, a, size);
    }
  }

  lemma {:induction false} BlockCmds(top: Block, size: nat, i: nat)
    requires Full(top, size) && i < Height(top)
    ensures Branch(top)[i].Node? && size * i + size <= |CmdsOf(top)|
    ensures Branch(top)[i].cmds == CmdsOf(top)[size * i..size * i + size]
  {
    ExtendsGenesis(top.parent);
    CmdsPrefix(top.parent, Genesis, size);
    MulNext(size, Height(top.parent));
    if i < Height(top.parent) {
      BlockCmds(top.parent, size, i);
    }
  }
}
