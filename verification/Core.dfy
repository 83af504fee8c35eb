/** The state of HotStuffCore as a value, and what each input of the state machine does to it.
    The imperative replica is proved to compute these functions; the protocol is built on them.
  */
module Core {
  import opened Chain

  type ReplicaId = nat

  /** The commands of one block. */
  type Batch = seq<Command>

  /** The two builds selected by HOTSTUFF_TWO_STEP. */
  datatype Build = ThreeStep | TwoStep

  datatype Error =
    | NoError
    | SafetyBreached
    | NotDelivered
    | QcNotFetched
    | NotHigherThanVheight
    | EmptyParents

  datatype Option<T> = None | Some(value: T)

  /** The fields of HotStuffCore, with the flags and vote sets that live in the blocks gathered
      per replica: `delivered`, `decided` and `voted`.  `log` is the sequence of do_consensus
      calls. */
  datatype State = State(
    hqc: Block,
    bLock: Block,
    bExec: Block,
    vheight: nat,
    fetched: set<Block>,
    delivered: set<Block>,
    tails: set<Block>,
    decided: set<Block>,
    voted: map<Block, set<ReplicaId>>,
    log: seq<Block>)

  /** The state an input leaves behind and the exception it ends with, if any. */
  datatype Outcome = Outcome(state: State, error: Error)

  /** The replica identities 0 .. n-1. */
  function Everyone(n: nat): (all: set<ReplicaId>)
    ensures forall r: nat :: r in all <==> r < n
    ensures |all| == n
  {
    if n == 0 then {} else Everyone(n - 1) + {n - 1}
  }

  function InitState(n: nat): State {
    State(Genesis, Genesis, Genesis, 0, {Genesis}, {Genesis}, {Genesis}, {Genesis},
          map[Genesis := Everyone(n)], [])
  }

  /** A fetched block that is not delivered still has height 0. */
  function HeightField(st: State, b: Block): nat {
    if b in st.delivered then Height(b) else 0
  }

  function VotedFor(st: State, b: Block): set<ReplicaId> {
    if b in st.voted then st.voted[b] else {}
  }

  function UpdateHqc(st: State, b: Block): State {
    if HeightField(st, b) > Height(st.hqc) then st.(hqc := b) else st
  }

  function RaiseLock(st: State, b: Block): State {
    if HeightField(st, b) > Height(st.bLock) then st.(bLock := b) else st
  }

  /** The commit loops: walk from blk down to b_exec, then decide what was walked over, oldest
      first. */
  function Commit(st: State, blk: Block): Outcome {
    if WalkDown(blk, Height(st.bExec)) != st.bExec then Outcome(st, SafetyBreached)
    else
      var queue := Above(blk, Height(st.bExec));
      Outcome(st.(decided := st.decided + Members(queue), log := st.log + queue, bExec := blk), NoError)
  }

  /** `update` up to the commit loops: the state it has then, and the block it goes on to commit
      unless an early return fired.  The three-step build looks three certificates back, the
      two-step build two. */
  function BeforeCommit(build: Build, st: State, nblk: Block): (State, Option<Block>) {
    match build
    case ThreeStep =>
      var blk2 := QcRef(nblk);
      if blk2 in st.decided then (st, None) else
      var st1 := UpdateHqc(st, blk2);
      if blk2 !in st.delivered then (st1, None) else  // its qc_ref is still null
      var blk1 := QcRef(blk2);
      if blk1 in st.decided then (st1, None) else
      var st2 := RaiseLock(st1, blk1);
      if blk1 !in st.delivered then (st2, None) else
      var blk := QcRef(blk1);
      if blk in st.decided then (st2, None) else
      if blk2.Genesis? || blk1.Genesis? || blk2.parent != blk1 || blk1.parent != blk then (st2, None)
      else (st2, Some(blk))
    case TwoStep =>
      var blk1 := QcRef(nblk);
      if blk1 in st.decided then (st, None) else
      var st1 := UpdateHqc(st, blk1);
      var st2 := RaiseLock(st1, blk1);
      if blk1 !in st.delivered then (st2, None) else
      var blk := QcRef(blk1);
      if blk in st.decided then (st2, None) else
      if blk1.Genesis? || blk1.parent != blk then (st2, None)
      else (st2, Some(blk))
  }

  function Update(build: Build, st: State, nblk: Block): Outcome {
    var (st2, blk) := BeforeCommit(build, st, nblk);
    if blk.Some? then Commit(st2, blk.value) else Outcome(st2, NoError)
  }

  /** The test that makes on_receive_proposal vote for a delivered block. */
  predicate LivenessTest(st: State, b: Block) {
    HeightField(st, QcRef(b)) > Height(st.bLock)
  }

  predicate Opinion(st: State, b: Block) {
    Height(b) > st.vheight && (LivenessTest(st, b) || Extends(b, st.bLock))
  }

  function RecordVote(st: State, b: Block): State {
    if Opinion(st, b) then st.(vheight := Height(b)) else st
  }

  /** on_deliver_blk. */
  function Deliver(st: State, b: Block): Outcome {
    if b in st.delivered then Outcome(st, NoError)
    else if exists p | p in Parents(b) :: p !in st.delivered then Outcome(st, NotDelivered)
    else if QcRef(b) !in st.fetched then Outcome(st, QcNotFetched)
    else Outcome(st.(fetched := st.fetched + {b}, delivered := st.delivered + {b},
                     tails := st.tails - Members(Parents(b)) + {b}), NoError)
  }

  /** A block is fetched, or made, and delivered. */
  function FetchAndDeliver(st: State, b: Block): State {
    Deliver(st.(fetched := st.fetched + {b}), b).state
  }

  /** on_receive_proposal for another replica's proposal, up to the decision to vote. */
  function ReceiveProposal(build: Build, st: State, b: Block): Outcome {
    if b !in st.delivered then Outcome(st, NotDelivered)
    else
      var o := Update(build, st, b);
      if o.error != NoError then o else Outcome(RecordVote(o.state, b), NoError)
  }

  /** The block on_propose builds on `parents`: the first is the direct parent. */
  function NewBlockOn(st: State, parents: seq<Block>, cmds: seq<Command>, extra: nat): Block
    requires parents != []
  {
    Node(parents[0], parents[1..], st.hqc, cmds, extra)
  }

  /** on_propose. */
  function ProposeOn(build: Build, st: State, parents: seq<Block>, cmds: seq<Command>, extra: nat): Outcome {
    if parents == [] then Outcome(st, EmptyParents) else
    var b := NewBlockOn(st, parents, cmds, extra);
    var st0 := st.(tails := st.tails - Members(parents), fetched := st.fetched + {b});
    var d := Deliver(st0, b);
    if d.error != NoError then d else SelfReceive(Update(build, d.state, b), b)
  }

  /** The block and the step when there is one parent, as get_parents returns. */
  function NewBlock(st: State, parent: Block, cmds: seq<Command>, extra: nat): Block {
    NewBlockOn(st, [parent], cmds, extra)
  }

  function Propose(build: Build, st: State, parent: Block, cmds: seq<Command>, extra: nat): Outcome {
    ProposeOn(build, st, [parent], cmds, extra)
  }

  /** What on_propose does with its own block after `update`: receive it like a proposal. */
  function SelfReceive(u: Outcome, b: Block): Outcome {
    if u.error != NoError then u
    else if Height(b) <= u.state.vheight then Outcome(u.state, NotHigherThanVheight)
    else Outcome(RecordVote(u.state, b), NoError)
  }

  /** on_receive_vote: the vote that makes the count reach nmajority completes the certificate. */
  function ReceiveVote(st: State, nmajority: nat, voter: ReplicaId, b: Block): Outcome {
    if b !in st.delivered then Outcome(st, NotDelivered)
    else if |VotedFor(st, b)| >= nmajority || voter in VotedFor(st, b) then Outcome(st, NoError)
    else
      var st' := st.(voted := st.voted[b := VotedFor(st, b) + {voter}]);
      Outcome(if |VotedFor(st, b)| + 1 == nmajority then UpdateHqc(st', b) else st', NoError)
  }
}
