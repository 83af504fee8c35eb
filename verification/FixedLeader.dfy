/** The command pipeline of a replica that is its own fixed proposer: the cmd_pending handler of
    HotStuffBase::start and the beats of PMWaitQC.

    A beat promise is represented by the batch its callback proposes.  nmajority >= 2, so the
    certificate of a block never completes inside the call that proposes it.
  */
module FixedLeader {
  import opened Chain
  import opened Core
  import opened Arithmetic

  function Flatten(bs: seq<Batch>): seq<Command> {
    if bs == [] then [] else bs[0] + Flatten(bs[1..])
  }

  lemma {:induction false} FlattenConcat(a: seq<Batch>, b: seq<Batch>)
    ensures Flatten(a + b) == Flatten(a) + Flatten(b)
  {
    if a == [] {
      assert a + b == b;
    } else {
      FlattenConcat(a[1..], b);
      assert (a + b)[1..] == a[1..] + b && (a + b)[0] == a[0];
      Associative(a[0], Flatten(a[1..]), Flatten(b));
    }
  }

  lemma Associative(x: Batch, y: Batch, z: Batch)
    ensures (x + y) + z == x + (y + z)
  {
  }

  lemma FlattenSnoc(a: seq<Batch>, x: Batch)
    ensures Flatten(a + [x]) == Flatten(a) + x
  {
    FlattenConcat(a, [x]);
    assert Flatten([x]) == x + Flatten([x][1..]);
  }

  /** At most one batch, as a sequence of batches. */
  function Opt(b: Option<Batch>): seq<Batch> {
    if b.Some? then [b.value] else []
  }

  ghost predicate AllOfSize(bs: seq<Batch>, n: nat) {
    forall i :: 0 <= i < |bs| ==> |bs[i]| == n
  }

  class Leader {
    const blkSize: nat
    var buffer: seq<Command>          // cmd_pending_buffer
    var pendingBeats: seq<Batch>
    var held: Option<Batch>           // the beat waiting on pm_qc_finish
    var locked: bool
    var proposed: seq<Batch>          // the batches given to on_propose, in order
    var certified: nat                // how many of the blocks proposed have their certificate
    ghost var received: seq<Command>  // everything dequeued so far

    /** All batches formed so far, oldest first.  `leaving` has left the queue of beats and is about
        to be proposed, `entering` has left the buffer and is about to be queued. */
    ghost function Batches(leaving: Option<Batch>, entering: Option<Batch>): seq<Batch>
      reads this
    {
      proposed + Opt(leaving) + Opt(held) + pendingBeats + Opt(entering)
    }

    /** Every command dequeued is in exactly one place, in the order of arrival. */
    ghost predicate Accounted(leaving: Option<Batch>, entering: Option<Batch>)
      reads this
    {
      && received == Flatten(Batches(leaving, entering)) + buffer
      && AllOfSize(Batches(leaving, entering), blkSize)
      && certified <= |proposed| <= certified + 1
    }

    /** Between handlers: a beat is held exactly while locked, nothing is queued behind an unlocked
        gate, and a beat is held only for a certificate that is still missing. */
    ghost predicate Valid()
      reads this
    {
      && Accounted(None, None)
      && (locked <==> held.Some?)
      && (!locked ==> pendingBeats == [])
      && (held.Some? ==> certified < |proposed|)
      && (blkSize > 0 ==> |buffer| < blkSize)
    }

    constructor (blkSize: nat)
      ensures this.blkSize == blkSize && Valid()
      ensures proposed == [] && received == []
    {
      this.blkSize := blkSize;
      buffer, pendingBeats, held, locked := [], [], None, false;
      proposed, certified := [], 0;
      received := [];
    }

    /** schedule_next.  The result is the beat that resolves at once because the last block already
        has its certificate. */
    method ScheduleNext() returns (ready: Option<Batch>)
      requires Accounted(None, None) && (locked || held.None?)
      modifies this`pendingBeats, this`held, this`locked
      ensures old(pendingBeats) == [] || old(locked) ==>
                ready.None? && held == old(held) && locked == old(locked) && pendingBeats == old(pendingBeats)
      ensures old(pendingBeats) != [] && !old(locked) ==>
                && locked && pendingBeats == old(pendingBeats)[1..]
                && (if certified == |proposed| then ready == Some(old(pendingBeats)[0]) && held.None?
                    else ready.None? && held == Some(old(pendingBeats)[0]))
      ensures Accounted(ready, None)
    {
      ready := None;
      ghost var batches := Batches(None, None);
      if pendingBeats != [] && !locked {
        var pm := pendingBeats[0];
        pendingBeats := pendingBeats[1..];
        if certified == |proposed| {
          ready := Some(pm);
        } else {
          held := Some(pm);
        }
        locked := true;
      }
      assert Batches(ready, None) == batches;
    }

    /** The callback of a beat: on_propose, during which update_last_proposed unlocks the gate and
        schedules the next beat.  It is only ever called once the last block is certified. */
    method Propose(batch: Batch)
      requires Accounted(Some(batch), None) && held.None? && locked
      requires certified == |proposed|
      requires blkSize > 0 ==> |buffer| < blkSize
      modifies this`proposed, this`locked, this`pendingBeats, this`held
      ensures Valid()
      ensures proposed == old(proposed) + [batch]
    {
      ghost var batches := Batches(Some(batch), None);
      proposed := proposed + [batch];
      assert Batches(None, None) == batches;
      locked := false;
      var ready := ScheduleNext();
    }

    /** beat, and the callback when the beat resolved at once. */
    method Beat(batch: Batch)
      requires Accounted(None, Some(batch)) && (locked <==> held.Some?) && (!locked ==> pendingBeats == [])
      requires held.Some? ==> certified < |proposed|
      requires blkSize > 0 ==> |buffer| < blkSize
      modifies this`proposed, this`locked, this`pendingBeats, this`held
      ensures Valid()
      ensures old(proposed) <= proposed
    {
      ghost var batches := Batches(None, Some(batch));
      pendingBeats := pendingBeats + [batch];
      assert Batches(None, None) == batches;
      var ready := ScheduleNext();
      if ready.Some? {
        Propose(ready.value);
      }
    }

    /** The loop that moves blk_size commands out of the buffer. */
    method TakeBatch() returns (cmds: Batch)
      requires Accounted(None, None) && |buffer| >= blkSize
      modifies this`buffer
      ensures |cmds| == blkSize && old(buffer) == cmds + buffer
      ensures Accounted(None, Some(cmds))
    {
      cmds := [];
      for i := 0 to blkSize
        invariant |cmds| == i && cmds + buffer == old(buffer)
      {
        cmds := cmds + [buffer[0]];
        buffer := buffer[1..];
      }
      FlattenSnoc(Batches(None, None), cmds);
      assert Batches(None, Some(cmds)) == Batches(None, None) + [cmds];
    }

    /** One round of the handler's loop: true when the command filled a block. */
    method HandleOne(cmd: Command) returns (full: bool)
      requires Valid()
      modifies this
      ensures Valid()
      ensures received == old(received) + [cmd] && certified == old(certified)
      ensures full <==> |old(buffer)| + 1 >= blkSize
      ensures !full ==> buffer == old(buffer) + [cmd]
      ensures if full then old(proposed) <= proposed else proposed == old(proposed)
    {
      ghost var batches := Batches(None, None);
      received := received + [cmd];
      buffer := buffer + [cmd];
      assert Batches(None, None) == batches;
      full := |buffer| >= blkSize;
      if full {
        var cmds := TakeBatch();
        Beat(cmds);
      }
    }

    /** How many more commands fill a block. */
    function ToFill(buffered: nat): nat {
      if buffered < blkSize then blkSize - buffered else 1
    }

    /** The handler: take commands from the queue until a block is full or the queue is empty.
        `again` is its return value, true when it wants to be called again. */
    method HandleCommands(queue: seq<Command>) returns (rest: seq<Command>, again: bool)
      requires Valid()
      modifies this
      ensures Valid()
      ensures received + rest == old(received) + queue
      ensures again <==> queue != [] && |old(buffer)| + |queue| >= blkSize
      ensures |queue| - |rest| == if again then ToFill(|old(buffer)|) else |queue|
      ensures old(proposed) <= proposed && certified == old(certified)
    {
      rest := queue;
      while rest != []
        invariant Valid()
        invariant received + rest == old(received) + queue
        invariant proposed == old(proposed) && certified == old(certified)
        invariant |buffer| == |old(buffer)| + |queue| - |rest| && |rest| <= |queue|
        invariant rest == queue || |buffer| < blkSize
        decreases |rest|
      {
        MoveOne(received, rest);
        var full := HandleOne(rest[0]);
        rest := rest[1..];
        if full {
          return rest, true;
        }
      }
      return rest, false;
    }

    /** on_qc_finish for the last block proposed. */
    method OnQcFinish()
      requires Valid() && certified < |proposed|
      modifies this
      ensures Valid()
      ensures certified == old(certified) + 1
      ensures proposed == old(proposed) + (if old(held).Some? then [old(held).value] else [])
      ensures received == old(received)
    {
      certified := certified + 1;
      if held.Some? {
        var batch := held.value;
        ghost var batches := Batches(None, None);
        held := None;
        assert Batches(Some(batch), None) == batches;
        Propose(batch);
      }
    }

    /** What the pipeline has proposed depends only on what arrived and on the certificates: the
        number of blocks is as large as the commands and the rule "one block ahead of the
        certificates" allow ... */
    lemma ProposedCount()
      requires Valid() && blkSize > 0
      ensures |proposed| * blkSize <= |received| && |proposed| <= certified + 1
      ensures |received| < (|proposed| + 1) * blkSize || |proposed| == certified + 1
    {
      var batches := Batches(None, None);
      FlattenLength(batches, blkSize);
      MulMonotone(|proposed|, |batches|, blkSize);
      if |proposed| <= certified {
        assert batches == proposed;
      }
    }

    /** ... and block i carries exactly the i-th group of blk_size commands. */
    lemma ProposedContents(i: nat)
      requires Valid() && i < |proposed|
      ensures 0 <= i * blkSize && i * blkSize + blkSize <= |received|
      ensures proposed[i] == received[i * blkSize..i * blkSize + blkSize]
    {
      var batches := Batches(None, None);
      FlattenIndex(batches, blkSize, i);
      assert batches[i] == proposed[i];
      assert received[..|Flatten(batches)|] == Flatten(batches);
    }
  }

  lemma MoveOne(done: seq<Command>, rest: seq<Command>)
    requires rest != []
    ensures (done + [rest[0]]) + rest[1..] == done + rest
  {
  }

  lemma {:induction false} FlattenLength(bs: seq<Batch>, n: nat)
    requires AllOfSize(bs, n)
    ensures |Flatten(bs)| == |bs| * n
  {
    if bs != [] {
      FlattenLength(bs[1..], n);
    }
  }

  lemma {:induction false} FlattenIndex(bs: seq<Batch>, n: nat, i: nat)
    requires AllOfSize(bs, n) && i < |bs|
    ensures 0 <= i * n && i * n + n <= |Flatten(bs)|
    ensures Flatten(bs)[i * n..i * n + n] == bs[i]
  {
    if i > 0 {
      FlattenIndex(bs[1..], n, i - 1);
      OneFurther(n, i);
      SliceShift(bs[0], Flatten(bs[1..]), (i - 1) * n, n);
    } else {
      assert Flatten(bs)[..n] == bs[0];
    }
  }

  lemma OneFurther(n: nat, i: nat)
    requires i > 0
    ensures i * n == n + (i - 1) * n && 0 <= (i - 1) * n
  {
  }

  lemma SliceShift(a: Batch, b: Batch, k: nat, n: nat)
    requires k + n <= |b|
    ensures (a + b)[|a| + k..|a| + k + n] == b[k..k + n]
  {
  }
}
