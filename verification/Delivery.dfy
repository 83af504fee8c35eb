/** Block delivery: async_fetch_blk, async_deliver_blk and the handlers that settle their promises.

    The callbacks waiting on a promise are explicit data.  `onFetch` holds the blocks whose delivery
    starts when they are fetched; `checks` holds, for each block whose `promise::all` has been set up,
    what that promise still waits for.  Where several callbacks wait on one promise they are run in
    any order.
  */
module Delivery {
  import opened Chain
  import opened Core

  /** What the delivery of one block waits for: the answer of the certificate check, the block the
      certificate is for, and parents still to be delivered. */
  datatype Check = Check(verified: Option<bool>, qcMissing: bool, left: set<Block>)

  /** All promises are fulfilled, and the certificate was good. */
  predicate Passed(k: Check) {
    k.verified == Some(true) && !k.qcMissing && k.left == {}
  }

  datatype Pipe = Pipe(
    storage: set<Block>,           // fetched blocks
    delivered: set<Block>,
    heights: map<Block, nat>,      // the height fields of delivered blocks
    fetchWaiting: set<Block>,      // keys of blk_fetch_waiting
    deliveryWaiting: set<Block>,   // keys of blk_delivery_waiting
    onFetch: set<Block>,
    checks: map<Block, Check>,
    requested: set<Block>)         // blocks a handler has asked to be delivered

  /** What Block::verify answers: a certificate for genesis needs no check. */
  predicate QcGood(valid: Block -> bool, b: Block) {
    QcRef(b).Genesis? || valid(b)
  }

  /** b and everything below it has a good certificate. */
  predicate AllGood(valid: Block -> bool, b: Block) {
    b.Node? ==>
      && QcGood(valid, b) && AllGood(valid, b.parent)
      && forall i :: 0 <= i < |b.uncles| ==> AllGood(valid, b.uncles[i])
  }

  /** a is b, or is reached from b through parent links of any kind. */
  predicate Under(b: Block, a: Block) {
    a == b || (b.Node? && (Under(b.parent, a) || exists i :: 0 <= i < |b.uncles| && Under(b.uncles[i], a)))
  }

  lemma UnderParent(b: Block, p: Block, a: Block)
    requires p in Parents(b) && Under(p, a)
    ensures Under(b, a)
  {
    if p != b.parent {
      var i :| 0 <= i < |b.uncles| && b.uncles[i] == p;
    }
  }

  lemma ParentsGood(valid: Block -> bool, b: Block)
    ensures b.Node? ==>
              (AllGood(valid, b) <==> QcGood(valid, b) && forall p :: p in Parents(b) ==> AllGood(valid, p))
  {
    if b.Node? {
      assert b.parent in Parents(b);
      forall i | 0 <= i < |b.uncles| ensures b.uncles[i] in Parents(b) {
      }
    }
  }

  lemma NewlyUnder(b: Block, p: Block, s: Pipe, s': Pipe)
    requires p in Parents(b)
    requires forall x :: x in Tracked(s') && x !in Tracked(s) ==> Under(p, x)
    ensures forall x :: x in Tracked(s') && x !in Tracked(s) ==> Under(b, x)
  {
    forall x | x in Tracked(s') && x !in Tracked(s) ensures Under(b, x) {
      UnderParent(b, p, x);
    }
  }

  function Tracked(s: Pipe): set<Block> {
    s.delivered + s.deliveryWaiting
  }

  /** What is delivered is sound: its certificate is good, the certified block is fetched and all
      parents are delivered. */
  ghost predicate DeliveredOk(valid: Block -> bool, storage: set<Block>, delivered: set<Block>,
                              heights: map<Block, nat>)
  {
    && Genesis in delivered && delivered <= storage
    && heights.Keys == delivered
    && (forall b :: b in delivered ==> heights[b] == Height(b))
    && (forall b :: b in delivered && b.Node? ==>
          QcGood(valid, b) && QcRef(b) in storage && forall p :: p in Parents(b) ==> p in delivered)
  }

  /** The pending callbacks of block c are registered where they will be called.  `notifying` are the
      blocks whose delivery promise is being resolved right now. */
  ghost predicate Waits(valid: Block -> bool, s: Pipe, c: Block, k: Check, notifying: set<Block>) {
    && c.Node? && c in s.storage
    && (QcRef(c).Genesis? ==> k.verified.Some?)
    && (k.verified.Some? ==> k.verified.value == QcGood(valid, c))
    && QcRef(c) in (if k.qcMissing then s.fetchWaiting else s.storage)
    && (forall p :: p in Parents(c) ==> p in s.delivered + s.deliveryWaiting)
    && (forall p :: p in Parents(c) && p !in k.left ==> p in s.delivered)
    && (forall p :: p in k.left ==> p in Parents(c) && (p !in s.delivered || p in notifying))
  }

  /** The whole is the disjoint union of the parts. */
  predicate Split(whole: set<Block>, a: set<Block>, b: set<Block>, c: set<Block>) {
    whole == a + b + c && a !! b && c !! (a + b)
  }

  /** `starting` are the blocks whose callbacks are on the call stack. */
  ghost predicate Kept(valid: Block -> bool, s: Pipe, starting: set<Block>, notifying: set<Block>) {
    && DeliveredOk(valid, s.storage, s.delivered, s.heights)
    && s.deliveryWaiting !! s.delivered
    && Split(s.deliveryWaiting, s.onFetch, s.checks.Keys, starting)
    && s.onFetch <= s.fetchWaiting && notifying <= s.delivered
    && (forall c :: c in s.checks ==> Waits(valid, s, c, s.checks[c], notifying) && !Passed(s.checks[c]))
  }

  /** Nothing tracked is forgotten, and no new callback waits for a block that is already fetched. */
  ghost predicate Advances(s: Pipe, s': Pipe) {
    && s'.storage == s.storage && s'.requested == s.requested
    && s.fetchWaiting <= s'.fetchWaiting && s.delivered <= s'.delivered
    && Tracked(s) <= Tracked(s')
    && (forall b :: b in s'.onFetch && b in s.storage ==> b in s.onFetch)
    && (forall c :: c in s'.checks && s'.checks[c].qcMissing && QcRef(c) in s.storage ==>
          c in s.checks && s.checks[c].qcMissing)
  }

  /** What resolving delivery promises may change. */
  ghost predicate Shrinks(s: Pipe, s': Pipe) {
    && s' == s.(delivered := s'.delivered, heights := s'.heights, deliveryWaiting := s'.deliveryWaiting,
                checks := s'.checks)
    && s.delivered <= s'.delivered && s'.deliveryWaiting <= s.deliveryWaiting && Tracked(s') == Tracked(s)
    && s'.checks.Keys <= s.checks.Keys
    && forall c :: c in s'.checks ==>
         s'.checks[c].left <= s.checks[c].left && (s'.checks[c].qcMissing ==> s.checks[c].qcMissing)
  }

  /** The requests are tracked, and nothing that was not asked for. */
  ghost predicate Wanted(s: Pipe) {
    && s.requested <= Tracked(s)
    && forall b :: b in Tracked(s) ==> b == Genesis || exists r :: r in s.requested && Under(r, b)
  }

  // ---- what each small step does to the bookkeeping ----

  lemma AdvancesTransitive(a: Pipe, b: Pipe, c: Pipe)
    requires Advances(a, b) && Advances(b, c)
    ensures Advances(a, c)
  {
  }

  lemma ShrinksTransitive(a: Pipe, b: Pipe, c: Pipe)
    requires Shrinks(a, b) && Shrinks(b, c)
    ensures Shrinks(a, c)
  {
  }

  lemma ShrinksAdvances(s: Pipe, s': Pipe)
    requires Shrinks(s, s')
    ensures Advances(s, s')
  {
  }

  lemma WaitsOn(valid: Block -> bool, s: Pipe, s': Pipe, c: Block, k: Check, notifying: set<Block>,
                notifying': set<Block>)
    requires Waits(valid, s, c, k, notifying)
    requires s.storage <= s'.storage && s.fetchWaiting <= s'.fetchWaiting
    requires s.delivered <= s'.delivered <= s.delivered + notifying'
    requires Tracked(s) <= Tracked(s') && notifying <= notifying'
    ensures Waits(valid, s', c, k, notifying')
  {
  }

  lemma AllWaitOn(valid: Block -> bool, s: Pipe, s': Pipe, notifying: set<Block>, notifying': set<Block>)
    requires forall c :: c in s'.checks ==> Waits(valid, s, c, s'.checks[c], notifying) && !Passed(s'.checks[c])
    requires s.storage <= s'.storage && s.fetchWaiting <= s'.fetchWaiting
    requires s.delivered <= s'.delivered <= s.delivered + notifying'
    requires Tracked(s) <= Tracked(s') && notifying <= notifying'
    ensures forall c :: c in s'.checks ==> Waits(valid, s', c, s'.checks[c], notifying') && !Passed(s'.checks[c])
  {
    forall c | c in s'.checks ensures Waits(valid, s', c, s'.checks[c], notifying') {
      WaitsOn(valid, s, s', c, s'.checks[c], notifying, notifying');
    }
  }

  lemma Begin(valid: Block -> bool, s: Pipe, b: Block, starting: set<Block>)
    requires Kept(valid, s, starting, {}) && b !in Tracked(s)
    ensures var s' := s.(deliveryWaiting := s.deliveryWaiting + {b});
            Kept(valid, s', starting + {b}, {}) && Advances(s, s')
  {
    AllWaitOn(valid, s, s.(deliveryWaiting := s.deliveryWaiting + {b}), {}, {});
  }

  lemma Await(valid: Block -> bool, s: Pipe, b: Block, starting: set<Block>)
    requires Kept(valid, s, starting, {}) && b in starting && b in s.fetchWaiting && b !in s.storage
    ensures var s' := s.(onFetch := s.onFetch + {b});
            Kept(valid, s', starting - {b}, {}) && Advances(s, s')
  {
    AllWaitOn(valid, s, s.(onFetch := s.onFetch + {b}), {}, {});
  }

  lemma FetchMore(valid: Block -> bool, s: Pipe, x: Block, starting: set<Block>)
    requires Kept(valid, s, starting, {})
    ensures var s' := s.(fetchWaiting := s.fetchWaiting + {x});
            Kept(valid, s', starting, {}) && Advances(s, s')
  {
    AllWaitOn(valid, s, s.(fetchWaiting := s.fetchWaiting + {x}), {}, {});
  }

  /** What `promise::all` is created with, once every parent has been asked for. */
  function NewCheck(s: Pipe, b: Block): Check {
    Check(if QcRef(b).Genesis? then Some(true) else None, QcRef(b) !in s.storage,
          set p | p in Parents(b) && p !in s.delivered)
  }

  lemma ChecksSetUp(valid: Block -> bool, s: Pipe, b: Block, starting: set<Block>)
    requires Kept(valid, s, starting, {}) && b in starting && b.Node? && b in s.storage
    requires QcRef(b) in s.storage + s.fetchWaiting
    requires forall p :: p in Parents(b) ==> p in Tracked(s)
    ensures Waits(valid, s, b, NewCheck(s, b), {}) && b !in s.checks && b in Tracked(s)
    ensures Passed(NewCheck(s, b)) ==> Deliverable(valid, s.storage, s.delivered, b)
  {
  }

  lemma Stored(valid: Block -> bool, s: Pipe, b: Block)
    requires Kept(valid, s, {}, {})
    ensures Kept(valid, s.(storage := s.storage + {b}), {}, {})
  {
    AllWaitOn(valid, s, s.(storage := s.storage + {b}), {}, {});
  }

  lemma Register(valid: Block -> bool, s: Pipe, b: Block, k: Check, starting: set<Block>)
    requires Kept(valid, s, starting, {}) && b in starting && b !in s.checks
    requires Waits(valid, s, b, k, {}) && !Passed(k) && (k.qcMissing ==> QcRef(b) !in s.storage)
    ensures var s' := s.(checks := s.checks[b := k]);
            Kept(valid, s', starting - {b}, {}) && Advances(s, s')
  {
    hide Waits, DeliveredOk, Passed;
    var s' := s.(checks := s.checks[b := k]);
    AllWaitOn(valid, s, s', {}, {});
  }

  lemma Settle(valid: Block -> bool, s: Pipe, b: Block, starting: set<Block>, notifying: set<Block>)
    requires Kept(valid, s, starting, notifying) && b in starting && Deliverable(valid, s.storage, s.delivered, b)
    ensures b.Node? && b.parent in s.heights && b in s.deliveryWaiting && notifying + {b} - {b} == notifying
    ensures var s' := s.(delivered := s.delivered + {b}, heights := s.heights[b := s.heights[b.parent] + 1],
                         deliveryWaiting := s.deliveryWaiting - {b});
            Kept(valid, s', starting - {b}, notifying + {b}) && Shrinks(s, s')
  {
    assert b.parent in Parents(b);
    var s' := s.(delivered := s.delivered + {b}, heights := s.heights[b := s.heights[b.parent] + 1],
                 deliveryWaiting := s.deliveryWaiting - {b});
    AllWaitOn(valid, s, s', notifying, notifying + {b});
  }

  /** What on_deliver_blk asserts or relies on. */
  ghost predicate Deliverable(valid: Block -> bool, storage: set<Block>, delivered: set<Block>, b: Block) {
    && b.Node? && b in storage && QcRef(b) in storage && QcGood(valid, b)
    && forall p :: p in Parents(b) ==> p in delivered
  }

  lemma Narrow(valid: Block -> bool, s: Pipe, c: Block, k: Check, starting: set<Block>, notifying: set<Block>)
    requires Kept(valid, s, starting, notifying) && c in s.checks
    requires Waits(valid, s, c, k, notifying) && !Passed(k)
    requires k.left <= s.checks[c].left && (k.qcMissing ==> s.checks[c].qcMissing)
    ensures var s' := s.(checks := s.checks[c := k]);
            Kept(valid, s', starting, notifying) && Shrinks(s, s')
  {
    hide Waits, DeliveredOk, Passed;
    var s' := s.(checks := s.checks[c := k]);
    AllWaitOn(valid, s, s', notifying, notifying);
    assert s'.checks.Keys == s.checks.Keys;
  }

  lemma PassedIsDeliverable(valid: Block -> bool, s: Pipe, c: Block, k: Check, notifying: set<Block>)
    requires Waits(valid, s, c, k, notifying) && Passed(k)
    ensures Deliverable(valid, s.storage, s.delivered, c)
  {
  }

  lemma MoveBack(whole: set<Block>, a: set<Block>, b: set<Block>, c: set<Block>, x: Block)
    requires Split(whole, a, b, c) && x in b
    ensures Split(whole, a, b - {x}, c + {x}) && c + {x} - {x} == c
  {
  }

  lemma Drop(valid: Block -> bool, s: Pipe, c: Block, k: Check, starting: set<Block>, notifying: set<Block>)
    requires Kept(valid, s, starting, notifying) && c in s.checks
    requires Waits(valid, s, c, k, notifying) && Passed(k)
    ensures var s' := s.(checks := s.checks - {c});
            && Kept(valid, s', starting + {c}, notifying) && Shrinks(s, s')
            && Deliverable(valid, s'.storage, s'.delivered, c)
            && starting + {c} - {c} == starting
  {
    PassedIsDeliverable(valid, s, c, k, notifying);
    MoveBack(s.deliveryWaiting, s.onFetch, s.checks.Keys, starting, c);
    hide Waits, DeliveredOk, Passed, Deliverable, Split;
    var s' := s.(checks := s.checks - {c});
    AllWaitOn(valid, s, s', notifying, notifying);
    assert s'.checks.Keys == s.checks.Keys - {c};
  }

  /** The callback of a delivered parent b may be run for c. */
  lemma ParentArrived(valid: Block -> bool, s: Pipe, c: Block, b: Block, starting: set<Block>, notifying: set<Block>)
    requires Kept(valid, s, starting, notifying) && c in s.checks && b in s.delivered
    ensures Waits(valid, s, c, s.checks[c].(left := s.checks[c].left - {b}), notifying)
  {
  }

  lemma Notified(valid: Block -> bool, s: Pipe, b: Block, starting: set<Block>, notifying: set<Block>)
    requires Kept(valid, s, starting, notifying)
    requires forall c :: c in s.checks ==> b !in s.checks[c].left
    ensures Kept(valid, s, starting, notifying - {b})
  {
    forall c | c in s.checks ensures Waits(valid, s, c, s.checks[c], notifying - {b}) {
      assert Waits(valid, s, c, s.checks[c], notifying);
    }
  }

  class HotStuffBase {
    const valid: Block -> bool   // the answer of the signature check
    var storage: set<Block>
    var delivered: set<Block>
    var heights: map<Block, nat>
    var fetchWaiting: set<Block>
    var deliveryWaiting: set<Block>
    var onFetch: set<Block>
    var checks: map<Block, Check>
    ghost var requested: set<Block>

    ghost function View(): Pipe
      reads this
    {
      Pipe(storage, delivered, heights, fetchWaiting, deliveryWaiting, onFetch, checks, requested)
    }

    /** Between handlers. */
    ghost predicate Valid()
      reads this
    {
      Kept(valid, View(), {}, {}) && Wanted(View())
    }

    constructor (valid: Block -> bool)
      ensures this.valid == valid && Valid()
      ensures delivered == {Genesis} && requested == {}
    {
      this.valid := valid;
      storage, delivered, heights := {Genesis}, {Genesis}, map[Genesis := 0];
      fetchWaiting, deliveryWaiting, onFetch, checks := {}, {}, {}, map[];
      requested := {};
    }

    /** async_fetch_blk: whether the promise is fulfilled already. */
    method AsyncFetch(b: Block) returns (now: bool)
      modifies this`fetchWaiting
      ensures now <==> b in storage
      ensures fetchWaiting == if now then old(fetchWaiting) else old(fetchWaiting) + {b}
    {
      now := b in storage;
      if !now {
        fetchWaiting := fetchWaiting + {b};
      }
    }

    /** async_deliver_blk. */
    method AsyncDeliver(b: Block, ghost starting: set<Block>)
      requires Kept(valid, View(), starting, {})
      modifies this
      ensures Kept(valid, View(), starting, {}) && Advances(old(View()), View())
      ensures b in Tracked(View())
      ensures forall x :: x in Tracked(View()) && x !in old(Tracked(View())) ==> Under(b, x)
      decreases b, 1
    {
      if b in delivered || b in deliveryWaiting { return; }
      ghost var s := View();
      Begin(valid, s, b, starting);
      deliveryWaiting := deliveryWaiting + {b};
      FetchMore(valid, View(), b, starting + {b});
      var now := AsyncFetch(b);
      if now {
        StartChecks(b, starting + {b});
      } else {
        Await(valid, View(), b, starting + {b});
        onFetch := onFetch + {b};
      }
    }

    /** The callback for a fetched block: set up `promise::all` over the certificate check, the
        certified block and the parents. */
    method StartChecks(b: Block, ghost starting: set<Block>)
      requires b in starting && b.Node? && b in storage
      requires Kept(valid, View(), starting, {})
      modifies this
      ensures Kept(valid, View(), starting - {b}, {}) && Advances(old(View()), View())
      ensures b in Tracked(View())
      ensures forall x :: x in Tracked(View()) && x !in old(Tracked(View())) ==> Under(b, x)
      decreases b, 0
    {
      hide Kept, Waits, DeliveredOk, QcGood, Under, Deliverable;
      ghost var s := View();
      FetchMore(valid, s, QcRef(b), starting);
      var verified := if QcRef(b).Genesis? then Some(true) else None;
      var now := AsyncFetch(QcRef(b));
      var ps := Parents(b);
      for i := 0 to |ps|
        invariant Kept(valid, View(), starting, {}) && Advances(s, View())
        invariant QcRef(b) in storage + fetchWaiting
        invariant forall j :: 0 <= j < i ==> ps[j] in Tracked(View())
        invariant forall x :: x in Tracked(View()) && x !in Tracked(s) ==> Under(b, x)
      {
        ghost var s' := View();
        AsyncDeliver(ps[i], starting);
        NewlyUnder(b, ps[i], s', View());
        AdvancesTransitive(s, s', View());
      }
      ghost var s1 := View();
      var k := Check(verified, !now, set p | p in ps && p !in delivered);
      assert k == NewCheck(s1, b);
      ChecksSetUp(valid, s1, b, starting);
      if Passed(k) {
        DeliverBlk(b, starting, {});
        ShrinksAdvances(s1, View());
      } else {
        Register(valid, s1, b, k, starting);
        checks := checks[b := k];
      }
      AdvancesTransitive(s, s1, View());
    }

    /** The callback of `promise::all` when every check passed: on_deliver_blk, and the resolution of
        the delivery promise. */
    method DeliverBlk(b: Block, ghost starting: set<Block>, ghost notifying: set<Block>)
      requires Kept(valid, View(), starting, notifying)
      requires b in starting && Deliverable(valid, storage, delivered, b)
      modifies this`delivered, this`heights, this`deliveryWaiting, this`checks
      ensures Kept(valid, View(), starting - {b}, notifying) && Shrinks(old(View()), View())
      ensures b in delivered
      decreases deliveryWaiting, 0
    {
      hide Kept, Deliverable, Shrinks, Height;
      ghost var s := View();
      Settle(valid, s, b, starting, notifying);
      heights := heights[b := heights[b.parent] + 1];
      delivered := delivered + {b};
      deliveryWaiting := deliveryWaiting - {b};
      ghost var s' := View();
      Notify(b, starting - {b}, notifying + {b});
      ShrinksTransitive(s, s', View());
    }

    /** The callbacks registered on the delivery promise of b: those of its waiting children. */
    method Notify(b: Block, ghost starting: set<Block>, ghost notifying: set<Block>)
      requires b in delivered && Kept(valid, View(), starting, notifying)
      modifies this`delivered, this`heights, this`deliveryWaiting, this`checks
      ensures Kept(valid, View(), starting, notifying - {b}) && Shrinks(old(View()), View())
      ensures old(delivered) <= delivered
      decreases deliveryWaiting, 2
    {
      hide Kept, Waits, DeliveredOk, QcGood, Advances;
      ghost var s := View();
      var children := set c | c in checks && b in checks[c].left;
      while children != {}
        invariant Kept(valid, View(), starting, notifying) && Shrinks(s, View())
        invariant forall c :: c in checks && b in checks[c].left ==> c in children
        decreases children
      {
        var c :| c in children;
        children := children - {c};
        if c in checks {
          ghost var s' := View();
          ParentArrived(valid, s', c, b, starting, notifying);
          Recheck(c, checks[c].(left := checks[c].left - {b}), starting, notifying);
          ShrinksTransitive(s, s', View());
        }
      }
      Notified(valid, View(), b, starting, notifying);
    }

    /** One of the promises that c waits for was fulfilled, leaving it to wait for k. */
    method Recheck(c: Block, k: Check, ghost starting: set<Block>, ghost notifying: set<Block>)
      requires Kept(valid, View(), starting, notifying)
      requires c in checks && k.left <= checks[c].left && (k.qcMissing ==> checks[c].qcMissing)
      requires Waits(valid, View(), c, k, notifying)
      modifies this`delivered, this`heights, this`deliveryWaiting, this`checks
      ensures Kept(valid, View(), starting, notifying) && Shrinks(old(View()), View())
      ensures c in checks ==> checks[c] == k
      decreases deliveryWaiting, 1
    {
      hide Kept, Waits, DeliveredOk, QcGood, Advances;
      ghost var s := View();
      if Passed(k) {
        Drop(valid, s, c, k, starting, notifying);
        checks := checks - {c};
        ghost var s' := View();
        DeliverBlk(c, starting + {c}, notifying);
        ShrinksTransitive(s, s', View());
      } else {
        Narrow(valid, s, c, k, starting, notifying);
        checks := checks[c := k];
      }
    }

    /** async_deliver_blk as the proposal and vote handlers call it. */
    method Request(b: Block)
      requires Valid()
      modifies this
      ensures Valid()
      ensures requested == old(requested) + {b} && storage == old(storage) && old(delivered) <= delivered
    {
      hide Kept, Under, Wanted;
      ghost var s := View();
      AsyncDeliver(b, {});
      NowWanted(valid, s, View(), b);
      requested := requested + {b};
    }

    /** A block is parsed out of a message and put into the storage. */
    method AddBlk(b: Block)
      requires Valid()
      modifies this`storage
      ensures Valid()
      ensures storage == old(storage) + {b}
    {
      hide Kept, Under, Wanted;
      ghost var s := View();
      Stored(valid, s, b);
      storage := storage + {b};
      StillWanted(s, View());
    }

    /** on_fetch_blk: run the callbacks registered on the fetch promise of b. */
    method OnFetchBlk(b: Block)
      requires Valid() && b in storage
      modifies this
      ensures Valid()
      ensures b !in fetchWaiting
      ensures storage == old(storage) && requested == old(requested) && old(delivered) <= delivered
    {
      hide Kept, Waits, Under, Wanted;
      if b !in fetchWaiting { return; }
      ghost var s := View();
      NotItsOwnQc(valid, s);
      var waiting := set c | c in checks && checks[c].qcMissing && QcRef(c) == b;
      if b in onFetch {
        waiting := waiting + {b};
      }
      while waiting != {}
        invariant Kept(valid, View(), {}, {}) && Advances(s, View()) && Wanted(View())
        invariant b in waiting ==> b in onFetch
        invariant forall c :: c in waiting ==> c == b || QcRef(c) == b
        invariant StillWaiting(View(), b) <= waiting
        decreases waiting
      {
        ghost var s' := View();
        var c :| c in waiting;
        waiting := waiting - {c};
        if c == b {
          BlockFetched(b);
        } else if c in checks {
          QcFetched(c);
        }
        AdvancesTransitive(s, s', View());
      }
      ghost var s1 := View();
      Fetched(valid, s1, b);
      fetchWaiting := fetchWaiting - {b};
      StillWanted(s1, View());
    }

    method BlockFetched(b: Block)
      requires Kept(valid, View(), {}, {}) && Wanted(View()) && b in onFetch && b in storage
      modifies this
      ensures Kept(valid, View(), {}, {}) && Wanted(View()) && Advances(old(View()), View())
      ensures StillWaiting(View(), b) <= old(StillWaiting(View(), b)) - {b}
    {
      hide Kept, Waits, Under, Wanted;
      ghost var s := View();
      LeaveOnFetch(valid, s, b);
      onFetch := onFetch - {b};
      ghost var s' := View();
      StillWanted(s, s');
      StartChecks(b, {b});
      assert {b} - {b} == {};
      AdvancesTransitive(s, s', View());
      WantedUnder(s', View(), b);
    }

    method QcFetched(c: Block)
      requires Kept(valid, View(), {}, {}) && Wanted(View()) && c in checks && QcRef(c) in storage
      modifies this`delivered, this`heights, this`deliveryWaiting, this`checks
      ensures Kept(valid, View(), {}, {}) && Wanted(View()) && Advances(old(View()), View())
      ensures StillWaiting(View(), QcRef(c)) <= old(StillWaiting(View(), QcRef(c))) - {c}
    {
      hide Kept, Waits, Under;
      ghost var s := View();
      CertifiedArrived(valid, s, c);
      Recheck(c, checks[c].(qcMissing := false), {}, {});
      ShrinksAdvances(s, View());
    }

    /** Some vpool task is done: the certificate of c has been checked. */
    method OnVerified(c: Block)
      requires Valid() && c in checks && checks[c].verified.None?
      modifies this`delivered, this`heights, this`deliveryWaiting, this`checks
      ensures Valid()
      ensures c in checks ==> checks[c].verified == Some(valid(c))
      ensures old(delivered) <= delivered
    {
      hide Kept, Under;
      ghost var s := View();
      VerdictArrived(valid, s, c);
      Recheck(c, checks[c].(verified := Some(valid(c))), {}, {});
    }
  }

  /** The blocks with a callback on the fetch promise of b. */
  function StillWaiting(s: Pipe, b: Block): set<Block> {
    (set c | c in s.checks && s.checks[c].qcMissing && QcRef(c) == b) + (if b in s.onFetch then {b} else {})
  }

  lemma QcRefIsOther(b: Block)
    requires b.Node?
    ensures QcRef(b) != b
  {
    assert b.qcBlock < b;
  }

  lemma NotItsOwnQc(valid: Block -> bool, s: Pipe)
    requires Kept(valid, s, {}, {})
    ensures forall c :: c in s.checks ==> QcRef(c) != c
  {
    forall c | c in s.checks ensures QcRef(c) != c {
      assert Waits(valid, s, c, s.checks[c], {});
      QcRefIsOther(c);
    }
  }

  lemma LeaveOnFetch(valid: Block -> bool, s: Pipe, b: Block)
    requires Kept(valid, s, {}, {}) && b in s.onFetch && b in s.storage
    ensures var s' := s.(onFetch := s.onFetch - {b});
            && Kept(valid, s', {b}, {}) && Advances(s, s') && b.Node? && b in Tracked(s)
            && StillWaiting(s', b) <= StillWaiting(s, b) - {b}
  {
    AllWaitOn(valid, s, s.(onFetch := s.onFetch - {b}), {}, {});
    QcRefIsOther(b);
  }

  /** The callback of the certified block may be run for c. */
  lemma CertifiedArrived(valid: Block -> bool, s: Pipe, c: Block)
    requires Kept(valid, s, {}, {}) && c in s.checks && QcRef(c) in s.storage
    ensures Waits(valid, s, c, s.checks[c].(qcMissing := false), {})
    ensures c != QcRef(c) && c !in s.onFetch
  {
    NotItsOwnQc(valid, s);
  }

  /** The callback of the certificate check may be run for c. */
  lemma VerdictArrived(valid: Block -> bool, s: Pipe, c: Block)
    requires Kept(valid, s, {}, {}) && c in s.checks && s.checks[c].verified.None?
    ensures Waits(valid, s, c, s.checks[c].(verified := Some(valid(c))), {})
  {
  }

  lemma {:induction false} UnderTransitive(c: Block, b: Block, a: Block)
    requires Under(c, b) && Under(b, a)
    ensures Under(c, a)
  {
    if c != b {
      if Under(c.parent, b) {
        UnderTransitive(c.parent, b, a);
      } else {
        var i :| 0 <= i < |c.uncles| && Under(c.uncles[i], b);
        UnderTransitive(c.uncles[i], b, a);
      }
    }
  }

  lemma StillWanted(s: Pipe, s': Pipe)
    requires Wanted(s) && Tracked(s') == Tracked(s) && s'.requested == s.requested
    ensures Wanted(s')
  {
  }

  lemma WantedUnder(s: Pipe, s': Pipe, b: Block)
    requires Wanted(s) && b in Tracked(s) && Tracked(s) <= Tracked(s') && s'.requested == s.requested && b.Node?
    requires forall x :: x in Tracked(s') && x !in Tracked(s) ==> Under(b, x)
    ensures Wanted(s')
  {
    var r :| r in s.requested && Under(r, b);
    forall x | x in Tracked(s') && x !in Tracked(s) ensures Under(r, x) {
      UnderTransitive(r, b, x);
    }
  }

  lemma NowWanted(valid: Block -> bool, s: Pipe, s': Pipe, b: Block)
    requires Kept(valid, s', {}, {}) && Wanted(s) && b in Tracked(s') && Tracked(s) <= Tracked(s')
    requires s'.requested == s.requested
    requires forall x :: x in Tracked(s') && x !in Tracked(s) ==> Under(b, x)
    ensures var t := s'.(requested := s'.requested + {b});
            Kept(valid, t, {}, {}) && Wanted(t)
  {
    AllWaitOn(valid, s', s'.(requested := s'.requested + {b}), {}, {});
  }

  lemma Fetched(valid: Block -> bool, s: Pipe, b: Block)
    requires Kept(valid, s, {}, {}) && b in s.storage && StillWaiting(s, b) == {}
    ensures Kept(valid, s.(fetchWaiting := s.fetchWaiting - {b}), {}, {})
  {
    var s' := s.(fetchWaiting := s.fetchWaiting - {b});
    forall c | c in s'.checks ensures Waits(valid, s', c, s'.checks[c], {}) {
      assert Waits(valid, s, c, s.checks[c], {});
      assert c !in StillWaiting(s, b);
    }
    assert b !in StillWaiting(s, b);
  }

  // ---- what is delivered in the end ----

  /** At any time, a delivered block and everything under it has a good certificate, is fetched and is
      delivered itself. */
  lemma {:induction false} DeliveredIsSound(valid: Block -> bool, s: Pipe, b: Block, a: Block)
    requires Kept(valid, s, {}, {}) && b in s.delivered && Under(b, a)
    ensures AllGood(valid, b)
    ensures a in s.delivered && a in s.storage && QcRef(a) in s.storage
  {
    ParentsGood(valid, b);
    if b.Node? {
      assert b.parent in Parents(b);
      DeliveredIsSound(valid, s, b.parent, b.parent);
      forall i | 0 <= i < |b.uncles| ensures AllGood(valid, b.uncles[i]) {
        assert b.uncles[i] in Parents(b);
        DeliveredIsSound(valid, s, b.uncles[i], b.uncles[i]);
      }
      if a != b {
        if Under(b.parent, a) {
          DeliveredIsSound(valid, s, b.parent, a);
        } else {
          var i :| 0 <= i < |b.uncles| && Under(b.uncles[i], a);
          assert b.uncles[i] in Parents(b);
          DeliveredIsSound(valid, s, b.uncles[i], a);
        }
      }
    }
  }

  /** No fetch and no certificate check is outstanding. */
  ghost predicate Quiet(s: Pipe) {
    s.fetchWaiting == {} && forall c :: c in s.checks ==> s.checks[c].verified.Some?
  }

  lemma {:induction false} TrackedIsClosed(valid: Block -> bool, s: Pipe, b: Block, a: Block)
    requires Kept(valid, s, {}, {}) && Quiet(s) && b in Tracked(s) && Under(b, a)
    ensures a in Tracked(s) && a in s.storage
  {
    if b in s.checks {
      assert Waits(valid, s, b, s.checks[b], {});
    }
    if a != b {
      assert forall p :: p in Parents(b) ==> p in Tracked(s);
      if Under(b.parent, a) {
        assert b.parent in Parents(b);
        TrackedIsClosed(valid, s, b.parent, a);
      } else {
        var i :| 0 <= i < |b.uncles| && Under(b.uncles[i], a);
        assert b.uncles[i] in Parents(b);
        TrackedIsClosed(valid, s, b.uncles[i], a);
      }
    }
  }

  lemma {:induction false} GoodIsDelivered(valid: Block -> bool, s: Pipe, b: Block)
    requires Kept(valid, s, {}, {}) && Quiet(s) && b in Tracked(s) && AllGood(valid, b)
    ensures b in s.delivered
  {
    if b in s.checks {
      assert Waits(valid, s, b, s.checks[b], {});
      assert b.parent in Parents(b);
      GoodIsDelivered(valid, s, b.parent);
      forall i | 0 <= i < |b.uncles| ensures b.uncles[i] in s.delivered {
        assert b.uncles[i] in Parents(b);
        GoodIsDelivered(valid, s, b.uncles[i]);
      }
    }
  }

  /** Once nothing is outstanding, the delivered blocks are exactly those requested, or lying under a
      requested one, whose whole ancestry has good certificates; and everything under a requested
      block has been fetched. */
  lemma QuietIsExact(valid: Block -> bool, s: Pipe)
    requires Kept(valid, s, {}, {}) && Wanted(s) && Quiet(s)
    ensures forall b :: b in s.delivered <==>
              b == Genesis || ((exists r :: r in s.requested && Under(r, b)) && AllGood(valid, b))
    ensures forall r, b :: r in s.requested && Under(r, b) ==> b in s.storage
  {
    forall b | b in s.delivered ensures AllGood(valid, b) {
      DeliveredIsSound(valid, s, b, b);
    }
    forall r, b | r in s.requested && Under(r, b) ensures b in s.storage && (AllGood(valid, b) ==> b in s.delivered) {
      TrackedIsClosed(valid, s, r, b);
      if AllGood(valid, b) {
        GoodIsDelivered(valid, s, b);
      }
    }
  }

  /** So the order in which blocks, checks and requests arrived makes no difference. */
  lemma DeliveryIsConfluent(valid: Block -> bool, s: Pipe, t: Pipe)
    requires Kept(valid, s, {}, {}) && Wanted(s) && Quiet(s)
    requires Kept(valid, t, {}, {}) && Wanted(t) && Quiet(t)
    requires s.requested == t.requested
    ensures s.delivered == t.delivered && s.heights == t.heights
  {
    QuietIsExact(valid, s);
    QuietIsExact(valid, t);
    assert forall b :: b in s.delivered <==> b in t.delivered;
  }

  /** on_deliver_blk is only ever called when the core accepts the block. */
  lemma DeliverableIsAccepted(valid: Block -> bool, st: State, b: Block)
    requires Deliverable(valid, st.fetched, st.delivered, b)
    ensures Core.Deliver(st, b).error == NoError && b in Core.Deliver(st, b).state.delivered
  {
  }
}
