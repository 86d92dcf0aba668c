/**
 The bounded multi-producer single-consumer queue as a state machine. Every atomic load, store
 and compare-exchange is one step; producers and the consumer interleave freely. Positions are
 unbounded counters, cells are found by position modulo the capacity.
 */
module MpscQueues {
  import opened Rings

  /** A cell: its sequence number and the value stored in it. */
  datatype Cell<T> = Cell(seq_: nat, data: T)

  /** Where a producer is inside one push of value `v`. */
  datatype Producer<T> =
    | Idle
    | Begun(v: T)                                   // try_claim entered
    | HavePos(v: T, pos: nat)                       // enqueue_pos_ loaded
    | HaveSeq(v: T, pos: nat, s: nat)               // the cell's sequence loaded
    | Claimed(v: T, pos: nat)                       // compare-exchange succeeded
    | Filled(v: T, pos: nat)                        // value written into the cell
    | Committing(v: T, pos: nat, s: nat)            // commit has loaded the sequence

  /** A claim: which producer took the position, for which of its pushes, and with what value. */
  datatype Claim<T> = Claim(who: nat, turn: int, v: T)

  datatype State<T> = State(
    cap: nat,
    enq: nat,                        // enqueue_pos_
    deq: nat,                        // dequeue_pos_
    cells: seq<Cell<T>>,
    producers: seq<Producer<T>>,
    asked: seq<seq<T>>,              // the values each producer has begun to push, in order
    frontSeen: bool,                 // front() returned the cell of `deq`
    log: seq<Claim<T>>,              // the claims in order; position k is log[k]
    got: seq<T>)                     // what the consumer has read, in order

  datatype Action<T> =
    | Begin(p: nat, v: T)
    | LoadPos(p: nat)
    | LoadSeq(p: nat)
    | CasOk(p: nat)                  // diff == 0 and the exchange succeeds
    | CasFail(p: nat)                // diff == 0 and the exchange fails (also spuriously): pos reloaded
    | GiveUp(p: nat)                 // diff < 0: full
    | Retry(p: nat)                  // diff > 0: pos reloaded
    | Fill(p: nat)
    | CommitLoad(p: nat)
    | CommitStore(p: nat)
    | Front                          // succeeds; a failing front changes nothing
    | Pop                            // reads the value and releases the cell

  ghost predicate Init<T>(s: State<T>) {
    && s.cap >= 2 && s.enq == s.deq == 0 && |s.cells| == s.cap
    && (forall i :: 0 <= i < s.cap ==> s.cells[i].seq_ == i)
    && (forall p :: 0 <= p < |s.producers| ==> s.producers[p] == Idle)
    && |s.asked| == |s.producers| && (forall p :: 0 <= p < |s.asked| ==> s.asked[p] == [])
    && !s.frontSeen && s.log == [] && s.got == []
  }

  predicate Shaped<T>(s: State<T>) {
    s.cap >= 2 && |s.cells| == s.cap && |s.asked| == |s.producers|
  }

  function CellAt<T>(cells: seq<Cell<T>>, pos: nat): Cell<T>
    requires |cells| > 0
  {
    cells[Slot(pos, |cells|)]
  }

  predicate Enabled<T>(s: State<T>, a: Action<T>)
    requires Shaped(s)
  {
    match a
    case Begin(p, v) => p < |s.producers| && s.producers[p].Idle?
    case LoadPos(p) => p < |s.producers| && s.producers[p].Begun?
    case LoadSeq(p) => p < |s.producers| && s.producers[p].HavePos?
    case CasOk(p) => p < |s.producers| && s.producers[p].HaveSeq? && s.producers[p].s == s.producers[p].pos
                     && s.enq == s.producers[p].pos
    case CasFail(p) => p < |s.producers| && s.producers[p].HaveSeq? && s.producers[p].s == s.producers[p].pos
    case GiveUp(p) => p < |s.producers| && s.producers[p].HaveSeq? && s.producers[p].s < s.producers[p].pos
    case Retry(p) => p < |s.producers| && s.producers[p].HaveSeq? && s.producers[p].s > s.producers[p].pos
    case Fill(p) => p < |s.producers| && s.producers[p].Claimed?
    case CommitLoad(p) => p < |s.producers| && s.producers[p].Filled?
    case CommitStore(p) => p < |s.producers| && s.producers[p].Committing?
    case Front => CellAt(s.cells, s.deq).seq_ >= s.deq + 1
    case Pop => s.frontSeen
  }

  function SetProducer<T>(s: State<T>, p: nat, x: Producer<T>): State<T>
    requires p < |s.producers|
  {
    s.(producers := s.producers[p := x])
  }

  function SetCell<T>(s: State<T>, pos: nat, c: Cell<T>): State<T>
    requires Shaped(s)
  {
    s.(cells := s.cells[Slot(pos, s.cap) := c])
  }

  function Step<T>(s: State<T>, a: Action<T>): State<T>
    requires Shaped(s) && Enabled(s, a)
  {
    match a
    case Begin(p, v) => SetProducer(s, p, Begun(v)).(asked := s.asked[p := s.asked[p] + [v]])
    case LoadPos(p) => SetProducer(s, p, HavePos(s.producers[p].v, s.enq))
    case LoadSeq(p) => var x := s.producers[p]; SetProducer(s, p, HaveSeq(x.v, x.pos, CellAt(s.cells, x.pos).seq_))
    case CasOk(p) => var x := s.producers[p];
      SetProducer(s, p, Claimed(x.v, x.pos)).(enq := s.enq + 1, log := s.log + [Claim(p, |s.asked[p]| - 1, x.v)])
    case CasFail(p) => SetProducer(s, p, HavePos(s.producers[p].v, s.enq))
    case GiveUp(p) => SetProducer(s, p, Idle)
    case Retry(p) => SetProducer(s, p, HavePos(s.producers[p].v, s.enq))
    case Fill(p) => var x := s.producers[p];
      SetCell(SetProducer(s, p, Filled(x.v, x.pos)), x.pos, CellAt(s.cells, x.pos).(data := x.v))
    case CommitLoad(p) => var x := s.producers[p]; SetProducer(s, p, Committing(x.v, x.pos, CellAt(s.cells, x.pos).seq_))
    case CommitStore(p) => var x := s.producers[p];
      SetCell(SetProducer(s, p, Idle), x.pos, CellAt(s.cells, x.pos).(seq_ := x.s + 1))
    case Front => s.(frontSeen := true)
    case Pop =>
      SetCell(s, s.deq, CellAt(s.cells, s.deq).(seq_ := s.deq + s.cap))
        .(deq := s.deq + 1, frontSeen := false, got := s.got + [CellAt(s.cells, s.deq).data])
  }

  /** A run: any sequence of steps, each enabled where it is taken. */
  predicate IsRun<T>(s: State<T>, actions: seq<Action<T>>)
    requires Shaped(s)
    decreases |actions|
  {
    actions == [] || (Enabled(s, actions[0]) && IsRun(Step(s, actions[0]), actions[1..]))
  }

  function After<T>(s: State<T>, actions: seq<Action<T>>): (r: State<T>)
    requires Shaped(s) && IsRun(s, actions)
    ensures Shaped(r)
    decreases |actions|
  {
    if actions == [] then s else After(Step(s, actions[0]), actions[1..])
  }

  // ---- the invariant ----

  /** The producer holds a claimed position it has not published yet. */
  predicate Holding<T>(x: Producer<T>) {
    x.Claimed? || x.Filled? || x.Committing?
  }

  /** Every outstanding position is either still held by its claimant, or published with the claimed value. */
  ghost predicate Outstanding<T>(cells: seq<Cell<T>>, producers: seq<Producer<T>>, log: seq<Claim<T>>, k: nat)
    requires |cells| > 0 && k < |log|
  {
    var c, w := CellAt(cells, k), log[k];
    if c.seq_ == k then
      w.who < |producers| && Holding(producers[w.who]) && producers[w.who].pos == k && producers[w.who].v == w.v
    else c.seq_ == k + 1 && c.data == w.v
  }

  ghost predicate ProducerOk<T>(s: State<T>, x: Producer<T>)
    requires Shaped(s)
  {
    match x
    case Idle => true
    case Begun(_) => true
    case HavePos(_, pos) => pos <= s.enq && (pos < s.deq + s.cap ==> pos <= CellAt(s.cells, pos).seq_)
    case HaveSeq(_, pos, q) => pos <= s.enq && q <= CellAt(s.cells, pos).seq_
    case Claimed(_, pos) => s.deq <= pos < s.enq && CellAt(s.cells, pos).seq_ == pos
    case Filled(v, pos) => s.deq <= pos < s.enq && CellAt(s.cells, pos) == Cell(pos, v)
    case Committing(v, pos, q) => s.deq <= pos < s.enq && CellAt(s.cells, pos) == Cell(pos, v) && q == pos
  }

  /** Two producers never hold the same position. */
  predicate Apart<T>(x: Producer<T>, y: Producer<T>) {
    Holding(x) && Holding(y) ==> x.pos != y.pos
  }

  ghost predicate Inv<T>(s: State<T>) {
    && Shaped(s) && s.deq <= s.enq <= s.deq + s.cap && |s.log| == s.enq && |s.got| == s.deq
    && (forall k :: s.deq <= k < s.enq ==> Outstanding(s.cells, s.producers, s.log, k))
    && (forall k :: s.enq <= k < s.deq + s.cap ==> CellAt(s.cells, k).seq_ == k)
    && (forall p :: 0 <= p < |s.producers| ==> ProducerOk(s, s.producers[p]))
    && (forall p, q :: 0 <= p < q < |s.producers| ==> Apart(s.producers[p], s.producers[q]))
    && (s.frontSeen ==> s.deq < s.enq && CellAt(s.cells, s.deq).seq_ == s.deq + 1)
    && (forall k :: 0 <= k < s.deq ==> s.got[k] == s.log[k].v)
  }

  /** The cells of all other positions in the current lap are untouched by a write at `pos`. */
  lemma {:induction false} OtherCells<T>(cells: seq<Cell<T>>, deq: nat, pos: nat, c: Cell<T>)
    requires |cells| > 0 && deq <= pos < deq + |cells|
    ensures CellAt(cells[Slot(pos, |cells|) := c], pos) == c
    ensures forall k: nat :: deq <= k < deq + |cells| && k != pos ==>
              CellAt(cells[Slot(pos, |cells|) := c], k) == CellAt(cells, k)
    ensures forall k: nat :: CellAt(cells[Slot(pos, |cells|) := c], k) == CellAt(cells, k)
              || (CellAt(cells[Slot(pos, |cells|) := c], k) == c && CellAt(cells, k) == CellAt(cells, pos))
  {
    forall k: nat | deq <= k < deq + |cells| && k != pos ensures Slot(k, |cells|) != Slot(pos, |cells|) {
      if k < pos { SlotsDiffer(k, pos, |cells|); } else { SlotsDiffer(pos, k, |cells|); }
    }
  }

  /** Steps that only move a producer that holds nothing. */
  lemma {:induction false} KeepMove<T>(s: State<T>, p: nat, x: Producer<T>, asked: seq<seq<T>>)
    requires Inv(s) && p < |s.producers| && !Holding(s.producers[p]) && !Holding(x) && ProducerOk(s, x)
    requires |asked| == |s.asked|
    ensures Inv(SetProducer(s, p, x).(asked := asked))
  {
    var s' := SetProducer(s, p, x).(asked := asked);
    forall k | s'.deq <= k < s'.enq ensures Outstanding(s'.cells, s'.producers, s'.log, k) {
      assert Outstanding(s.cells, s.producers, s.log, k);
    }
    forall q | 0 <= q < |s'.producers| ensures ProducerOk(s', s'.producers[q]) {
      assert ProducerOk(s, if q == p then x else s.producers[q]);
    }
  }

  /** A successful exchange happens only on a free cell, and the position was nobody else's. */
  lemma {:induction false} CasMeansFree<T>(s: State<T>, p: nat)
    requires Inv(s) && Enabled(s, CasOk(p))
    ensures s.enq < s.deq + s.cap && CellAt(s.cells, s.enq).seq_ == s.enq
  {
    assert ProducerOk(s, s.producers[p]);
    SlotNextLap(s.deq, s.cap);
    assert s.deq < s.enq ==> Outstanding(s.cells, s.producers, s.log, s.deq);
  }

  lemma {:induction false} KeepCas<T>(s: State<T>, p: nat)
    requires Inv(s) && Enabled(s, CasOk(p))
    ensures Inv(Step(s, CasOk(p)))
  {
    CasMeansFree(s, p);
    var s' := Step(s, CasOk(p));
    forall k | s'.deq <= k < s'.enq ensures Outstanding(s'.cells, s'.producers, s'.log, k) {
      if k < s.enq {
        assert Outstanding(s.cells, s.producers, s.log, k);
      }
    }
    forall q | 0 <= q < |s'.producers| ensures ProducerOk(s', s'.producers[q]) {
      assert ProducerOk(s, s.producers[q]);
    }
  }

  /** What a holder may do within its own cell: write the value, or publish and let go. */
  ghost predicate HolderStep<T>(y: Producer<T>, x: Producer<T>, c: Cell<T>) {
    && Holding(y)
    && (Holding(x) ==> x.pos == y.pos && x.v == y.v && c.seq_ == y.pos)
    && (!Holding(x) ==> x.Idle? && c == Cell(y.pos + 1, y.v))
    && (x.Filled? || x.Committing? ==> c.data == x.v)
    && (x.Committing? ==> x.s == x.pos)
  }

  lemma {:induction false} HolderOutstanding<T>(s: State<T>, p: nat, x: Producer<T>, c: Cell<T>, cells: seq<Cell<T>>, k: nat)
    requires Inv(s) && p < |s.producers| && HolderStep(s.producers[p], x, c)
    requires cells == s.cells[Slot(s.producers[p].pos, s.cap) := c]
    requires s.deq <= k < s.enq
    ensures Outstanding(cells, s.producers[p := x], s.log, k)
  {
    var pos := s.producers[p].pos;
    assert ProducerOk(s, s.producers[p]);
    assert Outstanding(s.cells, s.producers, s.log, k);
    assert Outstanding(s.cells, s.producers, s.log, pos);
    assert forall q :: 0 <= q < |s.producers| && q != p ==> Apart(s.producers[p], s.producers[q]) && Apart(s.producers[q], s.producers[p]);
    OtherCells(s.cells, s.deq, pos, c);
  }

  lemma {:induction false} HolderOthers<T>(s: State<T>, p: nat, x: Producer<T>, c: Cell<T>, s': State<T>, q: nat)
    requires Inv(s) && p < |s.producers| && HolderStep(s.producers[p], x, c) && q < |s.producers|
    requires s' == SetCell(SetProducer(s, p, x), s.producers[p].pos, c)
    ensures ProducerOk(s', s'.producers[q])
  {
    var pos := s.producers[p].pos;
    assert ProducerOk(s, s.producers[p]) && ProducerOk(s, s.producers[q]);
    assert q != p ==> Apart(s.producers[p], s.producers[q]) && Apart(s.producers[q], s.producers[p]);
    OtherCells(s.cells, s.deq, pos, c);
  }

  lemma {:induction false} HolderFree<T>(s: State<T>, p: nat, x: Producer<T>, c: Cell<T>, cells: seq<Cell<T>>)
    requires Inv(s) && p < |s.producers| && HolderStep(s.producers[p], x, c)
    requires cells == s.cells[Slot(s.producers[p].pos, s.cap) := c]
    ensures forall k :: s.enq <= k < s.deq + s.cap ==> CellAt(cells, k).seq_ == k
    ensures s.frontSeen ==> CellAt(cells, s.deq).seq_ == s.deq + 1
  {
    assert ProducerOk(s, s.producers[p]);
    OtherCells(s.cells, s.deq, s.producers[p].pos, c);
    forall k | s.enq <= k < s.deq + s.cap ensures CellAt(cells, k).seq_ == k {
      assert CellAt(s.cells, k).seq_ == k;
    }
  }

  lemma {:induction false} KeepHolder<T>(s: State<T>, p: nat, x: Producer<T>, c: Cell<T>)
    requires Inv(s) && p < |s.producers| && HolderStep(s.producers[p], x, c)
    ensures Inv(SetCell(SetProducer(s, p, x), s.producers[p].pos, c))
  {
    var s' := SetCell(SetProducer(s, p, x), s.producers[p].pos, c);
    forall k | s'.deq <= k < s'.enq ensures Outstanding(s'.cells, s'.producers, s'.log, k) {
      HolderOutstanding(s, p, x, c, s'.cells, k);
    }
    forall q | 0 <= q < |s'.producers| ensures ProducerOk(s', s'.producers[q]) {
      HolderOthers(s, p, x, c, s', q);
    }
    HolderFree(s, p, x, c, s'.cells);
  }

  lemma {:induction false} KeepPop<T>(s: State<T>)
    requires Inv(s) && Enabled(s, Pop)
    ensures Inv(Step(s, Pop))
  {
    var s' := Step(s, Pop);
    assert Outstanding(s.cells, s.producers, s.log, s.deq);
    OtherCells(s.cells, s.deq, s.deq, CellAt(s.cells, s.deq).(seq_ := s.deq + s.cap));
    SlotNextLap(s.deq, s.cap);
    forall k | s'.deq <= k < s'.enq ensures Outstanding(s'.cells, s'.producers, s'.log, k) {
      assert Outstanding(s.cells, s.producers, s.log, k);
    }
    forall k | s'.enq <= k < s'.deq + s'.cap ensures CellAt(s'.cells, k).seq_ == k {
      assert k < s.deq + s.cap ==> CellAt(s.cells, k).seq_ == k;
    }
    forall q | 0 <= q < |s'.producers| ensures ProducerOk(s', s'.producers[q]) {
      assert ProducerOk(s, s.producers[q]);
    }
  }

  lemma {:induction false} KeepFront<T>(s: State<T>)
    requires Inv(s) && Enabled(s, Front)
    ensures Inv(Step(s, Front))
  {
    assert s.deq < s.enq ==> Outstanding(s.cells, s.producers, s.log, s.deq);
    var s' := Step(s, Front);
    forall q | 0 <= q < |s'.producers| ensures ProducerOk(s', s'.producers[q]) {
      assert ProducerOk(s, s.producers[q]);
    }
  }

  /** The position just loaded is at most one lap behind its cell, unless the queue is full there. */
  lemma {:induction false} FreshPos<T>(s: State<T>, v: T)
    requires Inv(s)
    ensures ProducerOk(s, HavePos(v, s.enq))
  {
  }

  lemma {:induction false} KeepSearching<T>(s: State<T>, a: Action<T>)
    requires Inv(s) && Enabled(s, a) && (a.LoadPos? || a.LoadSeq? || a.CasFail? || a.GiveUp? || a.Retry?)
    ensures Inv(Step(s, a))
  {
    var x := s.producers[a.p];
    assert ProducerOk(s, x);
    FreshPos(s, x.v);
    var y := if a.LoadSeq? then HaveSeq(x.v, x.pos, CellAt(s.cells, x.pos).seq_)
             else if a.GiveUp? then Idle else HavePos(x.v, s.enq);
    KeepMove(s, a.p, y, s.asked);
  }

  lemma {:induction false} KeepWriting<T>(s: State<T>, a: Action<T>)
    requires Inv(s) && Enabled(s, a) && (a.Fill? || a.CommitLoad? || a.CommitStore?)
    ensures Inv(Step(s, a))
  {
    var x := s.producers[a.p];
    assert ProducerOk(s, x);
    var c := CellAt(s.cells, x.pos);
    if a.Fill? {
      KeepHolder(s, a.p, Filled(x.v, x.pos), c.(data := x.v));
    } else if a.CommitLoad? {
      KeepHolder(s, a.p, Committing(x.v, x.pos, c.seq_), c);
      assert s.cells[Slot(x.pos, s.cap) := c] == s.cells;
    } else {
      KeepHolder(s, a.p, Idle, c.(seq_ := x.s + 1));
    }
  }

  /** Every step of every thread keeps the invariant. */
  lemma {:induction false} KeepInv<T>(s: State<T>, a: Action<T>)
    requires Inv(s) && Enabled(s, a)
    ensures Inv(Step(s, a))
  {
    match a {
      case Begin(p, v) => KeepMove(s, p, Begun(v), s.asked[p := s.asked[p] + [v]]);
      case CasOk(p) => KeepCas(s, p);
      case Front => KeepFront(s);
      case Pop => KeepPop(s);
      case _ =>
        if a.Fill? || a.CommitLoad? || a.CommitStore? { KeepWriting(s, a); } else { KeepSearching(s, a); }
    }
  }

  // ---- order of pushes ----

  predicate Searching<T>(x: Producer<T>) {
    x.Begun? || x.HavePos? || x.HaveSeq?
  }

  /** Claims name a push of their producer with its value; later claims of a producer are later pushes. */
  ghost predicate Ordered<T>(s: State<T>) {
    && Shaped(s)
    && (forall p :: 0 <= p < |s.producers| && Searching(s.producers[p]) ==>
          s.asked[p] != [] && s.asked[p][|s.asked[p]| - 1] == s.producers[p].v)
    && (forall k :: 0 <= k < |s.log| ==> ClaimOk(s, s.log[k]))
    && (forall j, k :: 0 <= j < k < |s.log| && s.log[j].who == s.log[k].who ==> s.log[j].turn < s.log[k].turn)
  }

  ghost predicate ClaimOk<T>(s: State<T>, c: Claim<T>)
    requires Shaped(s)
  {
    && c.who < |s.asked| && 0 <= c.turn < |s.asked[c.who]| && s.asked[c.who][c.turn] == c.v
    && (Searching(s.producers[c.who]) ==> c.turn < |s.asked[c.who]| - 1)
  }

  /** Steps that leave claims and pushes alone and start no search. */
  lemma {:induction false} KeepClaims<T>(s: State<T>, s': State<T>)
    requires Ordered(s) && Shaped(s') && s'.asked == s.asked && s'.log == s.log && |s'.producers| == |s.producers|
    requires forall p :: 0 <= p < |s.producers| && Searching(s'.producers[p])
                         ==> Searching(s.producers[p]) && s'.producers[p].v == s.producers[p].v
    ensures Ordered(s')
  {
    hide Searching;
    forall k | 0 <= k < |s'.log| ensures ClaimOk(s', s'.log[k]) {
      assert ClaimOk(s, s.log[k]);
    }
  }

  /** Beginning a push. */
  lemma {:induction false} KeepBegin<T>(s: State<T>, p: nat, v: T)
    requires Ordered(s) && Enabled(s, Begin(p, v))
    ensures Ordered(Step(s, Begin(p, v)))
  {
    var s' := Step(s, Begin(p, v));
    forall k | 0 <= k < |s'.log| ensures ClaimOk(s', s'.log[k]) {
      assert ClaimOk(s, s.log[k]);
    }
  }

  /** Taking a position: the newest push of the producer claims it. */
  lemma {:induction false} KeepClaim<T>(s: State<T>, p: nat)
    requires Ordered(s) && Enabled(s, CasOk(p))
    ensures Ordered(Step(s, CasOk(p)))
  {
    var s' := Step(s, CasOk(p));
    var n := |s.log|;
    forall k | 0 <= k < |s'.log| ensures ClaimOk(s', s'.log[k]) {
      if k < n {
        assert ClaimOk(s, s.log[k]);
      }
    }
    forall j, k | 0 <= j < k < |s'.log| && s'.log[j].who == s'.log[k].who ensures s'.log[j].turn < s'.log[k].turn {
      if k == n {
        assert ClaimOk(s, s.log[j]);
      }
    }
  }

  lemma {:induction false} KeepOrdered<T>(s: State<T>, a: Action<T>)
    requires Inv(s) && Ordered(s) && Enabled(s, a)
    ensures Ordered(Step(s, a))
  {
    hide Inv, Ordered, Step, Enabled, Searching;
    InvShaped(s);
    match a {
      case Begin(p, v) => KeepBegin(s, p, v);
      case CasOk(p) => KeepClaim(s, p);
      case _ =>
        OtherSteps(s, a);
        KeepClaims(s, Step(s, a));
    }
  }

  lemma {:induction false} InvShaped<T>(s: State<T>)
    requires Inv(s)
    ensures Shaped(s)
  {
  }

  lemma {:induction false} OtherSteps<T>(s: State<T>, a: Action<T>)
    requires Shaped(s) && Enabled(s, a) && !a.Begin? && !a.CasOk?
    ensures var s' := Step(s, a);
            && Shaped(s') && s'.asked == s.asked && s'.log == s.log && |s'.producers| == |s.producers|
            && forall p :: 0 <= p < |s.producers| && Searching(s'.producers[p])
                           ==> Searching(s.producers[p]) && s'.producers[p].v == s.producers[p].v
  {
    hide CellAt, Slot;
  }

  lemma {:induction false} InitInv<T>(s: State<T>)
    requires Init(s)
    ensures Inv(s) && Ordered(s)
  {
    forall k: nat | k < s.cap ensures Slot(k, s.cap) == k {
      RemainderUnique(k, 0, k, s.cap);
    }
  }

  lemma {:induction false} RunInv<T>(s: State<T>, actions: seq<Action<T>>)
    requires Inv(s) && Ordered(s) && IsRun(s, actions)
    ensures Inv(After(s, actions)) && Ordered(After(s, actions))
    decreases |actions|
  {
    if actions != [] {
      KeepInv(s, actions[0]);
      KeepOrdered(s, actions[0]);
      RunInv(Step(s, actions[0]), actions[1..]);
    }
  }

  /**
   Safety over every run: the consumer has read, position by position and without a gap, the value
   of the one push that claimed the position; the pushes of each producer arrive in their order; and
   never more than a ring of claims is outstanding.
   */
  lemma {:induction false} Delivery<T>(s0: State<T>, actions: seq<Action<T>>)
    requires Init(s0) && IsRun(s0, actions)
    ensures var s := After(s0, actions);
            && |s.got| == s.deq <= s.enq == |s.log| <= s.deq + s.cap
            && (forall k :: 0 <= k < |s.log| ==>
                  s.log[k].who < |s.asked| && 0 <= s.log[k].turn < |s.asked[s.log[k].who]|)
            && (forall k :: 0 <= k < |s.got| ==> s.got[k] == s.asked[s.log[k].who][s.log[k].turn])
            && (forall j, k :: 0 <= j < k < |s.log| && s.log[j].who == s.log[k].who ==> s.log[j].turn < s.log[k].turn)
  {
    InitInv(s0);
    RunInv(s0, actions);
    var s := After(s0, actions);
    forall k | 0 <= k < |s.log|
      ensures s.log[k].who < |s.asked| && 0 <= s.log[k].turn < |s.asked[s.log[k].who]|
      ensures s.asked[s.log[k].who][s.log[k].turn] == s.log[k].v
    {
      assert ClaimOk(s, s.log[k]);
    }
  }

  /** Between publication and pop no step of any thread touches the cell. */
  lemma {:induction false} PublishedCellKept<T>(s: State<T>, a: Action<T>, k: nat)
    requires Inv(s) && Enabled(s, a) && s.deq <= k < s.enq && CellAt(s.cells, k).seq_ == k + 1
    requires k >= Step(s, a).deq
    ensures CellAt(Step(s, a).cells, k) == CellAt(s.cells, k)
  {
    if a.Fill? || a.CommitStore? {
      var x := s.producers[a.p];
      assert ProducerOk(s, x);
      OtherCells(s.cells, s.deq, x.pos, CellAt(Step(s, a).cells, x.pos));
    } else if a.Pop? {
      OtherCells(s.cells, s.deq, s.deq, CellAt(s.cells, s.deq).(seq_ := s.deq + s.cap));
    }
  }

  /** What front() returns is published: the consumer only ever reads a completed write. */
  lemma {:induction false} FrontIsPublished<T>(s: State<T>)
    requires Inv(s) && Enabled(s, Front)
    ensures s.deq < s.enq && CellAt(s.cells, s.deq) == Cell(s.deq + 1, s.log[s.deq].v)
  {
    assert s.deq < s.enq ==> Outstanding(s.cells, s.producers, s.log, s.deq);
  }

  /** A push is refused only if, when it read the cell, a whole ring of claims was outstanding. */
  lemma {:induction false} FullMeansFull<T>(s: State<T>, p: nat)
    requires Inv(s) && Enabled(s, LoadSeq(p))
    requires Enabled(Step(s, LoadSeq(p)), GiveUp(p))
    ensures s.enq == s.deq + s.cap && s.producers[p].pos == s.enq
  {
    assert ProducerOk(s, s.producers[p]);
  }

  lemma {:induction false} OneMore<T>(s: State<T>, a: Action<T>, rest: seq<Action<T>>)
    requires Shaped(s) && Enabled(s, a)
    requires Shaped(Step(s, a)) && IsRun(Step(s, a), rest)
    ensures IsRun(s, [a] + rest) && After(s, [a] + rest) == After(Step(s, a), rest)
  {
    hide Enabled, Step;
    assert ([a] + rest)[0] == a && ([a] + rest)[1..] == rest;
  }

  /** The second half of a push, once the position is claimed. */
  lemma {:induction false} SoloCommit<T>(s: State<T>, p: nat, v: T, pos: nat)
    requires Inv(s) && p < |s.producers| && s.producers[p] == Claimed(v, pos)
    ensures var actions := [Fill(p)] + ([CommitLoad(p)] + ([CommitStore(p)] + []));
            && IsRun(s, actions)
            && var r := After(s, actions);
               r == s.(producers := s.producers[p := Idle], cells := s.cells[Slot(pos, s.cap) := Cell(pos + 1, v)])
  {
    var s1 := Step(s, Fill(p));
    var s2 := Step(s1, CommitLoad(p));
    var s3 := Step(s2, CommitStore(p));
    assert ProducerOk(s, s.producers[p]);
    assert s3.cells == s.cells[Slot(pos, s.cap) := Cell(pos + 1, v)];
    assert s3.producers == s.producers[p := Idle];
    hide Inv, ProducerOk, Step, Enabled;
    OneMore(s2, CommitStore(p), []);
    OneMore(s1, CommitLoad(p), [CommitStore(p)] + []);
    OneMore(s, Fill(p), [CommitLoad(p)] + ([CommitStore(p)] + []));
  }

  /** With room in the ring a push that nobody disturbs succeeds: its value is published at the next position. */
  lemma {:induction false} SoloPush<T>(s: State<T>, p: nat, v: T)
    requires Inv(s) && p < |s.producers| && s.producers[p].Idle? && s.enq < s.deq + s.cap
    ensures var actions := [Begin(p, v)] + ([LoadPos(p)] + ([LoadSeq(p)] + ([CasOk(p)]
                           + ([Fill(p)] + ([CommitLoad(p)] + ([CommitStore(p)] + []))))));
            && IsRun(s, actions)
            && var r := After(s, actions);
               && r.enq == s.enq + 1 && r.deq == s.deq && r.producers == s.producers
               && r.log == s.log + [Claim(p, |s.asked[p]|, v)] && CellAt(r.cells, s.enq) == Cell(s.enq + 1, v)
  {
    var s1 := Step(s, Begin(p, v));
    var s2 := Step(s1, LoadPos(p));
    var s3 := Step(s2, LoadSeq(p));
    assert CellAt(s.cells, s.enq).seq_ == s.enq;
    var s4 := Step(s3, CasOk(p));
    KeepInv(s, Begin(p, v));
    KeepInv(s1, LoadPos(p));
    KeepInv(s2, LoadSeq(p));
    KeepInv(s3, CasOk(p));
    assert s4.producers[p] == Claimed(v, s.enq) && s4.producers[p := Idle] == s.producers;
    SoloCommit(s4, p, v, s.enq);
    hide Inv, ProducerOk, Step, Enabled;
    var rest := [Fill(p)] + ([CommitLoad(p)] + ([CommitStore(p)] + []));
    OneMore(s3, CasOk(p), rest);
    OneMore(s2, LoadSeq(p), [CasOk(p)] + rest);
    OneMore(s1, LoadPos(p), [LoadSeq(p)] + ([CasOk(p)] + rest));
    OneMore(s, Begin(p, v), [LoadPos(p)] + ([LoadSeq(p)] + ([CasOk(p)] + rest)));
  }

  /** What is published at the front can be taken, and is what its claimant pushed. */
  lemma {:induction false} SoloPop<T>(s: State<T>)
    requires Inv(s) && s.deq < s.enq && CellAt(s.cells, s.deq).seq_ == s.deq + 1
    ensures Enabled(s, Front) && Enabled(Step(s, Front), Pop)
    ensures var r := Step(Step(s, Front), Pop); r.deq == s.deq + 1 && r.got == s.got + [s.log[s.deq].v]
  {
    assert Outstanding(s.cells, s.producers, s.log, s.deq);
  }
}
