/**
 The bounded single-producer single-consumer ring as a state machine: two threads, each with a
 copy of its own of the other side's index, interleaving at every shared load and store.
 */
module SpscQueues {
  import opened Rings

  datatype ProducerPc<T> = PIdle | PClaimed | PFilled(v: T)
  datatype ConsumerPc<T> = CIdle | CSeen | CRead(v: T)

  datatype State<T> = State(
    slots: seq<T>,
    head: nat,              // written by the consumer
    tail: nat,              // written by the producer
    cachedHead: nat,        // producer-private
    cachedTail: nat,        // consumer-private
    producer: ProducerPc<T>,
    consumer: ConsumerPc<T>,
    published: seq<T>,      // every value published, in order
    got: seq<T>)            // every value consumed, in order

  datatype Action<T> =
    | Claim                 // try_claim, including the reload of the head when it looks full
    | Fill(v: T)            // the producer writes into the claimed slot
    | Publish
    | Front                 // front, including the reload of the tail when it looks empty
    | Read                  // the consumer looks at its slot
    | Pop

  function Cap<T>(s: State<T>): nat { |s.slots| }

  ghost predicate Init<T>(s: State<T>) {
    && Cap(s) >= 2 && s.head == s.tail == s.cachedHead == s.cachedTail == 0
    && s.producer == PIdle && s.consumer == CIdle && s.published == [] && s.got == []
  }

  predicate Enabled<T>(s: State<T>, a: Action<T>) {
    match a
    case Claim => s.producer.PIdle?
    case Fill(_) => s.producer.PClaimed?
    case Publish => s.producer.PFilled?
    case Front => s.consumer.CIdle?
    case Read => s.consumer.CSeen?
    case Pop => s.consumer.CRead?
  }

  function Step<T>(s: State<T>, a: Action<T>): State<T>
    requires Cap(s) > 0 && Enabled(s, a)
  {
    match a
    case Claim =>
      if s.tail - s.cachedHead < Cap(s) then s.(producer := PClaimed)
      else if s.tail - s.head >= Cap(s) then s.(cachedHead := s.head)
      else s.(cachedHead := s.head, producer := PClaimed)
    case Fill(v) => s.(slots := s.slots[Slot(s.tail, Cap(s)) := v], producer := PFilled(v))
    case Publish => s.(tail := s.tail + 1, producer := PIdle, published := s.published + [s.producer.v])
    case Front =>
      if s.head != s.cachedTail then s.(consumer := CSeen)
      else if s.head == s.tail then s.(cachedTail := s.tail)
      else s.(cachedTail := s.tail, consumer := CSeen)
    case Read => s.(consumer := CRead(s.slots[Slot(s.head, Cap(s))]))
    case Pop => s.(head := s.head + 1, consumer := CIdle, got := s.got + [s.consumer.v])
  }

  predicate IsRun<T>(s: State<T>, actions: seq<Action<T>>)
    requires Cap(s) > 0
    decreases |actions|
  {
    actions == [] || (Enabled(s, actions[0]) && IsRun(Step(s, actions[0]), actions[1..]))
  }

  function After<T>(s: State<T>, actions: seq<Action<T>>): (r: State<T>)
    requires Cap(s) > 0 && IsRun(s, actions)
    ensures Cap(r) > 0
    decreases |actions|
  {
    if actions == [] then s else After(Step(s, actions[0]), actions[1..])
  }

  ghost predicate Inv<T>(s: State<T>) {
    && Cap(s) >= 2 && s.head <= s.tail <= s.head + Cap(s)
    && s.cachedHead <= s.head <= s.cachedTail <= s.tail          // caches never run ahead
    && |s.published| == s.tail && s.got == s.published[..s.head]
    && (forall k :: s.head <= k < s.tail ==> s.slots[Slot(k, Cap(s))] == s.published[k])
    && (!s.producer.PIdle? ==> s.tail < s.head + Cap(s))
    && (s.producer.PFilled? ==> s.slots[Slot(s.tail, Cap(s))] == s.producer.v)
    && (!s.consumer.CIdle? ==> s.head < s.cachedTail)
    && (s.consumer.CRead? ==> s.consumer.v == s.published[s.head])
  }

  /** The slot the producer may write is none of those the consumer may still read. */
  lemma {:induction false} ClaimedSlotIsFree<T>(s: State<T>, k: nat)
    requires Inv(s) && !s.producer.PIdle? && s.head <= k < s.tail
    ensures Slot(s.tail, Cap(s)) != Slot(k, Cap(s))
  {
    SlotsDiffer(k, s.tail, Cap(s));
  }

  lemma {:induction false} KeepInv<T>(s: State<T>, a: Action<T>)
    requires Inv(s) && Enabled(s, a)
    ensures Inv(Step(s, a))
  {
    var s' := Step(s, a);
    if a.Fill? {
      forall k | s.head <= k < s.tail ensures s'.slots[Slot(k, Cap(s))] == s.published[k] {
        ClaimedSlotIsFree(s, k);
      }
    }
  }

  lemma {:induction false} RunInv<T>(s: State<T>, actions: seq<Action<T>>)
    requires Inv(s) && IsRun(s, actions)
    ensures Inv(After(s, actions))
    decreases |actions|
  {
    if actions != [] {
      KeepInv(s, actions[0]);
      RunInv(Step(s, actions[0]), actions[1..]);
    }
  }

  /** In every interleaving what was consumed is a prefix of what was published, the ring never over-full. */
  lemma {:induction false} ConsumedIsPrefix<T>(s0: State<T>, actions: seq<Action<T>>)
    requires Init(s0) && IsRun(s0, actions)
    ensures var s := After(s0, actions);
            && s.got <= s.published && |s.got| == s.head && |s.published| == s.tail
            && 0 <= s.tail - s.head <= Cap(s0) && s.cachedHead <= s.head && s.cachedTail <= s.tail
            && (forall k :: s.head <= k < s.tail && !s.producer.PIdle? ==> Slot(k, Cap(s0)) != Slot(s.tail, Cap(s0)))
  {
    RunInv(s0, actions);
    CapKept(s0, actions);
    var s := After(s0, actions);
    forall k | s.head <= k < s.tail && !s.producer.PIdle? ensures Slot(k, Cap(s0)) != Slot(s.tail, Cap(s0)) {
      ClaimedSlotIsFree(s, k);
    }
  }

  /** The values the producer put into slots, in the order of its fills. */
  function Fills<T>(actions: seq<Action<T>>): seq<T> {
    if actions == [] then [] else (if actions[0].Fill? then [actions[0].v] else []) + Fills(actions[1..])
  }

  /** The value filled in but not published yet. */
  function Waiting<T>(s: State<T>): seq<T> {
    if s.producer.PFilled? then [s.producer.v] else []
  }

  /** What is published are the values filled in, each once and in their order. */
  lemma {:induction false} FillsArePublished<T>(s: State<T>, actions: seq<Action<T>>)
    requires Cap(s) > 0 && Inv(s) && IsRun(s, actions)
    ensures var r := After(s, actions); r.published + Waiting(r) == s.published + Waiting(s) + Fills(actions)
    decreases |actions|
  {
    hide Inv, Step, Enabled, Waiting;
    if actions != [] {
      var a, m := actions[0], Step(s, actions[0]);
      KeepInv(s, a);
      InvCap(m);
      FillsArePublished(m, actions[1..]);
      StepPublishes(s, a);
      var now: seq<T> := if a.Fill? then [a.v] else [];
      assert (s.published + Waiting(s) + now) + Fills(actions[1..]) == s.published + Waiting(s) + (now + Fills(actions[1..]));
    }
  }

  lemma {:induction false} InvCap<T>(s: State<T>)
    requires Inv(s)
    ensures Cap(s) > 0
  {
  }

  lemma {:induction false} StepPublishes<T>(s: State<T>, a: Action<T>)
    requires Cap(s) > 0 && Enabled(s, a)
    ensures var m := Step(s, a); m.published + Waiting(m) == s.published + Waiting(s) + if a.Fill? then [a.v] else []
  {
  }

  lemma {:induction false} CapKept<T>(s: State<T>, actions: seq<Action<T>>)
    requires Cap(s) > 0 && IsRun(s, actions)
    ensures Cap(After(s, actions)) == Cap(s)
    decreases |actions|
  {
    if actions != [] {
      CapKept(Step(s, actions[0]), actions[1..]);
    }
  }

  /** The caches only cost a reload: a claim is refused exactly when the ring is full, a front when it is empty. */
  lemma {:induction false} CachesAreTransparent<T>(s: State<T>)
    requires Inv(s)
    ensures s.producer.PIdle? ==> (Step(s, Claim).producer.PIdle? <==> s.tail - s.head == Cap(s))
    ensures s.consumer.CIdle? ==> (Step(s, Front).consumer.CIdle? <==> s.head == s.tail)
  {
  }
}
