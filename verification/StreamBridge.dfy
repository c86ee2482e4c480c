/** The bridge of `StorageService.iter_xz_json_kvitems` (src/automana/core/storage/storage.py):
    a thread parses items into a bounded queue and ends with a sentinel; the async consumer
    takes them out and yields them. The two run at their own pace: a run is any interleaving
    of their atomic steps, which are the methods of `Bridge`.

    The source is what the parser will deliver before it ends or raises. */
module StreamBridge {
  import opened Options

  datatype Source<T, E> = Source(items: seq<T>, failure: Option<E>)

  datatype Entry<T> = Item(value: T) | Sentinel

  datatype Producer<T> =
    | Parsing             // about to ask the parser for the next item
    | Putting(value: T)   // blocked in `bridge.put` while the queue is full
    | Ending              // about to put the sentinel
    | Finished

  datatype Consumer<T> =
    | Getting             // blocked in `bridge.get` while the queue is empty
    | Yielding(value: T)  // about to hand the item to the caller
    | Checking            // saw the sentinel, about to look at the error cell
    | Returned
    | Raised

  datatype State<T, E> = State(
    parsed: nat, producer: Producer<T>, err: Option<E>,
    queue: seq<Entry<T>>,
    consumer: Consumer<T>, yielded: seq<T>)

  datatype Actor = TheProducer | TheConsumer

  function Initial<T, E>(): State<T, E> {
    State(0, Parsing, None, [], Getting, [])
  }

  /** Python's Queue: a bound below one means no bound. */
  predicate Full<T>(queue: seq<Entry<T>>, maxsize: int) {
    maxsize > 0 && |queue| >= maxsize
  }

  predicate Final<T, E>(s: State<T, E>) {
    s.consumer.Returned? || s.consumer.Raised?
  }

  predicate Enabled<T, E>(s: State<T, E>, maxsize: int, a: Actor) {
    match a
    case TheProducer =>
      !s.producer.Finished? && ((s.producer.Putting? || s.producer.Ending?) ==> !Full(s.queue, maxsize))
    case TheConsumer => !Final(s) && (s.consumer.Getting? ==> s.queue != [])
  }

  function Produce<T, E>(src: Source<T, E>, s: State<T, E>): State<T, E> {
    match s.producer
    case Parsing =>
      if s.parsed < |src.items| then s.(producer := Putting(src.items[s.parsed]), parsed := s.parsed + 1)
      else s.(producer := Ending, err := if src.failure.Some? then src.failure else s.err)
    case Putting(v) => s.(producer := Parsing, queue := s.queue + [Item(v)])
    case Ending => s.(producer := Finished, queue := s.queue + [Sentinel])
    case Finished => s
  }

  function Consume<T, E>(s: State<T, E>): State<T, E>
    requires s.consumer.Getting? ==> s.queue != []
  {
    match s.consumer
    case Getting =>
      s.(queue := s.queue[1..],
         consumer := if s.queue[0].Sentinel? then Checking else Yielding(s.queue[0].value))
    case Yielding(v) => s.(consumer := Getting, yielded := s.yielded + [v])
    case Checking => s.(consumer := if s.err.Some? then Raised else Returned)
    case Returned => s
    case Raised => s
  }

  function Next<T, E>(src: Source<T, E>, s: State<T, E>, a: Actor): State<T, E>
    requires a.TheConsumer? ==> s.consumer.Getting? ==> s.queue != []
  {
    if a.TheProducer? then Produce(src, s) else Consume(s)
  }

  // ---------------------------------------------------------------- the code

  /** The queue and the error cell the thread and the consumer share, with one method for
      each of their atomic steps. */
  class Bridge<T, E> {
    const src: Source<T, E>
    const maxsize: int
    var parsed: nat
    var producer: Producer<T>
    var err: Option<E>
    var queue: seq<Entry<T>>
    var consumer: Consumer<T>
    var yielded: seq<T>

    function Now(): State<T, E>
      reads this
    {
      State(parsed, producer, err, queue, consumer, yielded)
    }

    constructor (src: Source<T, E>, maxsize: int)
      ensures Now() == Initial() && this.src == src && this.maxsize == maxsize
    {
      this.src, this.maxsize := src, maxsize;
      parsed, producer, err, queue, consumer, yielded := 0, Parsing, None, [], Getting, [];
    }

    /** The thread's `for` asks the parser: an item, the end, or an error for the cell. */
    method ParseNext()
      requires producer.Parsing?
      modifies this
      ensures Now() == Next(src, old(Now()), TheProducer)
    {
      if parsed < |src.items| {
        producer := Putting(src.items[parsed]);
        parsed := parsed + 1;
      } else {
        if src.failure.Some? {
          err := src.failure;
        }
        producer := Ending;
      }
    }

    /** `bridge.put` of an item, or of the sentinel in the `finally`. */
    method Put()
      requires (producer.Putting? || producer.Ending?) && Enabled(Now(), maxsize, TheProducer)
      modifies this
      ensures Now() == Next(src, old(Now()), TheProducer)
    {
      if producer.Putting? {
        queue := queue + [Item(producer.value)];
        producer := Parsing;
      } else {
        queue := queue + [Sentinel];
        producer := Finished;
      }
    }

    method Get()
      requires consumer.Getting? && Enabled(Now(), maxsize, TheConsumer)
      modifies this
      ensures Now() == Next(src, old(Now()), TheConsumer)
    {
      var item := queue[0];
      queue := queue[1..];
      consumer := if item.Sentinel? then Checking else Yielding(item.value);
    }

    method Yield()
      requires consumer.Yielding?
      modifies this
      ensures Now() == Next(src, old(Now()), TheConsumer)
    {
      yielded := yielded + [consumer.value];
      consumer := Getting;
    }

    /** After the loop: re-raise what the thread left in the cell. */
    method Check()
      requires consumer.Checking?
      modifies this
      ensures Now() == Next(src, old(Now()), TheConsumer)
    {
      consumer := if err.Some? then Raised else Returned;
    }
  }

  // ---------------------------------------------------------------- the invariant

  function Items<T>(queue: seq<Entry<T>>): seq<T> {
    if queue == [] then []
    else Items(queue[..|queue| - 1]) + if queue[|queue| - 1].Item? then [queue[|queue| - 1].value] else []
  }

  function InHand<T>(p: Producer<T>): seq<T> {
    if p.Putting? then [p.value] else []
  }

  function Taken<T>(c: Consumer<T>): seq<T> {
    if c.Yielding? then [c.value] else []
  }

  /** No item is lost, duplicated or reordered between the parser and the caller. */
  ghost predicate Conserved<T, E>(src: Source<T, E>, s: State<T, E>) {
    && s.parsed <= |src.items|
    && s.yielded + Taken(s.consumer) + Items(s.queue) + InHand(s.producer) + src.items[s.parsed..] == src.items
  }

  ghost predicate SeenSentinel<T>(c: Consumer<T>) {
    c.Checking? || c.Returned? || c.Raised?
  }

  /** The sentinel is in the queue exactly from the producer's last step until the consumer
      takes it, and then it is the last entry and the only one of its kind. */
  ghost predicate SentinelLast<T, E>(s: State<T, E>) {
    && (forall i :: 0 <= i < |s.queue| && s.queue[i].Sentinel? ==> i == |s.queue| - 1)
    && (s.producer.Finished? ==> (SeenSentinel(s.consumer) <==> s.queue == []))
    && (s.producer.Finished? && s.queue != [] ==> s.queue[|s.queue| - 1].Sentinel?)
    && (!s.producer.Finished? ==> !SeenSentinel(s.consumer) && forall i :: 0 <= i < |s.queue| ==> s.queue[i].Item?)
  }

  ghost predicate ErrorCell<T, E>(src: Source<T, E>, s: State<T, E>) {
    && (s.producer.Ending? || s.producer.Finished? ==> s.parsed == |src.items| && s.err == src.failure)
    && (!s.producer.Ending? && !s.producer.Finished? ==> s.err.None?)
    && (s.consumer.Raised? ==> s.err.Some?)
    && (s.consumer.Returned? ==> s.err.None?)
  }

  ghost predicate Inv<T, E>(src: Source<T, E>, s: State<T, E>, maxsize: int) {
    && Conserved(src, s) && SentinelLast(s) && ErrorCell(src, s)
    && (maxsize > 0 ==> |s.queue| <= maxsize)
  }

  lemma ItemsAppend<T>(q: seq<Entry<T>>, e: Entry<T>)
    ensures Items(q + [e]) == Items(q) + if e.Item? then [e.value] else []
  {
    assert (q + [e])[..|q + [e]| - 1] == q;
  }

  lemma Assoc<T>(a: seq<T>, b: seq<T>, c: seq<T>)
    ensures a + b + c == a + (b + c)
  {
  }

  lemma {:induction false} ItemsHead<T>(q: seq<Entry<T>>)
    requires q != []
    ensures Items(q) == (if q[0].Item? then [q[0].value] else []) + Items(q[1..])
  {
    var front, last := q[..|q| - 1], q[|q| - 1];
    if front == [] {
      assert q[1..] == [];
    } else {
      ItemsHead(front);
      assert q[1..] == front[1..] + [last];
      ItemsAppend(front[1..], last);
      Assoc(if q[0].Item? then [q[0].value] else [], Items(front[1..]), if last.Item? then [last.value] else []);
    }
  }

  lemma Regroup<T>(a: seq<T>, b: seq<T>, c: seq<T>, d: seq<T>, e: seq<T>)
    ensures a + b + c + (d + e) == a + (b + c) + d + e
    ensures a + b + (c + d) + e == a + (b + c) + d + e
    ensures c == [] ==> a + b + c + (d + e) == a + b + d + e
  {
  }

  lemma ProduceConserves<T, E>(src: Source<T, E>, s: State<T, E>)
    requires Conserved(src, s)
    ensures Conserved(src, Produce(src, s))
  {
    var s' := Produce(src, s);
    var done := s.yielded + Taken(s.consumer);
    match s.producer
    case Parsing =>
      if s.parsed < |src.items| {
        var head, rest := [src.items[s.parsed]], src.items[s.parsed + 1..];
        assert src.items[s.parsed..] == head + rest;
        Regroup(done, Items(s.queue), [], head, rest);
      }
    case Putting(v) =>
      ItemsAppend(s.queue, Item(v));
      Regroup(done, Items(s.queue), [v], [], src.items[s.parsed..]);
      assert [v] + [] == [v];
    case Ending =>
      ItemsAppend(s.queue, Sentinel);
      assert Items(s'.queue) == Items(s.queue);
    case Finished =>
  }

  lemma ProduceKeepsInv<T, E>(src: Source<T, E>, s: State<T, E>, maxsize: int)
    requires Inv(src, s, maxsize) && Enabled(s, maxsize, TheProducer)
    ensures Inv(src, Produce(src, s), maxsize)
  {
    ProduceConserves(src, s);
  }

  lemma ConsumeKeepsInv<T, E>(src: Source<T, E>, s: State<T, E>, maxsize: int)
    requires Inv(src, s, maxsize) && Enabled(s, maxsize, TheConsumer)
    ensures Inv(src, Consume(s), maxsize)
  {
    match s.consumer
    case Getting =>
      ItemsHead(s.queue);
      var head := if s.queue[0].Item? then [s.queue[0].value] else [];
      assert s.yielded + [] + (head + Items(s.queue[1..])) == s.yielded + head + Items(s.queue[1..]);
    case Yielding(v) =>
      assert s.yielded + [v] + [] == s.yielded + [v];
    case Checking =>
    case Returned =>
    case Raised =>
  }

  // ---------------------------------------------------------------- runs

  /** A schedule picks who moves next, never someone who is blocked. */
  ghost predicate Runnable<T, E>(src: Source<T, E>, maxsize: int, schedule: seq<Actor>)
    decreases |schedule|, 0
  {
    schedule != [] ==>
      && Runnable(src, maxsize, schedule[..|schedule| - 1])
      && Enabled(Reached(src, maxsize, schedule[..|schedule| - 1]), maxsize, schedule[|schedule| - 1])
  }

  ghost function Reached<T, E>(src: Source<T, E>, maxsize: int, schedule: seq<Actor>): State<T, E>
    requires Runnable(src, maxsize, schedule)
    decreases |schedule|, 1
  {
    if schedule == [] then Initial()
    else Next(src, Reached(src, maxsize, schedule[..|schedule| - 1]), schedule[|schedule| - 1])
  }

  /** In every interleaving: what was yielded, taken, queued, in the producer's hand and
      still unparsed is the source in order; the queue keeps its bound; the sentinel is last. */
  lemma {:induction false} EveryRunKeepsInv<T, E>(src: Source<T, E>, maxsize: int, schedule: seq<Actor>)
    requires Runnable(src, maxsize, schedule)
    ensures Inv(src, Reached(src, maxsize, schedule), maxsize)
  {
    if schedule == [] {
      assert src.items[0..] == src.items;
    } else {
      var before := schedule[..|schedule| - 1];
      EveryRunKeepsInv(src, maxsize, before);
      if schedule[|schedule| - 1].TheProducer? {
        ProduceKeepsInv(src, Reached(src, maxsize, before), maxsize);
      } else {
        ConsumeKeepsInv(src, Reached(src, maxsize, before), maxsize);
      }
    }
  }

  /** When the stream ends, the caller has seen exactly what was parsed before any error,
      and the stream ended by raising iff the producer failed. */
  lemma FinalStateIsComplete<T, E>(src: Source<T, E>, maxsize: int, schedule: seq<Actor>)
    requires Runnable(src, maxsize, schedule) && Final(Reached(src, maxsize, schedule))
    ensures
      var s := Reached(src, maxsize, schedule);
      && s.yielded == src.items && s.queue == []
      && (s.consumer.Raised? <==> src.failure.Some?)
      && s.err == src.failure
  {
    EveryRunKeepsInv(src, maxsize, schedule);
    var s := Reached(src, maxsize, schedule);
    assert src.items[|src.items|..] == [];
  }

  // ---------------------------------------------------------------- progress

  /** Steps still to come: four for every unparsed item, and so on down the line. */
  function Remaining<T, E>(src: Source<T, E>, s: State<T, E>): int {
    4 * (|src.items| - s.parsed)
    + (match s.producer case Parsing => 4 case Putting(_) => 7 case Ending => 3 case Finished => 0)
    + 2 * |s.queue|
    + (match s.consumer case Getting => 0 case Yielding(_) => 1 case Checking => 1 case Returned => 0 case Raised => 0)
  }

  /** No deadlock: whoever is not done, somebody can move. */
  lemma SomebodyCanMove<T, E>(src: Source<T, E>, s: State<T, E>, maxsize: int)
    requires Inv(src, s, maxsize) && !Final(s)
    ensures Enabled(s, maxsize, TheProducer) || Enabled(s, maxsize, TheConsumer)
  {
  }

  lemma StepsCountDown<T, E>(src: Source<T, E>, s: State<T, E>, maxsize: int, a: Actor)
    requires Inv(src, s, maxsize) && Enabled(s, maxsize, a)
    ensures Remaining(src, Next(src, s, a)) == Remaining(src, s) - 1
  {
    if a.TheProducer? {
      match s.producer
      case Parsing =>
      case Putting(v) => ItemsAppend(s.queue, Item(v));
      case Ending => ItemsAppend(s.queue, Sentinel);
      case Finished =>
    } else if s.consumer.Getting? {
      ItemsHead(s.queue);
    }
  }

  lemma {:induction false} StepsTaken<T, E>(src: Source<T, E>, maxsize: int, schedule: seq<Actor>)
    requires Runnable(src, maxsize, schedule)
    ensures |schedule| + Remaining(src, Reached(src, maxsize, schedule)) == 4 * |src.items| + 4
  {
    if schedule != [] {
      var before := schedule[..|schedule| - 1];
      StepsTaken(src, maxsize, before);
      EveryRunKeepsInv(src, maxsize, before);
      StepsCountDown(src, Reached(src, maxsize, before), maxsize, schedule[|schedule| - 1]);
    }
  }

  /** Whatever the interleaving and the queue bound, a stream of n items takes exactly
      4n + 4 steps: a run that has taken that many has ended, and one that has taken fewer
      can go on. */
  lemma EveryStreamEndsAfter4nPlus4Steps<T, E>(src: Source<T, E>, maxsize: int, schedule: seq<Actor>)
    requires Runnable(src, maxsize, schedule)
    ensures |schedule| <= 4 * |src.items| + 4
    ensures |schedule| == 4 * |src.items| + 4 <==> Final(Reached(src, maxsize, schedule))
    ensures |schedule| < 4 * |src.items| + 4 ==>
      exists a :: Enabled(Reached(src, maxsize, schedule), maxsize, a)
  {
    EveryRunKeepsInv(src, maxsize, schedule);
    StepsTaken(src, maxsize, schedule);
    var s := Reached(src, maxsize, schedule);
    if !Final(s) {
      SomebodyCanMove(src, s, maxsize);
    }
  }
}
