/** The bounded queue between the chunk producer and the sender. */
module BlockingQueue {

  /** A wait on a condition variable is a precondition: the call goes
      on, holding the lock, once the awaited condition is true. */
  class BoundedBlockingQueue<T(==)> {
    const capacity: nat
    var queue: seq<T>
    var closed: bool

    ghost predicate Valid()
      reads this
    {
      0 < capacity && |queue| <= capacity
    }

    constructor (capacity: nat)
      requires capacity > 0
      ensures Valid() && queue == [] && !closed && this.capacity == capacity
    {
      this.capacity, queue, closed := capacity, [], false;
    }

    method Push(value: T) returns (accepted: bool)
      requires Valid() && (closed || |queue| < capacity)
      modifies this
      ensures Valid() && closed == old(closed)
      ensures accepted == !closed
      ensures queue == if accepted then old(queue) + [value] else old(queue)
    {
      if closed {
        return false;
      }
      queue := queue + [value];
      accepted := true;
    }

    /** The popped element as a sequence of length at most one: empty means closed and drained. */
    method Pop() returns (value: seq<T>)
      requires Valid() && (closed || queue != [])
      modifies this
      ensures Valid() && closed == old(closed)
      ensures |value| <= 1 && old(queue) == value + queue
      ensures value == [] <==> old(queue) == []
      ensures value == [] ==> closed
    {
      if queue == [] {
        return [];
      }
      value := [queue[0]];
      queue := queue[1..];
    }

    method Close()
      requires Valid()
      modifies this
      ensures Valid() && closed && queue == old(queue)
    {
      closed := true;
    }
  }
}

/** The sender as a transition system.

    The worker thread, the producer and the completion handlers of the sends in flight
    interleave at lock boundaries: one action below is one critical section.
 */
module Sender {

  /** A chunk handed to the queue; `id` tells equal chunks apart. */
  datatype Chunk = Chunk(id: nat, size: nat)

  /** A chunk on its way, with the attempt it is waiting for or making.  `tries` is a history
      variable: how many attempts to send the chunk have ended. */
  datatype Pending = Pending(chunk: Chunk, attempt: nat, tries: nat)

  datatype Window = Window(chunks: nat, bytes: nat, retries: nat)

  datatype Options = Options(capacity: nat, connections: nat, maxSendRetries: nat) {
    predicate Valid() { 0 < capacity && 0 < connections }

    function MaxAttempts(): (n: nat)
      ensures n >= 1
    {
      if maxSendRetries > 1 then maxSendRetries else 1
    }
  }

  /** What the threads share. */
  datatype Shared = Shared(
    queue: seq<Chunk>, closed: bool,
    retry: seq<Pending>,
    inflight: nat, finishing: bool,
    window: Window)

  /** Where the worker is in its loop. */
  datatype Pc =
    | Top | RetryPop | QueuePop | CheckClosed | SetFinishing | WaitDrain | FinalCheck
    | Acquire(held: Pending)
    | Connect(held: Pending)
    | Failing(held: Pending)
    | WorkerRelease
    | Done(drained: bool)

  /** `sending` are the sends in flight, `releasing` counts handlers that have dealt with their
      chunk and still have to give their slot back; the last line is history. */
  datatype State = State(
    sh: Shared, stop: bool, pc: Pc,
    sending: seq<Pending>, releasing: nat,
    accepted: seq<Chunk>, delivered: seq<Pending>, dropped: seq<Pending>, abandoned: seq<Pending>,
    pushes: nat, reported: Window)

  // ----- The critical sections -----

  function NoMetrics(): Window { Window(0, 0, 0) }

  function AddWindows(v: Window, w: Window): Window {
    Window(v.chunks + w.chunks, v.bytes + w.bytes, v.retries + w.retries)
  }

  function AttemptsBefore(attempt: nat): nat {
    if attempt > 0 then attempt - 1 else 0
  }

  /** The metrics section of a finished chunk, up to the report. */
  function Recorded(w: Window, p: Pending, success: bool): Window {
    if success then Window(w.chunks + 1, w.bytes + p.chunk.size, w.retries + AttemptsBefore(p.attempt))
    else w.(retries := w.retries + AttemptsBefore(p.attempt))
  }

  /** Reporting starts a new window. */
  function Closed(w: Window, report: bool): Window {
    if report then NoMetrics() else w
  }

  function Finish(sh: Shared, p: Pending, success: bool, report: bool): Shared {
    sh.(window := Closed(Recorded(sh.window, p, success), report))
  }

  function PushRetry(sh: Shared, p: Pending): Shared {
    sh.(retry := sh.retry + [Ended(p).(attempt := p.attempt + 1)])
  }

  function AcquireSlot(sh: Shared): Shared {
    sh.(inflight := sh.inflight + 1)
  }

  function ReleaseSlot(sh: Shared): Shared {
    if sh.inflight > 0 then sh.(inflight := sh.inflight - 1) else sh
  }

  /** The same chunk after one more attempt has ended. */
  function Ended(p: Pending): Pending {
    p.(tries := p.tries + 1)
  }

  // ----- The transition system -----

  datatype Action =
    | Push(size: nat) | Close | RequestStop
    | SendOk(i: nat, report: bool) | SendFail(i: nat, report: bool) | Release
    | Worker(connected: bool, report: bool)
    | FinalReport

  function Init(): State {
    State(Shared([], false, [], 0, false, NoMetrics()), false, Top, [], 0, [], [], [], [], 0, NoMetrics())
  }

  predicate Enabled(o: Options, s: State, a: Action) {
    match a
    case Push(_) => !s.sh.closed && |s.sh.queue| < o.capacity
    case Close => true
    case RequestStop => true
    case SendOk(i, _) => i < |s.sending|
    case SendFail(i, _) => i < |s.sending|
    case Release => s.releasing > 0
    case Worker(_, _) => WorkerEnabled(o, s)
    case FinalReport => s.pc.Done? && s.sh.inflight == 0
  }

  /** The waits: for an element or the closing of the queue, for a slot, for the drain. */
  predicate WorkerEnabled(o: Options, s: State) {
    match s.pc
    case QueuePop => s.sh.closed || s.sh.queue != []
    case Acquire(_) => s.sh.inflight < o.connections || s.stop
    case WaitDrain => s.stop || s.sh.retry != [] || s.sh.inflight == 0
    case Done(_) => false
    case _ => true
  }

  function Without<T>(ps: seq<T>, i: nat): seq<T>
    requires i < |ps|
  {
    ps[..i] + ps[i + 1..]
  }

  function Apply(o: Options, s: State, a: Action): State
    requires Enabled(o, s, a)
  {
    match a
    case Push(size) =>
      var chunk := Chunk(|s.accepted|, size);
      s.(sh := s.sh.(queue := s.sh.queue + [chunk]), accepted := s.accepted + [chunk])
    case Close => s.(sh := s.sh.(closed := true))
    case RequestStop => s.(stop := true)
    case SendOk(i, report) =>
      Succeeded(s, s.sending[i], report).(sending := Without(s.sending, i), releasing := s.releasing + 1)
    case SendFail(i, report) =>
      Failed(o, s, s.sending[i], report).(sending := Without(s.sending, i), releasing := s.releasing + 1)
    case Release => s.(sh := ReleaseSlot(s.sh), releasing := s.releasing - 1)
    case Worker(connected, report) => WorkerStep(o, s, connected, report)
    case FinalReport => s.(sh := s.sh.(window := NoMetrics()), reported := AddWindows(s.reported, s.sh.window))
  }

  function Reports(s: State, p: Pending, success: bool, report: bool): Window {
    if report then AddWindows(s.reported, Recorded(s.sh.window, p, success)) else s.reported
  }

  /** The success handler up to the release of its slot. */
  function Succeeded(s: State, p: Pending, report: bool): State {
    s.(sh := Finish(s.sh, p, true, report),
       delivered := s.delivered + [Ended(p)],
       reported := Reports(s, p, true, report))
  }

  /** The failure handler up to the release of its slot: drop, or queue for another attempt. */
  function Failed(o: Options, s: State, p: Pending, report: bool): State {
    if p.attempt >= o.MaxAttempts() then
      s.(sh := Finish(s.sh, p, false, report),
         dropped := s.dropped + [Ended(p)],
         reported := Reports(s, p, false, report))
    else
      s.(sh := PushRetry(s.sh, p), pushes := s.pushes + 1)
  }

  function WorkerStep(o: Options, s: State, connected: bool, report: bool): State
    requires WorkerEnabled(o, s)
  {
    match s.pc
    case Top => s.(pc := if s.stop then Done(false) else RetryPop)
    case RetryPop =>
      if s.sh.retry == [] then s.(pc := QueuePop)
      else s.(sh := s.sh.(retry := s.sh.retry[1..]), pc := Acquire(s.sh.retry[0]))
    case QueuePop =>
      if s.sh.queue == [] then s.(pc := CheckClosed)
      else s.(sh := s.sh.(queue := s.sh.queue[1..]), pc := Acquire(Pending(s.sh.queue[0], 1, 0)))
    case CheckClosed => s.(pc := if s.sh.closed then SetFinishing else Top)
    case SetFinishing => s.(sh := s.sh.(finishing := true), pc := WaitDrain)
    case WaitDrain =>
      if s.stop then s.(pc := Done(false))
      else if s.sh.retry != [] then s.(sh := s.sh.(finishing := false), pc := Top)
      else s.(pc := FinalCheck)
    case FinalCheck =>
      if s.sh.inflight == 0 then s.(pc := Done(true))
      else s.(sh := s.sh.(finishing := false), pc := Top)
    case Acquire(p) =>
      if s.stop then s.(pc := Done(false), abandoned := s.abandoned + [p])
      else s.(sh := AcquireSlot(s.sh), pc := Connect(p))
    case Connect(p) =>
      if connected then s.(sending := s.sending + [p], pc := Top) else s.(pc := Failing(p))
    case Failing(p) => Failed(o, s, p, report).(pc := WorkerRelease)
    case WorkerRelease => s.(sh := ReleaseSlot(s.sh), pc := Top)
    case Done(_) => s
  }

  // ----- Runs -----

  ghost predicate ValidRun(o: Options, s: State, run: seq<Action>)
    decreases |run|
  {
    run != [] ==> Enabled(o, s, run[0]) && ValidRun(o, Apply(o, s, run[0]), run[1..])
  }

  ghost function After(o: Options, s: State, run: seq<Action>): State
    requires ValidRun(o, s, run)
    decreases |run|
  {
    if run == [] then s else After(o, Apply(o, s, run[0]), run[1..])
  }

  // ----- Sums over chunks on their way -----

  datatype Quantity = Bytes | Retries | Work(max: nat, spent: nat)

  function Amount(q: Quantity, p: Pending): nat {
    match q
    case Bytes => p.chunk.size
    case Retries => AttemptsBefore(p.attempt)
    case Work(max, spent) => if 5 * (max + 1 - p.attempt) > spent then 5 * (max + 1 - p.attempt) - spent else 0
  }

  function Sum(q: Quantity, ps: seq<Pending>): nat
    decreases |ps|
  {
    if ps == [] then 0 else Amount(q, ps[0]) + Sum(q, ps[1..])
  }

  lemma {:induction false} SumAppends(q: Quantity, a: seq<Pending>, b: seq<Pending>)
    ensures Sum(q, a + b) == Sum(q, a) + Sum(q, b)
    decreases |a|
  {
    if a == [] {
      assert a + b == b;
    } else {
      assert (a + b)[1..] == a[1..] + b;
      SumAppends(q, a[1..], b);
    }
  }

  lemma SumAdds(q: Quantity, ps: seq<Pending>, p: Pending)
    ensures Sum(q, ps + [p]) == Sum(q, ps) + Amount(q, p)
  {
    SumAppends(q, ps, [p]);
  }

  lemma SumWithout(q: Quantity, ps: seq<Pending>, i: nat)
    requires i < |ps|
    ensures Sum(q, ps) == Sum(q, Without(ps, i)) + Amount(q, ps[i])
  {
    assert ps == ps[..i] + [ps[i]] + ps[i + 1..];
    SumAppends(q, ps[..i] + [ps[i]], ps[i + 1..]);
    SumAdds(q, ps[..i], ps[i]);
    SumAppends(q, ps[..i], ps[i + 1..]);
  }

  // ----- Where the chunks are -----

  function Chunks(ps: seq<Pending>): seq<Chunk> {
    seq(|ps|, i requires 0 <= i < |ps| => ps[i].chunk)
  }

  function Bag(ps: seq<Pending>): multiset<Chunk> {
    multiset(Chunks(ps))
  }

  function Held(pc: Pc): seq<Pending> {
    if pc.Acquire? || pc.Connect? || pc.Failing? then [pc.held] else []
  }

  function Everywhere(s: State): multiset<Chunk> {
    multiset(s.sh.queue) + Bag(Held(s.pc)) + Bag(s.sh.retry) + Bag(s.sending) + Finished(s) + Bag(s.abandoned)
  }

  function Finished(s: State): multiset<Chunk> {
    Bag(s.delivered) + Bag(s.dropped)
  }

  lemma BagOf0And1(p: Pending)
    ensures Bag([]) == multiset{} && Bag([p]) == multiset{p.chunk}
  {}

  lemma BagAdds(ps: seq<Pending>, p: Pending)
    ensures Bag(ps + [p]) == Bag(ps) + multiset{p.chunk}
  {
    assert Chunks(ps + [p]) == Chunks(ps) + [p.chunk];
  }

  lemma BagWithout(ps: seq<Pending>, i: nat)
    requires i < |ps|
    ensures Bag(ps) == Bag(Without(ps, i)) + multiset{ps[i].chunk}
  {
    assert Chunks(ps) == Chunks(ps[..i]) + [ps[i].chunk] + Chunks(ps[i + 1..]);
    assert Chunks(Without(ps, i)) == Chunks(ps[..i]) + Chunks(ps[i + 1..]);
  }

  lemma WithoutFirst<T>(ps: seq<T>)
    requires ps != []
    ensures Without(ps, 0) == ps[1..]
  {}

  // ----- The invariant -----

  /** The worker holds a slot between acquiring it and handing the chunk to a connection. */
  function WorkerSlots(pc: Pc): nat {
    if pc.Connect? || pc.Failing? || pc.WorkerRelease? then 1 else 0
  }

  ghost predicate SlotsBalance(o: Options, s: State) {
    && s.sh.inflight == |s.sending| + s.releasing + WorkerSlots(s.pc)
    && s.sh.inflight <= o.connections
  }

  ghost predicate Waiting(o: Options, ps: seq<Pending>) {
    forall p :: p in ps ==> 1 <= p.attempt <= o.MaxAttempts() && p.tries == p.attempt - 1
  }

  ghost predicate AttemptsCounted(o: Options, s: State) {
    && Waiting(o, Held(s.pc)) && Waiting(o, s.sh.retry) && Waiting(o, s.sending)
    && (forall p :: p in s.delivered ==> 1 <= p.tries == p.attempt <= o.MaxAttempts())
    && (forall p :: p in s.dropped ==> p.tries == p.attempt == o.MaxAttempts())
  }

  ghost predicate Draining(s: State) {
    && (s.pc.CheckClosed? || s.pc.SetFinishing? || s.pc.WaitDrain? || s.pc.FinalCheck? || s.pc == Done(true) ==>
          s.sh.closed && s.sh.queue == [])
    && (s.pc.FinalCheck? || s.pc == Done(true) ==> s.sh.retry == [] && s.sh.inflight == 0)
  }

  ghost predicate Conserved(s: State) {
    && multiset(s.accepted) == Everywhere(s)
    && (forall i :: 0 <= i < |s.accepted| ==> s.accepted[i].id == i)
  }

  /** The reported windows and the open one add up to what was delivered and dropped. */
  ghost predicate MetricsAdd(s: State) {
    && s.reported.chunks + s.sh.window.chunks == |s.delivered|
    && s.reported.bytes + s.sh.window.bytes == Sum(Bytes, s.delivered)
    && s.reported.retries + s.sh.window.retries == Sum(Retries, s.delivered) + Sum(Retries, s.dropped)
  }

  ghost predicate MetricsConserved(s: State) {
    && MetricsAdd(s)
    && s.pushes == Sum(Retries, s.delivered) + Sum(Retries, s.dropped) + Sum(Retries, s.sh.retry)
                   + Sum(Retries, s.sending) + Sum(Retries, Held(s.pc)) + Sum(Retries, s.abandoned)
  }

  ghost predicate QueueBounded(o: Options, s: State) {
    |s.sh.queue| <= o.capacity
  }

  ghost predicate Inv(o: Options, s: State) {
    && QueueBounded(o, s) && SlotsBalance(o, s) && AttemptsCounted(o, s) && Draining(s)
    && Conserved(s) && MetricsConserved(s)
  }

  // ----- Every action keeps the invariant -----

  lemma InitFields()
    ensures
      var s := Init();
      && s.pc == Top && Held(s.pc) == [] && s.sh.inflight == 0 && s.releasing == 0 && s.pushes == 0
      && s.sh.queue == [] && s.sh.retry == [] && s.sending == [] && s.accepted == []
      && s.delivered == [] && s.dropped == [] && s.abandoned == []
      && s.reported == s.sh.window == NoMetrics()
  {}

  lemma InitConserves()
    ensures Conserved(Init())
  {}

  lemma NothingAddsUp(s: State)
    requires s.delivered == [] && s.dropped == [] && s.abandoned == []
    requires s.sh.retry == [] && s.sending == [] && Held(s.pc) == [] && s.pushes == 0
    requires s.reported.chunks + s.sh.window.chunks == 0 && s.reported.bytes + s.sh.window.bytes == 0
    requires s.reported.retries + s.sh.window.retries == 0
    ensures MetricsConserved(s)
  {
    hide Amount, Held;
  }

  lemma InitMetrics()
    ensures MetricsConserved(Init())
  {
    hide MetricsConserved, Init, Held;
    InitFields();
    NothingAddsUp(Init());
  }

  lemma InitInv(o: Options)
    requires o.Valid()
    ensures Inv(o, Init())
  {
    hide Conserved, MetricsConserved, Init, Held;
    InitFields();
    InitConserves();
    InitMetrics();
  }

  lemma QueueKept(o: Options, s: State, a: Action)
    requires QueueBounded(o, s) && Enabled(o, s, a)
    ensures QueueBounded(o, Apply(o, s, a))
  {
    hide Failed, AddWindows, Recorded, Closed, Reports, WorkerStep;
    if a.SendFail? {
      FailedElsewhere(o, s, s.sending[a.i], a.report);
    } else if a.Worker? {
      WorkerQueueKept(o, s, a.connected, a.report);
    }
  }

  lemma WorkerQueueKept(o: Options, s: State, connected: bool, report: bool)
    requires QueueBounded(o, s) && WorkerEnabled(o, s)
    ensures QueueBounded(o, WorkerStep(o, s, connected, report))
  {
    hide Failed;
    if s.pc.Failing? {
      FailedElsewhere(o, s, s.pc.held, report);
    }
  }

  lemma SlotsKept(o: Options, s: State, a: Action)
    requires SlotsBalance(o, s) && Enabled(o, s, a)
    ensures SlotsBalance(o, Apply(o, s, a))
  {
    hide Failed, AddWindows, Recorded, Closed, Reports, WorkerStep;
    if a.SendFail? {
      FailedElsewhere(o, s, s.sending[a.i], a.report);
    } else if a.Worker? {
      WorkerSlotsKept(o, s, a.connected, a.report);
    }
  }

  predicate MovesChunks(pc: Pc) { pc.RetryPop? || pc.QueuePop? || pc.Acquire? || pc.Connect? || pc.Failing? }

  /** In the other sections of its loop the worker touches no chunk. */
  lemma WorkerIdles(o: Options, s: State, connected: bool, report: bool)
    requires WorkerEnabled(o, s) && !MovesChunks(s.pc)
    ensures
      var t := WorkerStep(o, s, connected, report);
      && t == s.(sh := s.sh.(inflight := t.sh.inflight, finishing := t.sh.finishing), pc := t.pc)
      && Held(t.pc) == [] == Held(s.pc)
  {}

  lemma WorkerFails(o: Options, s: State, connected: bool, report: bool)
    requires s.pc.Failing?
    ensures WorkerStep(o, s, connected, report) == Failed(o, s, s.pc.held, report).(pc := WorkerRelease)
  {
    hide Failed;
  }

  lemma WorkerSlotsKept(o: Options, s: State, connected: bool, report: bool)
    requires SlotsBalance(o, s) && WorkerEnabled(o, s)
    ensures SlotsBalance(o, WorkerStep(o, s, connected, report))
  {
    hide Failed;
    if s.pc.Failing? {
      FailedElsewhere(o, s, s.pc.held, report);
    }
  }

  lemma DrainingKept(o: Options, s: State, a: Action)
    requires SlotsBalance(o, s) && Draining(s) && Enabled(o, s, a)
    ensures Draining(Apply(o, s, a))
  {
    hide Failed, AddWindows, Recorded, Closed, Reports, WorkerStep;
    if a.SendFail? {
      FailedElsewhere(o, s, s.sending[a.i], a.report);
    } else if a.Worker? {
      WorkerDrainingKept(o, s, a.connected, a.report);
    }
  }

  lemma WorkerDrainingKept(o: Options, s: State, connected: bool, report: bool)
    requires SlotsBalance(o, s) && Draining(s) && WorkerEnabled(o, s)
    ensures Draining(WorkerStep(o, s, connected, report))
  {
    hide Failed;
  }

  lemma WithoutIsWithin<T>(ps: seq<T>, i: nat)
    requires i < |ps|
    ensures forall p :: p in Without(ps, i) ==> p in ps
  {}

  lemma FailedAttempts(o: Options, s: State, p: Pending, report: bool)
    requires AttemptsCounted(o, s) && 1 <= p.attempt <= o.MaxAttempts() && p.tries == p.attempt - 1
    ensures AttemptsCounted(o, Failed(o, s, p, report))
  {}

  lemma AttemptsKept(o: Options, s: State, a: Action)
    requires AttemptsCounted(o, s) && Enabled(o, s, a)
    ensures AttemptsCounted(o, Apply(o, s, a))
  {
    hide Without, Failed, WorkerStep, Recorded, Closed, Reports, AddWindows;
    match a
    case SendOk(i, _) =>
      assert s.sending[i] in s.sending;
      WithoutIsWithin(s.sending, i);
    case SendFail(i, report) =>
      assert s.sending[i] in s.sending;
      WithoutIsWithin(s.sending, i);
      FailedAttempts(o, s, s.sending[i], report);
      FailedElsewhere(o, s, s.sending[i], report);
    case Worker(connected, report) => WorkerAttempts(o, s, connected, report);
    case _ =>
  }

  lemma WorkerAttempts(o: Options, s: State, connected: bool, report: bool)
    requires AttemptsCounted(o, s) && WorkerEnabled(o, s)
    ensures AttemptsCounted(o, WorkerStep(o, s, connected, report))
  {
    hide Failed, WorkerStep, Held;
    if s.pc.Failing? {
      FailingAttempts(o, s, connected, report);
    } else if MovesChunks(s.pc) {
      MovedAttempts(o, s, connected, report);
    } else {
      WorkerIdles(o, s, connected, report);
    }
  }

  lemma MovedAttempts(o: Options, s: State, connected: bool, report: bool)
    requires AttemptsCounted(o, s) && WorkerEnabled(o, s) && MovesChunks(s.pc) && !s.pc.Failing?
    ensures AttemptsCounted(o, WorkerStep(o, s, connected, report))
  {
    match s.pc
    case RetryPop =>
      if s.sh.retry != [] {
        assert s.sh.retry[0] in s.sh.retry;
      }
    case Connect(p) => assert p in Held(s.pc);
    case _ =>
  }

  lemma FailingAttempts(o: Options, s: State, connected: bool, report: bool)
    requires AttemptsCounted(o, s) && s.pc.Failing?
    ensures AttemptsCounted(o, WorkerStep(o, s, connected, report))
  {
    hide Failed, WorkerStep;
    var p := s.pc.held;
    assert p in Held(s.pc);
    WorkerFails(o, s, connected, report);
    FailedAttempts(o, s, p, report);
    FailedElsewhere(o, s, p, report);
  }

  lemma FailedElsewhere(o: Options, s: State, p: Pending, report: bool)
    ensures
      var t := Failed(o, s, p, report);
      && t.pc == s.pc && t.sending == s.sending && t.delivered == s.delivered && t.abandoned == s.abandoned
      && t.accepted == s.accepted && t.sh.queue == s.sh.queue && t.sh.closed == s.sh.closed
      && t.sh.inflight == s.sh.inflight && t.releasing == s.releasing
  {}

  /** Where a chunk goes when an attempt has failed. */
  lemma FailedChunks(o: Options, s: State, p: Pending, report: bool)
    ensures
      var t := Failed(o, s, p, report);
      Bag(t.sh.retry) + Finished(t) == Bag(s.sh.retry) + Finished(s) + multiset{p.chunk}
  {
    hide Bag, Recorded, Closed, Reports;
    BagAdds(s.dropped, Ended(p));
    BagAdds(s.sh.retry, Ended(p).(attempt := p.attempt + 1));
  }

  /** A chunk in flight leaves for the retry queue or for the finished ones. */
  lemma FromFlight<T>(q: multiset<T>, h: multiset<T>, r: multiset<T>, s: multiset<T>, f: multiset<T>, a: multiset<T>,
                      r': multiset<T>, s': multiset<T>, f': multiset<T>, c: T)
    requires s == s' + multiset{c} && r' + f' == r + f + multiset{c}
    ensures q + h + r' + s' + f' + a == q + h + r + s + f + a
  {
    assert q + h + r' + s' + f' + a == (q + h + s' + a) + (r' + f');
    assert (q + h + s' + a) + (r + f + multiset{c}) == q + h + r + (s' + multiset{c}) + f + a;
  }

  /** A chunk the worker holds leaves for the retry queue or for the finished ones. */
  lemma FromWorker<T>(q: multiset<T>, h: multiset<T>, r: multiset<T>, s: multiset<T>, f: multiset<T>, a: multiset<T>,
                      r': multiset<T>, f': multiset<T>, c: T)
    requires h == multiset{c} && r' + f' == r + f + multiset{c}
    ensures q + multiset{} + r' + s + f' + a == q + h + r + s + f + a
  {
    assert q + multiset{} + r' + s + f' + a == (q + s + a) + (r' + f');
    assert (q + s + a) + (r + f + multiset{c}) == q + multiset{c} + r + s + f + a;
  }

  lemma SendOkConserves(o: Options, s: State, i: nat, report: bool)
    requires Conserved(s) && i < |s.sending|
    ensures Conserved(Apply(o, s, SendOk(i, report)))
  {
    hide Bag, Without, Recorded, Closed, Reports, AddWindows, Failed, WorkerStep;
    var c := s.sending[i].chunk;
    BagWithout(s.sending, i);
    BagAdds(s.delivered, Ended(s.sending[i]));
    FromFlight(multiset(s.sh.queue), Bag(Held(s.pc)), Bag(s.sh.retry), Bag(s.sending), Finished(s), Bag(s.abandoned),
               Bag(s.sh.retry), Bag(Without(s.sending, i)),
               Bag(s.delivered + [Ended(s.sending[i])]) + Bag(s.dropped), c);
  }

  lemma SendFailConserves(o: Options, s: State, i: nat, report: bool)
    requires Conserved(s) && i < |s.sending|
    ensures Conserved(Apply(o, s, SendFail(i, report)))
  {
    hide Bag, Without, Failed, WorkerStep, Succeeded, AddWindows;
    BagWithout(s.sending, i);
    FailedChunks(o, s, s.sending[i], report);
    FailedElsewhere(o, s, s.sending[i], report);
    var t := Failed(o, s, s.sending[i], report);
    FromFlight(multiset(s.sh.queue), Bag(Held(s.pc)), Bag(s.sh.retry), Bag(s.sending), Finished(s), Bag(s.abandoned),
               Bag(t.sh.retry), Bag(Without(s.sending, i)), Finished(t), s.sending[i].chunk);
  }

  lemma PushConserves(o: Options, s: State, size: nat)
    requires Conserved(s) && Enabled(o, s, Push(size))
    ensures Conserved(Apply(o, s, Push(size)))
  {}

  lemma SameListsConserve(s: State, t: State)
    requires Conserved(s) && t.accepted == s.accepted && Held(t.pc) == Held(s.pc)
    requires t.sh.queue == s.sh.queue && t.sh.retry == s.sh.retry && t.sending == s.sending
    requires t.delivered == s.delivered && t.dropped == s.dropped && t.abandoned == s.abandoned
    ensures Conserved(t)
  {}

  lemma ConservedKept(o: Options, s: State, a: Action)
    requires Conserved(s) && Enabled(o, s, a)
    ensures Conserved(Apply(o, s, a))
  {
    hide Conserved, WorkerStep, Succeeded, Failed, AddWindows, Held;
    match a
    case SendOk(i, report) => SendOkConserves(o, s, i, report);
    case SendFail(i, report) => SendFailConserves(o, s, i, report);
    case Worker(connected, report) => WorkerConserves(o, s, connected, report);
    case Push(size) => PushConserves(o, s, size);
    case _ => SameListsConserve(s, Apply(o, s, a));
  }

  lemma PopConserves(s: State, t: State)
    requires Conserved(s) && t.accepted == s.accepted && Held(s.pc) == [] && t.pc.Acquire?
    requires t.sending == s.sending && t.delivered == s.delivered
    requires t.dropped == s.dropped && t.abandoned == s.abandoned
    requires (t.sh.queue == s.sh.queue && s.sh.retry == [t.pc.held] + t.sh.retry)
             || (t.sh.retry == s.sh.retry && s.sh.queue == [t.pc.held.chunk] + t.sh.queue)
    ensures Conserved(t)
  {
    hide Bag;
    var p := t.pc.held;
    BagOf0And1(p);
    if t.sh.queue == s.sh.queue && s.sh.retry == [p] + t.sh.retry {
      BagWithout(s.sh.retry, 0);
      assert Without(s.sh.retry, 0) == t.sh.retry;
    }
  }

  lemma HoldConserves(s: State, t: State)
    requires Conserved(s) && t.accepted == s.accepted && Held(s.pc) != [] && Held(t.pc) == []
    requires t.sh.queue == s.sh.queue && t.sh.retry == s.sh.retry
    requires t.delivered == s.delivered && t.dropped == s.dropped
    requires (t.sending == s.sending + [s.pc.held] && t.abandoned == s.abandoned)
             || (t.sending == s.sending && t.abandoned == s.abandoned + [s.pc.held])
    ensures Conserved(t)
  {
    hide Bag;
    BagOf0And1(s.pc.held);
    BagAdds(s.sending, s.pc.held);
    BagAdds(s.abandoned, s.pc.held);
  }

  lemma FailingConserves(o: Options, s: State, report: bool)
    requires Conserved(s) && s.pc.Failing?
    ensures Conserved(Failed(o, s, s.pc.held, report).(pc := WorkerRelease))
  {
    hide Bag, Failed;
    var p := s.pc.held;
    BagOf0And1(p);
    FailedChunks(o, s, p, report);
    FailedElsewhere(o, s, p, report);
    var t := Failed(o, s, p, report);
    FromWorker(multiset(s.sh.queue), Bag(Held(s.pc)), Bag(s.sh.retry), Bag(s.sending), Finished(s), Bag(s.abandoned),
               Bag(t.sh.retry), Finished(t), p.chunk);
  }

  lemma RetryPopConserves(o: Options, s: State, connected: bool, report: bool)
    requires Conserved(s) && s.pc.RetryPop?
    ensures Conserved(WorkerStep(o, s, connected, report))
  {
    hide Conserved;
    var t := WorkerStep(o, s, connected, report);
    if t.pc.Acquire? {
      PopConserves(s, t);
    } else {
      SameListsConserve(s, t);
    }
  }

  lemma QueuePopConserves(o: Options, s: State, connected: bool, report: bool)
    requires Conserved(s) && s.pc.QueuePop? && WorkerEnabled(o, s)
    ensures Conserved(WorkerStep(o, s, connected, report))
  {
    hide Conserved;
    var t := WorkerStep(o, s, connected, report);
    if t.pc.Acquire? {
      PopConserves(s, t);
    } else {
      SameListsConserve(s, t);
    }
  }

  lemma HeldConserves(o: Options, s: State, connected: bool, report: bool)
    requires Conserved(s) && WorkerEnabled(o, s) && (s.pc.Acquire? || s.pc.Connect?)
    ensures Conserved(WorkerStep(o, s, connected, report))
  {
    hide Conserved;
    var t := WorkerStep(o, s, connected, report);
    if t.pc.Connect? || t.pc.Failing? {
      SameListsConserve(s, t);
    } else {
      HoldConserves(s, t);
    }
  }

  lemma WorkerConserves(o: Options, s: State, connected: bool, report: bool)
    requires Conserved(s) && WorkerEnabled(o, s)
    ensures Conserved(WorkerStep(o, s, connected, report))
  {
    hide Conserved, Failed, WorkerStep;
    if s.pc.RetryPop? {
      RetryPopConserves(o, s, connected, report);
    } else if s.pc.QueuePop? {
      QueuePopConserves(o, s, connected, report);
    } else if s.pc.Acquire? || s.pc.Connect? {
      HeldConserves(o, s, connected, report);
    } else if s.pc.Failing? {
      FailingConserves(o, s, report);
      WorkerFails(o, s, connected, report);
    } else {
      WorkerIdles(o, s, connected, report);
      SameListsConserve(s, WorkerStep(o, s, connected, report));
    }
  }

  lemma FailedMetrics(o: Options, s: State, p: Pending, report: bool)
    requires 1 <= p.attempt && MetricsAdd(s)
    ensures
      var t := Failed(o, s, p, report);
      && MetricsAdd(t)
      && t.pushes - s.pushes + AttemptsBefore(p.attempt)
         == Sum(Retries, t.dropped) - Sum(Retries, s.dropped) + Sum(Retries, t.sh.retry) - Sum(Retries, s.sh.retry)
  {
    hide Sum;
    SumAdds(Retries, s.dropped, Ended(p));
    SumAdds(Retries, s.sh.retry, Ended(p).(attempt := p.attempt + 1));
  }

  lemma SendOkMetrics(o: Options, s: State, i: nat, report: bool)
    requires MetricsConserved(s) && i < |s.sending|
    ensures MetricsConserved(Apply(o, s, SendOk(i, report)))
  {
    hide Sum, Without, WorkerStep, Failed;
    var p := s.sending[i];
    SumWithout(Retries, s.sending, i);
    SumAdds(Retries, s.delivered, Ended(p));
    SumAdds(Bytes, s.delivered, Ended(p));
  }

  lemma SendFailMetrics(o: Options, s: State, i: nat, report: bool)
    requires MetricsConserved(s) && i < |s.sending| && 1 <= s.sending[i].attempt
    ensures MetricsConserved(Apply(o, s, SendFail(i, report)))
  {
    hide Sum, Without, WorkerStep, Failed, Succeeded, AddWindows;
    SumWithout(Retries, s.sending, i);
    FailedMetrics(o, s, s.sending[i], report);
    FailedElsewhere(o, s, s.sending[i], report);
  }

  lemma MetricsKept(o: Options, s: State, a: Action)
    requires MetricsConserved(s) && AttemptsCounted(o, s) && Enabled(o, s, a)
    ensures MetricsConserved(Apply(o, s, a))
  {
    hide Sum, Without, WorkerStep, Failed, Succeeded;
    match a
    case SendOk(i, report) => SendOkMetrics(o, s, i, report);
    case SendFail(i, report) =>
      assert s.sending[i] in s.sending;
      SendFailMetrics(o, s, i, report);
    case Worker(connected, report) => WorkerMetrics(o, s, connected, report);
    case _ =>
  }

  lemma SumOf0And1(q: Quantity, p: Pending)
    ensures Sum(q, []) == 0 && Sum(q, [p]) == Amount(q, p)
  {}

  lemma WorkerMetrics(o: Options, s: State, connected: bool, report: bool)
    requires MetricsConserved(s) && AttemptsCounted(o, s) && WorkerEnabled(o, s)
    ensures MetricsConserved(WorkerStep(o, s, connected, report))
  {
    hide Sum, Failed, WorkerStep, Held, AttemptsCounted;
    if s.pc.Failing? {
      FailingMetrics(o, s, connected, report);
    } else if MovesChunks(s.pc) {
      MovedMetrics(o, s, connected, report);
    } else {
      WorkerIdles(o, s, connected, report);
    }
  }

  lemma MovedMetrics(o: Options, s: State, connected: bool, report: bool)
    requires MetricsConserved(s) && WorkerEnabled(o, s) && MovesChunks(s.pc) && !s.pc.Failing?
    ensures MetricsConserved(WorkerStep(o, s, connected, report))
  {
    hide Sum, Without;
    match s.pc
    case RetryPop =>
      if s.sh.retry != [] {
        SumOf0And1(Retries, s.sh.retry[0]);
        SumWithout(Retries, s.sh.retry, 0);
        WithoutFirst(s.sh.retry);
      }
    case QueuePop =>
      if s.sh.queue != [] {
        SumOf0And1(Retries, Pending(s.sh.queue[0], 1, 0));
      }
    case Acquire(p) =>
      SumOf0And1(Retries, p);
      SumAdds(Retries, s.abandoned, p);
    case Connect(p) =>
      SumOf0And1(Retries, p);
      SumAdds(Retries, s.sending, p);
  }

  lemma FailingMetrics(o: Options, s: State, connected: bool, report: bool)
    requires MetricsConserved(s) && AttemptsCounted(o, s) && s.pc.Failing?
    ensures MetricsConserved(WorkerStep(o, s, connected, report))
  {
    hide Sum, Failed, WorkerStep;
    var p := s.pc.held;
    assert p in Held(s.pc);
    WorkerFails(o, s, connected, report);
    SumOf0And1(Retries, p);
    FailedMetrics(o, s, p, report);
    FailedElsewhere(o, s, p, report);
  }

  lemma StepKeepsInv(o: Options, s: State, a: Action)
    requires Inv(o, s) && Enabled(o, s, a)
    ensures Inv(o, Apply(o, s, a))
  {
    hide QueueBounded, SlotsBalance, AttemptsCounted, Draining, Conserved, MetricsConserved, Apply, Enabled;
    QueueKept(o, s, a);
    SlotsKept(o, s, a);
    DrainingKept(o, s, a);
    AttemptsKept(o, s, a);
    ConservedKept(o, s, a);
    MetricsKept(o, s, a);
  }

  lemma {:induction false} RunKeepsInv(o: Options, s: State, run: seq<Action>)
    requires Inv(o, s) && ValidRun(o, s, run)
    ensures Inv(o, After(o, s, run))
    decreases |run|
  {
    hide Inv, Apply, Enabled;
    if run == [] {
    } else {
      StepKeepsInv(o, s, run[0]);
      RunKeepsInv(o, Apply(o, s, run[0]), run[1..]);
    }
  }

  ghost predicate Reachable(o: Options, s: State) {
    exists run :: ValidRun(o, Init(), run) && After(o, Init(), run) == s
  }

  lemma ReachableInv(o: Options, s: State)
    requires o.Valid() && Reachable(o, s)
    ensures Inv(o, s)
  {
    hide Inv, Init, ValidRun, After;
    var run :| ValidRun(o, Init(), run) && After(o, Init(), run) == s;
    InitInv(o);
    RunKeepsInv(o, Init(), run);
  }

  // ----- What holds over every run -----

  /** Slots: in every reachable state the counter is the number of acquired and unreleased
      slots, never more than there are connections, and a handler about to release one finds
      it positive. */
  lemma SlotsAlwaysBalance(o: Options, s: State)
    requires o.Valid() && Reachable(o, s)
    ensures s.sh.inflight == |s.sending| + s.releasing + WorkerSlots(s.pc) <= o.connections
    ensures s.releasing > 0 || s.pc.WorkerRelease? ==> s.sh.inflight > 0
  {
    hide Reachable, Conserved, MetricsConserved, AttemptsCounted;
    ReachableInv(o, s);
  }

  /** No chunk is lost on drain: when the worker leaves by the drain branch, the accepted chunks
      are, each exactly once, the delivered ones and those dropped after all their attempts. */
  lemma DrainLosesNothing(o: Options, s: State)
    requires o.Valid() && Reachable(o, s) && s.pc == Done(true)
    ensures multiset(s.accepted) == Finished(s) && forall c :: Finished(s)[c] <= 1
    ensures forall p :: p in s.dropped ==> p.tries == if o.maxSendRetries >= 1 then o.maxSendRetries else 1
    ensures forall p :: p in s.delivered ==> 1 <= p.tries && (p.tries == 1 || p.tries <= o.maxSendRetries)
  {
    hide Reachable, MetricsConserved, Bag, Finished;
    ReachableInv(o, s);
    ReachableAbandons(o, s);
    assert s.sending == [] && s.sh.retry == [] && s.sh.queue == [] && s.abandoned == [];
    BagOf0And1(Pending(Chunk(0, 0), 1, 0));
    DistinctIds(s.accepted);
  }

  /** In every reachable state: a chunk was dropped after exactly as many failed attempts as there
      may be, and no chunk is being attempted more often. */
  lemma DroppedAfterAllAttempts(o: Options, s: State)
    requires o.Valid() && Reachable(o, s)
    ensures forall p :: p in s.dropped ==> p.tries == if o.maxSendRetries >= 1 then o.maxSendRetries else 1
    ensures forall p :: p in s.delivered ==> 1 <= p.tries && (p.tries == 1 || p.tries <= o.maxSendRetries)
    ensures forall p :: p in s.sh.retry || p in s.sending || p in Held(s.pc) ==>
              p.attempt == p.tries + 1 && (p.attempt == 1 || p.attempt <= o.maxSendRetries)
  {
    hide Reachable, Conserved, MetricsConserved, Held;
    ReachableInv(o, s);
  }

  /** Chunks are first attempted in the order they were accepted: the queue is the end of what was
      accepted. */
  ghost predicate QueueIsTheRest(s: State) {
    |s.sh.queue| <= |s.accepted| && s.sh.queue == s.accepted[|s.accepted| - |s.sh.queue|..]
  }

  lemma StepKeepsOrder(o: Options, s: State, a: Action)
    requires QueueIsTheRest(s) && Enabled(o, s, a)
    ensures QueueIsTheRest(Apply(o, s, a))
  {
    hide Failed, AddWindows, Recorded, Closed, Reports, WorkerStep;
    if a.SendFail? {
      FailedElsewhere(o, s, s.sending[a.i], a.report);
    } else if a.Worker? {
      WorkerKeepsOrder(o, s, a.connected, a.report);
    }
  }

  lemma WorkerKeepsOrder(o: Options, s: State, connected: bool, report: bool)
    requires QueueIsTheRest(s) && WorkerEnabled(o, s)
    ensures QueueIsTheRest(WorkerStep(o, s, connected, report))
  {
    hide WorkerStep, QueueIsTheRest;
    WorkerTakesTheFront(o, s, connected, report);
    RestOfTheRest(s, WorkerStep(o, s, connected, report));
  }

  lemma WorkerTakesTheFront(o: Options, s: State, connected: bool, report: bool)
    requires WorkerEnabled(o, s)
    ensures var t := WorkerStep(o, s, connected, report);
            && t.accepted == s.accepted
            && (t.sh.queue == s.sh.queue || (s.sh.queue != [] && t.sh.queue == s.sh.queue[1..]))
  {
    hide Failed;
    if s.pc.Failing? {
      FailedElsewhere(o, s, s.pc.held, report);
    }
  }

  lemma RestOfTheRest(s: State, t: State)
    requires QueueIsTheRest(s) && t.accepted == s.accepted
    requires t.sh.queue == s.sh.queue || (s.sh.queue != [] && t.sh.queue == s.sh.queue[1..])
    ensures QueueIsTheRest(t)
  {}

  lemma {:induction false} RunKeepsOrder(o: Options, s: State, run: seq<Action>)
    requires ValidRun(o, s, run) && QueueIsTheRest(s)
    ensures QueueIsTheRest(After(o, s, run))
    decreases |run|
  {
    hide QueueIsTheRest, Enabled, Apply;
    if run == [] {
    } else {
      StepKeepsOrder(o, s, run[0]);
      RunKeepsOrder(o, Apply(o, s, run[0]), run[1..]);
    }
  }

  lemma TakenInOrder(o: Options, s: State)
    requires Reachable(o, s)
    ensures QueueIsTheRest(s)
  {
    hide QueueIsTheRest, Init, ValidRun, After;
    var run :| ValidRun(o, Init(), run) && After(o, Init(), run) == s;
    NothingQueued();
    RunKeepsOrder(o, Init(), run);
  }

  lemma NothingQueued()
    ensures QueueIsTheRest(Init())
  {}

  /** The worker has announced that it waits for the drain exactly while it does, or until it ends there:
      so the release of the last slot wakes it. */
  ghost predicate WaitIsAnnounced(s: State) {
    && (s.pc.WaitDrain? || s.pc.FinalCheck? || s.pc == Done(true) ==> s.sh.finishing)
    && (s.sh.finishing ==> s.pc.WaitDrain? || s.pc.FinalCheck? || s.pc.Done?)
  }

  lemma StepKeepsAnnouncement(o: Options, s: State, a: Action)
    requires WaitIsAnnounced(s) && Enabled(o, s, a)
    ensures WaitIsAnnounced(Apply(o, s, a))
  {
    hide AddWindows, Recorded, Closed, Reports, WorkerStep;
    if a.Worker? {
      WorkerKeepsAnnouncement(o, s, a.connected, a.report);
    }
  }

  lemma WorkerKeepsAnnouncement(o: Options, s: State, connected: bool, report: bool)
    requires WaitIsAnnounced(s) && WorkerEnabled(o, s)
    ensures WaitIsAnnounced(WorkerStep(o, s, connected, report))
  {
    hide AddWindows, Recorded, Closed, Reports;
  }

  lemma {:induction false} RunKeepsAnnouncement(o: Options, s: State, run: seq<Action>)
    requires ValidRun(o, s, run) && WaitIsAnnounced(s)
    ensures WaitIsAnnounced(After(o, s, run))
    decreases |run|
  {
    hide WaitIsAnnounced, Enabled, Apply;
    if run == [] {
    } else {
      StepKeepsAnnouncement(o, s, run[0]);
      RunKeepsAnnouncement(o, Apply(o, s, run[0]), run[1..]);
    }
  }

  lemma DrainWaitIsAnnounced(o: Options, s: State)
    requires Reachable(o, s)
    ensures WaitIsAnnounced(s)
  {
    hide WaitIsAnnounced, Init, ValidRun, After;
    var run :| ValidRun(o, Init(), run) && After(o, Init(), run) == s;
    NothingAnnounced();
    RunKeepsAnnouncement(o, Init(), run);
  }

  lemma NothingAnnounced()
    ensures WaitIsAnnounced(Init())
  {}

  /** How many turns of its loop a worker takes at most once it has been asked to stop. */
  function TurnsToStop(pc: Pc): nat {
    match pc
    case Done(_) => 0
    case Top => 1
    case Acquire(_) => 1
    case WaitDrain => 1
    case FinalCheck => 2
    case SetFinishing => 2
    case WorkerRelease => 2
    case CheckClosed => 3
    case Failing(_) => 3
    case QueuePop => 4
    case Connect(_) => 4
    case RetryPop => 5
  }

  /** Every turn of a worker asked to stop brings it nearer to its end, and it connects no more. */
  lemma StoppedWorkerLeaves(o: Options, s: State, connected: bool, report: bool)
    requires s.stop && WorkerEnabled(o, s)
    ensures var t := WorkerStep(o, s, connected, report);
            TurnsToStop(t.pc) < TurnsToStop(s.pc) <= 5 && !t.pc.Connect?
  {
    hide Failed;
  }

  /** Metrics: over the reported windows and the open one, the counts are those of the delivered
      chunks, and retries are counted exactly once, when their chunk is finished. */
  lemma MetricsCountWhatHappened(o: Options, s: State)
    requires o.Valid() && Reachable(o, s)
    ensures s.reported.chunks + s.sh.window.chunks == |s.delivered|
    ensures s.reported.bytes + s.sh.window.bytes == Sum(Bytes, s.delivered)
    ensures s.reported.retries + s.sh.window.retries == Sum(Retries, s.delivered) + Sum(Retries, s.dropped)
    ensures s.pc == Done(true) ==> s.reported.retries + s.sh.window.retries == s.pushes
  {
    hide Reachable, Conserved, AttemptsCounted, Sum;
    ReachableInv(o, s);
    ReachableAbandons(o, s);
    SumOf0And1(Retries, Pending(Chunk(0, 0), 1, 0));
  }

  lemma {:induction false} DistinctIds(cs: seq<Chunk>)
    requires forall i :: 0 <= i < |cs| ==> cs[i].id == i
    ensures forall c :: multiset(cs)[c] <= 1
    decreases |cs|
  {
    if cs == [] {
    } else {
      var n := |cs| - 1;
      assert cs == cs[..n] + [cs[n]];
      DistinctIds(cs[..n]);
      assert cs[n] !in cs[..n];
    }
  }

  /** Chunks are abandoned only by a worker that was asked to stop. */
  lemma {:induction false} AbandonedOnlyOnStop(o: Options, s: State, run: seq<Action>)
    requires ValidRun(o, s, run) && (s.abandoned != [] ==> s.pc == Done(false))
    ensures After(o, s, run).abandoned != [] ==> After(o, s, run).pc == Done(false)
    decreases |run|
  {
    hide Apply, Enabled;
    if run == [] {
    } else {
      StepAbandons(o, s, run[0]);
      AbandonedOnlyOnStop(o, Apply(o, s, run[0]), run[1..]);
    }
  }

  lemma StepAbandons(o: Options, s: State, a: Action)
    requires Enabled(o, s, a) && (s.abandoned != [] ==> s.pc == Done(false))
    ensures Apply(o, s, a).abandoned != [] ==> Apply(o, s, a).pc == Done(false)
  {}

  lemma ReachableAbandons(o: Options, s: State)
    requires Reachable(o, s)
    ensures s.abandoned != [] ==> s.pc == Done(false)
  {
    hide Init, ValidRun, After;
    InitFields();
    var run :| ValidRun(o, Init(), run) && After(o, Init(), run) == s;
    AbandonedOnlyOnStop(o, Init(), run);
  }

  /** The worker's second look at the slots always finds them free, and a drained queue is
      always a closed one: neither fallback of the drain branch is reachable. */
  lemma FallbacksAreUnreachable(o: Options, s: State)
    requires o.Valid() && Reachable(o, s)
    ensures s.pc.CheckClosed? ==> s.sh.closed
    ensures s.pc.FinalCheck? ==> s.sh.inflight == 0 && s.sh.retry == []
  {
    hide Reachable, Conserved, MetricsConserved, AttemptsCounted;
    ReachableInv(o, s);
  }

  // ----- The sender finishes -----

  predicate Internal(a: Action) {
    a.SendOk? || a.SendFail? || a.Release? || a.Worker?
  }

  /** Until the worker is done, the worker, a send or a handler can move. */
  lemma AlwaysSomethingEnabled(o: Options, s: State)
    requires o.Valid() && Inv(o, s) && s.sh.closed && !s.stop && !s.pc.Done?
    ensures exists a :: Internal(a) && Enabled(o, s, a)
  {
    if WorkerEnabled(o, s) {
      assert Enabled(o, s, Worker(true, false));
    } else if s.sending != [] {
      assert Enabled(o, s, SendOk(0, false));
    } else {
      assert Enabled(o, s, Release);
    }
  }

  function WorkAtPc(max: nat, pc: Pc): nat {
    match pc
    case Acquire(p) => Amount(Work(max, 1), p)
    case Connect(p) => Amount(Work(max, 2), p)
    case Failing(p) => Amount(Work(max, 3), p)
    case WorkerRelease => 1
    case _ => 0
  }

  function QueueWork(max: nat, n: nat): nat {
    if n == 0 then 0 else 5 * max + QueueWork(max, n - 1)
  }

  /** The work ahead: five units for each attempt a chunk may still need, less the progress made
      on the current one, and one for each slot to give back. */
  function WorkLeft(o: Options, s: State): nat {
    var max := o.MaxAttempts();
    QueueWork(max, |s.sh.queue|) + Sum(Work(max, 0), s.sh.retry) + Sum(Work(max, 3), s.sending)
    + s.releasing + WorkAtPc(max, s.pc)
  }

  /** How far the idle worker is from its next decision. */
  function Rank(s: State): (r: nat)
    ensures r < 10
  {
    if s.sh.retry == [] then
      match s.pc
      case Top => 7
      case RetryPop => 6
      case QueuePop => 5
      case CheckClosed => 4
      case SetFinishing => 3
      case WaitDrain => 2
      case FinalCheck => 1
      case _ => 0
    else
      match s.pc
      case QueuePop => 6
      case CheckClosed => 5
      case SetFinishing => 4
      case WaitDrain => 3
      case Top => 2
      case RetryPop => 1
      case _ => 0
  }

  function Measure(o: Options, s: State): nat {
    10 * WorkLeft(o, s) + Rank(s)
  }

  lemma FailedWork(o: Options, s: State, p: Pending, report: bool)
    requires 1 <= p.attempt <= o.MaxAttempts()
    ensures
      var max := o.MaxAttempts();
      Sum(Work(max, 0), Failed(o, s, p, report).sh.retry) + 2
      <= Sum(Work(max, 0), s.sh.retry) + Amount(Work(max, 3), p)
  {
    hide Sum;
    SumAdds(Work(o.MaxAttempts(), 0), s.sh.retry, Ended(p).(attempt := p.attempt + 1));
  }

  lemma SendsDecrease(o: Options, s: State, a: Action)
    requires AttemptsCounted(o, s) && Enabled(o, s, a) && (a.SendOk? || a.SendFail? || a.Release?)
    ensures WorkLeft(o, Apply(o, s, a)) < WorkLeft(o, s)
  {
    hide Sum, Without, QueueWork, Failed, WorkerStep, Recorded, Closed, Reports;
    var max := o.MaxAttempts();
    match a
    case SendOk(i, _) =>
      assert s.sending[i] in s.sending;
      SumWithout(Work(max, 3), s.sending, i);
    case SendFail(i, report) =>
      assert s.sending[i] in s.sending;
      SumWithout(Work(max, 3), s.sending, i);
      FailedWork(o, s, s.sending[i], report);
      FailedElsewhere(o, s, s.sending[i], report);
    case Release =>
  }

  lemma WorkerDecreases(o: Options, s: State, connected: bool, report: bool)
    requires AttemptsCounted(o, s) && Draining(s) && WorkerEnabled(o, s) && s.sh.closed && !s.stop
    ensures
      var t := WorkerStep(o, s, connected, report);
      WorkLeft(o, t) < WorkLeft(o, s) || (WorkLeft(o, t) == WorkLeft(o, s) && Rank(t) < Rank(s))
  {
    hide Sum, Without, Failed;
    var max := o.MaxAttempts();
    match s.pc
    case RetryPop =>
      if s.sh.retry != [] {
        assert s.sh.retry[0] in s.sh.retry;
        SumWithout(Work(max, 0), s.sh.retry, 0);
        WithoutFirst(s.sh.retry);
      }
    case Acquire(p) => assert p in Held(s.pc);
    case Connect(p) =>
      assert p in Held(s.pc);
      SumAdds(Work(max, 3), s.sending, p);
    case Failing(p) =>
      assert p in Held(s.pc);
      FailedWork(o, s, p, report);
      FailedElsewhere(o, s, p, report);
    case _ =>
  }

  lemma StepDecreases(o: Options, s: State, a: Action)
    requires Inv(o, s) && Enabled(o, s, a) && Internal(a) && s.sh.closed && !s.stop
    ensures Measure(o, Apply(o, s, a)) < Measure(o, s)
  {
    hide WorkLeft, WorkerStep, Succeeded, Failed, Conserved, MetricsConserved, AttemptsCounted, Draining;
    if a.Worker? {
      WorkerDecreases(o, s, a.connected, a.report);
    } else {
      SendsDecrease(o, s, a);
    }
  }

  lemma StepStaysOpen(o: Options, s: State, a: Action)
    requires Enabled(o, s, a) && Internal(a) && s.sh.closed && !s.stop && s.pc != Done(false)
    ensures var t := Apply(o, s, a); t.sh.closed && !t.stop && t.pc != Done(false)
  {}

  /** After the queue is closed and unless a stop is requested, every run of the worker, the
      sends and the handlers is finite; and one that can go no further has drained: each chunk
      accepted so far is delivered or dropped after all its attempts. */
  lemma {:induction false} ClosedSenderDrains(o: Options, s: State, run: seq<Action>)
    requires o.Valid() && Inv(o, s) && s.sh.closed && !s.stop && s.pc != Done(false)
    requires ValidRun(o, s, run) && forall i :: 0 <= i < |run| ==> Internal(run[i])
    ensures |run| <= Measure(o, s)
    ensures
      var t := After(o, s, run);
      (forall a :: Internal(a) ==> !Enabled(o, t, a)) ==> t.pc == Done(true)
    decreases |run|
  {
    hide Inv, Apply, Enabled, Measure;
    if run == [] {
      if !s.pc.Done? {
        AlwaysSomethingEnabled(o, s);
      }
    } else {
      assert Internal(run[0]);
      StepKeepsInv(o, s, run[0]);
      StepDecreases(o, s, run[0]);
      StepStaysOpen(o, s, run[0]);
      assert forall i :: 0 <= i < |run[1..]| ==> run[1..][i] == run[i + 1];
      ClosedSenderDrains(o, Apply(o, s, run[0]), run[1..]);
    }
  }
}

/** The sender's fields and critical sections, each proved to be the corresponding piece of the
    transition system. */
module SenderObject {
  import opened BlockingQueue
  import opened Sender

  class SenderState {
    const options: Options
    const queue: BoundedBlockingQueue<Chunk>
    var retryQueue: seq<Pending>
    var inflight: nat
    var finishing: bool
    var window: Window
    var nextConnection: nat

    ghost predicate Valid()
      reads this, queue
    {
      options.Valid() && queue.Valid() && queue.capacity == options.capacity && nextConnection < options.connections
    }

    function View(): Shared
      reads this, queue
    {
      Shared(queue.queue, queue.closed, retryQueue, inflight, finishing, window)
    }

    /** A sender is never without a connection. */
    constructor (options: Options, queue: BoundedBlockingQueue<Chunk>)
      requires queue.Valid() && options.capacity == queue.capacity
      ensures Valid() && this.queue == queue
      ensures this.options == if options.connections == 0 then options.(connections := 1) else options
      ensures View() == Init().sh.(queue := queue.queue, closed := queue.closed)
    {
      this.options := if options.connections == 0 then options.(connections := 1) else options;
      this.queue := queue;
      retryQueue, inflight, finishing, window, nextConnection := [], 0, false, NoMetrics(), 0;
    }

    /** Connections take turns. */
    method NextConnection() returns (index: nat)
      requires Valid()
      modifies this`nextConnection
      ensures Valid() && index == old(nextConnection) < options.connections
      ensures nextConnection == if index + 1 == options.connections then 0 else index + 1
    {
      index := nextConnection;
      nextConnection := (nextConnection + 1) % options.connections;
    }

    /** Waits for a free slot; false means the sender was asked to stop. */
    method Acquire(stop: bool) returns (acquired: bool)
      requires inflight < options.connections || stop
      modifies this`inflight
      ensures acquired == !stop
      ensures View() == if acquired then AcquireSlot(old(View())) else old(View())
    {
      if stop {
        return false;
      }
      inflight := inflight + 1;
      acquired := true;
    }

    /** True asks for the drain wait to be woken. */
    method Release() returns (notifyRetry: bool)
      modifies this`inflight
      ensures View() == ReleaseSlot(old(View()))
      ensures notifyRetry == (inflight == 0 && finishing)
    {
      if inflight > 0 {
        inflight := inflight - 1;
      }
      notifyRetry := inflight == 0 && finishing;
    }

    method RecordFinished(p: Pending, success: bool, report: bool)
      modifies this`window
      ensures View() == Finish(old(View()), p, success, report)
    {
      var retries := if p.attempt > 0 then p.attempt - 1 else 0;
      if success {
        window := Window(window.chunks + 1, window.bytes + p.chunk.size, window.retries + retries);
      } else {
        window := window.(retries := window.retries + retries);
      }
      if report {
        window := Window(0, 0, 0);
      }
    }

    /** The success handler up to the release of its slot. */
    method OnChunkSuccess(ghost s: State, p: Pending, report: bool)
      requires s.sh == View()
      modifies this
      ensures View() == Succeeded(s, p, report).sh
      ensures window ==
                if report then Window(0, 0, 0)
                else Window(old(window.chunks) + 1, old(window.bytes) + p.chunk.size,
                            old(window.retries) + if p.attempt > 0 then p.attempt - 1 else 0)
    {
      RecordFinished(p, true, report);
    }

    /** The failure handler up to the release of its slot: while there are attempts left, the chunk
        goes to the end of the retry queue for the next one. */
    method OnChunkFailure(ghost s: State, p: Pending, report: bool)
      requires s.sh == View()
      modifies this
      ensures View() == Failed(options, s, p, report).sh && nextConnection == old(nextConnection)
      ensures p.attempt == 0 || p.attempt < options.maxSendRetries ==>
                && retryQueue == old(retryQueue) + [Pending(p.chunk, p.attempt + 1, p.tries + 1)]
                && window == old(window)
      ensures p.attempt > 0 && p.attempt >= options.maxSendRetries ==>
                && retryQueue == old(retryQueue)
                && window == if report then Window(0, 0, 0)
                             else old(window).(retries := old(window.retries) + p.attempt - 1)
    {
      if p.attempt >= options.MaxAttempts() {
        RecordFinished(p, false, report);
      } else {
        retryQueue := retryQueue + [Pending(p.chunk, p.attempt + 1, p.tries + 1)];
      }
    }

    /** One turn of the worker's loop, from one critical section to the next.  Whether the
        connection is up, whether a stop was requested and whether a report is due come from
        outside. */
    method WorkerTurn(ghost s: State, pc: Pc, stop: bool, connected: bool, report: bool) returns (pc': Pc)
      requires Valid() && s.sh == View() && s.pc == pc && s.stop == stop && WorkerEnabled(options, s)
      modifies this, queue
      ensures Valid()
      ensures View() == WorkerStep(options, s, connected, report).sh
      ensures pc' == WorkerStep(options, s, connected, report).pc
    {
      hide Failed;
      match pc {
        case Top =>
          pc' := if stop then Done(false) else RetryPop;
        case RetryPop =>
          if retryQueue != [] {
            pc' := Pc.Acquire(retryQueue[0]);
            retryQueue := retryQueue[1..];
          } else {
            pc' := QueuePop;
          }
        case QueuePop =>
          var popped := queue.Pop();
          pc' := if popped == [] then CheckClosed else Pc.Acquire(Pending(popped[0], 1, 0));
        case CheckClosed =>
          pc' := if queue.closed then SetFinishing else Top;
        case SetFinishing =>
          finishing := true;
          pc' := WaitDrain;
        case WaitDrain =>
          if stop {
            pc' := Done(false);
          } else if retryQueue != [] {
            finishing := false;
            pc' := Top;
          } else {
            pc' := FinalCheck;
          }
        case FinalCheck =>
          if inflight == 0 {
            pc' := Done(true);
          } else {
            finishing := false;
            pc' := Top;
          }
        case Acquire(p) =>
          var acquired := Acquire(stop);
          pc' := if acquired then Connect(p) else Done(false);
        case Connect(p) =>
          var connection := NextConnection();
          pc' := if connected then Top else Failing(p);
        case Failing(p) =>
          FailedElsewhere(options, s, p, report);
          OnChunkFailure(s, p, report);
          pc' := WorkerRelease;
        case WorkerRelease =>
          var notify := Release();
          pc' := Top;
        case Done(_) =>
          pc' := pc;
      }
    }
  }
}
