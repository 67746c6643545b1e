/** The stream of server-sent events of one response. */
module Sse {
  import opened EventStream

  /** What is put on the stream. */
  datatype Frame = Message(event: string, data: string) | Heartbeat | DefaultRetry

  const HEARTBEAT := ": heartbeat\n\n"
  const DEFAULT_RETRY := "retry: 5000\n"

  function Text(f: Frame): string {
    match f
    case Message(event, data) => FormatEvent(event, data)
    case Heartbeat => HEARTBEAT
    case DefaultRetry => DEFAULT_RETRY
  }

  function Texts(frames: seq<Frame>): seq<string> {
    seq(|frames|, i requires 0 <= i < |frames| => Text(frames[i]))
  }

  function Joined(texts: seq<string>): string
    decreases |texts|
  {
    if texts == [] then "" else Joined(texts[..|texts| - 1]) + texts[|texts| - 1]
  }

  function TotalLength(texts: seq<string>): nat {
    if texts == [] then 0 else |texts[0]| + TotalLength(texts[1..])
  }

  /** The stream's fields and its surroundings: the text written to the response, the number of
      frames written and of attempts to write one, and every frame accepted.  A stream that
      overflows its buffer asks for its own lock again while holding it and is `hung`. */
  datatype State = State(
    pending: seq<string>, bufferedBytes: nat, closed: bool, streamReady: bool, hasStream: bool, hung: bool,
    written: string, delivered: nat, attempts: nat, accepted: seq<Frame>)

  const CREATED := State([], 0, false, false, false, false, "", 0, 0, [])

  /** Whether the n-th attempt to write to the response succeeds. */
  type Connection = nat -> bool

  // ----- The operations -----

  ghost predicate Counted(s: State) { s.bufferedBytes == TotalLength(s.pending) }

  function Closed(s: State): State {
    s.(closed := true, hasStream := false, pending := [], bufferedBytes := 0)
  }

  /** The front frame has been written. */
  function Advanced(s: State): (s': State)
    requires Counted(s) && s.pending != []
    ensures Counted(s')
  {
    s.(pending := s.pending[1..], bufferedBytes := s.bufferedBytes - |s.pending[0]|,
       written := s.written + s.pending[0], delivered := s.delivered + 1, attempts := s.attempts + 1)
  }

  predicate CanWrite(s: State) { s.streamReady && s.hasStream && s.pending != [] }

  function Flushed(net: Connection, s: State): State
    requires Counted(s)
    decreases |s.pending|
  {
    if !CanWrite(s) then s
    else if !net(s.attempts) then Closed(s.(attempts := s.attempts + 1))
    else Flushed(net, Advanced(s))
  }

  function Pushed(s: State, f: Frame): State {
    s.(pending := s.pending + [Text(f)], bufferedBytes := s.bufferedBytes + |Text(f)|, accepted := s.accepted + [f])
  }

  lemma PushKeepsCount(texts: seq<string>, text: string)
    ensures TotalLength(texts + [text]) == TotalLength(texts) + |text|
  {
    if texts == [] {
      assert texts + [text] == [text];
    } else {
      assert (texts + [text])[1..] == texts[1..] + [text];
      PushKeepsCount(texts[1..], text);
    }
  }

  function Enqueued(net: Connection, max: nat, s: State, f: Frame): State
    requires Counted(s)
  {
    if s.closed then s
    else
      var s' := Pushed(s, f);
      PushKeepsCount(s.pending, Text(f));
      if s'.bufferedBytes > max then s'.(hung := true) else Flushed(net, s')
  }

  function Readied(net: Connection, max: nat, s: State, present: bool): State
    requires Counted(s)
  {
    if s.closed then s
    else
      var s' := Enqueued(net, max, s.(hasStream := present, streamReady := true), DefaultRetry);
      EnqueuedCounts(net, max, s.(hasStream := present, streamReady := true), DefaultRetry);
      if s'.hung then s' else Flushed(net, s')
  }

  function Beaten(net: Connection, s: State): State
    requires Counted(s)
  {
    if s.closed || !s.streamReady then s
    else
      PushKeepsCount(s.pending, HEARTBEAT);
      Flushed(net, Pushed(s, Heartbeat))
  }

  lemma {:induction false} FlushedCounts(net: Connection, s: State)
    requires Counted(s)
    ensures Counted(Flushed(net, s))
    decreases |s.pending|
  {
    if CanWrite(s) && net(s.attempts) {
      FlushedCounts(net, Advanced(s));
    }
  }

  lemma EnqueuedCounts(net: Connection, max: nat, s: State, f: Frame)
    requires Counted(s)
    ensures Counted(Enqueued(net, max, s, f))
  {
    hide Flushed, TotalLength, Text;
    PushKeepsCount(s.pending, Text(f));
    FlushedCounts(net, Pushed(s, f));
  }

  // ----- The object -----

  class SseStream {
    const net: Connection
    const maxBufferedBytes: nat
    var pending: seq<string>
    var bufferedBytes: nat
    var closed: bool
    var streamReady: bool
    var hasStream: bool
    var hung: bool
    var written: string
    var attempts: nat
    ghost var delivered: nat
    ghost var accepted: seq<Frame>

    constructor (net: Connection, maxBufferedBytes: nat)
      ensures this.net == net && this.maxBufferedBytes == maxBufferedBytes && View() == CREATED
    {
      this.net, this.maxBufferedBytes := net, maxBufferedBytes;
      pending, bufferedBytes, closed, streamReady, hasStream, hung := [], 0, false, false, false, false;
      written, attempts, delivered, accepted := "", 0, 0, [];
    }

    ghost function View(): State
      reads this
    {
      State(pending, bufferedBytes, closed, streamReady, hasStream, hung, written, delivered, attempts, accepted)
    }

    method Send(frame: string) returns (ok: bool)
      modifies this`written, this`attempts, this`delivered
      ensures ok == net(old(attempts)) && attempts == old(attempts) + 1
      ensures written == (if ok then old(written) + frame else old(written))
      ensures delivered == (if ok then old(delivered) + 1 else old(delivered))
    {
      ok := net(attempts);
      attempts := attempts + 1;
      if ok {
        written := written + frame;
        delivered := delivered + 1;
      }
    }

    method FlushUnlocked()
      requires Counted(View())
      modifies this
      ensures View() == Flushed(net, old(View()))
    {
      hide Flushed, TotalLength;
      FlushOne(net, View());
      if !streamReady || !hasStream {
        return;
      }
      while pending != []
        invariant Counted(View()) && Flushed(net, View()) == Flushed(net, old(View()))
        invariant streamReady && hasStream && (pending == [] ==> View() == Flushed(net, View()))
        decreases |pending|
      {
        FlushOne(net, View());
        LengthOfRest(pending);
        var front := pending[0];
        var ok := Send(front);
        if !ok {
          closed := true;
          hasStream := false;
          pending := [];
          bufferedBytes := 0;
          return;
        }
        bufferedBytes := bufferedBytes - |front|;
        pending := pending[1..];
        FlushOne(net, View());
      }
    }

    method EnqueueUnlocked(text: string, ghost f: Frame)
      requires Counted(View()) && text == Text(f)
      modifies this
      ensures View() == Enqueued(net, maxBufferedBytes, old(View()), f)
    {
      hide Text, Flushed, TotalLength;
      if closed {
        return;
      }
      FramesAreNotEmpty(f);
      if |text| == 0 {
        return;
      }
      PushKeepsCount(pending, text);
      bufferedBytes := bufferedBytes + |text|;
      pending := pending + [text];
      accepted := accepted + [f];
      if bufferedBytes > maxBufferedBytes {
        hung := true;
        return;
      }
      FlushUnlocked();
    }

    method OnStreamReady(present: bool)
      requires Counted(View())
      modifies this
      ensures View() == Readied(net, maxBufferedBytes, old(View()), present)
    {
      hide Text, Flushed, TotalLength;
      if closed {
        return;
      }
      hasStream := present;
      streamReady := true;
      EnqueuedCounts(net, maxBufferedBytes, View(), DefaultRetry);
      RetryText();
      EnqueueUnlocked(DEFAULT_RETRY, DefaultRetry);
      if hung {
        return;
      }
      FlushUnlocked();
    }

    method SendHeartbeat()
      requires Counted(View())
      modifies this
      ensures View() == Beaten(net, old(View()))
    {
      hide Flushed, TotalLength;
      if closed {
        return;
      }
      if !streamReady || closed {
        return;
      }
      PushKeepsCount(pending, HEARTBEAT);
      pending := pending + [HEARTBEAT];
      bufferedBytes := bufferedBytes + |HEARTBEAT|;
      accepted := accepted + [Heartbeat];
      FlushUnlocked();
    }

    method SendTextEvent(event: string, text: string)
      requires Counted(View())
      modifies this
      ensures View() == Enqueued(net, maxBufferedBytes, old(View()), Message(event, text))
    {
      hide Enqueued, EscapeData, TotalLength, Flushed;
      var formatted := "";
      if event != "" {
        formatted := "event: " + event + "\n";
      }
      var escaped := EscapeDataLoop(text);
      formatted := formatted + escaped;
      EnqueueUnlocked(formatted, Message(event, text));
    }

    method Close()
      modifies this
      ensures View() == if old(closed) then old(View()) else Closed(old(View()))
    {
      if closed {
        return;
      }
      closed := true;
      pending := [];
      bufferedBytes := 0;
      if hasStream {
        hasStream := false;
      }
    }
  }

  lemma FlushOne(net: Connection, s: State)
    requires Counted(s)
    ensures Flushed(net, s) == if !CanWrite(s) then s
                               else if !net(s.attempts) then Closed(s.(attempts := s.attempts + 1))
                               else Flushed(net, Advanced(s))
  {}

  lemma LengthOfRest(texts: seq<string>)
    requires texts != []
    ensures TotalLength(texts) == |texts[0]| + TotalLength(texts[1..])
  {}

  lemma HeartbeatText()
    ensures Text(Heartbeat) == HEARTBEAT == ": heartbeat\n\n"
  {}

  lemma RetryText()
    ensures Text(DefaultRetry) == DEFAULT_RETRY == "retry: 5000\n"
  {}

  lemma FramesAreNotEmpty(f: Frame)
    ensures Text(f) != ""
  {}

  // ----- Every run -----

  /** The callbacks and calls that can happen to a stream, in any order. */
  datatype Step = Ready(present: bool) | Tick | Post(event: string, data: string) | Finish

  /** A hung stream does nothing any more; the framework reports readiness once. */
  function Apply(net: Connection, max: nat, s: State, step: Step): State
    requires Counted(s)
  {
    if s.hung then s
    else
      match step
      case Ready(present) => if s.streamReady then s else Readied(net, max, s, present)
      case Tick => Beaten(net, s)
      case Post(event, data) => Enqueued(net, max, s, Message(event, data))
      case Finish => if s.closed then s else Closed(s)
  }

  lemma ApplyCounts(net: Connection, max: nat, s: State, step: Step)
    requires Counted(s)
    ensures Counted(Apply(net, max, s, step))
  {
    hide Enqueued, Flushed, TotalLength, Text;
    match step
    case Ready(present) =>
      var s1 := s.(hasStream := present, streamReady := true);
      EnqueuedCounts(net, max, s1, DefaultRetry);
      FlushedCounts(net, Enqueued(net, max, s1, DefaultRetry));
    case Tick =>
      HeartbeatText();
      PushKeepsCount(s.pending, HEARTBEAT);
      FlushedCounts(net, Pushed(s, Heartbeat));
    case Post(event, data) => EnqueuedCounts(net, max, s, Message(event, data));
    case Finish => NothingCounts();
  }

  lemma NothingCounts()
    ensures TotalLength([]) == 0
  {}

  function Run(net: Connection, max: nat, steps: seq<Step>): (s: State)
    ensures Counted(s)
    decreases |steps|
  {
    if steps == [] then CREATED
    else
      var s := Run(net, max, steps[..|steps| - 1]);
      ApplyCounts(net, max, s, steps[|steps| - 1]);
      Apply(net, max, s, steps[|steps| - 1])
  }

  /** A stream is open from the start, and waits to be ready. */
  lemma NewStream(net: Connection, max: nat)
    ensures var s := Run(net, max, []);
            !s.closed && !s.hung && !s.streamReady && !s.hasStream && s.pending == [] && s.written == ""
  {}

  /** What has been written is a prefix of what was accepted, and what is pending is the rest. */
  ghost predicate InOrder(s: State) {
    && Counted(s)
    && s.delivered <= |s.accepted|
    && s.written == Joined(Texts(s.accepted[..s.delivered]))
    && (if s.closed then s.pending == [] && !s.hasStream else s.pending == Texts(s.accepted[s.delivered..]))
  }

  /** An open stream with somewhere to write to has written everything. */
  predicate CaughtUp(s: State) {
    (s.hasStream ==> s.streamReady) && (s.hasStream && !s.hung ==> s.pending == [])
  }

  lemma AdvancedInOrder(s: State)
    requires InOrder(s) && !s.closed && s.pending != []
    ensures InOrder(Advanced(s))
  {
    hide Text, TotalLength;
    var k := s.delivered;
    var front := s.accepted[k];
    assert s.accepted[k..][0] == front;
    assert Texts(s.accepted[k..])[1..] == Texts(s.accepted[k + 1..]);
    assert s.accepted[..k + 1] == s.accepted[..k] + [front];
    var texts := Texts(s.accepted[..k + 1]);
    assert texts[..|texts| - 1] == Texts(s.accepted[..k]);
  }

  lemma {:induction false} FlushedInOrder(net: Connection, s: State)
    requires InOrder(s) && (s.hasStream ==> s.streamReady)
    ensures InOrder(Flushed(net, s)) && CaughtUp(Flushed(net, s))
    ensures Flushed(net, s).accepted == s.accepted
    decreases |s.pending|
  {
    hide Joined, Texts;
    if CanWrite(s) && net(s.attempts) {
      AdvancedInOrder(s);
      FlushedInOrder(net, Advanced(s));
    } else {
      NothingCounts();
    }
  }

  lemma PushedInOrder(s: State, f: Frame)
    requires InOrder(s) && !s.closed
    ensures InOrder(Pushed(s, f))
  {
    hide Text, TotalLength, Joined;
    PushKeepsCount(s.pending, Text(f));
    var s' := Pushed(s, f);
    assert s'.accepted[..s.delivered] == s.accepted[..s.delivered];
    assert s'.accepted[s.delivered..] == s.accepted[s.delivered..] + [f];
  }

  lemma EnqueuedInOrder(net: Connection, max: nat, s: State, f: Frame)
    requires InOrder(s) && (s.hasStream ==> s.streamReady) && (s.closed ==> CaughtUp(s))
    ensures InOrder(Enqueued(net, max, s, f)) && CaughtUp(Enqueued(net, max, s, f))
    ensures Enqueued(net, max, s, f).accepted == if s.closed then s.accepted else s.accepted + [f]
  {
    hide Text, TotalLength, Texts, Joined, Flushed;
    if !s.closed {
      PushedInOrder(s, f);
      PushKeepsCount(s.pending, Text(f));
      FlushedInOrder(net, Pushed(s, f));
    }
  }

  lemma StepInOrder(net: Connection, max: nat, s: State, step: Step)
    requires InOrder(s) && CaughtUp(s)
    ensures InOrder(Apply(net, max, s, step)) && CaughtUp(Apply(net, max, s, step))
  {
    hide Text, TotalLength, Texts, Joined, Flushed, Enqueued;
    match step
    case Ready(present) =>
      if !s.hung && !s.streamReady && !s.closed {
        var s1 := s.(hasStream := present, streamReady := true);
        EnqueuedInOrder(net, max, s1, DefaultRetry);
        FlushedInOrder(net, Enqueued(net, max, s1, DefaultRetry));
      }
    case Tick =>
      if !s.hung && !s.closed && s.streamReady {
        PushedInOrder(s, Heartbeat);
        FlushedInOrder(net, Pushed(s, Heartbeat));
      }
    case Post(event, data) => EnqueuedInOrder(net, max, s, Message(event, data));
    case Finish => NothingCounts();
  }

  lemma {:induction false} RunInOrder(net: Connection, max: nat, steps: seq<Step>)
    ensures InOrder(Run(net, max, steps)) && CaughtUp(Run(net, max, steps))
    decreases |steps|
  {
    if steps == [] {
    } else {
      RunInOrder(net, max, steps[..|steps| - 1]);
      StepInOrder(net, max, Run(net, max, steps[..|steps| - 1]), steps[|steps| - 1]);
    }
  }

  // ----- What the reader sees -----

  /** An event whose name has no line end and whose data has no CR. */
  predicate Printable(event: string, data: string) { OneLine(event) && '\r' !in data }

  /** What a reader makes of an event: a line feed at the end of its data is lost. */
  function Seen(event: string, data: string): Event { Event(KindOf(event), WithoutLastLf(data), "") }

  function EventsOf(frames: seq<Frame>): seq<Event>
    decreases |frames|
  {
    if frames == [] then []
    else
      var before := EventsOf(frames[..|frames| - 1]);
      match frames[|frames| - 1]
      case Message(event, data) => before + [Seen(event, data)]
      case _ => before
  }

  predicate PrintableFrame(f: Frame) { f.Message? ==> Printable(f.event, f.data) }

  /** How long a reader waits before it reconnects, once it has read these frames. */
  function RetryOf(frames: seq<Frame>): string {
    if DefaultRetry in frames then "5000" else ""
  }

  /** The parser between two frames, after these events and with this reconnection time. */
  predicate Between(p: Parser, events: seq<Event>, retry: string) {
    Idle(p) && p.id == "" && p.events == events && p.retry == retry
  }

  lemma FeedFrame(p: Parser, f: Frame, events: seq<Event>, retry: string)
    requires Between(p, events, retry) && PrintableFrame(f)
    ensures Between(FeedAll(p, Text(f)),
                    if f.Message? then events + [Seen(f.event, f.data)] else events,
                    if f.DefaultRetry? then "5000" else retry)
  {
    hide FeedAll, FormatEvent;
    match f
    case Message(event, data) => FeedEvent(p, event, data);
    case Heartbeat =>
      assert HEARTBEAT == ": heartbeat\n" + "\n";
      FeedAppends(p, ": heartbeat\n", "\n");
      FeedLine(p, ": heartbeat");
      assert ": heartbeat" + "\n" == ": heartbeat\n";
      FeedBlank(p);
    case DefaultRetry =>
      assert DEFAULT_RETRY == "retry" + ": " + "5000" + "\n";
      FeedField(p, "retry", "5000");
  }

  lemma {:induction false} ParsedFrames(frames: seq<Frame>)
    requires forall f :: f in frames ==> PrintableFrame(f)
    ensures Between(FeedAll(FRESH, Joined(Texts(frames))), EventsOf(frames), RetryOf(frames))
    decreases |frames|
  {
    hide FeedAll, Text, Between, PrintableFrame;
    if frames == [] {
      FeedNothing(FRESH);
      FreshIsBetween();
    } else {
      var init, last := frames[..|frames| - 1], frames[|frames| - 1];
      var texts := Texts(frames);
      assert texts[..|texts| - 1] == Texts(init) && texts[|texts| - 1] == Text(last);
      ParsedFrames(init);
      FeedAppends(FRESH, Joined(Texts(init)), Text(last));
      assert last in frames;
      FeedFrame(FeedAll(FRESH, Joined(Texts(init))), last, EventsOf(init), RetryOf(init));
      RetryOfOneMore(init, last);
      assert frames == init + [last];
    }
  }

  lemma RetryOfOneMore(frames: seq<Frame>, f: Frame)
    ensures RetryOf(frames + [f]) == if f.DefaultRetry? then "5000" else RetryOf(frames)
  {}

  lemma FreshIsBetween()
    ensures Between(FRESH, [], "")
  {}

  lemma {:induction false} EventsOfPrefix(frames: seq<Frame>, k: nat)
    requires k <= |frames|
    ensures EventsOf(frames[..k]) <= EventsOf(frames)
    decreases |frames|
  {
    if k == |frames| {
      assert frames[..k] == frames;
    } else {
      var init := frames[..|frames| - 1];
      EventsOfPrefix(init, k);
      assert init[..k] == frames[..k];
    }
  }

  ghost predicate AllPrintable(steps: seq<Step>) {
    forall step :: step in steps && step.Post? ==> Printable(step.event, step.data)
  }

  lemma StepIsPrintable(net: Connection, max: nat, s: State, step: Step)
    requires InOrder(s) && CaughtUp(s) && forall g :: g in s.accepted ==> PrintableFrame(g)
    requires step.Post? ==> Printable(step.event, step.data)
    ensures forall g :: g in Apply(net, max, s, step).accepted ==> PrintableFrame(g)
  {
    hide Text, TotalLength, Texts, Joined, Flushed, Enqueued, Printable;
    match step
    case Ready(present) =>
      if !s.hung && !s.streamReady && !s.closed {
        var s1 := s.(hasStream := present, streamReady := true);
        EnqueuedInOrder(net, max, s1, DefaultRetry);
        FlushedInOrder(net, Enqueued(net, max, s1, DefaultRetry));
      }
    case Tick =>
      if !s.hung && !s.closed && s.streamReady {
        PushedInOrder(s, Heartbeat);
        FlushedInOrder(net, Pushed(s, Heartbeat));
      }
    case Post(event, data) => EnqueuedInOrder(net, max, s, Message(event, data));
    case Finish => {}
  }

  lemma {:induction false} AcceptedArePrintable(net: Connection, max: nat, steps: seq<Step>)
    requires AllPrintable(steps)
    ensures forall f :: f in Run(net, max, steps).accepted ==> PrintableFrame(f)
    decreases |steps|
  {
    hide Printable, PrintableFrame, InOrder, CaughtUp, Apply;
    if steps == [] {
    } else {
      var init := steps[..|steps| - 1];
      AcceptedArePrintable(net, max, init);
      RunInOrder(net, max, init);
      assert steps[|steps| - 1] in steps;
      StepIsPrintable(net, max, Run(net, max, init), steps[|steps| - 1]);
    }
  }

  /** The events posted while the stream was neither closed nor hung. */
  function PostedWhileOpen(net: Connection, max: nat, steps: seq<Step>): seq<Event>
    decreases |steps|
  {
    if steps == [] then []
    else
      var init, last := steps[..|steps| - 1], steps[|steps| - 1];
      var before := PostedWhileOpen(net, max, init);
      if last.Post? && !Run(net, max, init).closed && !Run(net, max, init).hung
      then before + [Seen(last.event, last.data)] else before
  }

  lemma EventsOfOneMore(frames: seq<Frame>, f: Frame)
    ensures EventsOf(frames + [f])
              == if f.Message? then EventsOf(frames) + [Seen(f.event, f.data)] else EventsOf(frames)
  {}

  /** What a step puts on the stream. */
  lemma StepAccepts(net: Connection, max: nat, s: State, step: Step)
    requires InOrder(s) && CaughtUp(s)
    ensures var accepted := Apply(net, max, s, step).accepted;
            if s.hung || s.closed then accepted == s.accepted
            else
              match step
              case Ready(_) => accepted == if s.streamReady then s.accepted else s.accepted + [DefaultRetry]
              case Tick => accepted == if s.streamReady then s.accepted + [Heartbeat] else s.accepted
              case Post(event, data) => accepted == s.accepted + [Message(event, data)]
              case Finish => accepted == s.accepted
  {
    hide Text, TotalLength, Texts, Joined, Flushed, Enqueued, EventsOf;
    match step
    case Ready(present) =>
      if !s.hung && !s.streamReady && !s.closed {
        var s1 := s.(hasStream := present, streamReady := true);
        EnqueuedInOrder(net, max, s1, DefaultRetry);
        FlushedInOrder(net, Enqueued(net, max, s1, DefaultRetry));
      }
    case Tick =>
      if !s.hung && !s.closed && s.streamReady {
        PushedInOrder(s, Heartbeat);
        FlushedInOrder(net, Pushed(s, Heartbeat));
      }
    case Post(event, data) => EnqueuedInOrder(net, max, s, Message(event, data));
    case Finish => {}
  }

  lemma StepAcceptsEvents(net: Connection, max: nat, s: State, step: Step)
    requires InOrder(s) && CaughtUp(s)
    ensures EventsOf(Apply(net, max, s, step).accepted)
              == if step.Post? && !s.closed && !s.hung
                 then EventsOf(s.accepted) + [Seen(step.event, step.data)] else EventsOf(s.accepted)
  {
    hide Apply, InOrder, CaughtUp, EventsOf;
    StepAccepts(net, max, s, step);
    EventsOfOneMore(s.accepted, DefaultRetry);
    EventsOfOneMore(s.accepted, Heartbeat);
    if step.Post? {
      EventsOfOneMore(s.accepted, Message(step.event, step.data));
    }
  }

  lemma {:induction false} AcceptedArePosted(net: Connection, max: nat, steps: seq<Step>)
    ensures EventsOf(Run(net, max, steps).accepted) == PostedWhileOpen(net, max, steps)
    decreases |steps|
  {
    hide InOrder, CaughtUp, Apply, EventsOf;
    if steps == [] {
      NoEvents();
    } else {
      var init := steps[..|steps| - 1];
      AcceptedArePosted(net, max, init);
      RunInOrder(net, max, init);
      StepAcceptsEvents(net, max, Run(net, max, init), steps[|steps| - 1]);
    }
  }

  lemma NoEvents()
    ensures EventsOf([]) == []
  {}

  // ----- When a stream ends -----

  /** Flushing closes a stream exactly when one of its writes fails. */
  lemma {:induction false} FlushedCloses(net: Connection, s: State)
    requires Counted(s)
    ensures var t := Flushed(net, s);
            && s.attempts <= t.attempts && t.hung == s.hung && t.streamReady == s.streamReady
            && (t.closed <==> s.closed || exists n :: s.attempts <= n < t.attempts && !net(n))
    decreases |s.pending|
  {
    hide TotalLength;
    if CanWrite(s) && net(s.attempts) {
      FlushedCloses(net, Advanced(s));
    } else if CanWrite(s) {
      assert s.attempts <= s.attempts && !net(s.attempts);
    }
  }

  /** The size of the frame a step adds to the buffer under the limit; heartbeats are not limited. */
  function Limited(s: State, step: Step): nat {
    match step
    case Ready(_) => if s.streamReady then 0 else |DEFAULT_RETRY|
    case Post(event, data) => |FormatEvent(event, data)|
    case _ => 0
  }

  /** A step leaves an open stream hung exactly when its frame takes the buffer over the limit, and
      closed exactly when it is the end or one of its writes fails. */
  lemma StreamEndsExactly(net: Connection, max: nat, steps: seq<Step>, step: Step)
    requires !Run(net, max, steps).closed && !Run(net, max, steps).hung
    ensures var s := Run(net, max, steps);
            var t := Apply(net, max, s, step);
            && (t.hung <==> Limited(s, step) > 0 && s.bufferedBytes + Limited(s, step) > max)
            && (t.closed <==> step.Finish? || exists n :: s.attempts <= n < t.attempts && !net(n))
  {
    hide Run, Flushed, TotalLength, FormatEvent;
    var s := Run(net, max, steps);
    match step
    case Ready(present) =>
      if !s.streamReady {
        var s1 := s.(hasStream := present, streamReady := true);
        FrameEnds(net, max, s1, DefaultRetry);
        EnqueuedCounts(net, max, s1, DefaultRetry);
        FlushedCloses(net, Enqueued(net, max, s1, DefaultRetry));
      }
    case Tick =>
      HeartbeatText();
      PushKeepsCount(s.pending, HEARTBEAT);
      FlushedCloses(net, Pushed(s, Heartbeat));
    case Post(event, data) =>
      FramesAreNotEmpty(Message(event, data));
      FrameEnds(net, max, s, Message(event, data));
    case Finish => {}
  }

  lemma FrameEnds(net: Connection, max: nat, s: State, f: Frame)
    requires Counted(s) && !s.closed && !s.hung
    ensures var t := Enqueued(net, max, s, f);
            && s.attempts <= t.attempts && t.streamReady == s.streamReady
            && (t.hung <==> s.bufferedBytes + |Text(f)| > max)
            && (t.closed <==> exists n :: s.attempts <= n < t.attempts && !net(n))
  {
    hide Flushed, TotalLength, Text;
    PushKeepsCount(s.pending, Text(f));
    FlushedCloses(net, Pushed(s, f));
  }

  /** When every event posted can be printed, then wherever heartbeats, the retry frame, readiness,
      failing writes, an overflow or the end fall: what a reader parses is a prefix of the events posted
      while the stream was open, in order and without their last line feeds, and all of them while the
      stream is open and ready; it knows the reconnection time once that has been written; and the byte
      count is the length of what is pending. */
  lemma ReaderSeesPostedEvents(net: Connection, max: nat, steps: seq<Step>)
    requires AllPrintable(steps)
    ensures var s := Run(net, max, steps);
            && s.bufferedBytes == TotalLength(s.pending)
            && Parse(s.written) <= PostedWhileOpen(net, max, steps)
            && (s.hasStream && !s.closed && !s.hung ==> Parse(s.written) == PostedWhileOpen(net, max, steps))
            && s.delivered <= |s.accepted|
            && FeedAll(FRESH, s.written).retry == if DefaultRetry in s.accepted[..s.delivered] then "5000" else ""
  {
    hide Run, FeedAll, EventsOf, PrintableFrame, TotalLength, PostedWhileOpen;
    var s := Run(net, max, steps);
    RunInOrder(net, max, steps);
    AcceptedArePrintable(net, max, steps);
    AcceptedArePosted(net, max, steps);
    var done := s.accepted[..s.delivered];
    ParsedFrames(done);
    EventsOfPrefix(s.accepted, s.delivered);
    if s.hasStream && !s.closed && !s.hung {
      assert Texts(s.accepted[s.delivered..]) == [];
      assert done == s.accepted;
    }
  }
}
