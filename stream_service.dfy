/** The raw-TCP streaming service (StreamService.kt): start/stop commands,
    the life-cycle flags `running`, `serverSocket` and `serverThread`, the
    camera analyser that turns each image into a queued JPEG frame, the
    server thread's bind and accept loop, and the per-client handler that
    answers a ping or tally request or streams queued frames. */
module Service {
  import opened Kotlin
  import opened Wire
  import opened Requests
  import opened Nv21
  import opened Frames
  import opened Intents

  /** android.app.Service return codes. */
  const START_STICKY: int := 1
  const START_NOT_STICKY: int := 2

  /** onStartCommand's defaults for missing extras. */
  const DefaultHost: string := "0.0.0.0"
  const DefaultPort: Int32 := 4747
  const DefaultWidth: Int32 := 1280
  const DefaultHeight: Int32 := 720

  /** The JPEG quality handleImageProxy always asks for. */
  const JpegQuality: int := 85

  /** The largest TCP port InetSocketAddress accepts. */
  const MaxPort: int := 0xFFFF

  /** What ACTION_START asks for. */
  datatype StartRequest = StartRequest(host: string, port: Int32, width: Int32, height: Int32)

  /** onStartCommand's reading of an ACTION_START intent's extras. */
  function StartRequestOf(intent: Intent): (r: StartRequest)
    ensures ExtraHost in intent.extras && intent.extras[ExtraHost].StringExtra? ==> r.host == intent.extras[ExtraHost].s
    ensures ExtraHost !in intent.extras ==> r.host == "0.0.0.0"
    ensures ExtraPort in intent.extras && intent.extras[ExtraPort].IntExtra? ==> r.port == intent.extras[ExtraPort].i
    ensures ExtraPort !in intent.extras ==> r.port == 4747
    ensures ExtraWidth in intent.extras && intent.extras[ExtraWidth].IntExtra? ==> r.width == intent.extras[ExtraWidth].i
    ensures ExtraWidth !in intent.extras ==> r.width == 1280
    ensures ExtraHeight in intent.extras && intent.extras[ExtraHeight].IntExtra? ==> r.height == intent.extras[ExtraHeight].i
    ensures ExtraHeight !in intent.extras ==> r.height == 720
  {
    StartRequest(intent.GetStringExtra(ExtraHost).GetOr(DefaultHost),
                 intent.GetIntExtra(ExtraPort, DefaultPort),
                 intent.GetIntExtra(ExtraWidth, DefaultWidth),
                 intent.GetIntExtra(ExtraHeight, DefaultHeight))
  }

  /** A start command without extras listens on 0.0.0.0:4747 and asks for 1280x720. */
  lemma StartDefaults()
    ensures StartRequestOf(WithAction(ACTION_START)) == StartRequest("0.0.0.0", 4747, 1280, 720)
  {
  }

  /** `intent?.action == action`. */
  predicate HasAction(intent: Option<Intent>, action: string)
  {
    intent.Some? && intent.value.action == Some(action)
  }

  /** The server thread, with the address it captured when it was created. */
  datatype ServerWorker = ServerWorker(host: string, port: Int32)

  /** A listening server socket. */
  datatype Listener = Listener(host: string, port: Int32, closed: bool)

  /** What `server.bind` does for a well-formed address: succeed, throw a
      BindException (address already in use), or throw another exception. */
  datatype BindOutcome = Bound | AddressInUse | OtherFailure

  /** The parts of an ImageProxy that handleImageProxy reads. */
  datatype ImageProxy = ImageProxy(format: int, width: nat, height: nat, planes: seq<Plane>)

  /** An image handleImageProxy turns into a frame: YUV_420_888, three
      planes, every index its loops read inside the plane buffers, and a
      size `YuvImage` accepts (its constructor throws
      IllegalArgumentException for a zero width or height). */
  ghost predicate Processable(image: ImageProxy)
  {
    image.format == YUV_420_888 && |image.planes| >= 3 &&
    Convertible(image.width, image.height, image.planes[0], image.planes[1], image.planes[2]) &&
    0 < image.width && 0 < image.height
  }

  /** One turn of a client's stream loop: the frames the camera queued
      meanwhile, whether the timed poll was interrupted, the clock reading
      taken for the header, whether the write succeeded, and whether the
      40 ms sleep was interrupted. */
  datatype Tick = Tick(arrivals: seq<Bytes>, pollInterrupted: bool, pts: Int64, writeOk: bool, sleepOk: bool)

  /** What one turn does: the unit it writes, the queue it leaves, and
      whether the loop goes on. */
  datatype TurnResult = TurnResult(sent: Option<Unit>, queue: seq<Bytes>, goOn: bool)

  /** One turn: the camera's frames are queued, which leaves the newest of
      them (Frames.KeepsLatest), then the poll takes the oldest. */
  function Turn(q: seq<Bytes>, t: Tick): (r: TurnResult)
    ensures |r.queue| <= Capacity
    ensures r.sent.Some? ==> r.goOn == t.sleepOk
    ensures !r.goOn ==> !t.writeOk || !t.sleepOk
  {
    PollAndSend(Latest(q + t.arrivals), t)
  }

  /** The rest of a turn, from the queue q1 the camera left: an interrupted
      or empty poll sends nothing and goes on, a failed write drops the
      polled frame and ends the loop, an interrupted sleep ends it after the
      frame was sent. */
  function PollAndSend(q1: seq<Bytes>, t: Tick): (r: TurnResult)
    requires |q1| <= Capacity
    ensures |r.queue| <= Capacity
    ensures r.sent.Some? ==> r.goOn == t.sleepOk && q1 != [] && r.sent.value == Unit(t.pts, q1[0])
    ensures !r.goOn ==> !t.writeOk || !t.sleepOk
  {
    if t.pollInterrupted || q1 == [] then TurnResult(None, q1, true)
    else if !t.writeOk then TurnResult(None, q1[1..], false)
    else TurnResult(Some(Unit(t.pts, q1[0])), q1[1..], t.sleepOk)
  }

  function Sent(r: TurnResult): (units: seq<Unit>)
  {
    if r.sent.Some? then [r.sent.value] else []
  }

  /** The frames a stream loop sends and the queue it leaves, starting from
      queue q, over the given turns, while the service keeps running. */
  function Stream(q: seq<Bytes>, ticks: seq<Tick>): (r: (seq<Unit>, seq<Bytes>))
    requires |q| <= Capacity
    ensures |r.1| <= Capacity
    decreases |ticks|
  {
    if ticks == [] then ([], q)
    else
      var turn := Turn(q, ticks[0]);
      if !turn.goOn then (Sent(turn), turn.queue)
      else
        var rest := Stream(turn.queue, ticks[1..]);
        (Sent(turn) + rest.0, rest.1)
  }

  /** Every frame queued during the given turns, oldest first. */
  function Arrivals(ticks: seq<Tick>): seq<Bytes>
  {
    if ticks == [] then [] else ticks[0].arrivals + Arrivals(ticks[1..])
  }

  function Payloads(units: seq<Unit>): (r: seq<Bytes>)
    ensures |r| == |units|
  {
    if units == [] then [] else [units[0].payload] + Payloads(units[1..])
  }

  lemma {:induction false} PayloadsAppend(a: seq<Unit>, b: seq<Unit>)
    ensures Payloads(a + b) == Payloads(a) + Payloads(b)
    decreases |a|
  {
    if a != [] {
      assert (a + b)[0] == a[0] && (a + b)[1..] == a[1..] + b;
      PayloadsAppend(a[1..], b);
      assert Payloads(a + b) == [a[0].payload] + (Payloads(a[1..]) + Payloads(b));
    } else {
      assert a + b == b;
    }
  }

  /** idx picks, for each element of a, a strictly later position of b holding it. */
  ghost predicate Embeds<T>(idx: seq<nat>, a: seq<T>, b: seq<T>)
  {
    && |idx| == |a|
    && (forall i :: 0 <= i < |idx| ==> idx[i] < |b| && a[i] == b[idx[i]])
    && (forall i, j :: 0 <= i < j < |idx| ==> idx[i] < idx[j])
  }

  /** a can be obtained from b by deleting elements. */
  ghost predicate Subsequence<T>(a: seq<T>, b: seq<T>)
  {
    exists idx :: Embeds(idx, a, b)
  }

  /** The positions idx moved k places on. */
  ghost function Shift(idx: seq<nat>, k: nat): (r: seq<nat>)
    ensures |r| == |idx| && forall i :: 0 <= i < |idx| ==> r[i] == idx[i] + k
  {
    seq(|idx|, i requires 0 <= i < |idx| => idx[i] + k)
  }

  /** The positions 0, 1, ..., n - 1. */
  ghost function Positions(n: nat): (r: seq<nat>)
    ensures |r| == n && forall i :: 0 <= i < n ==> r[i] == i
  {
    seq(n, i requires 0 <= i < n => i)
  }

  lemma SubsequenceOfExtension<T>(s: seq<T>, t: seq<T>)
    ensures Subsequence(s, s + t)
  {
    assert Embeds(Positions(|s|), s, s + t);
  }

  lemma SubsequenceOfSuffix<T>(a: seq<T>, s: seq<T>, k: nat)
    requires k <= |s| && Subsequence(a, s[k..])
    ensures Subsequence(a, s)
  {
    var idx :| Embeds(idx, a, s[k..]);
    assert Embeds(Shift(idx, k), a, s);
  }

  lemma SubsequencePrepend<T>(p: seq<T>, a: seq<T>, b: seq<T>)
    requires Subsequence(a, b)
    ensures Subsequence(p + a, p + b)
  {
    var idx :| Embeds(idx, a, b);
    var both := Positions(|p|) + Shift(idx, |p|);
    assert forall i :: |p| <= i < |both| ==> both[i] == idx[i - |p|] + |p|;
    assert Embeds(both, p + a, p + b);
  }

  /** What a turn sends, followed by the queue it leaves, is a suffix of
      the queue it started from followed by the frames that arrived. */
  lemma TurnSuffix(q: seq<Bytes>, t: Tick)
    requires |q| <= Capacity
    ensures |Payloads(Sent(Turn(q, t))) + Turn(q, t).queue| <= |q + t.arrivals|
    ensures Payloads(Sent(Turn(q, t))) + Turn(q, t).queue
            == (q + t.arrivals)[|q + t.arrivals| - |Payloads(Sent(Turn(q, t))) + Turn(q, t).queue|..]
  {
    var s := q + t.arrivals;
    assert Turn(q, t) == PollAndSend(Latest(s), t);
    PollSuffixOf(Latest(s), t, s);
  }

  /** PollSuffix, carried over to any sequence the polled queue is a suffix of. */
  lemma PollSuffixOf(q1: seq<Bytes>, t: Tick, s: seq<Bytes>)
    requires |q1| <= Capacity && |q1| <= |s| && q1 == s[|s| - |q1|..]
    ensures |Payloads(Sent(PollAndSend(q1, t))) + PollAndSend(q1, t).queue| <= |s|
    ensures Payloads(Sent(PollAndSend(q1, t))) + PollAndSend(q1, t).queue
            == s[|s| - |Payloads(Sent(PollAndSend(q1, t))) + PollAndSend(q1, t).queue|..]
  {
    PollSuffix(q1, t);
    SuffixOfSuffix(Payloads(Sent(PollAndSend(q1, t))) + PollAndSend(q1, t).queue, q1, s);
  }

  /** What the poll sends, followed by the queue it leaves, is a suffix of the queue it polled. */
  lemma PollSuffix(q1: seq<Bytes>, t: Tick)
    requires |q1| <= Capacity
    ensures |Payloads(Sent(PollAndSend(q1, t))) + PollAndSend(q1, t).queue| <= |q1|
    ensures Payloads(Sent(PollAndSend(q1, t))) + PollAndSend(q1, t).queue
            == q1[|q1| - |Payloads(Sent(PollAndSend(q1, t))) + PollAndSend(q1, t).queue|..]
  {
    var r := PollAndSend(q1, t);
    if t.pollInterrupted || q1 == [] {
      assert Payloads(Sent(r)) + r.queue == q1;
    } else if !t.writeOk {
      assert Payloads(Sent(r)) + r.queue == q1[1..];
    } else {
      assert Payloads(Sent(r)) == [q1[0]];
      assert Payloads(Sent(r)) + r.queue == q1;
    }
  }

  lemma SuffixOfSuffix<T>(x: seq<T>, y: seq<T>, s: seq<T>)
    requires |x| <= |y| && x == y[|y| - |x|..]
    requires |y| <= |s| && y == s[|s| - |y|..]
    ensures |x| <= |s| && x == s[|s| - |x|..]
  {
  }

  lemma Associative<T>(a: seq<T>, b: seq<T>, c: seq<T>)
    ensures a + (b + c) == (a + b) + c
  {
  }

  /** What comes from a suffix x of s, then later frames, comes from s and them. */
  lemma SuffixOrder<T>(y: seq<T>, x: seq<T>, s: seq<T>, later: seq<T>)
    requires |x| <= |s| && x == s[|s| - |x|..]
    requires Subsequence(y, x + later)
    ensures Subsequence(y, s + later)
  {
    assert (s + later)[|s| - |x|..] == x + later;
    SubsequenceOfSuffix(y, s + later, |s| - |x|);
  }

  lemma ArrivalsSplit(q: seq<Bytes>, ticks: seq<Tick>)
    requires ticks != []
    ensures q + Arrivals(ticks) == (q + ticks[0].arrivals) + Arrivals(ticks[1..])
  {
    var a, later := ticks[0].arrivals, Arrivals(ticks[1..]);
    assert Arrivals(ticks) == a + later;
    assert q + (a + later) == (q + a) + later;
  }

  /** Frames sent now, then frames that come from what is left and later,
      come from the suffix they were taken from and later. */
  lemma SentThenRestOrder<T>(head: seq<T>, tail: seq<T>, queue: seq<T>, s: seq<T>, later: seq<T>)
    requires |head + queue| <= |s| && head + queue == s[|s| - |head + queue|..]
    requires Subsequence(tail, queue + later)
    ensures Subsequence(head + tail, s + later)
  {
    SubsequencePrepend(head, tail, queue + later);
    Associative(head, queue, later);
    SuffixOrder(head + tail, head + queue, s, later);
  }

  /** Stream, one turn at a time. */
  lemma StreamUnfold(q: seq<Bytes>, ticks: seq<Tick>)
    requires |q| <= Capacity && ticks != []
    ensures !Turn(q, ticks[0]).goOn ==> Stream(q, ticks) == (Sent(Turn(q, ticks[0])), Turn(q, ticks[0]).queue)
    ensures Turn(q, ticks[0]).goOn ==>
              Stream(q, ticks) == (Sent(Turn(q, ticks[0])) + Stream(Turn(q, ticks[0]).queue, ticks[1..]).0,
                                   Stream(Turn(q, ticks[0]).queue, ticks[1..]).1)
  {
  }

  /** The payloads a stream loop sends, followed by what it leaves queued. */
  ghost function Flow(q: seq<Bytes>, ticks: seq<Tick>): (r: seq<Bytes>)
    requires |q| <= Capacity
  {
    Payloads(Stream(q, ticks).0) + Stream(q, ticks).1
  }

  /** SentThenRestOrder, stated for the sequences a goOn turn produces. */
  lemma SentThenRest<T>(head: seq<T>, tail: seq<T>, queue: seq<T>, s: seq<T>, later: seq<T>, flow: seq<T>, whole: seq<T>)
    requires |head + queue| <= |s| && head + queue == s[|s| - |head + queue|..]
    requires Subsequence(tail, queue + later)
    requires flow == head + tail && whole == s + later
    ensures Subsequence(flow, whole)
  {
    SentThenRestOrder(head, tail, queue, s, later);
  }

  /** The turn that ends the loop. */
  lemma LastTurnOrder(q: seq<Bytes>, ticks: seq<Tick>)
    requires |q| <= Capacity && ticks != [] && !Turn(q, ticks[0]).goOn
    ensures Subsequence(Flow(q, ticks), q + Arrivals(ticks))
  {
    var t, later := ticks[0], Arrivals(ticks[1..]);
    var turn := Turn(q, t);
    var x := Payloads(Sent(turn)) + turn.queue;
    TurnSuffix(q, t);
    SubsequenceOfExtension(x, later);
    SuffixOrder(x, x, q + t.arrivals, later);
    assert Stream(q, ticks) == (Sent(turn), turn.queue);
    ArrivalsSplit(q, ticks);
  }

  /** A turn after which the loop goes on contributes its payloads ahead of the rest. */
  lemma GoOnFlow(q: seq<Bytes>, ticks: seq<Tick>)
    requires |q| <= Capacity && ticks != [] && Turn(q, ticks[0]).goOn
    ensures Flow(q, ticks) == Payloads(Sent(Turn(q, ticks[0]))) + Flow(Turn(q, ticks[0]).queue, ticks[1..])
  {
    var turn := Turn(q, ticks[0]);
    var rest := Stream(turn.queue, ticks[1..]);
    assert Stream(q, ticks) == (Sent(turn) + rest.0, rest.1);
    PayloadsAppend(Sent(turn), rest.0);
    Associative(Payloads(Sent(turn)), Payloads(rest.0), rest.1);
  }

  /** The turn after which the loop goes on, given the order of the turns after it. */
  lemma NextTurnOrder(q: seq<Bytes>, ticks: seq<Tick>)
    requires |q| <= Capacity && ticks != [] && Turn(q, ticks[0]).goOn
    requires Subsequence(Flow(Turn(q, ticks[0]).queue, ticks[1..]), Turn(q, ticks[0]).queue + Arrivals(ticks[1..]))
    ensures Subsequence(Flow(q, ticks), q + Arrivals(ticks))
  {
    var t, later := ticks[0], Arrivals(ticks[1..]);
    var turn := Turn(q, t);
    var head, tail := Payloads(Sent(turn)), Flow(turn.queue, ticks[1..]);
    GoOnFlow(q, ticks);
    TurnSuffix(q, t);
    ArrivalsSplit(q, ticks);
    SentThenRest(head, tail, turn.queue, q + t.arrivals, later, Flow(q, ticks), q + Arrivals(ticks));
  }

  /** A stream loop sends frames in the order the camera queued them,
      never the same queued frame twice and never one that was not queued;
      what it leaves in the queue comes after everything it sent. */
  lemma {:induction false} StreamKeepsCaptureOrder(q: seq<Bytes>, ticks: seq<Tick>)
    requires |q| <= Capacity
    ensures Subsequence(Flow(q, ticks), q + Arrivals(ticks))
    decreases |ticks|
  {
    if ticks == [] {
      SubsequenceOfExtension(q, []);
      assert Stream(q, ticks) == ([], q) && Arrivals(ticks) == [];
      assert Flow(q, ticks) == q;
    } else if !Turn(q, ticks[0]).goOn {
      LastTurnOrder(q, ticks);
    } else {
      StreamKeepsCaptureOrder(Turn(q, ticks[0]).queue, ticks[1..]);
      NextTurnOrder(q, ticks);
    }
  }

  /** An interrupted or empty poll sends nothing and the loop goes on with the next turn. */
  lemma EmptyPollContinues(q: seq<Bytes>, t: Tick, rest: seq<Tick>)
    requires |q| <= Capacity
    requires t.pollInterrupted || EnqueueAll(q, t.arrivals) == []
    ensures Stream(q, [t] + rest) == Stream(EnqueueAll(q, t.arrivals), rest)
  {
    KeepsLatest(q, t.arrivals);
    assert ([t] + rest)[0] == t && ([t] + rest)[1..] == rest;
    var next := Stream(EnqueueAll(q, t.arrivals), rest);
    assert [] + next.0 == next.0;
  }

  /** A failed write ends the loop: the polled frame is dropped and later turns send nothing. */
  lemma WriteFailureEndsLoop(q: seq<Bytes>, t: Tick, rest: seq<Tick>)
    requires |q| <= Capacity
    requires !t.pollInterrupted && EnqueueAll(q, t.arrivals) != [] && !t.writeOk
    ensures Stream(q, [t] + rest).0 == []
    ensures Stream(q, [t] + rest).1 == EnqueueAll(q, t.arrivals)[1..]
  {
    KeepsLatest(q, t.arrivals);
    assert ([t] + rest)[0] == t;
  }

  /** A client connection: the bytes written to it, and whether it is closed. */
  class ClientSocket {
    var output: seq<byte>
    var closed: bool

    constructor ()
      ensures output == [] && !closed
    {
      output := [];
      closed := false;
    }
  }

  class StreamService {
    const frameQueue: FrameQueue
    var running: bool
    var serverSocket: Option<Listener>
    var serverThread: Option<ServerWorker>
    /** The clients handed to a handler thread, in accept order. */
    var handlers: seq<nat>
    var inForeground: bool
    var stopSelfCalled: bool

    ghost predicate Valid()
      reads this, frameQueue
    {
      frameQueue.Valid()
    }

    constructor ()
      ensures Valid() && fresh(frameQueue) && frameQueue.items == []
      ensures !running && serverSocket == None && serverThread == None && handlers == []
      ensures !inForeground && !stopSelfCalled
    {
      frameQueue := new FrameQueue();
      running := false;
      serverSocket := None;
      serverThread := None;
      handlers := [];
      inForeground := false;
      stopSelfCalled := false;
    }

    /** onStartCommand: ACTION_START reads host, port, width and height with
        their defaults, goes to the foreground (a SecurityException there
        stops the service and returns START_NOT_STICKY) and starts
        streaming; ACTION_STOP stops streaming and the service; any other
        action, ACTION_SET_CAMERA included, is ignored. */
    method OnStartCommand(intent: Option<Intent>, foregroundAllowed: bool) returns (mode: int)
      requires Valid()
      modifies this, frameQueue
      ensures Valid()
      ensures HasAction(intent, ACTION_START) && !foregroundAllowed ==>
                mode == START_NOT_STICKY && stopSelfCalled && inForeground == old(inForeground) &&
                running == old(running) && serverThread == old(serverThread) &&
                serverSocket == old(serverSocket) && frameQueue.items == old(frameQueue.items)
      ensures HasAction(intent, ACTION_START) && foregroundAllowed ==>
                mode == START_STICKY && inForeground && stopSelfCalled == old(stopSelfCalled) &&
                running && serverSocket == old(serverSocket) && frameQueue.items == old(frameQueue.items) &&
                serverThread == (if old(running) then old(serverThread)
                                 else Some(ServerWorker(StartRequestOf(intent.value).host, StartRequestOf(intent.value).port)))
      ensures HasAction(intent, ACTION_STOP) ==>
                mode == START_STICKY && !running && serverThread == None && frameQueue.items == [] &&
                !inForeground && stopSelfCalled &&
                (old(serverSocket).Some? ==> serverSocket == Some(old(serverSocket).value.(closed := true))) &&
                (old(serverSocket).None? ==> serverSocket == None)
      ensures !HasAction(intent, ACTION_START) && !HasAction(intent, ACTION_STOP) ==>
                mode == START_STICKY && running == old(running) && serverThread == old(serverThread) &&
                serverSocket == old(serverSocket) && frameQueue.items == old(frameQueue.items) &&
                inForeground == old(inForeground) && stopSelfCalled == old(stopSelfCalled)
      ensures handlers == old(handlers)
    {
      if HasAction(intent, ACTION_START) {
        var req := StartRequestOf(intent.value);
        if !foregroundAllowed {
          stopSelfCalled := true;
          return START_NOT_STICKY;
        }
        inForeground := true;
        StartStreaming(req.host, req.port, req.width, req.height);
      } else if HasAction(intent, ACTION_STOP) {
        StopStreaming();
        inForeground := false;
        stopSelfCalled := true;
      }
      mode := START_STICKY;
    }

    /** startStreaming: nothing when already running; otherwise raises
        `running` and creates the server thread for the address. The camera
        binding it launches is not part of this model. */
    method StartStreaming(host: string, port: Int32, width: Int32, height: Int32)
      modifies this
      ensures old(running) ==> running && serverThread == old(serverThread)
      ensures !old(running) ==> running && serverThread == Some(ServerWorker(host, port))
      ensures serverSocket == old(serverSocket) && handlers == old(handlers)
      ensures inForeground == old(inForeground) && stopSelfCalled == old(stopSelfCalled)
    {
      if running {
        return;
      }
      running := true;
      serverThread := Some(ServerWorker(host, port));
    }

    /** The body of the server thread: bind, then hand every accepted client
        to a handler until accept fails, and null `serverSocket` on the way
        out. `clients` are the connections accepted before accept throws
        (which it does once stopStreaming closes the socket). */
    method RunServerThread(host: string, port: Int32, bind: BindOutcome, clients: seq<nat>)
      modifies this
      ensures serverSocket == None
      ensures 0 <= port <= MaxPort && bind == AddressInUse ==> !running && handlers == old(handlers)
      ensures !(0 <= port <= MaxPort) || bind == OtherFailure ==>
                running == old(running) && handlers == old(handlers)
      ensures 0 <= port <= MaxPort && bind == Bound ==>
                running == old(running) && handlers == old(handlers) + (if old(running) then clients else [])
      ensures serverThread == old(serverThread)
      ensures inForeground == old(inForeground) && stopSelfCalled == old(stopSelfCalled)
    {
      if !(0 <= port <= MaxPort) || bind == OtherFailure {
        serverSocket := None;
        return;
      }
      if bind == AddressInUse {
        serverSocket := None;
        running := false;
        return;
      }
      serverSocket := Some(Listener(host, port, false));
      var i := 0;
      while running && i < |clients|
        invariant i <= |clients|
        invariant running == old(running)
        invariant !running ==> i == 0
        invariant handlers == old(handlers) + clients[..i]
        invariant serverThread == old(serverThread)
        invariant inForeground == old(inForeground) && stopSelfCalled == old(stopSelfCalled)
      {
        handlers := handlers + [clients[i]];
        assert clients[..i + 1] == clients[..i] + [clients[i]];
        i := i + 1;
      }
      assert running ==> clients[..i] == clients;
      assert !running ==> i == 0;
      serverSocket := None;
    }

    /** stopStreaming: lowers `running`, closes the server socket, drops the
        server thread and empties the frame queue. */
    method StopStreaming()
      requires Valid()
      modifies this, frameQueue
      ensures Valid()
      ensures !running && serverThread == None && frameQueue.items == []
      ensures old(serverSocket).Some? ==> serverSocket == Some(old(serverSocket).value.(closed := true))
      ensures old(serverSocket).None? ==> serverSocket == None
      ensures handlers == old(handlers)
      ensures inForeground == old(inForeground) && stopSelfCalled == old(stopSelfCalled)
    {
      running := false;
      if serverSocket.Some? {
        serverSocket := Some(serverSocket.value.(closed := true));
      }
      serverThread := None;
      frameQueue.Clear();
    }

    /** handleImageProxy: an image that is not YUV_420_888, lacks a plane,
        makes the repacking loops read outside a plane, or has a zero width
        or height is dropped; so is one whose compression throws (None from
        `compressToJpeg`). Otherwise it is repacked as NV21, compressed at
        quality 85 and enqueued with the drop-oldest policy. */
    method HandleImageProxy(image: ImageProxy, compressToJpeg: (seq<byte>, nat, nat, int) -> Option<Bytes>)
      requires Valid()
      modifies frameQueue
      ensures Valid()
      ensures !Processable(image) ==> frameQueue.items == old(frameQueue.items)
      ensures Processable(image) ==>
                var jpeg := compressToJpeg(Nv21Of(image.width, image.height, image.planes[0], image.planes[1], image.planes[2]),
                                           image.width, image.height, JpegQuality);
                frameQueue.items == if jpeg.Some? then AfterEnqueue(old(frameQueue.items), jpeg.value)
                                    else old(frameQueue.items)
    {
      if image.format != YUV_420_888 || |image.planes| < 3 {
        return;
      }
      var ok, nv21 := ToNv21(image.width, image.height, image.planes[0], image.planes[1], image.planes[2]);
      if !ok || image.width == 0 || image.height == 0 {
        return;
      }
      var jpeg := compressToJpeg(nv21[..], image.width, image.height, JpegQuality);
      if jpeg.None? {
        return;
      }
      frameQueue.Enqueue(jpeg.value);
    }

    /** handleClient: classifies the first read, then streams, replies or
        does nothing, and closes the client on every path. */
    method HandleClient(client: ClientSocket, read: Option<string>, ticks: seq<Tick>)
      requires Valid()
      modifies client, frameQueue
      ensures Valid() && client.closed
      ensures Classify(RequestText(read)) != Video ==>
                client.output == old(client.output) + Reply(Classify(RequestText(read))) &&
                frameQueue.items == old(frameQueue.items)
      ensures Classify(RequestText(read)) == Video && !running ==>
                client.output == old(client.output) && frameQueue.items == old(frameQueue.items)
      ensures Classify(RequestText(read)) == Video && running ==>
                client.output == old(client.output) + Encode(Stream(old(frameQueue.items), ticks).0) &&
                frameQueue.items == Stream(old(frameQueue.items), ticks).1
    {
      var kind := Classify(RequestText(read));
      if kind == Video {
        StreamLoop(client, ticks);
      } else if kind == Ping || kind == Tally {
        client.output := client.output + Reply(kind);
      }
      client.closed := true;
    }

    /** The stream loop: while the service runs, one turn after another
        until one of them ends it. `running` does not change inside the
        model, so the end of `ticks` while the loop would go on stands for a
        concurrent `stopStreaming`; the handler then closes the client. */
    method StreamLoop(client: ClientSocket, ticks: seq<Tick>)
      requires Valid()
      modifies client`output, frameQueue
      ensures Valid()
      ensures !running ==> client.output == old(client.output) && frameQueue.items == old(frameQueue.items)
      ensures running ==>
                client.output == old(client.output) + Encode(Stream(old(frameQueue.items), ticks).0) &&
                frameQueue.items == Stream(old(frameQueue.items), ticks).1
    {
      ghost var q0 := frameQueue.items;
      ghost var out0 := client.output;
      ghost var done: seq<Unit> := [];
      var i := 0;
      var goOn := true;
      ghost var whole := Stream(q0, ticks);
      assert ticks[i..] == ticks;
      assert done + whole.0 == whole.0;
      while running && goOn && i < |ticks|
        invariant i <= |ticks|
        invariant Valid()
        invariant goOn ==> whole == (done + Stream(frameQueue.items, ticks[i..]).0, Stream(frameQueue.items, ticks[i..]).1)
        invariant !goOn ==> whole == (done, frameQueue.items)
        invariant client.output == out0 + Encode(done)
        invariant !running ==> frameQueue.items == q0 && client.output == out0
      {
        ghost var turn := Turn(frameQueue.items, ticks[i]);
        StreamUnfold(frameQueue.items, ticks[i..]);
        assert ticks[i..][0] == ticks[i] && ticks[i..][1..] == ticks[i + 1..];
        goOn := StreamTurn(client, ticks[i]);
        EncodeConcat(done, Sent(turn));
        Associative(out0, Encode(done), Encode(Sent(turn)));
        ghost var next := Stream(frameQueue.items, ticks[i + 1..]);
        Associative(done, Sent(turn), next.0);
        done := done + Sent(turn);
        i := i + 1;
      }
      if running && goOn {
        assert ticks[i..] == [];
        assert done + [] == done;
      }
    }

    /** One turn of the stream loop: the camera's frames are queued, then
        the poll, write and sleep. */
    method StreamTurn(client: ClientSocket, t: Tick) returns (goOn: bool)
      requires Valid()
      modifies client`output, frameQueue
      ensures Valid()
      ensures frameQueue.items == Turn(old(frameQueue.items), t).queue
      ensures goOn == Turn(old(frameQueue.items), t).goOn
      ensures client.output == old(client.output) + Encode(Sent(Turn(old(frameQueue.items), t)))
    {
      frameQueue.EnqueueEach(t.arrivals);
      KeepsLatest(old(frameQueue.items), t.arrivals);
      goOn := PollAndWrite(client, t);
    }

    /** The poll, write and sleep of a turn. The header and the payload are
        written in one step; a write that fails part-way is not modelled. */
    method PollAndWrite(client: ClientSocket, t: Tick) returns (goOn: bool)
      requires Valid()
      modifies client`output, frameQueue
      ensures Valid()
      ensures frameQueue.items == PollAndSend(old(frameQueue.items), t).queue
      ensures goOn == PollAndSend(old(frameQueue.items), t).goOn
      ensures client.output == old(client.output) + Encode(Sent(PollAndSend(old(frameQueue.items), t)))
    {
      if t.pollInterrupted {
        return true;
      }
      var frame := frameQueue.Poll();
      if frame.None? {
        return true;
      }
      if !t.writeOk {
        return false;
      }
      var unit := Unit(t.pts, frame.value);
      client.output := client.output + EncodeHeader(t.pts, |frame.value|) + frame.value;
      assert Encode([unit]) == EncodeUnit(unit) + Encode([]);
      goOn := t.sleepOk;
    }
  }
}
