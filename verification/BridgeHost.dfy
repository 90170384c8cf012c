/** The native host's request broker: calls register a one-slot channel under a fresh host id,
    one reader hands the extension's responses to the channels, and each call waits for its
    channel, a cancellation or its timeout. Code under one lock is one step. */
module BridgeHost {

  /** A response frame as the extension sends it. */
  datatype Response = Response(id: string, ok: bool, payload: string)

  datatype Body = FromExtension(ok: bool, payload: string) | Unavailable | WriteFailed | Stopped | TimedOut

  /** What a call returns to its own caller. */
  datatype Reply = Reply(id: string, body: Body)

  datatype Stage = Waiting | Returned(reply: Reply)

  /** One call: the id its caller knows, the id on the wire, its channel of capacity one, and
      how many sends that channel has seen. */
  datatype Call = Call(originalId: string, hostId: string, channel: seq<Response>, sends: nat, stage: Stage)

  /** Between taking a channel out of `pending` and sending on it, the reader holds no lock. */
  datatype Reader = Reading | Holding(call: nat, response: Response)

  /** Calls are named by their position, which also names their channel. `used` are the host
      ids drawn so far, `written` the ids on frames given to the extension, and `heard` the
      responses it sent. */
  datatype Host = Host(connected: bool, pending: map<string, nat>, calls: seq<Call>, reader: Reader,
                       used: set<string>, written: seq<string>, heard: set<Response>)

  const CAPACITY := 1

  function Initial(connected: bool): Host {
    Host(connected, map[], [], Reading, {}, [], {})
  }

  // ---------- Steps ----------

  function Without(pending: map<string, nat>, id: string): map<string, nat> { pending - {id} }

  /** A new call up to the point where it starts to wait, or its early return. */
  function Registered(h: Host, originalId: string, hostId: string, delivered: bool): Host {
    if !h.connected then
      h.(used := h.used + {hostId},
         calls := h.calls + [Call(originalId, hostId, [], 0, Returned(Reply(originalId, Unavailable)))])
    else if delivered then
      h.(used := h.used + {hostId}, written := h.written + [hostId], pending := h.pending[hostId := |h.calls|],
         calls := h.calls + [Call(originalId, hostId, [], 0, Waiting)])
    else
      h.(used := h.used + {hostId}, pending := Without(h.pending[hostId := |h.calls|], hostId),
         calls := h.calls + [Call(originalId, hostId, [], 0, Returned(Reply(originalId, WriteFailed)))])
  }

  /** The reader looks a response up and removes the entry in one locked region. */
  function Taken(h: Host, response: Response): Host {
    var heard := h.heard + {response};
    if response.id == "" || response.id !in h.pending then h.(heard := heard)
    else h.(heard := heard, reader := Holding(h.pending[response.id], response),
      pending := Without(h.pending, response.id))
  }

  /** The send, possible only while the channel has room. */
  function Sent(h: Host): Host
    requires h.reader.Holding? && h.reader.call < |h.calls|
  {
    var c := h.reader.call;
    var k := h.calls[c];
    h.(reader := Reading, calls := h.calls[c := k.(channel := k.channel + [h.reader.response], sends := k.sends + 1)])
  }

  /** A waiting call receives from its channel and restores the caller's id. */
  function Received(h: Host, c: nat): Host
    requires c < |h.calls| && h.calls[c].channel != []
  {
    var k := h.calls[c];
    var reply := Reply(k.originalId, FromExtension(k.channel[0].ok, k.channel[0].payload));
    h.(calls := h.calls[c := k.(channel := k.channel[1..], stage := Returned(reply))])
  }

  /** A waiting call gives up: it removes its entry and returns an error. */
  function GivenUp(h: Host, c: nat, body: Body): Host
    requires c < |h.calls|
  {
    var k := h.calls[c];
    h.(pending := Without(h.pending, k.hostId), calls := h.calls[c := k.(stage := Returned(Reply(k.originalId, body)))])
  }

  datatype Event =
    | Calls(originalId: string, hostId: string, delivered: bool)
    | Arrives(response: Response)
    | Sends
    | Receives(call: nat)
    | Cancels(call: nat)
    | TimesOut(call: nat)

  predicate IsWaiting(h: Host, c: nat) { c < |h.calls| && h.calls[c].stage.Waiting? }

  /** When an event can happen: host ids are drawn fresh, the reader does one thing at a time,
      a full channel blocks it, and only waiting calls act. */
  predicate Enabled(h: Host, e: Event) {
    match e
    case Calls(_, hostId, _) => hostId != "" && hostId !in h.used
    case Arrives(_) => h.reader.Reading?
    case Sends => h.reader.Holding? && h.reader.call < |h.calls| && |h.calls[h.reader.call].channel| < CAPACITY
    case Receives(c) => IsWaiting(h, c) && h.calls[c].channel != []
    case Cancels(c) => IsWaiting(h, c)
    case TimesOut(c) => IsWaiting(h, c)
  }

  function Step(h: Host, e: Event): Host {
    if !Enabled(h, e) then h
    else
      match e
      case Calls(originalId, hostId, delivered) => Registered(h, originalId, hostId, delivered)
      case Arrives(response) => Taken(h, response)
      case Sends => Sent(h)
      case Receives(c) => Received(h, c)
      case Cancels(c) => GivenUp(h, c, Stopped)
      case TimesOut(c) => GivenUp(h, c, TimedOut)
  }

  function Run(h: Host, events: seq<Event>): Host
    decreases |events|
  {
    if events == [] then h else Run(Step(h, events[0]), events[1..])
  }

  // ---------- The invariant ----------

  function One(b: bool): nat { if b then 1 else 0 }

  /** The entry of call `c` is still in `pending`. */
  predicate Listed(h: Host, c: nat)
    requires c < |h.calls|
  {
    h.calls[c].hostId in h.pending
  }

  predicate Held(h: Host, c: nat) { h.reader.Holding? && h.reader.call == c }

  /** The chances a channel has to see a send never exceed one; a waiting call still has its
      answer ahead of it, in exactly one place; a returned call is listed nowhere and what it
      returned was the response to its own frame, under its caller's id. */
  predicate CallOk(h: Host, c: nat)
    requires c < |h.calls|
  {
    var k := h.calls[c];
    && k.hostId in h.used
    && (Listed(h, c) ==> h.pending[k.hostId] == c)
    && One(Listed(h, c)) + One(Held(h, c)) + k.sends <= 1
    && |k.channel| <= k.sends
    && (forall r :: r in k.channel ==> r.id == k.hostId && r in h.heard)
    && match k.stage
       case Waiting =>
         k.hostId in h.written && One(Listed(h, c)) + One(Held(h, c)) + |k.channel| == 1
       case Returned(reply) =>
         && reply.id == k.originalId && !Listed(h, c)
         && (reply.body.FromExtension? ==> Response(k.hostId, reply.body.ok, reply.body.payload) in h.heard)
  }

  /** Some call was given the host id. */
  ghost predicate Owned(h: Host, id: string) { exists c: nat :: c < |h.calls| && h.calls[c].hostId == id }

  ghost predicate Inv(h: Host) {
    && (forall c: nat :: c < |h.calls| ==> CallOk(h, c))
    && (forall c: nat, d: nat :: c < d < |h.calls| ==> h.calls[c].hostId != h.calls[d].hostId)
    && (forall id :: id in h.pending ==> h.pending[id] < |h.calls| && h.calls[h.pending[id]].hostId == id)
    && (h.reader.Holding? ==>
          h.reader.call < |h.calls| && h.reader.response.id == h.calls[h.reader.call].hostId
            && h.reader.response in h.heard)
    && FramesOk(h)
  }

  /** Frames carry drawn ids, each once, and every drawn id belongs to a call. */
  ghost predicate FramesOk(h: Host) {
    && (forall id :: id in h.written ==> id in h.used)
    && (forall id :: id in h.used ==> Owned(h, id))
    && (forall i, j :: 0 <= i < j < |h.written| ==> h.written[i] != h.written[j])
  }

  /** Calls keep the ids they were given. */
  lemma OwnedStays(h: Host, g: Host)
    requires |h.calls| <= |g.calls| && forall c: nat :: c < |h.calls| ==> g.calls[c].hostId == h.calls[c].hostId
    ensures forall id :: Owned(h, id) ==> Owned(g, id)
  {
    forall id | Owned(h, id) ensures Owned(g, id) {
      var c: nat :| c < |h.calls| && h.calls[c].hostId == id;
      assert g.calls[c].hostId == id;
    }
  }

  lemma StepKeeps(h: Host, e: Event)
    requires Inv(h)
    ensures Inv(Step(h, e))
  {
    if Enabled(h, e) {
      match e
      case Calls(originalId, hostId, delivered) => RegisteredKeeps(h, originalId, hostId, delivered);
      case Arrives(response) => TakenKeeps(h, response);
      case Sends => SentKeeps(h);
      case Receives(c) => ReceivedKeeps(h, c);
      case Cancels(c) => GivenUpKeeps(h, c, Stopped);
      case TimesOut(c) => GivenUpKeeps(h, c, TimedOut);
    }
  }

  lemma RegisteredKeeps(h: Host, originalId: string, hostId: string, delivered: bool)
    requires Inv(h) && hostId !in h.used
    ensures Inv(Registered(h, originalId, hostId, delivered))
  {
    assert forall c: nat :: c < |h.calls| ==> CallOk(h, c) && h.calls[c].hostId != hostId;
    assert hostId !in h.pending;
    RegisteredCallsAreOk(h, originalId, hostId, delivered);
    RegisteredFramesAreOk(h, originalId, hostId, delivered);
    hide CallOk, FramesOk;
  }

  lemma RegisteredFramesAreOk(h: Host, originalId: string, hostId: string, delivered: bool)
    requires FramesOk(h) && hostId !in h.used
    ensures FramesOk(Registered(h, originalId, hostId, delivered))
  {
    var g := Registered(h, originalId, hostId, delivered);
    OwnedStays(h, g);
    assert Owned(g, hostId) by { assert g.calls[|h.calls|].hostId == hostId; }
    assert hostId !in h.written;
  }

  lemma RegisteredCallsAreOk(h: Host, originalId: string, hostId: string, delivered: bool)
    requires Inv(h) && hostId !in h.used && hostId !in h.pending
    ensures var g := Registered(h, originalId, hostId, delivered);
            forall c: nat :: c < |g.calls| ==> CallOk(g, c)
  {
    var g := Registered(h, originalId, hostId, delivered);
    forall c: nat | c < |g.calls| ensures CallOk(g, c) {
      if c < |h.calls| { assert CallOk(h, c); }
    }
  }

  lemma TakenKeeps(h: Host, response: Response)
    requires Inv(h) && h.reader.Reading?
    ensures Inv(Taken(h, response))
  {
    var g := Taken(h, response);
    OwnedStays(h, g);
    forall c: nat | c < |g.calls| ensures CallOk(g, c) {
      assert CallOk(h, c);
    }
  }

  lemma SentKeeps(h: Host)
    requires Inv(h) && h.reader.Holding?
    ensures Inv(Sent(h))
  {
    var g := Sent(h);
    OwnedStays(h, g);
    forall c: nat | c < |g.calls| ensures CallOk(g, c) {
      assert CallOk(h, c);
    }
  }

  lemma ReceivedKeeps(h: Host, c: nat)
    requires Inv(h) && IsWaiting(h, c) && h.calls[c].channel != []
    ensures Inv(Received(h, c))
  {
    var g := Received(h, c);
    OwnedStays(h, g);
    assert CallOk(h, c);
    assert h.calls[c].channel[0] in h.calls[c].channel;
    forall d: nat | d < |g.calls| ensures CallOk(g, d) {
      assert CallOk(h, d);
    }
  }

  lemma GivenUpKeeps(h: Host, c: nat, body: Body)
    requires Inv(h) && IsWaiting(h, c) && !body.FromExtension?
    ensures Inv(GivenUp(h, c, body))
  {
    var g := GivenUp(h, c, body);
    OwnedStays(h, g);
    forall d: nat | d < |g.calls| ensures CallOk(g, d) {
      assert CallOk(h, d);
    }
  }

  /** Over every interleaving of registrations, responses, sends, receipts, cancellations and
      timeouts. */
  lemma {:induction false} RunKeeps(h: Host, events: seq<Event>)
    requires Inv(h)
    ensures Inv(Run(h, events))
    decreases |events|
  {
    hide Step, Inv;
    if events != [] {
      StepKeeps(h, events[0]);
      RunKeeps(Step(h, events[0]), events[1..]);
    }
  }

  // ---------- What the invariant gives ----------

  ghost predicate Reachable(h: Host) {
    exists connected: bool, events: seq<Event> :: h == Run(Initial(connected), events)
  }

  lemma ReachableKeeps(h: Host)
    requires Reachable(h)
    ensures Inv(h)
  {
    hide Run;
    var connected: bool, events: seq<Event> :| h == Run(Initial(connected), events);
    RunKeeps(Initial(connected), events);
  }

  /** The reader never blocks: whenever it holds a response, that channel has room, was never
      sent on before, and no other entry leads to it. */
  lemma ReaderNeverBlocks(h: Host)
    requires Reachable(h) && h.reader.Holding?
    ensures Enabled(h, Sends)
    ensures h.calls[h.reader.call].sends == 0 && h.calls[h.reader.call].channel == [] && !Listed(h, h.reader.call)
  {
    hide Reachable;
    ReachableKeeps(h);
    assert CallOk(h, h.reader.call);
  }

  lemma AtMostOneSend(h: Host, c: nat)
    requires Reachable(h) && c < |h.calls|
    ensures h.calls[c].sends <= 1
  {
    hide Reachable;
    ReachableKeeps(h);
    assert CallOk(h, c);
  }

  /** A returned call has its caller's id back and is no longer listed; what came from the
      extension answered the frame this call wrote and no other call's. */
  lemma RepliesAreOwn(h: Host, c: nat)
    requires Reachable(h) && c < |h.calls| && h.calls[c].stage.Returned?
    ensures var k := h.calls[c];
            && k.stage.reply.id == k.originalId && k.hostId !in h.pending
            && (k.stage.reply.body.FromExtension? ==>
                  && Response(k.hostId, k.stage.reply.body.ok, k.stage.reply.body.payload) in h.heard
                  && forall d: nat :: d < |h.calls| && d != c ==> h.calls[d].hostId != k.hostId)
  {
    hide Reachable;
    ReachableKeeps(h);
    assert CallOk(h, c);
  }

  /** A waiting call can always still be answered: its entry is listed, the reader holds its
      response, or the response is in its channel. */
  lemma WaitingCallsAreReachable(h: Host, c: nat)
    requires Reachable(h) && IsWaiting(h, c)
    ensures h.calls[c].hostId in h.pending || Held(h, c) || Enabled(h, Receives(c))
    ensures h.calls[c].hostId in h.pending ==> h.pending[h.calls[c].hostId] == c
  {
    hide Reachable;
    ReachableKeeps(h);
    assert CallOk(h, c);
  }

  /** A response that arrives after its call returned, and any second one, goes nowhere. */
  lemma LateResponsesAreDropped(h: Host, c: nat, response: Response)
    requires Reachable(h) && h.reader.Reading? && c < |h.calls| && response.id == h.calls[c].hostId
    requires h.calls[c].stage.Returned? || h.calls[c].sends > 0
    ensures Step(h, Arrives(response)) == h.(heard := h.heard + {response})
  {
    hide Reachable;
    ReachableKeeps(h);
    assert CallOk(h, c);
  }

  /** A call that nothing disturbs returns exactly what the extension answered to its frame,
      under its caller's id, and leaves nothing behind. */
  lemma UndisturbedCallIsAnswered(h: Host, originalId: string, response: Response)
    requires Inv(h) && h.connected && h.reader.Reading? && Enabled(h, Calls(originalId, response.id, true))
    ensures var n := |h.calls|;
            var g := Step(Step(Step(Step(h, Calls(originalId, response.id, true)), Arrives(response)), Sends),
              Receives(n));
            && |g.calls| == n + 1
               && g.calls[n].stage == Returned(Reply(originalId, FromExtension(response.ok, response.payload)))
            && g.reader.Reading? && g.pending == h.pending && g.written == h.written + [response.id]
  {
    assert forall id :: id in h.pending ==> CallOk(h, h.pending[id]);
    assert response.id !in h.pending;
    hide Inv, CallOk;
    var n := |h.calls|;
    var a := Step(h, Calls(originalId, response.id, true));
    assert a.calls[n] == Call(originalId, response.id, [], 0, Waiting) && a.pending == h.pending[response.id := n];
    var b := Step(a, Arrives(response));
    assert b.reader == Holding(n, response) && b.pending == h.pending && b.calls == a.calls;
    var c := Step(b, Sends);
    assert c.calls[n] == Call(originalId, response.id, [response], 1, Waiting) && c.reader.Reading?;
  }

  lemma StepKeepsReplies(h: Host, e: Event, c: nat)
    requires c < |h.calls| && h.calls[c].stage.Returned?
    ensures c < |Step(h, e).calls| && Step(h, e).calls[c].stage == h.calls[c].stage
    ensures Step(h, e).calls[c].hostId == h.calls[c].hostId && Step(h, e).calls[c].originalId == h.calls[c].originalId
  {
  }

  /** A call returns once: nothing that happens later changes what it returned. */
  lemma {:induction false} RepliesAreFinal(h: Host, events: seq<Event>, c: nat)
    requires c < |h.calls| && h.calls[c].stage.Returned?
    ensures c < |Run(h, events).calls| && Run(h, events).calls[c].stage == h.calls[c].stage
    decreases |events|
  {
    hide Step;
    if events != [] {
      StepKeepsReplies(h, events[0], c);
      RepliesAreFinal(Step(h, events[0]), events[1..], c);
    }
  }

  /** Call `c` has returned. */
  predicate HasReturned(h: Host, c: nat) { c < |h.calls| && h.calls[c].stage.Returned? }

  /** What has to happen for call `c` to return with that body. */
  predicate Because(h: Host, e: Event, c: nat, body: Body) {
    match body
    case FromExtension(ok, payload) =>
      e == Receives(c) && c < |h.calls| && h.calls[c].channel == [Response(h.calls[c].hostId, ok, payload)]
    case Stopped => e == Cancels(c) && c < |h.calls|
    case TimedOut => e == TimesOut(c) && c < |h.calls|
    case Unavailable => e.Calls? && c == |h.calls| && !h.connected
    case WriteFailed => e.Calls? && c == |h.calls| && h.connected && !e.delivered
  }

  /** A call returns at most at one step, and with the body that tells what happened there. */
  lemma ReturnTellsWhy(h: Host, e: Event, c: nat)
    requires Inv(h) && !HasReturned(h, c) && HasReturned(Step(h, e), c)
    ensures Enabled(h, e) && Because(h, e, c, Step(h, e).calls[c].stage.reply.body)
  {
    if c < |h.calls| { assert CallOk(h, c); }
  }

  /** Over every run: whatever call has returned did so at one step of it, and its body tells by
      which: the extension's answer, a cancellation, the timeout, no extension or a failed write. */
  lemma {:induction false} BodiesTellWhy(h: Host, events: seq<Event>, c: nat) returns (i: nat)
    requires Inv(h) && !HasReturned(h, c) && HasReturned(Run(h, events), c)
    ensures i < |events|
    ensures var g := Run(h, events[..i]);
            Enabled(g, events[i]) && Because(g, events[i], c, Run(h, events).calls[c].stage.reply.body)
    decreases |events|
  {
    hide Step, Inv, Because, Enabled;
    var g := Step(h, events[0]);
    StepKeeps(h, events[0]);
    if HasReturned(g, c) {
      i := 0;
      ReturnTellsWhy(h, events[0], c);
      RepliesAreFinal(g, events[1..], c);
      assert events[..0] == [];
    } else {
      var j := BodiesTellWhy(g, events[1..], c);
      i := j + 1;
      assert events[..i][0] == events[0] && events[..i][1..] == events[1..][..j];
    }
  }

  /** A cancellation and a timeout end the call they hit, and no entry is left behind. */
  lemma GivingUpIsSeen(h: Host, c: nat)
    requires Inv(h) && IsWaiting(h, c)
    ensures Step(h, Cancels(c)).calls[c].stage == Returned(Reply(h.calls[c].originalId, Stopped))
    ensures Step(h, TimesOut(c)).calls[c].stage == Returned(Reply(h.calls[c].originalId, TimedOut))
    ensures h.calls[c].hostId !in Step(h, Cancels(c)).pending && h.calls[c].hostId !in Step(h, TimesOut(c)).pending
  {
  }

  /** Frames are written for new calls only, one each, under the id drawn for it, and only to an
      extension that is there. */
  lemma FramesAreWrittenExactlySo(h: Host, e: Event)
    requires Inv(h)
    ensures Step(h, e).written == h.written
            + if Enabled(h, e) && e.Calls? && h.connected && e.delivered then [e.hostId] else []
  {
  }

  /** Registering keeps the invariant exactly when the host id belongs to no earlier call. */
  lemma RegisteringIsSafeIffFresh(h: Host, originalId: string, hostId: string, delivered: bool)
    requires Inv(h)
    ensures Inv(Registered(h, originalId, hostId, delivered)) <==> !Owned(h, hostId)
  {
    var g := Registered(h, originalId, hostId, delivered);
    if Owned(h, hostId) {
      var c: nat :| c < |h.calls| && h.calls[c].hostId == hostId;
      assert g.calls[c].hostId == g.calls[|h.calls|].hostId;
    } else {
      RegisteredKeeps(h, originalId, hostId, delivered);
    }
  }

  /** Freshness is what correlation rests on: were a host id drawn again while its first call
      waits, the answer to the first frame would go to the second call. */
  lemma ReusedIdCrosses(a: string, b: string, id: string, response: Response)
    requires id != "" && response.id == id
    ensures var h := Registered(Registered(Initial(true), a, id, true), b, id, true);
            var g := Received(Sent(Taken(h, response)), 1);
            g.calls[1].stage == Returned(Reply(b, FromExtension(response.ok, response.payload)))
              && g.calls[0].stage.Waiting?
            && g.pending == map[]
  {
    var h := Registered(Registered(Initial(true), a, id, true), b, id, true);
    assert h.pending == map[id := 1];
  }

  lemma HeldHasRoom(h: Host)
    requires Inv(h) && h.reader.Holding?
    ensures Enabled(h, Sends)
  {
    assert CallOk(h, h.reader.call);
  }

  // ---------- The broker itself ----------

  class BridgeHost {
    const connected: bool
    var pending: map<string, nat>
    var calls: seq<Call>
    var reader: Reader
    var used: set<string>
    var written: seq<string>
    var heard: set<Response>

    ghost function View(): Host
      reads this
    {
      Host(connected, pending, calls, reader, used, written, heard)
    }

    constructor (extension: bool)
      ensures View() == Initial(extension) && Inv(View())
    {
      connected := extension;
      pending, calls, reader, used, written, heard := map[], [], Reading, {}, [], {};
    }

    /** `hostId` is the id drawn for the frame, `delivered` whether writing it succeeded. */
    method Register(originalId: string, hostId: string, delivered: bool) returns (call: nat)
      requires Inv(View()) && Enabled(View(), Calls(originalId, hostId, delivered))
      modifies this
      ensures View() == Step(old(View()), Calls(originalId, hostId, delivered)) && Inv(View())
      ensures call == |old(calls)| && (IsWaiting(View(), call) <==> connected && delivered)
    {
      StepKeeps(View(), Calls(originalId, hostId, delivered));
      hide Inv;
      call := |calls|;
      used := used + {hostId};
      if !connected {
        calls := calls + [Call(originalId, hostId, [], 0, Returned(Reply(originalId, Unavailable)))];
        return;
      }
      pending := pending[hostId := call];
      if !delivered {
        pending := pending - {hostId};
        calls := calls + [Call(originalId, hostId, [], 0, Returned(Reply(originalId, WriteFailed)))];
        return;
      }
      written := written + [hostId];
      calls := calls + [Call(originalId, hostId, [], 0, Waiting)];
    }

    /** The reader's locked region. */
    method Take(response: Response)
      requires Inv(View()) && Enabled(View(), Arrives(response))
      modifies this
      ensures View() == Step(old(View()), Arrives(response)) && Inv(View())
    {
      StepKeeps(View(), Arrives(response));
      hide Inv;
      heard := heard + {response};
      if response.id != "" && response.id in pending {
        reader := Holding(pending[response.id], response);
        pending := pending - {response.id};
      }
    }

    /** The reader's send. Nothing is asked about room in the channel: there always is. */
    method Send()
      requires Inv(View()) && reader.Holding?
      modifies this
      ensures Enabled(old(View()), Sends)
      ensures View() == Step(old(View()), Sends) && Inv(View()) && reader.Reading?
    {
      HeldHasRoom(View());
      StepKeeps(View(), Sends);
      hide Inv;
      var c := reader.call;
      calls := calls[c := calls[c].(channel := calls[c].channel + [reader.response], sends := calls[c].sends + 1)];
      reader := Reading;
    }

    /** The receiving branch of a waiting call. */
    method Receive(c: nat) returns (reply: Reply)
      requires Inv(View()) && Enabled(View(), Receives(c))
      modifies this
      ensures View() == Step(old(View()), Receives(c)) && Inv(View())
      ensures calls[c].stage == Returned(reply) && reply.id == old(calls[c].originalId)
    {
      StepKeeps(View(), Receives(c));
      hide Inv;
      var k := calls[c];
      reply := Reply(k.originalId, FromExtension(k.channel[0].ok, k.channel[0].payload));
      calls := calls[c := k.(channel := k.channel[1..], stage := Returned(reply))];
    }

    /** The cancellation and timeout branches. */
    method GiveUp(c: nat, timedOut: bool) returns (reply: Reply)
      requires Inv(View()) && IsWaiting(View(), c)
      modifies this
      ensures View() == Step(old(View()), if timedOut then TimesOut(c) else Cancels(c)) && Inv(View())
      ensures calls[c].stage == Returned(reply) && calls[c].hostId !in pending
    {
      StepKeeps(View(), if timedOut then TimesOut(c) else Cancels(c));
      hide Inv;
      var k := calls[c];
      pending := pending - {k.hostId};
      reply := Reply(k.originalId, if timedOut then TimedOut else Stopped);
      calls := calls[c := k.(stage := Returned(reply))];
    }
  }
}
