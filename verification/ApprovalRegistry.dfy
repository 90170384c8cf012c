/** The registry of tool calls that wait for a user's approval: one promise and one timer per
    request, and several ways to settle them. */
module ApprovalRegistry {
  import opened JsMap
  import opened Options

  datatype Verdict = Approve | Deny | ForSession | Abort | Timeout

  datatype Request = Request(id: string, sessionId: string, agentRunId: string, suggestions: set<string>)

  /** What a promise resolves to. */
  datatype Decision = Decision(requestId: string, verdict: Verdict, suggestion: Option<string>)

  /** Requests are named by the order of registration, as are their promises and timers.
      `pending` maps request ids to that number; `settled` holds the resolved promises and
      `notices` every call of the resolution callback, in order. */
  datatype Registry = Registry(requests: seq<Request>, pending: OrderedMap<string, nat>, armed: set<nat>,
                               settled: map<nat, Decision>, notices: seq<(nat, Decision)>)

  const NOTHING_PENDING: OrderedMap<string, nat> := []

  function Initial(): Registry { Registry([], NOTHING_PENDING, {}, map[], []) }

  // ---------- Steps ----------

  function Registered(r: Registry, request: Request): Registry {
    var ticket := |r.requests|;
    r.(requests := r.requests + [request], armed := r.armed + {ticket}, pending := Set(r.pending, request.id, ticket))
  }

  /** Resolving a promise that is already resolved does nothing; the callback runs anyway. */
  function Settle(r: Registry, ticket: nat, decision: Decision): Registry {
    r.(settled := if ticket in r.settled then r.settled else r.settled[ticket := decision],
       notices := r.notices + [(ticket, decision)])
  }

  /** The timer's callback removes whatever is registered under its request's id. */
  function Fired(r: Registry, ticket: nat): Registry
    requires ticket < |r.requests|
  {
    var id := r.requests[ticket].id;
    Settle(r.(armed := r.armed - {ticket}, pending := Delete(r.pending, id)), ticket, Decision(id, Timeout, None))
  }

  function Resolved(r: Registry, entry: (string, nat), verdict: Verdict, suggestion: Option<string>): Registry {
    Settle(r.(armed := r.armed - {entry.1}, pending := Delete(r.pending, entry.0)), entry.1,
      Decision(entry.0, verdict, suggestion))
  }

  datatype Answer = Taken | NotFound | InvalidSuggestion

  function Judgement(r: Registry, id: string, verdict: Verdict, suggestion: Option<string>): Answer {
    var ticket := Get(r.pending, id);
    if ticket.None? then NotFound
    else if verdict.ForSession?
            && (suggestion.None? || ticket.value >= |r.requests|
               || suggestion.value !in r.requests[ticket.value].suggestions)
    then InvalidSuggestion
    else Taken
  }

  function Decided(r: Registry, id: string, verdict: Verdict, suggestion: Option<string>): Registry {
    if Judgement(r, id, verdict, suggestion).Taken?
      then Resolved(r, (id, Get(r.pending, id).value), verdict, suggestion) else r
  }

  function Aborted(r: Registry, id: string): Registry {
    if Has(r.pending, id) then Resolved(r, (id, Get(r.pending, id).value), Abort, None) else r
  }

  /** Which pending requests a bulk operation means. */
  datatype Selection = OfRun(sessionId: string, agentRunId: string) | OfSession(sessionId: string) | Everything

  function SessionSelection(sessionId: Option<string>): Selection {
    if sessionId.None? || sessionId.value == "" then Everything else OfSession(sessionId.value)
  }

  predicate Means(sel: Selection, request: Request) {
    match sel
    case OfRun(sessionId, agentRunId) => request.sessionId == sessionId && request.agentRunId == agentRunId
    case OfSession(sessionId) => request.sessionId == sessionId
    case Everything => true
  }

  predicate Chosen(requests: seq<Request>, sel: Selection, entry: (string, nat)) {
    entry.1 < |requests| && Means(sel, requests[entry.1])
  }

  function Choose(requests: seq<Request>, sel: Selection, entries: OrderedMap<string, nat>): OrderedMap<string, nat> {
    if entries == [] then []
    else
      var front, last := Choose(requests, sel, entries[..|entries| - 1]), entries[|entries| - 1];
      if Chosen(requests, sel, last) then front + [last] else front
  }

  function AllResolved(r: Registry, entries: seq<(string, nat)>, verdict: Verdict): Registry
    decreases |entries|
  {
    if entries == [] then r
    else Resolved(AllResolved(r, entries[..|entries| - 1], verdict), entries[|entries| - 1], verdict, None)
  }

  function BulkResolved(r: Registry, sel: Selection, verdict: Verdict): Registry {
    AllResolved(r, Choose(r.requests, sel, r.pending), verdict)
  }

  datatype Event =
    | Waits(request: Request)
    | Fires(ticket: nat)
    | Decides(id: string, verdict: Verdict, suggestion: Option<string>)
    | AbortsRequest(id: string)
    | AbortsRun(sessionId: string, agentRunId: string)
    | Expires(session: Option<string>)

  /** Only armed timers fire, and live requests have different ids. */
  predicate Enabled(r: Registry, e: Event) {
    match e
    case Waits(request) => !Has(r.pending, request.id)
    case Fires(ticket) => ticket in r.armed && ticket < |r.requests|
    case _ => true
  }

  function Step(r: Registry, e: Event): Registry {
    if !Enabled(r, e) then r
    else
      match e
      case Waits(request) => Registered(r, request)
      case Fires(ticket) => Fired(r, ticket)
      case Decides(id, verdict, suggestion) => Decided(r, id, verdict, suggestion)
      case AbortsRequest(id) => Aborted(r, id)
      case AbortsRun(sessionId, agentRunId) => BulkResolved(r, OfRun(sessionId, agentRunId), Abort)
      case Expires(session) => BulkResolved(r, SessionSelection(session), Timeout)
  }

  function Run(r: Registry, events: seq<Event>): Registry
    decreases |events|
  {
    if events == [] then r else Run(Step(r, events[0]), events[1..])
  }

  // ---------- The invariant ----------

  /** Registered under its own id, and so waiting. */
  predicate IsPending(r: Registry, ticket: nat) {
    ticket < |r.requests| && (r.requests[ticket].id, ticket) in r.pending
  }

  ghost predicate PendingOk(r: Registry) {
    && Distinct(r.pending)
    && forall e :: e in r.pending ==> IsPending(r, e.1) && e.0 == r.requests[e.1].id
  }

  /** For each request three things say the same: it is pending, its timer is armed, its
      promise is unresolved. */
  ghost predicate InStep(r: Registry) {
    && (forall t: nat :: t in r.armed || t in r.settled ==> t < |r.requests|)
    && (forall t: nat :: t < |r.requests| ==> (t in r.armed <==> t !in r.settled))
    && (forall t: nat :: t < |r.requests| ==> (t in r.armed <==> IsPending(r, t)))
  }

  /** The callback ran once for each resolved promise, with its decision, and for no other. */
  ghost predicate NotifiedOnce(r: Registry) {
    && (forall i, j :: 0 <= i < j < |r.notices| ==> r.notices[i].0 != r.notices[j].0)
    && (forall t: nat, d :: (t, d) in r.notices <==> t in r.settled && r.settled[t] == d)
  }

  ghost predicate Inv(r: Registry) { PendingOk(r) && InStep(r) && NotifiedOnce(r) }

  lemma PendingIsHeld(r: Registry, id: string)
    requires PendingOk(r)
    ensures Has(r.pending, id) <==> exists t: nat :: IsPending(r, t) && r.requests[t].id == id
    ensures Has(r.pending, id) ==> Get(r.pending, id).Some? && (id, Get(r.pending, id).value) in r.pending
  {
    if Has(r.pending, id) {
      var e := r.pending[Find(r.pending, id)];
      assert e in r.pending && e == (id, e.1);
      assert IsPending(r, e.1);
    }
    if exists t: nat :: IsPending(r, t) && r.requests[t].id == id {
      var t: nat :| IsPending(r, t) && r.requests[t].id == id;
      var i :| 0 <= i < |r.pending| && r.pending[i] == (id, t);
      HasIffHeld(r.pending, id);
    }
  }

  lemma SettleNotifies(r: Registry, ticket: nat, decision: Decision)
    requires NotifiedOnce(r) && ticket !in r.settled
    ensures NotifiedOnce(Settle(r, ticket, decision))
  {
    var x := Settle(r, ticket, decision);
    forall i, j | 0 <= i < j < |x.notices| ensures x.notices[i].0 != x.notices[j].0 {
      if j == |r.notices| { assert r.notices[i] in r.notices; assert (r.notices[i].0, r.notices[i].1) in r.notices; }
    }
  }

  lemma ResolvedKeeps(r: Registry, entry: (string, nat), verdict: Verdict, suggestion: Option<string>)
    requires Inv(r) && entry in r.pending
    ensures Inv(Resolved(r, entry, verdict, suggestion))
    ensures forall e :: e in Resolved(r, entry, verdict, suggestion).pending <==> e in r.pending && e != entry
    ensures |Resolved(r, entry, verdict, suggestion).pending| == |r.pending| - 1
  {
    hide Delete, Find;
    DeleteKeeps(r.pending, entry.0);
    OnlyEntry(r, entry);
    assert IsPending(r, entry.1);
    var decision := Decision(entry.0, verdict, suggestion);
    SettleNotifies(r.(armed := r.armed - {entry.1}, pending := Delete(r.pending, entry.0)), entry.1, decision);
    var x := Resolved(r, entry, verdict, suggestion);
    forall t: nat | t < |x.requests| ensures t in x.armed <==> IsPending(x, t) {
      assert t in r.armed <==> IsPending(r, t);
    }
  }

  lemma OnlyEntry(r: Registry, entry: (string, nat))
    requires PendingOk(r) && entry in r.pending
    ensures Has(r.pending, entry.0)
    ensures forall e :: e in r.pending && e.0 == entry.0 ==> e == entry
  {
    HasIffHeld(r.pending, entry.0);
    var i :| 0 <= i < |r.pending| && r.pending[i] == entry;
    forall e | e in r.pending && e.0 == entry.0 ensures e == entry {
      var j :| 0 <= j < |r.pending| && r.pending[j] == e;
    }
  }

  lemma FiredIsResolved(r: Registry, ticket: nat)
    requires Inv(r) && ticket in r.armed
    ensures ticket < |r.requests| && Fired(r, ticket) == Resolved(r, (r.requests[ticket].id, ticket), Timeout, None)
    ensures (r.requests[ticket].id, ticket) in r.pending
  {
    assert IsPending(r, ticket);
  }

  lemma RegisteredKeeps(r: Registry, request: Request)
    requires Inv(r) && !Has(r.pending, request.id)
    ensures Inv(Registered(r, request))
  {
    var x, ticket := Registered(r, request), |r.requests|;
    assert x.pending == r.pending + [(request.id, ticket)];
    assert forall e :: e in x.pending <==> e in r.pending || e == (request.id, ticket);
    forall t: nat | t < |x.requests| ensures t in x.armed <==> IsPending(x, t) {
      if t < |r.requests| { assert t in r.armed <==> IsPending(r, t); }
    }
    forall e | e in x.pending ensures IsPending(x, e.1) && e.0 == x.requests[e.1].id {
      if e in r.pending { assert IsPending(r, e.1); }
    }
  }

  // ---------- Bulk operations ----------

  lemma {:induction false} ChosenEntries(requests: seq<Request>, sel: Selection, entries: OrderedMap<string, nat>)
    ensures forall e :: e in Choose(requests, sel, entries) <==> e in entries && Chosen(requests, sel, e)
    ensures Distinct(entries) ==> Distinct(Choose(requests, sel, entries))
    decreases |entries|
  {
    if entries != [] {
      var front := entries[..|entries| - 1];
      assert entries == front + [entries[|entries| - 1]];
      ChosenEntries(requests, sel, front);
      if Distinct(entries) { ChosenStaysDistinct(requests, sel, entries); }
    }
  }

  lemma ChosenStaysDistinct(requests: seq<Request>, sel: Selection, entries: OrderedMap<string, nat>)
    requires entries != [] && Distinct(entries)
    requires var front := entries[..|entries| - 1];
             Distinct(Choose(requests, sel, front)) && forall e :: e in Choose(requests, sel, front) ==> e in front
    ensures Distinct(Choose(requests, sel, entries))
  {
    var front, last := entries[..|entries| - 1], entries[|entries| - 1];
    var c := Choose(requests, sel, front);
    forall i | 0 <= i < |c| ensures c[i].0 != last.0 {
      assert c[i] in front;
    }
  }

  /** What resolving some of the pending entries does to the whole registry. */
  ghost predicate ResolvesExactly(r: Registry, x: Registry, entries: seq<(string, nat)>, verdict: Verdict) {
    && x.requests == r.requests
    && (forall e :: e in x.pending <==> e in r.pending && e !in entries)
    && |x.pending| == |r.pending| - |entries|
    && x.notices == r.notices + Notices(entries, verdict)
    && (forall t: nat :: t in x.settled <==> t in r.settled || Names(entries, t))
    && (forall t: nat :: t in r.settled ==> x.settled[t] == r.settled[t])
  }

  predicate Names(entries: seq<(string, nat)>, ticket: nat) { exists e :: e in entries && e.1 == ticket }

  function Notices(entries: seq<(string, nat)>, verdict: Verdict): seq<(nat, Decision)> {
    seq(|entries|, i requires 0 <= i < |entries| => (entries[i].1, Decision(entries[i].0, verdict, None)))
  }

  lemma {:induction false} AllResolvedKeeps(r: Registry, entries: seq<(string, nat)>, verdict: Verdict)
    requires Inv(r) && (forall e :: e in entries ==> e in r.pending)
    requires forall i, j :: 0 <= i < j < |entries| ==> entries[i].0 != entries[j].0
    ensures Inv(AllResolved(r, entries, verdict))
            && ResolvesExactly(r, AllResolved(r, entries, verdict), entries, verdict)
    decreases |entries|
  {
    hide Inv, Resolved;
    var x := AllResolved(r, entries, verdict);
    if entries != [] {
      var front, last := entries[..|entries| - 1], entries[|entries| - 1];
      assert entries == front + [last];
      AllResolvedKeeps(r, front, verdict);
      var y := AllResolved(r, front, verdict);
      assert last !in front;
      ResolvedKeeps(y, last, verdict, None);
      ResolvedAlso(y, last, verdict);
      OneMoreResolved(r, y, x, front, last, verdict);
    }
  }

  lemma ResolvedAlso(r: Registry, entry: (string, nat), verdict: Verdict)
    requires Inv(r) && entry in r.pending
    ensures var x := Resolved(r, entry, verdict, None);
            && x.requests == r.requests && x.notices == r.notices + [(entry.1, Decision(entry.0, verdict, None))]
            && x.settled == r.settled[entry.1 := Decision(entry.0, verdict, None)] && entry.1 !in r.settled
  {
    assert IsPending(r, entry.1);
  }

  lemma OneMoreResolved(r: Registry, y: Registry, x: Registry, front: seq<(string, nat)>, last: (string, nat),
                        verdict: Verdict)
    requires ResolvesExactly(r, y, front, verdict) && last in y.pending
    requires x.requests == y.requests && |x.pending| == |y.pending| - 1
    requires forall e :: e in x.pending <==> e in y.pending && e != last
    requires x.notices == y.notices + [(last.1, Decision(last.0, verdict, None))]
    requires last.1 !in y.settled && x.settled == y.settled[last.1 := Decision(last.0, verdict, None)]
    ensures ResolvesExactly(r, x, front + [last], verdict)
  {
    assert Notices(front + [last], verdict) == Notices(front, verdict) + [(last.1, Decision(last.0, verdict, None))];
    forall t: nat ensures Names(front + [last], t) <==> Names(front, t) || last.1 == t {
      assert forall e :: e in front + [last] <==> e in front || e == last;
    }
  }

  /** A bulk operation settles exactly the pending requests it means: they leave the registry,
      each is notified once in registration order, and nobody else changes. */
  lemma BulkIsExact(r: Registry, sel: Selection, verdict: Verdict)
    requires Inv(r)
    ensures var x, chosen := BulkResolved(r, sel, verdict), Choose(r.requests, sel, r.pending);
            && Inv(x) && ResolvesExactly(r, x, chosen, verdict)
            && (forall e :: e in chosen <==> e in r.pending && Means(sel, r.requests[e.1]))
            && |chosen| == |r.pending| - |x.pending|
  {
    hide Choose, NotifiedOnce, InStep;
    ChosenEntries(r.requests, sel, r.pending);
    var chosen := Choose(r.requests, sel, r.pending);
    assert forall e :: e in r.pending ==> IsPending(r, e.1);
    AllResolvedKeeps(r, chosen, verdict);
  }

  /** If meant and pending, the request is settled with the verdict and leaves the registry;
      otherwise nothing changes for it. */
  predicate SettledIf(r: Registry, x: Registry, t: nat, meant: bool, verdict: Verdict)
    requires t < |r.requests|
  {
    if meant && IsPending(r, t)
      then !IsPending(x, t) && t in x.settled && x.settled[t] == Decision(r.requests[t].id, verdict, None)
    else
      && (IsPending(x, t) <==> IsPending(r, t)) && (t in x.settled <==> t in r.settled)
      && (t in r.settled ==> x.settled[t] == r.settled[t])
  }

  /** Aborting a run settles the requests of that run in that session, as aborted. */
  lemma AbortMeansItsRun(r: Registry, sessionId: string, agentRunId: string, t: nat)
    requires Inv(r) && t < |r.requests|
    ensures var request := r.requests[t];
            SettledIf(r, Step(r, AbortsRun(sessionId, agentRunId)), t,
                      request.sessionId == sessionId && request.agentRunId == agentRunId, Abort)
  {
    hide BulkResolved, Inv, SettledIf;
    BulkSettlesMeant(r, OfRun(sessionId, agentRunId), Abort, t);
  }

  /** Expiring settles the requests of the session, or all if none or an empty one is named, as
      timed out. */
  lemma ExpiryMeansItsSession(r: Registry, session: Option<string>, t: nat)
    requires Inv(r) && t < |r.requests|
    ensures SettledIf(r, Step(r, Expires(session)), t,
                      session == None || session == Some("") || session == Some(r.requests[t].sessionId), Timeout)
  {
    hide BulkResolved, Inv, SettledIf;
    BulkSettlesMeant(r, SessionSelection(session), Timeout, t);
  }

  lemma BulkSettlesMeant(r: Registry, sel: Selection, verdict: Verdict, t: nat)
    requires Inv(r) && t < |r.requests|
    ensures SettledIf(r, BulkResolved(r, sel, verdict), t, Means(sel, r.requests[t]), verdict)
  {
    hide Choose, BulkResolved, Means;
    BulkIsExact(r, sel, verdict);
    var x, chosen, e := BulkResolved(r, sel, verdict), Choose(r.requests, sel, r.pending), (r.requests[t].id, t);
    if IsPending(r, t) && Means(sel, r.requests[t]) {
      assert e in chosen;
      var i :| 0 <= i < |chosen| && chosen[i] == e;
      assert Notices(chosen, verdict)[i] == (t, Decision(e.0, verdict, None));
      assert x.notices[|r.notices| + i] == (t, Decision(e.0, verdict, None));
    } else {
      NotNamed(r, chosen, t);
    }
  }

  lemma NotNamed(r: Registry, entries: seq<(string, nat)>, t: nat)
    requires PendingOk(r) && t < |r.requests| && forall e :: e in entries ==> e in r.pending
    requires (r.requests[t].id, t) !in entries
    ensures !Names(entries, t)
  {
    forall e | e in entries ensures e.1 != t { assert IsPending(r, e.1) && e.0 == r.requests[e.1].id; }
  }

  // ---------- Every order of steps ----------

  lemma StepKeeps(r: Registry, e: Event)
    requires Inv(r)
    ensures Inv(Step(r, e))
  {
    hide Inv, Resolved, Fired, Registered, BulkResolved;
    if Enabled(r, e) {
      match e
      case Waits(request) => RegisteredKeeps(r, request);
      case Fires(ticket) =>
        FiredIsResolved(r, ticket);
        ResolvedKeeps(r, (r.requests[ticket].id, ticket), Timeout, None);
      case Decides(id, verdict, suggestion) =>
        if Has(r.pending, id) {
          HeldIsPending(r, id);
          ResolvedKeeps(r, (id, Get(r.pending, id).value), verdict, suggestion);
        }
      case AbortsRequest(id) =>
        if Has(r.pending, id) {
          HeldIsPending(r, id);
          ResolvedKeeps(r, (id, Get(r.pending, id).value), Abort, None);
        }
      case AbortsRun(sessionId, agentRunId) => BulkIsExact(r, OfRun(sessionId, agentRunId), Abort);
      case Expires(session) => BulkIsExact(r, SessionSelection(session), Timeout);
    }
  }

  lemma HeldIsPending(r: Registry, id: string)
    requires Has(r.pending, id)
    ensures Get(r.pending, id).Some? && (id, Get(r.pending, id).value) in r.pending
  {
    var e := r.pending[Find(r.pending, id)];
    assert e == (id, e.1);
  }

  lemma InitialHolds()
    ensures Inv(Initial())
  {
  }

  lemma {:induction false} RunKeeps(r: Registry, events: seq<Event>)
    requires Inv(r)
    ensures Inv(Run(r, events))
    decreases |events|
  {
    hide Step, Inv;
    if events != [] {
      StepKeeps(r, events[0]);
      RunKeeps(Step(r, events[0]), events[1..]);
    }
  }

  /** Over every order of decisions, aborts, expiries and timers: a request is pending as long
      as its timer is armed and its promise unresolved, and once resolved its callback has run
      exactly once, with that decision. */
  lemma ExactlyOnce(events: seq<Event>, t: nat)
    requires t < |Run(Initial(), events).requests|
    ensures var r := Run(Initial(), events);
            && (IsPending(r, t) <==> t in r.armed) && (IsPending(r, t) <==> t !in r.settled)
            && (t in r.settled ==> (t, r.settled[t]) in r.notices)
            && (forall i, j :: 0 <= i < |r.notices| && 0 <= j < |r.notices| ==>
                 r.notices[i].0 == t && r.notices[j].0 == t ==> i == j)
  {
    hide Run;
    InitialHolds();
    RunKeeps(Initial(), events);
  }

  lemma StepKeepsDecisions(r: Registry, e: Event, t: nat)
    requires Inv(r) && t in r.settled
    ensures t in Step(r, e).settled && Step(r, e).settled[t] == r.settled[t]
  {
    hide Inv, Delete, Set, Has, Get, AllResolved, Choose;
    if Enabled(r, e) {
      match e
      case AbortsRun(sessionId, agentRunId) => BulkIsExact(r, OfRun(sessionId, agentRunId), Abort);
      case Expires(session) => BulkIsExact(r, SessionSelection(session), Timeout);
      case _ =>
    }
  }

  /** A decision once given stands. */
  lemma {:induction false} DecisionsAreFinal(r: Registry, events: seq<Event>, t: nat)
    requires Inv(r) && t in r.settled
    ensures t in Run(r, events).settled && Run(r, events).settled[t] == r.settled[t]
    decreases |events|
  {
    hide Step, Inv;
    if events != [] {
      StepKeeps(r, events[0]);
      StepKeepsDecisions(r, events[0], t);
      DecisionsAreFinal(Step(r, events[0]), events[1..], t);
    }
  }

  /** One request gets its decision, and nothing is settled besides. */
  ghost predicate SettlesOnly(r: Registry, x: Registry, ticket: nat, decision: Decision) {
    x.settled == r.settled[ticket := decision] && x.notices == r.notices + [(ticket, decision)] && ticket !in x.armed
  }

  lemma ResolvedSettlesOnly(r: Registry, entry: (string, nat), verdict: Verdict, suggestion: Option<string>)
    requires Inv(r) && entry in r.pending
    ensures SettlesOnly(r, Resolved(r, entry, verdict, suggestion), entry.1, Decision(entry.0, verdict, suggestion))
  {
    hide Delete;
    assert IsPending(r, entry.1);
  }

  /** A timer that fires settles its own request, as timed out; aborting settles the pending
      request of that id, as aborted. */
  lemma TimersAndAbortsSettleTheirOwn(r: Registry, ticket: nat)
    requires Inv(r) && ticket in r.armed
    ensures ticket < |r.requests|
    ensures var id := r.requests[ticket].id;
            && SettlesOnly(r, Step(r, Fires(ticket)), ticket, Decision(id, Timeout, None))
            && SettlesOnly(r, Step(r, AbortsRequest(id)), ticket, Decision(id, Abort, None))
  {
    hide Delete, Find, Resolved, SettlesOnly;
    FiredIsResolved(r, ticket);
    var entry := (r.requests[ticket].id, ticket);
    OnlyEntry(r, entry);
    HeldIsPending(r, entry.0);
    ResolvedSettlesOnly(r, entry, Timeout, None);
    ResolvedSettlesOnly(r, entry, Abort, None);
  }

  /** A decision is taken exactly when the request is pending and, for a session grant, names
      one of its suggestions; taken once, it is not found again. */
  lemma DecideIsTakenOnce(r: Registry, id: string, verdict: Verdict, suggestion: Option<string>,
                          again: Verdict, other: Option<string>)
    requires Inv(r)
    ensures Judgement(r, id, verdict, suggestion).Taken? <==>
              exists t: nat :: IsPending(r, t) && r.requests[t].id == id
                && (verdict.ForSession? ==> suggestion.Some? && suggestion.value in r.requests[t].suggestions)
    ensures Judgement(r, id, verdict, suggestion).Taken? ==>
            Judgement(Decided(r, id, verdict, suggestion), id, again, other) == NotFound
    ensures Judgement(r, id, verdict, suggestion).Taken? ==>
              SettlesOnly(r, Decided(r, id, verdict, suggestion), Get(r.pending, id).value,
                Decision(id, verdict, suggestion))
    ensures Judgement(r, id, verdict, suggestion) == NotFound
      <==> !exists t: nat :: IsPending(r, t) && r.requests[t].id == id
    ensures !Judgement(r, id, verdict, suggestion).Taken? ==> Decided(r, id, verdict, suggestion) == r
  {
    hide Find, Delete, InStep, NotifiedOnce, SettlesOnly;
    PendingIsHeld(r, id);
    if Has(r.pending, id) {
      var ticket := Get(r.pending, id).value;
      OnlyEntry(r, (id, ticket));
      ResolvedSettlesOnly(r, (id, ticket), verdict, suggestion);
      assert IsPending(r, ticket);
      DeleteKeeps(r.pending, id);
    }
  }

  // ---------- Ids in use ----------

  /** Registering keeps the registry sound exactly when the id is not in use. */
  lemma RegisteringIsSafeIffFresh(r: Registry, request: Request)
    requires Inv(r)
    ensures Inv(Registered(r, request)) <==> !Has(r.pending, request.id)
  {
    if Has(r.pending, request.id) {
      var x, ticket := Registered(r, request), |r.requests|;
      var i := Find(r.pending, request.id);
      var first := r.pending[i].1;
      assert r.pending[i] in r.pending && IsPending(r, first);
      assert x.pending == r.pending[i := (request.id, ticket)];
      assert first in x.armed;
      forall j | 0 <= j < |x.pending| ensures x.pending[j] != (request.id, first) {
        assert j != i ==> r.pending[j].0 != r.pending[i].0;
      }
      assert (request.id, first) !in x.pending && x.requests[first].id == request.id;
    } else {
      RegisteredKeeps(r, request);
    }
  }

  /** With an id in use, the first request's timer takes the second request out: nobody can
      decide it any more although its promise is unresolved. */
  lemma ReusedIdIsLost(first: Request, second: Request, verdict: Verdict, suggestion: Option<string>)
    requires first.id == second.id
    ensures var r := Fired(Registered(Registered(Initial(), first), second), 0);
            && 1 !in r.settled && 1 in r.armed && Judgement(r, second.id, verdict, suggestion) == NotFound
  {
    var a := Registered(Initial(), first);
    assert a.pending == [(first.id, 0)];
    var b := Registered(a, second);
    assert b.pending == [(first.id, 1)];
    var none: OrderedMap<string, nat> := [];
    assert Delete(b.pending, first.id) == none;
  }

  // ---------- The registry itself ----------

  class PendingApprovalRegistry {
    var requests: seq<Request>
    var pending: OrderedMap<string, nat>
    var armed: set<nat>
    var settled: map<nat, Decision>
    var notices: seq<(nat, Decision)>

    ghost function View(): Registry
      reads this
    {
      Registry(requests, pending, armed, settled, notices)
    }

    constructor ()
      ensures View() == Initial() && Inv(View())
    {
      requests, pending, armed, settled, notices := [], NOTHING_PENDING, {}, map[], [];
      new;
      InitialHolds();
    }

    method WaitForDecision(request: Request) returns (ticket: nat)
      modifies this
      ensures View() == Registered(old(View()), request) && ticket == |old(requests)|
    {
      ticket := |requests|;
      requests := requests + [request];
      armed := armed + {ticket};
      pending := Set(pending, request.id, ticket);
    }

    method TimerFired(ticket: nat)
      requires Enabled(View(), Fires(ticket))
      modifies this
      ensures View() == Step(old(View()), Fires(ticket))
    {
      var id := requests[ticket].id;
      armed := armed - {ticket};
      pending := Delete(pending, id);
      Notify(ticket, Decision(id, Timeout, None));
    }

    method Notify(ticket: nat, decision: Decision)
      modifies this
      ensures View() == Settle(old(View()), ticket, decision)
    {
      if ticket !in settled { settled := settled[ticket := decision]; }
      notices := notices + [(ticket, decision)];
    }

    method ResolveEntry(entry: (string, nat), verdict: Verdict, suggestion: Option<string>)
      modifies this
      ensures View() == Resolved(old(View()), entry, verdict, suggestion)
    {
      armed := armed - {entry.1};
      pending := Delete(pending, entry.0);
      Notify(entry.1, Decision(entry.0, verdict, suggestion));
    }

    method Decide(id: string, verdict: Verdict, suggestion: Option<string>) returns (answer: Answer)
      modifies this
      ensures View() == Decided(old(View()), id, verdict, suggestion)
      ensures answer == Judgement(old(View()), id, verdict, suggestion)
    {
      hide Resolved, Find;
      var ticket := Get(pending, id);
      if ticket.None? { return NotFound; }
      if verdict.ForSession?
         && (suggestion.None? || ticket.value >= |requests|
            || suggestion.value !in requests[ticket.value].suggestions) {
        return InvalidSuggestion;
      }
      ResolveEntry((id, ticket.value), verdict, suggestion);
      return Taken;
    }

    method AbortRequest(id: string)
      modifies this
      ensures View() == Step(old(View()), AbortsRequest(id))
    {
      hide Resolved, Find;
      var ticket := Get(pending, id);
      if ticket.Some? { ResolveEntry((id, ticket.value), Abort, None); }
    }

    /** Both bulk operations: one pass over the entries there were, in order. */
    method ResolveChosen(sel: Selection, verdict: Verdict) returns (count: nat)
      modifies this
      ensures View() == BulkResolved(old(View()), sel, verdict)
      ensures count == |Choose(old(requests), sel, old(pending))|
    {
      hide Resolved;
      var entries := pending;
      count := 0;
      for i := 0 to |entries|
        invariant requests == old(requests)
        invariant View() == AllResolved(old(View()), Choose(requests, sel, entries[..i]), verdict)
        invariant count == |Choose(requests, sel, entries[..i])|
      {
        ghost var before, after := Choose(requests, sel, entries[..i]), Choose(requests, sel, entries[..i + 1]);
        assert entries[..i + 1][..i] == entries[..i];
        if Chosen(requests, sel, entries[i]) {
          assert after == before + [entries[i]] && after[..|after| - 1] == before;
          ResolvedKeepsRequests(View(), entries[i], verdict);
          ResolveEntry(entries[i], verdict, None);
          count := count + 1;
        }
      }
      assert entries[..|entries|] == entries;
    }

    method AbortAgentRun(sessionId: string, agentRunId: string) returns (count: nat)
      requires Inv(View())
      modifies this
      ensures View() == Step(old(View()), AbortsRun(sessionId, agentRunId))
      ensures count == |old(pending)| - |pending|
    {
      BulkIsExact(View(), OfRun(sessionId, agentRunId), Abort);
      hide Inv, BulkResolved, Choose;
      count := ResolveChosen(OfRun(sessionId, agentRunId), Abort);
    }

    method ExpireAll(session: Option<string>) returns (count: nat)
      requires Inv(View())
      modifies this
      ensures View() == Step(old(View()), Expires(session))
      ensures count == |old(pending)| - |pending|
    {
      BulkIsExact(View(), SessionSelection(session), Timeout);
      hide Inv, BulkResolved, Choose;
      count := ResolveChosen(SessionSelection(session), Timeout);
    }

    method ListPending(session: Option<string>) returns (tickets: seq<nat>)
      requires Inv(View())
      ensures |tickets| == |Choose(requests, SessionSelection(session), pending)|
      ensures forall i :: 0 <= i < |tickets| ==> tickets[i] == Choose(requests, SessionSelection(session), pending)[i].1
      ensures forall t: nat :: t in tickets <==>
        IsPending(View(), t) && (session == None || session == Some("") || session == Some(requests[t].sessionId))
    {
      var sel := SessionSelection(session);
      tickets := [];
      for i := 0 to |pending|
        invariant |tickets| == |Choose(requests, sel, pending[..i])|
        invariant forall j :: 0 <= j < |tickets| ==> tickets[j] == Choose(requests, sel, pending[..i])[j].1
      {
        assert pending[..i + 1][..i] == pending[..i];
        if Chosen(requests, sel, pending[i]) { tickets := tickets + [pending[i].1]; }
      }
      assert pending[..|pending|] == pending;
      ListedAre(View(), sel, tickets);
    }
  }

  lemma ListedAre(r: Registry, sel: Selection, tickets: seq<nat>)
    requires Inv(r)
    requires var chosen := Choose(r.requests, sel, r.pending);
             |tickets| == |chosen| && forall i :: 0 <= i < |tickets| ==> tickets[i] == chosen[i].1
    ensures forall t: nat :: t in tickets <==> IsPending(r, t) && Means(sel, r.requests[t])
  {
    hide Means, Choose;
    BulkIsExact(r, sel, Timeout);
    var chosen := Choose(r.requests, sel, r.pending);
    forall t: nat ensures t in tickets <==> IsPending(r, t) && Means(sel, r.requests[t]) {
      if t in tickets {
        var i :| 0 <= i < |tickets| && tickets[i] == t;
        assert chosen[i] in chosen && chosen[i] in r.pending && IsPending(r, chosen[i].1);
      }
      if IsPending(r, t) && Means(sel, r.requests[t]) {
        assert (r.requests[t].id, t) in chosen;
        var i :| 0 <= i < |chosen| && chosen[i] == (r.requests[t].id, t);
        assert tickets[i] == t;
      }
    }
  }

  lemma ResolvedKeepsRequests(r: Registry, entry: (string, nat), verdict: Verdict)
    ensures Resolved(r, entry, verdict, None).requests == r.requests
  {
  }
}
