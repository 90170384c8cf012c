/** One client connection of the browser bridge: requests dispatched on the reading goroutine
    or on workers, cancellation flags, counted tab attachments, and the shutdown that waits
    for the workers before it cleans up. Code under the connection's lock is one step. */
module BridgeConnection {
  import opened AttachedTabs

  /** Where one dispatch stands: handed to a worker that has not begun; between two forwards;
      past the cancellation check with its frame not yet written; waiting for the extension;
      waiting although Chrome has done what was asked; answered with success but not yet
      counted; returned. */
  datatype Pc =
    | Spawned
    | Between
    | Passed(kind: Kind)
    | Awaiting(kind: Kind)
    | Performed(kind: Kind)
    | Acked(kind: Kind)
    | Ended

  /** `tracked` are the run and execute requests, which go to workers and own an entry of
      `active`; `checked` is false only for the session's own end. `frames` counts what the
      dispatch has written to the extension. */
  datatype Task = Task(id: string, tracked: bool, checked: bool, pc: Pc, frames: nat)

  datatype Phase = Open | Closing | Cleaning(todo: seq<int>) | Done

  /** How the wait of a forward ends: with the answer that it is done, with an error answer and
      nothing done, or by giving up, whether it is done already, later or never. */
  datatype Ending = Success | Failure | GivesUp

  /** What becomes of a detach of the cleanup: done and answered; done, but the answer lost;
      delivered and, when the call gives up, not yet done; not delivered or refused. */
  datatype Fate = Confirmed | Unconfirmed | Overdue | Refused

  /** What Chrome did on behalf of the connection: every attach and detach in the order in
      which they took effect; among them those of dispatches that had given up, `silent`, and
      those of the cleanup, `done`. Frames given up that may still take effect are in
      `abandoned` and `overdue`. */
  datatype Chrome = Chrome(performed: seq<Kind>, silent: multiset<Kind>, abandoned: multiset<Kind>,
                           done: multiset<int>, overdue: multiset<int>)

  /** `acked` are the successful attaches and detaches the extension reported to workers and
      reader, `log` those already counted in `attached`, in order, and `issued` the detaches
      the cleanup sent. */
  datatype Conn = Conn(phase: Phase, closed: bool, active: map<string, bool>, attached: map<int, nat>, tasks: seq<Task>,
                       acked: multiset<Kind>, log: seq<Kind>, issued: seq<int>, chrome: Chrome)

  const MAX_ID_LENGTH := 128

  const UNTOUCHED := Chrome([], multiset{}, multiset{}, multiset{}, multiset{})

  function Initial(): Conn { Conn(Open, false, map[], map[], [], multiset{}, [], [], UNTOUCHED) }

  predicate InFlight(t: Task) { t.pc != Ended }

  /** Whoever is neither tracked nor ended occupies the reading goroutine. */
  predicate Inline(t: Task) { InFlight(t) && !t.tracked }

  predicate ReaderFree(c: Conn) { forall n: nat :: n < |c.tasks| ==> !Inline(c.tasks[n]) }

  predicate Unused(c: Conn, id: string) {
    forall n: nat :: n < |c.tasks| && InFlight(c.tasks[n]) ==> c.tasks[n].id != id
  }

  predicate Cancelled(c: Conn, id: string) { c.closed || (id in c.active && c.active[id]) }

  // ---------- Steps ----------

  function AllCancelled(active: map<string, bool>): map<string, bool> { map id | id in active :: true }

  function Shut(c: Conn): Conn { c.(closed := true, active := AllCancelled(c.active)) }

  function Marked(c: Conn, id: string): Conn {
    if id == "" || |id| > MAX_ID_LENGTH then c else c.(active := c.active[id := true])
  }

  function At(c: Conn, n: nat, pc: Pc): Conn
    requires n < |c.tasks|
  {
    c.(tasks := c.tasks[n := c.tasks[n].(pc := pc)])
  }

  function Begun(c: Conn, n: nat): Conn
    requires n < |c.tasks|
  {
    var id := c.tasks[n].id;
    At(c, n, Between).(active := if id in c.active then c.active else c.active[id := false])
  }

  function Checked(c: Conn, n: nat, kind: Kind): Conn
    requires n < |c.tasks|
  {
    if Cancelled(c, c.tasks[n].id) then c else At(c, n, Passed(kind))
  }

  function Written(c: Conn, n: nat, delivered: bool): Conn
    requires n < |c.tasks| && c.tasks[n].pc.Passed?
  {
    if !delivered then At(c, n, Between)
    else c.(tasks := c.tasks[n := c.tasks[n].(pc := Awaiting(c.tasks[n].pc.kind), frames := c.tasks[n].frames + 1)])
  }

  /** Chrome does what the frame of dispatch `n` asks for. */
  function TookEffect(c: Conn, n: nat): Conn
    requires n < |c.tasks| && c.tasks[n].pc.Awaiting?
  {
    var kind := c.tasks[n].pc.kind;
    var performed := if kind.Other? then c.chrome.performed else c.chrome.performed + [kind];
    At(c, n, Performed(kind)).(chrome := c.chrome.(performed := performed))
  }

  function Settled(c: Conn, n: nat, ending: Ending): Conn
    requires n < |c.tasks| && (c.tasks[n].pc.Awaiting? || c.tasks[n].pc.Performed?)
  {
    var pc := c.tasks[n].pc;
    if ending.Failure? || pc.kind.Other? then At(c, n, Between)
    else if ending.Success? then At(c, n, Acked(pc.kind)).(acked := c.acked + multiset{pc.kind})
    else if pc.Performed? then
      At(c, n, Between).(chrome := c.chrome.(silent := c.chrome.silent + multiset{pc.kind}))
    else At(c, n, Between).(chrome := c.chrome.(abandoned := c.chrome.abandoned + multiset{pc.kind}))
  }

  function Tallied(c: Conn, n: nat): Conn
    requires n < |c.tasks| && c.tasks[n].pc.Acked?
  {
    var kind := c.tasks[n].pc.kind;
    At(c, n, Between).(attached := Counted(c.attached, kind), log := c.log + [kind])
  }

  function Finished(c: Conn, n: nat): Conn
    requires n < |c.tasks|
  {
    At(c, n, Ended).(active := if c.tasks[n].tracked then c.active - {c.tasks[n].id} else c.active)
  }

  function CleanedUp(c: Conn, fate: Fate): Conn
    requires c.phase.Cleaning? && c.phase.todo != []
  {
    var tab := c.phase.todo[0];
    c.(phase := Cleaning(c.phase.todo[1..]), issued := c.issued + [tab],
       attached := if fate.Confirmed? then Removed(c.attached, tab) else c.attached,
       chrome := Fated(c.chrome, tab, fate))
  }

  function Fated(x: Chrome, tab: int, fate: Fate): Chrome {
    match fate
    case Confirmed => CleanupDetached(x, tab)
    case Unconfirmed => CleanupDetached(x, tab)
    case Overdue => x.(overdue := x.overdue + multiset{tab})
    case Refused => x
  }

  function CleanupDetached(x: Chrome, tab: int): Chrome {
    x.(performed := x.performed + [Detach(tab)], done := x.done + multiset{tab})
  }

  /** A frame that was given up takes effect after all. */
  function Late(x: Chrome, kind: Kind): Chrome {
    x.(performed := x.performed + [kind], silent := x.silent + multiset{kind},
       abandoned := x.abandoned - multiset{kind})
  }

  function LateDetach(x: Chrome, tab: int): Chrome {
    CleanupDetached(x, tab).(overdue := x.overdue - multiset{tab})
  }

  datatype Event =
    | Spawns(id: string)
    | Dispatches(id: string)
    | EndsSession(id: string)
    | Cancels(id: string)
    | Begins(task: nat)
    | Checks(task: nat, kind: Kind)
    | Writes(task: nat, delivered: bool)
    | TakesEffect(task: nat)
    | Settles(task: nat, ending: Ending)
    | Tallies(task: nat)
    | Finishes(task: nat)
    | Closes
    | StartsCleanup(tabs: seq<int>)
    | CleansUp(fate: Fate)
    | EndsCleanup
    | TakesEffectLate(kind: Kind)
    | DetachTakesEffectLate(tab: int)

  /** When an event can happen, whatever ids clients choose. The reader takes a request only
      when it is free, success is answered only for what has taken effect, and cleanup waits for
      every worker. */
  ghost predicate Possible(c: Conn, e: Event) {
    match e
    case Spawns(_) => c.phase.Open? && ReaderFree(c)
    case Dispatches(_) => c.phase.Open? && ReaderFree(c)
    case EndsSession(_) => c.phase.Open? && ReaderFree(c)
    case Cancels(_) => c.phase.Open? && ReaderFree(c)
    case Begins(n) => n < |c.tasks| && c.tasks[n].pc.Spawned?
    case Checks(n, kind) => n < |c.tasks| && c.tasks[n].pc.Between? && c.tasks[n].checked
    case Writes(n, _) => n < |c.tasks| && c.tasks[n].pc.Passed?
    case TakesEffect(n) => n < |c.tasks| && c.tasks[n].pc.Awaiting?
    case Settles(n, ending) => n < |c.tasks| && EndsSo(c.tasks[n].pc, ending)
    case Tallies(n) => n < |c.tasks| && c.tasks[n].pc.Acked?
    case Finishes(n) => n < |c.tasks| && c.tasks[n].pc.Between?
    case Closes => c.phase.Open? && ReaderFree(c)
    case StartsCleanup(tabs) => c.phase.Closing? && AllEnded(c) && IsExpansion(tabs, c.attached)
    case CleansUp(_) => c.phase.Cleaning? && c.phase.todo != []
    case EndsCleanup => c.phase == Cleaning([])
    case TakesEffectLate(kind) => kind in c.chrome.abandoned
    case DetachTakesEffectLate(tab) => tab in c.chrome.overdue
  }

  predicate EndsSo(pc: Pc, ending: Ending) {
    match ending
    case Success => pc.Performed?
    case Failure => pc.Awaiting?
    case GivesUp => pc.Awaiting? || pc.Performed?
  }

  /** Requests in flight carry different ids. */
  ghost predicate FreshId(c: Conn, e: Event) {
    e.Spawns? || e.Dispatches? || e.EndsSession? ==> Unused(c, e.id)
  }

  ghost predicate Enabled(c: Conn, e: Event) { Possible(c, e) && FreshId(c, e) }

  function Next(c: Conn, e: Event): Conn
    requires Possible(c, e)
  {
    match e
    case Spawns(id) => c.(tasks := c.tasks + [Task(id, true, true, Spawned, 0)])
    case Dispatches(id) => c.(tasks := c.tasks + [Task(id, false, true, Between, 0)])
    case EndsSession(id) => Shut(c).(tasks := c.tasks + [Task(id, false, false, Passed(Other), 0)])
    case Cancels(id) => Marked(c, id)
    case Begins(n) => Begun(c, n)
    case Checks(n, kind) => Checked(c, n, kind)
    case Writes(n, delivered) => Written(c, n, delivered)
    case TakesEffect(n) => TookEffect(c, n)
    case Settles(n, ending) => Settled(c, n, ending)
    case Tallies(n) => Tallied(c, n)
    case Finishes(n) => Finished(c, n)
    case Closes => Shut(c).(phase := Closing)
    case StartsCleanup(tabs) => c.(phase := Cleaning(tabs), attached := map[])
    case CleansUp(fate) => CleanedUp(c, fate)
    case EndsCleanup => c.(phase := Phase.Done)
    case TakesEffectLate(kind) => c.(chrome := Late(c.chrome, kind))
    case DetachTakesEffectLate(tab) => c.(chrome := LateDetach(c.chrome, tab))
  }

  ghost function Step(c: Conn, e: Event): Conn {
    if Enabled(c, e) then Next(c, e) else c
  }

  ghost function Run(c: Conn, events: seq<Event>): Conn
    decreases |events|
  {
    if events == [] then c else Run(Step(c, events[0]), events[1..])
  }

  // ---------- The invariant ----------

  /** Successes reported but not yet counted. */
  function Owed(t: Task): multiset<Kind> {
    if t.pc.Acked? then multiset{t.pc.kind} else multiset{}
  }

  /** What has taken effect and is not yet answered. */
  function Unanswered(t: Task): multiset<Kind> {
    if t.pc.Performed? && !t.pc.kind.Other? then multiset{t.pc.kind} else multiset{}
  }

  /** Everything that some dispatch contributes. */
  function All(tasks: seq<Task>, part: Task -> multiset<Kind>): multiset<Kind> {
    if tasks == [] then multiset{} else All(tasks[..|tasks| - 1], part) + part(tasks[|tasks| - 1])
  }

  function Uncounted(tasks: seq<Task>): multiset<Kind> { All(tasks, Owed) }

  function Underway(tasks: seq<Task>): multiset<Kind> { All(tasks, Unanswered) }

  ghost predicate DistinctIds(c: Conn) {
    forall m: nat, n: nat :: m < n < |c.tasks| && InFlight(c.tasks[m]) && InFlight(c.tasks[n]) ==>
      c.tasks[m].id != c.tasks[n].id
  }

  ghost predicate Conserved(c: Conn) {
    c.acked == multiset(c.log) + Uncounted(c.tasks)
  }

  ghost predicate Phased(c: Conn) {
    match c.phase
    case Open => c.issued == [] && Reflects(c.attached, c.log)
    case Closing => c.closed && ReaderFree(c) && c.issued == [] && Reflects(c.attached, c.log)
    case Cleaning(todo) => c.closed && AllEnded(c) && c.attached == map[] && Detaching(c.issued + todo, c.log)
    case Done => c.closed && AllEnded(c) && c.attached == map[] && Detaching(c.issued, c.log)
  }

  ghost predicate AllEnded(c: Conn) { forall n: nat :: n < |c.tasks| ==> !InFlight(c.tasks[n]) }

  /** The list names every tab as often as the log leaves it attached. */
  ghost predicate Detaching(tabs: seq<int>, log: seq<Kind>) {
    forall tab: int :: multiset(tabs)[tab] == Balance(log, tab)
  }

  /** Chrome did what was reported, what nobody waited for, what is about to be answered and
      what the cleanup achieved, and nothing else. */
  ghost predicate Accounted(c: Conn) {
    (forall kind: Kind :: Explained(c, kind)) && (forall tab: int :: Achievable(c, tab))
  }

  predicate Explained(c: Conn, kind: Kind) {
    multiset(c.chrome.performed)[kind] ==
      c.acked[kind] + c.chrome.silent[kind] + Underway(c.tasks)[kind] + CleanupShare(c.chrome, kind)
  }

  predicate Achievable(c: Conn, tab: int) { c.chrome.done[tab] + c.chrome.overdue[tab] <= multiset(c.issued)[tab] }

  function CleanupShare(x: Chrome, kind: Kind): nat {
    if kind.Detach? then x.done[kind.tab] else 0
  }

  ghost predicate Inv(c: Conn) { DistinctIds(c) && Conserved(c) && Phased(c) && Accounted(c) }

  lemma {:induction false} AllUpdate(tasks: seq<Task>, n: nat, t: Task, part: Task -> multiset<Kind>)
    requires n < |tasks|
    ensures All(tasks[n := t], part) + part(tasks[n]) == All(tasks, part) + part(t)
  {
    var front := tasks[..|tasks| - 1];
    var changed := tasks[n := t];
    if n == |tasks| - 1 {
      assert changed[..|tasks| - 1] == front;
    } else {
      assert changed[..|tasks| - 1] == front[n := t];
      AllUpdate(front, n, t, part);
      var last := part(tasks[|tasks| - 1]);
      assert All(tasks[n := t], part) + part(tasks[n]) == (All(front[n := t], part) + part(tasks[n])) + last;
      assert All(tasks, part) + part(t) == (All(front, part) + part(t)) + last;
    }
  }

  lemma UncountedUpdate(tasks: seq<Task>, n: nat, t: Task)
    requires n < |tasks|
    ensures Uncounted(tasks[n := t]) + Owed(tasks[n]) == Uncounted(tasks) + Owed(t)
  {
    AllUpdate(tasks, n, t, Owed);
  }

  lemma UnderwayUpdate(tasks: seq<Task>, n: nat, t: Task)
    requires n < |tasks|
    ensures forall kind: Kind ::
        Underway(tasks[n := t])[kind] + Unanswered(tasks[n])[kind] == Underway(tasks)[kind] + Unanswered(t)[kind]
  {
    AllUpdate(tasks, n, t, Unanswered);
    var x, y := Underway(tasks[n := t]), Underway(tasks);
    forall kind: Kind ensures x[kind] + Unanswered(tasks[n])[kind] == y[kind] + Unanswered(t)[kind] {
      assert (x + Unanswered(tasks[n]))[kind] == (y + Unanswered(t))[kind];
    }
  }

  lemma TasksSnoc(tasks: seq<Task>, t: Task)
    ensures Uncounted(tasks + [t]) == Uncounted(tasks) + Owed(t)
    ensures Underway(tasks + [t]) == Underway(tasks) + Unanswered(t)
  {
    assert (tasks + [t])[..|tasks|] == tasks;
  }

  lemma {:induction false} NothingLeft(tasks: seq<Task>)
    requires forall n: nat :: n < |tasks| ==> !InFlight(tasks[n])
    ensures Uncounted(tasks) == multiset{} && Underway(tasks) == multiset{}
  {
    if tasks != [] {
      assert !InFlight(tasks[|tasks| - 1]);
      NothingLeft(tasks[..|tasks| - 1]);
    }
  }

  /** One dispatch in flight moves on, under its own id; the others stay where they are. */
  ghost predicate Moves(c: Conn, d: Conn, m: nat) {
    && m < |c.tasks| && InFlight(c.tasks[m]) && |d.tasks| == |c.tasks| && d.tasks == c.tasks[m := d.tasks[m]]
    && d.tasks[m].id == c.tasks[m].id && d.tasks[m].tracked == c.tasks[m].tracked
    && d.phase == c.phase && d.closed == c.closed && d.issued == c.issued
  }

  predicate OfDispatch(e: Event) {
    e.Begins? || e.Checks? || e.Writes? || e.TakesEffect? || e.Settles? || e.Tallies? || e.Finishes?
  }

  ghost predicate SameCounts(c: Conn, d: Conn) { d.attached == c.attached && d.log == c.log }

  lemma DispatchMoves(c: Conn, e: Event)
    requires Enabled(c, e) && OfDispatch(e)
    ensures Moves(c, Next(c, e), e.task) && (e.Tallies? || SameCounts(c, Next(c, e)))
  {
    hide Begun, Checked, Written, TookEffect, Settled, Tallied, Finished, Moves, SameCounts;
    var m := e.task;
    match e
    case Begins(_) => LockedMoves(c, m);
    case Checks(_, kind) => CheckedMoves(c, m, kind);
    case Writes(_, delivered) => WrittenMoves(c, m, delivered);
    case TakesEffect(_) => EffectMoves(c, m);
    case Settles(_, ending) => SettledMoves(c, m, ending);
    case Tallies(_) => TalliedMoves(c, m);
    case Finishes(_) => LockedMoves(c, m);
  }

  lemma LockedMoves(c: Conn, m: nat)
    requires m < |c.tasks| && InFlight(c.tasks[m])
    ensures Moves(c, Begun(c, m), m) && SameCounts(c, Begun(c, m))
    ensures Moves(c, Finished(c, m), m) && SameCounts(c, Finished(c, m))
  {
  }

  lemma CheckedMoves(c: Conn, m: nat, kind: Kind)
    requires m < |c.tasks| && InFlight(c.tasks[m])
    ensures Moves(c, Checked(c, m, kind), m) && SameCounts(c, Checked(c, m, kind))
  {
    hide Cancelled;
    assert c.tasks[m := c.tasks[m]] == c.tasks;
  }

  lemma WrittenMoves(c: Conn, m: nat, delivered: bool)
    requires m < |c.tasks| && c.tasks[m].pc.Passed?
    ensures Moves(c, Written(c, m, delivered), m) && SameCounts(c, Written(c, m, delivered))
  {
  }

  lemma EffectMoves(c: Conn, m: nat)
    requires m < |c.tasks| && c.tasks[m].pc.Awaiting?
    ensures Moves(c, TookEffect(c, m), m) && SameCounts(c, TookEffect(c, m))
  {
  }

  lemma SettledMoves(c: Conn, m: nat, ending: Ending)
    requires m < |c.tasks| && (c.tasks[m].pc.Awaiting? || c.tasks[m].pc.Performed?)
    ensures Moves(c, Settled(c, m, ending), m) && SameCounts(c, Settled(c, m, ending))
  {
  }

  lemma TalliedMoves(c: Conn, m: nat)
    requires m < |c.tasks| && c.tasks[m].pc.Acked?
    ensures Moves(c, Tallied(c, m), m)
  {
    hide Counted;
  }

  lemma MovingKeepsIds(c: Conn, d: Conn, m: nat)
    requires DistinctIds(c) && Moves(c, d, m)
    ensures DistinctIds(d)
  {
  }

  lemma StepKeepsIds(c: Conn, e: Event)
    requires DistinctIds(c)
    ensures DistinctIds(Step(c, e))
  {
    hide Moves, IsExpansion, ReaderFree, Removed, AllCancelled;
    hide Begun, Checked, Written, TookEffect, Settled, Tallied, Finished;
    if Enabled(c, e) {
      if OfDispatch(e) {
        DispatchMoves(c, e);
        MovingKeepsIds(c, Next(c, e), e.task);
      }
    }
  }

  lemma Moving(c: Conn, n: nat, t: Task)
    requires n < |c.tasks| && !c.tasks[n].pc.Acked? && !t.pc.Acked?
    ensures Uncounted(c.tasks[n := t]) == Uncounted(c.tasks)
  {
    hide Uncounted;
    UncountedUpdate(c.tasks, n, t);
    assert Uncounted(c.tasks[n := t]) + multiset{} == Uncounted(c.tasks[n := t]);
  }

  lemma StepConserves(c: Conn, e: Event)
    requires Conserved(c)
    ensures Conserved(Step(c, e))
  {
    hide Counted, Uncounted, Cancelled, IsExpansion, ReaderFree, Unused, Settled, Tallied, CleanedUp, Late, LateDetach;
    if Enabled(c, e) {
      match e
      case Spawns(id) => AppendingConserves(c, Task(id, true, true, Spawned, 0));
      case Dispatches(id) => AppendingConserves(c, Task(id, false, true, Between, 0));
      case EndsSession(id) => AppendingConserves(c, Task(id, false, false, Passed(Other), 0));
      case Begins(n) => Moving(c, n, Next(c, e).tasks[n]);
      case Checks(n, kind) => Moving(c, n, c.tasks[n].(pc := Passed(kind)));
      case Writes(n, _) => Moving(c, n, Next(c, e).tasks[n]);
      case TakesEffect(n) => Moving(c, n, Next(c, e).tasks[n]);
      case Settles(n, ending) => SettledConserves(c, n, ending);
      case Tallies(n) => TalliedConserves(c, n);
      case Finishes(n) => Moving(c, n, Next(c, e).tasks[n]);
      case CleansUp(fate) => CleanedUpIs(c, fate);
      case _ =>
    }
  }

  lemma CleanedUpIs(c: Conn, fate: Fate)
    requires c.phase.Cleaning? && c.phase.todo != []
    ensures var d := CleanedUp(c, fate);
            && d.tasks == c.tasks && d.acked == c.acked && d.log == c.log
            && d.closed == c.closed && d.active == c.active
            && d.issued == c.issued + [c.phase.todo[0]] && d.chrome == Fated(c.chrome, c.phase.todo[0], fate)
            && d.phase == Cleaning(c.phase.todo[1..])
  {
    hide Fated, Removed;
  }

  lemma AppendingConserves(c: Conn, t: Task)
    requires Conserved(c) && !t.pc.Acked?
    ensures Conserved(c.(tasks := c.tasks + [t]))
  {
    hide Uncounted;
    TasksSnoc(c.tasks, t);
    assert Uncounted(c.tasks) + multiset{} == Uncounted(c.tasks);
  }

  lemma SettledConserves(c: Conn, n: nat, ending: Ending)
    requires Conserved(c) && n < |c.tasks| && EndsSo(c.tasks[n].pc, ending)
    ensures Conserved(Settled(c, n, ending))
  {
    hide Uncounted;
    var kind, before := c.tasks[n].pc.kind, Uncounted(c.tasks);
    if !ending.Success? || kind.Other? {
      Moving(c, n, c.tasks[n].(pc := Between));
    } else {
      var t := c.tasks[n].(pc := Acked(kind));
      UncountedUpdate(c.tasks, n, t);
      assert Uncounted(c.tasks[n := t]) + multiset{} == Uncounted(c.tasks[n := t]);
      assert c.acked + multiset{kind} == multiset(c.log) + (before + multiset{kind});
    }
  }

  lemma TalliedConserves(c: Conn, n: nat)
    requires Conserved(c) && n < |c.tasks| && c.tasks[n].pc.Acked?
    ensures Conserved(Tallied(c, n))
  {
    hide Uncounted, Counted;
    var kind, t := c.tasks[n].pc.kind, c.tasks[n].(pc := Between);
    UncountedUpdate(c.tasks, n, t);
    var after := Uncounted(c.tasks[n := t]);
    assert Uncounted(c.tasks) + multiset{} == Uncounted(c.tasks);
    assert (multiset(c.log) + multiset{kind}) + after == multiset(c.log) + (after + multiset{kind});
    assert multiset(c.log + [kind]) == multiset(c.log) + multiset{kind};
  }

  lemma StepKeepsPhase(c: Conn, e: Event)
    requires Phased(c)
    ensures Phased(Step(c, e))
  {
    hide Counted, Balance, Reflects, IsExpansion, Cancelled, Detaching, Removed, Unused;
    hide Begun, Written, TookEffect, Settled, Checked, Tallied, Finished, CleanedUp, Late, LateDetach;
    if Enabled(c, e) {
      match e
      case Begins(_) => MovesKeepPhase(c, e);
      case Checks(_, _) => MovesKeepPhase(c, e);
      case Writes(_, _) => MovesKeepPhase(c, e);
      case TakesEffect(_) => MovesKeepPhase(c, e);
      case Settles(_, _) => MovesKeepPhase(c, e);
      case Finishes(_) => MovesKeepPhase(c, e);
      case Tallies(n) => TallyKeepsPhase(c, n);
      case StartsCleanup(tabs) => ExpansionDetaches(c.attached, c.log, tabs);
      case CleansUp(fate) => DetachKeepsPhase(c, fate);
      case EndsCleanup => assert c.issued + [] == c.issued;
      case _ =>
    }
  }

  lemma MovesKeepPhase(c: Conn, e: Event)
    requires Phased(c) && Enabled(c, e) && OfDispatch(e) && !e.Tallies?
    ensures Phased(Next(c, e))
  {
    hide Balance, Reflects, Cancelled, Detaching, Next, Possible;
    DispatchMoves(c, e);
    var d := Next(c, e);
    assert forall n: nat :: n < |d.tasks| ==> (Inline(d.tasks[n]) ==> Inline(c.tasks[n]));
  }

  lemma TallyKeepsPhase(c: Conn, n: nat)
    requires Phased(c) && n < |c.tasks| && c.tasks[n].pc.Acked?
    ensures Phased(Tallied(c, n))
  {
    hide Balance, Reflects, Cancelled, Detaching, Counted;
    var d := Tallied(c, n);
    CountingReflectsIf(c.attached, c.log, c.tasks[n].pc.kind);
    assert InFlight(c.tasks[n]);
    assert forall m: nat :: m < |d.tasks| ==> (Inline(d.tasks[m]) ==> Inline(c.tasks[m]));
  }

  lemma CountingReflectsIf(attached: map<int, nat>, log: seq<Kind>, kind: Kind)
    ensures Reflects(attached, log) ==> Reflects(Counted(attached, kind), log + [kind])
  {
    hide Reflects;
    if Reflects(attached, log) { CountingReflects(attached, log, kind); }
  }

  lemma DetachKeepsPhase(c: Conn, fate: Fate)
    requires Phased(c) && c.phase.Cleaning? && c.phase.todo != []
    ensures Phased(CleanedUp(c, fate))
  {
    hide Detaching, Removed, Fated;
    assert c.issued + c.phase.todo == c.issued + [c.phase.todo[0]] + c.phase.todo[1..];
    NothingToRemove(c.phase.todo[0]);
  }

  lemma NothingToRemove(tab: int)
    ensures Removed(map[], tab) == map[]
  {
  }

  lemma ExpansionDetaches(attached: map<int, nat>, log: seq<Kind>, tabs: seq<int>)
    requires Reflects(attached, log) && IsExpansion(tabs, attached)
    ensures Detaching([] + tabs, log)
  {
    assert [] + tabs == tabs;
  }

  lemma StepAccounts(c: Conn, e: Event)
    requires Accounted(c)
    ensures Accounted(Step(c, e))
  {
    hide Accounted, Begun, Checked, Written, Tallied, Finished, IsExpansion, ReaderFree, Unused, AllEnded, AllCancelled;
    hide TookEffect, Settled, CleanedUp, Late, LateDetach;
    if Enabled(c, e) {
      match e
      case Spawns(id) => AppendingAccounts(c, Next(c, e), Task(id, true, true, Spawned, 0));
      case Dispatches(id) => AppendingAccounts(c, Next(c, e), Task(id, false, true, Between, 0));
      case EndsSession(id) => AppendingAccounts(c, Next(c, e), Task(id, false, false, Passed(Other), 0));
      case TakesEffect(n) => EffectAccounts(c, n);
      case Settles(n, ending) => SettledAccounts(c, n, ending);
      case CleansUp(fate) => DetachAccounts(c, fate);
      case TakesEffectLate(kind) => LateAccounts(c, kind);
      case DetachTakesEffectLate(tab) => LateDetachAccounts(c, tab);
      case Cancels(_) => SameAccount(c, Next(c, e));
      case Closes => SameAccount(c, Next(c, e));
      case StartsCleanup(_) => SameAccount(c, Next(c, e));
      case EndsCleanup => SameAccount(c, Next(c, e));
      case _ => LocalStepAccounts(c, e);
    }
  }

  lemma SameAccount(c: Conn, d: Conn)
    requires Accounted(c) && d.tasks == c.tasks && d.acked == c.acked && d.issued == c.issued && d.chrome == c.chrome
    ensures Accounted(d)
  {
    hide Underway, CleanupShare;
    forall kind: Kind ensures Explained(d, kind) { assert Explained(c, kind); }
    forall tab: int ensures Achievable(d, tab) { SameAchievable(c, d, tab); }
  }

  lemma SameAchievable(c: Conn, d: Conn, tab: int)
    requires Achievable(c, tab)
    requires d.chrome.done == c.chrome.done && d.chrome.overdue == c.chrome.overdue && d.issued == c.issued
    ensures Achievable(d, tab)
  {
  }

  lemma AppendingAccounts(c: Conn, d: Conn, t: Task)
    requires Accounted(c) && d.tasks == c.tasks + [t] && !t.pc.Performed?
    requires d.acked == c.acked && d.issued == c.issued && d.chrome == c.chrome
    ensures Accounted(d)
  {
    hide Underway, CleanupShare;
    TasksSnoc(c.tasks, t);
    assert Underway(d.tasks) == Underway(c.tasks);
    forall kind: Kind ensures Explained(d, kind) { assert Explained(c, kind); }
    forall tab: int ensures Achievable(d, tab) { SameAchievable(c, d, tab); }
  }

  /** A dispatch moves on; the rest of Chrome's account is compared kind by kind. */
  lemma MovingExplains(c: Conn, d: Conn, n: nat, kind: Kind)
    requires Explained(c, kind) && n < |c.tasks| && n < |d.tasks| && d.tasks == c.tasks[n := d.tasks[n]]
    requires var x, y := c.chrome, d.chrome;
             multiset(y.performed)[kind] + c.acked[kind] + x.silent[kind] + Unanswered(c.tasks[n])[kind]
               + CleanupShare(x, kind) ==
             multiset(x.performed)[kind] + d.acked[kind] + y.silent[kind] + Unanswered(d.tasks[n])[kind]
               + CleanupShare(y, kind)
    ensures Explained(d, kind)
  {
    hide Underway, CleanupShare, Unanswered;
    UnderwayUpdate(c.tasks, n, d.tasks[n]);
  }

  lemma MovingAccounts(c: Conn, d: Conn, n: nat)
    requires Accounted(c) && n < |c.tasks| && n < |d.tasks| && d.tasks == c.tasks[n := d.tasks[n]]
    requires !c.tasks[n].pc.Performed? && !d.tasks[n].pc.Performed?
    requires d.acked == c.acked && d.issued == c.issued && d.chrome == c.chrome
    ensures Accounted(d)
  {
    hide Explained, CleanupShare;
    forall kind: Kind ensures Explained(d, kind) { MovingExplains(c, d, n, kind); }
    forall tab: int ensures Achievable(d, tab) { SameAchievable(c, d, tab); }
  }

  /** Dispatches move on without Chrome or the extension. */
  lemma LocalStepAccounts(c: Conn, e: Event)
    requires Accounted(c) && Enabled(c, e) && OfDispatch(e) && !e.TakesEffect? && !e.Settles?
    ensures Accounted(Next(c, e))
  {
    hide Accounted, Cancelled, Counted;
    var d, n := Next(c, e), e.task;
    assert c.tasks[n := c.tasks[n]] == c.tasks;
    MovingAccounts(c, d, n);
  }

  lemma EffectAccounts(c: Conn, n: nat)
    requires Accounted(c) && n < |c.tasks| && c.tasks[n].pc.Awaiting?
    ensures Accounted(TookEffect(c, n))
  {
    hide Explained, CleanupShare;
    var d, k := TookEffect(c, n), c.tasks[n].pc.kind;
    assert multiset(c.chrome.performed + [k]) == multiset(c.chrome.performed) + multiset{k};
    ShareIs(c.chrome, d.chrome);
    forall kind: Kind ensures Explained(d, kind) { MovingExplains(c, d, n, kind); }
    forall tab: int ensures Achievable(d, tab) { assert Achievable(c, tab); }
  }

  lemma ShareIs(x: Chrome, y: Chrome)
    requires x.done == y.done
    ensures forall kind :: CleanupShare(x, kind) == CleanupShare(y, kind)
  {
  }

  lemma SettledAccounts(c: Conn, n: nat, ending: Ending)
    requires Accounted(c) && n < |c.tasks| && EndsSo(c.tasks[n].pc, ending)
    ensures Accounted(Settled(c, n, ending))
  {
    hide Explained, CleanupShare, Settled, Achievable, Unanswered;
    var d := Settled(c, n, ending);
    SettlingKeeps(c, n, ending);
    ShareIs(c.chrome, d.chrome);
    forall kind: Kind ensures Explained(d, kind) {
      SettlingBalances(c, n, ending, kind);
      MovingExplains(c, d, n, kind);
    }
    forall tab: int ensures Achievable(d, tab) { SameAchievable(c, d, tab); }
  }

  lemma SettlingKeeps(c: Conn, n: nat, ending: Ending)
    requires n < |c.tasks| && EndsSo(c.tasks[n].pc, ending)
    ensures var d := Settled(c, n, ending);
            && |d.tasks| == |c.tasks| && d.tasks == c.tasks[n := d.tasks[n]] && d.issued == c.issued
            && d.chrome.performed == c.chrome.performed && d.chrome.done == c.chrome.done
            && d.chrome.overdue == c.chrome.overdue
  {
  }

  lemma SettlingIs(c: Conn, n: nat, ending: Ending)
    requires n < |c.tasks| && EndsSo(c.tasks[n].pc, ending)
    ensures var d, pc := Settled(c, n, ending), c.tasks[n].pc;
            var answered := ending.Success? && !pc.kind.Other?;
            var givenUp := ending.GivesUp? && !pc.kind.Other? && pc.Performed?;
            && n < |d.tasks| && d.tasks[n].pc == (if answered then Acked(pc.kind) else Between)
            && d.acked == (if answered then c.acked + multiset{pc.kind} else c.acked)
            && d.chrome.silent == if givenUp then c.chrome.silent + multiset{pc.kind} else c.chrome.silent
  {
  }

  /** What has taken effect and is now answered or given up moves to its place in the account. */
  lemma SettlingBalances(c: Conn, n: nat, ending: Ending, kind: Kind)
    requires n < |c.tasks| && EndsSo(c.tasks[n].pc, ending)
    ensures var d := Settled(c, n, ending);
            && n < |d.tasks|
            && d.acked[kind] + d.chrome.silent[kind] + Unanswered(d.tasks[n])[kind] ==
               c.acked[kind] + c.chrome.silent[kind] + Unanswered(c.tasks[n])[kind]
  {
    SettlingIs(c, n, ending);
    hide Settled;
  }

  lemma DetachAccounts(c: Conn, fate: Fate)
    requires Accounted(c) && c.phase.Cleaning? && c.phase.todo != []
    ensures Accounted(CleanedUp(c, fate))
  {
    hide Underway, Removed;
    var d, tab := CleanedUp(c, fate), c.phase.todo[0];
    assert multiset(c.issued + [tab]) == multiset(c.issued) + multiset{tab};
    assert multiset(c.chrome.performed + [Detach(tab)]) == multiset(c.chrome.performed) + multiset{Detach(tab)};
    forall kind: Kind ensures Explained(d, kind) { assert Explained(c, kind); }
    forall t: int ensures Achievable(d, t) { assert Achievable(c, t); }
  }

  lemma LateAccounts(c: Conn, kind: Kind)
    requires Accounted(c)
    ensures Accounted(c.(chrome := Late(c.chrome, kind)))
  {
    hide Underway;
    var d := c.(chrome := Late(c.chrome, kind));
    assert multiset(c.chrome.performed + [kind]) == multiset(c.chrome.performed) + multiset{kind};
    forall k: Kind ensures Explained(d, k) { assert Explained(c, k); }
    forall tab: int ensures Achievable(d, tab) { assert Achievable(c, tab); }
  }

  lemma LateDetachAccounts(c: Conn, tab: int)
    requires Accounted(c) && tab in c.chrome.overdue
    ensures Accounted(c.(chrome := LateDetach(c.chrome, tab)))
  {
    hide Underway;
    var d := c.(chrome := LateDetach(c.chrome, tab));
    assert multiset(c.chrome.performed + [Detach(tab)]) == multiset(c.chrome.performed) + multiset{Detach(tab)};
    forall kind: Kind ensures Explained(d, kind) { assert Explained(c, kind); }
    forall t: int ensures Achievable(d, t) { assert Achievable(c, t); }
  }

  lemma StepKeeps(c: Conn, e: Event)
    requires Inv(c)
    ensures Inv(Step(c, e))
  {
    hide DistinctIds, Conserved, Phased, Accounted, Step;
    StepKeepsIds(c, e);
    StepConserves(c, e);
    StepKeepsPhase(c, e);
    StepAccounts(c, e);
  }

  lemma {:induction false} RunKeeps(c: Conn, events: seq<Event>)
    requires Inv(c)
    ensures Inv(Run(c, events))
    decreases |events|
  {
    hide Step, Inv;
    if events != [] {
      StepKeeps(c, events[0]);
      RunKeeps(Step(c, events[0]), events[1..]);
    }
  }

  lemma InitialHolds()
    ensures Inv(Initial())
  {
  }

  // ---------- Attach conservation ----------

  /** Until cleanup begins, every tab's stored count is the running count of the successes
      counted so far, zero is never stored, and what was reported but not counted is exactly
      what some dispatch is about to count. */
  lemma StoredCountsBalance(events: seq<Event>)
    ensures var c := Run(Initial(), events);
            && c.acked == multiset(c.log) + Uncounted(c.tasks)
            && (c.phase.Open? || c.phase.Closing? ==>
                  forall tab: int :: Stored(c.attached, tab) == Balance(c.log, tab)
                    && (tab in c.attached ==> c.attached[tab] > 0))
  {
    hide Run;
    InitialHolds();
    RunKeeps(Initial(), events);
  }

  /** When the connection is done, cleanup has detached each tab exactly as often as it was
      attached on balance, and every success the extension reported had been counted first. */
  lemma CleanupDetachesExactly(events: seq<Event>)
    requires Run(Initial(), events).phase.Done?
    ensures var c := Run(Initial(), events);
            && (forall tab: int :: multiset(c.issued)[tab] == Balance(c.log, tab))
            && c.acked == multiset(c.log) && c.attached == map[]
  {
    hide Run;
    InitialHolds();
    RunKeeps(Initial(), events);
    NothingLeft(Run(Initial(), events).tasks);
  }

  /** How many attachments of the tab Chrome still holds for the connection: it counts attaches
      and detaches as they take effect, and a detach at zero changes nothing. */
  function Held(c: Conn, tab: int): nat { Balance(c.chrome.performed, tab) }

  /** What Chrome still holds once the connection is done: the attaches that took effect after
      giving up, the cleanup's detaches that did not take effect, and the detaches that found
      nothing to undo in Chrome, less the detaches that took effect after giving up and those
      that found nothing to undo in the connection's own count. */
  lemma WhatChromeStillHolds(events: seq<Event>, tab: int)
    requires Run(Initial(), events).phase.Done?
    ensures var c := Run(Initial(), events);
            && c.chrome.done[tab] <= multiset(c.issued)[tab]
            && Held(c, tab) + c.chrome.silent[Detach(tab)] + IdleDetaches(c.log, tab) ==
                 c.chrome.silent[Attach(tab)] + (multiset(c.issued)[tab] - c.chrome.done[tab])
                 + IdleDetaches(c.chrome.performed, tab)
  {
    hide Run;
    InitialHolds();
    RunKeeps(Initial(), events);
    CleanupDetachesExactly(events);
    var c := Run(Initial(), events);
    NothingLeft(c.tasks);
    BalanceIsDifference(c.log, tab);
    BalanceIsDifference(c.chrome.performed, tab);
    ShareOf(c, Attach(tab));
    ShareOf(c, Detach(tab));
    assert Achievable(c, tab);
  }

  lemma ShareOf(c: Conn, kind: Kind)
    requires Accounted(c) && Underway(c.tasks) == multiset{}
    ensures multiset(c.chrome.performed)[kind] == c.acked[kind] + c.chrome.silent[kind] + CleanupShare(c.chrome, kind)
  {
    assert Explained(c, kind);
  }

  /** Attachments outlive the cleanup exactly when attaches given up, undone detaches of the
      cleanup and detaches idle in Chrome are more than detaches given up and detaches idle in
      the connection's count. */
  lemma AttachmentsOutliveCleanupIff(events: seq<Event>, tab: int)
    requires Run(Initial(), events).phase.Done?
    ensures var c := Run(Initial(), events);
            Held(c, tab) > 0 <==>
              c.chrome.silent[Attach(tab)] + (multiset(c.issued)[tab] - c.chrome.done[tab])
              + IdleDetaches(c.chrome.performed, tab) > c.chrome.silent[Detach(tab)] + IdleDetaches(c.log, tab)
  {
    hide Run;
    WhatChromeStillHolds(events, tab);
  }

  // ---------- Runs that leave a tab attached ----------

  lemma {:induction false} RunSplits(c: Conn, first: seq<Event>, second: seq<Event>)
    ensures Run(c, first + second) == Run(Run(c, first), second)
    decreases |first|
  {
    hide Step;
    if first == [] {
      assert first + second == second;
    } else {
      assert (first + second)[1..] == first[1..] + second;
      RunSplits(Step(c, first[0]), first[1..], second);
    }
  }

  lemma RunOn(c: Conn, events: seq<Event>, e: Event)
    requires Enabled(Run(c, events), e)
    ensures Run(c, events + [e]) == Next(Run(c, events), e)
  {
    var d := Run(c, events);
    hide Next, Enabled, Run;
    RunSplits(c, events, [e]);
    RunOne(d, e);
  }

  lemma RunOne(c: Conn, e: Event)
    requires Enabled(c, e)
    ensures Run(c, [e]) == Next(c, e)
  {
    hide Next, Enabled;
    assert Run(Step(c, e), []) == Step(c, e);
  }

  /** Dispatch `n` forwards a request and Chrome carries it out. */
  function Forward(n: nat, kind: Kind): seq<Event> { [Checks(n, kind), Writes(n, true), TakesEffect(n)] }

  /** The extension's answer arrives and is counted. */
  function Report(n: nat): seq<Event> { [Settles(n, Success), Tallies(n)] }

  predicate Idle(c: Conn, n: nat) {
    n < |c.tasks| && c.tasks[n].checked && c.tasks[n].pc.Between? && !Cancelled(c, c.tasks[n].id)
  }

  function AfterForward(c: Conn, n: nat, kind: Kind): Conn
    requires n < |c.tasks|
  {
    var t := c.tasks[n].(pc := Performed(kind), frames := c.tasks[n].frames + 1);
    c.(tasks := c.tasks[n := t], chrome := c.chrome.(performed := c.chrome.performed + [kind]))
  }

  function AfterReport(c: Conn, n: nat, kind: Kind): Conn
    requires n < |c.tasks|
  {
    c.(tasks := c.tasks[n := c.tasks[n].(pc := Between)], acked := c.acked + multiset{kind},
       log := c.log + [kind], attached := Counted(c.attached, kind))
  }

  lemma Forwarding(c: Conn, events: seq<Event>, n: nat, kind: Kind)
    requires Idle(Run(c, events), n) && !kind.Other?
    ensures Run(c, events + Forward(n, kind)) == AfterForward(Run(c, events), n, kind)
  {
    var d := Run(c, events);
    hide Run;
    RunOn(c, events, Checks(n, kind));
    RunOn(c, events + [Checks(n, kind)], Writes(n, true));
    RunOn(c, events + [Checks(n, kind)] + [Writes(n, true)], TakesEffect(n));
    assert events + [Checks(n, kind)] + [Writes(n, true)] + [TakesEffect(n)] == events + Forward(n, kind);
  }

  lemma ReportIs(c: Conn, n: nat, kind: Kind)
    requires n < |c.tasks| && c.tasks[n].pc == Performed(kind) && !kind.Other?
    ensures var d := At(c, n, Acked(kind)).(acked := c.acked + multiset{kind});
            Settled(c, n, Success) == d && Tallied(d, n) == AfterReport(c, n, kind)
  {
    hide Counted;
    var t := c.tasks[n].(pc := Acked(kind));
    assert c.tasks[n := t][n := t.(pc := Between)] == c.tasks[n := t.(pc := Between)];
  }

  lemma Reporting(c: Conn, events: seq<Event>, n: nat, kind: Kind)
    requires var d := Run(c, events);
             n < |d.tasks| && d.tasks[n].pc == Performed(kind) && !kind.Other?
    ensures Run(c, events + Report(n)) == AfterReport(Run(c, events), n, kind)
  {
    hide Run, Settled, Tallied, AfterReport;
    ReportIs(Run(c, events), n, kind);
    RunOn(c, events, Settles(n, Success));
    RunOn(c, events + [Settles(n, Success)], Tallies(n));
    assert events + [Settles(n, Success)] + [Tallies(n)] == events + Report(n);
  }

  lemma Winding(c: Conn, events: seq<Event>, tabs: seq<int>)
    requires var d := Run(c, events);
             d.phase.Open? && AllEnded(d) && IsExpansion(tabs, d.attached)
    ensures var d := Run(c, events);
            Run(c, events + [Closes] + [StartsCleanup(tabs)]) ==
              Shut(d).(phase := Cleaning(tabs), attached := map[])
  {
    hide Run, IsExpansion, AllCancelled;
    RunOn(c, events, Closes);
    RunOn(c, events + [Closes], StartsCleanup(tabs));
  }

  lemma OneRequest()
    ensures Run(Initial(), [Dispatches("")]) == Initial().(tasks := [Task("", false, true, Between, 0)])
  {
    assert Unused(Initial(), "");
    RunOne(Initial(), Dispatches(""));
  }

  /** A detach that finds nothing attached, then an attach that is given up although it takes
      effect. */
  function IdleThenGivenUp(tab: int): seq<Event> {
    [Dispatches("")] + Forward(0, Detach(tab)) + Report(0) + Forward(0, Attach(tab)) + [Settles(0, GivesUp)]
    + [Finishes(0)] + [Closes] + [StartsCleanup([])] + [EndsCleanup]
  }

  /** One attach was given up and one detach had nothing to undo; the one does not make up for
      the other. */
  lemma IdleDetachMakesUpForNothing(tab: int)
    ensures var c := Run(Initial(), IdleThenGivenUp(tab));
            && c.phase.Done? && c.log == [Detach(tab)] && c.chrome.silent == multiset{Attach(tab)} && c.issued == []
            && Held(c, tab) == 1
  {
    hide Run, AllCancelled, Balance;
    var e1 := [Dispatches("")];
    OneRequest();
    Forwarding(Initial(), e1, 0, Detach(tab));
    var e2 := e1 + Forward(0, Detach(tab));
    Reporting(Initial(), e2, 0, Detach(tab));
    var e3 := e2 + Report(0);
    assert Run(Initial(), e3).attached == map[];
    Forwarding(Initial(), e3, 0, Attach(tab));
    var e4 := e3 + Forward(0, Attach(tab));
    GivingUp(Initial(), e4, 0, Attach(tab));
    var e5 := e4 + [Settles(0, GivesUp)] + [Finishes(0)];
    Winding(Initial(), e5, []);
    RunOn(Initial(), e5 + [Closes] + [StartsCleanup([])], EndsCleanup);
    BalancesOfTwo(tab);
    assert Run(Initial(), IdleThenGivenUp(tab)).chrome.performed == [Detach(tab), Attach(tab)];
  }

  lemma GivingUp(c: Conn, events: seq<Event>, n: nat, kind: Kind)
    requires var d := Run(c, events);
             n < |d.tasks| && d.tasks[n].pc == Performed(kind) && !kind.Other? && !d.tasks[n].tracked
    ensures var d := Run(c, events);
            Run(c, events + [Settles(n, GivesUp)] + [Finishes(n)]) ==
              d.(tasks := d.tasks[n := d.tasks[n].(pc := Ended)],
                 chrome := d.chrome.(silent := d.chrome.silent + multiset{kind}))
  {
    hide Run;
    RunOn(c, events, Settles(n, GivesUp));
    RunOn(c, events + [Settles(n, GivesUp)], Finishes(n));
  }

  lemma BalancesOfTwo(tab: int)
    ensures Balance([Attach(tab)], tab) == 1
    ensures Balance([Detach(tab), Attach(tab)], tab) == 1
  {
    assert Balance([], tab) == 0;
    assert [Attach(tab)][..0] == [] && [Detach(tab)][..0] == [];
    assert Balance([Detach(tab)], tab) == 0;
    assert [Detach(tab), Attach(tab)][..1] == [Detach(tab)];
  }

  /** An attach whose detach at cleanup is never carried out. */
  function DetachRefused(tab: int): seq<Event> {
    [Dispatches("")] + Forward(0, Attach(tab)) + Report(0) + [Finishes(0)] + [Closes] + [StartsCleanup([tab])]
    + [CleansUp(Refused)] + [EndsCleanup]
  }

  /** Nothing was given up and the cleanup sent its detach, yet the tab stays attached. */
  lemma RefusedDetachUndoesNothing(tab: int)
    ensures var c := Run(Initial(), DetachRefused(tab));
            && c.phase.Done? && c.log == [Attach(tab)] && c.chrome.silent == multiset{} && c.issued == [tab]
            && Held(c, tab) == 1
  {
    hide Run, AllCancelled;
    var e1 := [Dispatches("")];
    OneRequest();
    Forwarding(Initial(), e1, 0, Attach(tab));
    var e2 := e1 + Forward(0, Attach(tab));
    Reporting(Initial(), e2, 0, Attach(tab));
    var e3 := e2 + Report(0);
    RunOn(Initial(), e3, Finishes(0));
    Winding(Initial(), e3 + [Finishes(0)], [tab]);
    var e4 := e3 + [Finishes(0)] + [Closes] + [StartsCleanup([tab])];
    RunOn(Initial(), e4, CleansUp(Refused));
    RunOn(Initial(), e4 + [CleansUp(Refused)], EndsCleanup);
    BalancesOfTwo(tab);
    assert Run(Initial(), DetachRefused(tab)).chrome.performed == [Attach(tab)];
  }

  function TwoWorkers(): seq<Event> { [Spawns("a")] + [Spawns("b")] + [Begins(0)] + [Begins(1)] }

  lemma TwoRequests()
    ensures Run(Initial(), TwoWorkers()) ==
              Initial().(tasks := [Task("a", true, true, Between, 0), Task("b", true, true, Between, 0)],
                         active := map["a" := false, "b" := false])
  {
    var c := Initial();
    assert Run(c, []) == c && [] + [Spawns("a")] == [Spawns("a")];
    hide Run;
    RunOn(c, [], Spawns("a"));
    RunOn(c, [Spawns("a")], Spawns("b"));
    RunOn(c, [Spawns("a")] + [Spawns("b")], Begins(0));
    RunOn(c, [Spawns("a")] + [Spawns("b")] + [Begins(0)], Begins(1));
  }

  /** Chrome detaches for one worker and then attaches for another; the host counts the answers
      the other way round. */
  function CountedInReverse(tab: int): seq<Event> {
    TwoWorkers() + Forward(0, Detach(tab)) + Forward(1, Attach(tab)) + Report(1) + Report(0)
    + [Finishes(0)] + [Finishes(1)] + [Closes] + [StartsCleanup([])] + [EndsCleanup]
  }

  /** Everything was reported and counted, and the counts are even, yet the tab stays attached. */
  lemma CountingOrderMatters(tab: int)
    ensures var c := Run(Initial(), CountedInReverse(tab));
            && c.phase.Done? && c.log == [Attach(tab), Detach(tab)] && c.chrome.silent == multiset{} && c.issued == []
            && Held(c, tab) == 1
  {
    hide Run, AllCancelled, Balance;
    var e1 := TwoWorkers();
    TwoRequests();
    Forwarding(Initial(), e1, 0, Detach(tab));
    var e2 := e1 + Forward(0, Detach(tab));
    Forwarding(Initial(), e2, 1, Attach(tab));
    var e3 := e2 + Forward(1, Attach(tab));
    Reporting(Initial(), e3, 1, Attach(tab));
    var e4 := e3 + Report(1);
    Reporting(Initial(), e4, 0, Detach(tab));
    var e5 := e4 + Report(0);
    RunOn(Initial(), e5, Finishes(0));
    RunOn(Initial(), e5 + [Finishes(0)], Finishes(1));
    var e6 := e5 + [Finishes(0)] + [Finishes(1)];
    Winding(Initial(), e6, []);
    RunOn(Initial(), e6 + [Closes] + [StartsCleanup([])], EndsCleanup);
    BalancesOfTwo(tab);
    assert Run(Initial(), CountedInReverse(tab)).chrome.performed == [Detach(tab), Attach(tab)];
  }

  lemma CleanupIsAlone(c: Conn, e: Event)
    requires Inv(c) && (c.phase.Cleaning? || c.phase.Done?)
    ensures Step(c, e).log == c.log && Step(c, e).acked == c.acked && Step(c, e).tasks == c.tasks
    ensures Step(c, e).phase.Cleaning? || Step(c, e).phase.Done?
  {
    hide Counted, Balance, Conserved, DistinctIds, IsExpansion;
  }

  /** Because workers are awaited, nothing is counted or reported once cleanup has begun. */
  lemma {:induction false} NothingCountedAfterwards(c: Conn, events: seq<Event>)
    requires Inv(c) && (c.phase.Cleaning? || c.phase.Done?)
    ensures Run(c, events).log == c.log && Run(c, events).acked == c.acked && Run(c, events).tasks == c.tasks
    decreases |events|
  {
    hide Step, Inv;
    if events != [] {
      StepKeeps(c, events[0]);
      CleanupIsAlone(c, events[0]);
      NothingCountedAfterwards(Step(c, events[0]), events[1..]);
    }
  }

  // ---------- Cancellation ----------

  /** Dispatch `n` has returned, or sees itself cancelled at every check. */
  predicate Stopped(c: Conn, n: nat) {
    n < |c.tasks| && (c.tasks[n].pc.Ended? || (c.tasks[n].checked && Cancelled(c, c.tasks[n].id)))
  }

  /** Frames sent and the one that is past its check. */
  function Committed(c: Conn, n: nat): nat
    requires n < |c.tasks|
  {
    c.tasks[n].frames + if c.tasks[n].pc.Passed? then 1 else 0
  }

  /** What no step takes from a stopped dispatch. */
  predicate StaysStopped(c: Conn, d: Conn, n: nat)
    requires n < |c.tasks|
  {
    && n < |d.tasks| && d.tasks[n].id == c.tasks[n].id && d.tasks[n].checked == c.tasks[n].checked
    && (d.tasks[n].pc.Ended? || (InFlight(c.tasks[n]) && Cancelled(d, d.tasks[n].id)))
    && Committed(d, n) <= Committed(c, n)
  }

  lemma CheckedStays(c: Conn, m: nat, kind: Kind, n: nat)
    requires Stopped(c, n) && m < |c.tasks| && c.tasks[m].pc.Between?
    ensures StaysStopped(c, Checked(c, m, kind), n)
  {
  }

  lemma FinishedStays(c: Conn, m: nat, n: nat)
    requires DistinctIds(c) && Stopped(c, n) && m < |c.tasks| && InFlight(c.tasks[m])
    ensures StaysStopped(c, Finished(c, m), n)
  {
    if m != n && InFlight(c.tasks[n]) { assert c.tasks[m].id != c.tasks[n].id; }
  }

  lemma BegunStays(c: Conn, m: nat, n: nat)
    requires Stopped(c, n) && m < |c.tasks| && c.tasks[m].pc.Spawned?
    ensures StaysStopped(c, Begun(c, m), n)
  {
  }

  /** A move of dispatch `m` that adds no commitment, whatever happens to the counts. */
  lemma MoveStays(c: Conn, d: Conn, m: nat, t: Task, n: nat)
    requires Stopped(c, n) && m < |c.tasks| && InFlight(c.tasks[m]) && !t.pc.Ended?
    requires d.tasks == c.tasks[m := t] && d.active == c.active && d.closed == c.closed
    requires t.id == c.tasks[m].id && t.checked == c.tasks[m].checked
    requires t.frames + (if t.pc.Passed? then 1 else 0) <= Committed(c, m)
    ensures StaysStopped(c, d, n)
  {
  }

  lemma ForwardStays(c: Conn, e: Event, n: nat)
    requires Stopped(c, n) && Enabled(c, e) && (e.Writes? || e.TakesEffect? || e.Settles? || e.Tallies?)
    ensures StaysStopped(c, Next(c, e), n)
  {
    hide Counted, StaysStopped, Stopped, Cancelled, Written, TookEffect, Settled, Tallied;
    match e
    case Writes(m, delivered) => WriteStays(c, m, delivered, n);
    case TakesEffect(m) => EffectStays(c, m, n);
    case Settles(m, ending) => SettleStays(c, m, ending, n);
    case Tallies(m) => TallyStays(c, m, n);
  }

  lemma WriteStays(c: Conn, m: nat, delivered: bool, n: nat)
    requires Stopped(c, n) && m < |c.tasks| && c.tasks[m].pc.Passed?
    ensures StaysStopped(c, Written(c, m, delivered), n)
  {
    hide StaysStopped, Stopped;
    var d := Written(c, m, delivered);
    MoveStays(c, d, m, d.tasks[m], n);
  }

  lemma EffectStays(c: Conn, m: nat, n: nat)
    requires Stopped(c, n) && m < |c.tasks| && c.tasks[m].pc.Awaiting?
    ensures StaysStopped(c, TookEffect(c, m), n)
  {
    hide StaysStopped, Stopped;
    var d := TookEffect(c, m);
    MoveStays(c, d, m, d.tasks[m], n);
  }

  lemma SettleStays(c: Conn, m: nat, ending: Ending, n: nat)
    requires Stopped(c, n) && m < |c.tasks| && (c.tasks[m].pc.Awaiting? || c.tasks[m].pc.Performed?)
    ensures StaysStopped(c, Settled(c, m, ending), n)
  {
    hide StaysStopped, Stopped, Settled;
    var d := Settled(c, m, ending);
    SettlingCommitsNothing(c, m, ending);
    MoveStays(c, d, m, d.tasks[m], n);
  }

  lemma SettlingCommitsNothing(c: Conn, m: nat, ending: Ending)
    requires m < |c.tasks| && (c.tasks[m].pc.Awaiting? || c.tasks[m].pc.Performed?)
    ensures var d := Settled(c, m, ending);
            && |d.tasks| == |c.tasks| && d.tasks == c.tasks[m := d.tasks[m]]
            && d.active == c.active && d.closed == c.closed
            && d.tasks[m] == c.tasks[m].(pc := d.tasks[m].pc) && (d.tasks[m].pc.Between? || d.tasks[m].pc.Acked?)
  {
  }

  lemma TallyStays(c: Conn, m: nat, n: nat)
    requires Stopped(c, n) && m < |c.tasks| && c.tasks[m].pc.Acked?
    ensures StaysStopped(c, Tallied(c, m), n)
  {
    hide StaysStopped, Stopped, Counted;
    var d := Tallied(c, m);
    MoveStays(c, d, m, d.tasks[m], n);
  }

  /** A cancellation stays visible to its dispatch until the dispatch returns. */
  lemma CancellationStays(c: Conn, e: Event, n: nat)
    requires Inv(c) && Stopped(c, n)
    ensures StaysStopped(c, Step(c, e), n)
  {
    hide Begun, Checked, Written, TookEffect, Settled, Tallied, Finished, Late, LateDetach, Fated, Removed;
    hide Balance, Conserved, Phased, IsExpansion, DistinctIds, ReaderFree, Unused, Accounted;
    if Enabled(c, e) {
      match e
      case Begins(m) => BegunStays(c, m, n);
      case Checks(m, kind) => CheckedStays(c, m, kind, n);
      case Writes(m, _) => ForwardStays(c, e, n);
      case TakesEffect(m) => ForwardStays(c, e, n);
      case Settles(m, _) => ForwardStays(c, e, n);
      case Tallies(m) => ForwardStays(c, e, n);
      case Finishes(m) => FinishedStays(c, m, n);
      case _ =>
    }
  }

  /** Once cancelled, and until it returns, a dispatch writes at most the one frame that had
      passed its check; afterwards it writes none. */
  lemma {:induction false} CancelledSendsAtMostOne(c: Conn, events: seq<Event>, n: nat)
    requires Inv(c) && Stopped(c, n)
    ensures Stopped(Run(c, events), n)
    ensures Run(c, events).tasks[n].frames <= c.tasks[n].frames + if c.tasks[n].pc.Passed? then 1 else 0
    decreases |events|
  {
    hide Step, Inv, Cancelled;
    if events != [] {
      StepKeeps(c, events[0]);
      CancellationStays(c, events[0], n);
      CancelledSendsAtMostOne(Step(c, events[0]), events[1..], n);
    }
  }

  /** A cancel request for a dispatch in flight, or for one a worker has yet to begin: over
      any later run it writes at most the frame that was past its check. */
  lemma CancelRequestStops(c: Conn, id: string, n: nat, events: seq<Event>)
    requires Inv(c) && Enabled(c, Cancels(id)) && 0 < |id| <= MAX_ID_LENGTH
    requires n < |c.tasks| && InFlight(c.tasks[n]) && c.tasks[n].checked && c.tasks[n].id == id
    ensures var d := Run(Step(c, Cancels(id)), events);
            n < |d.tasks| && d.tasks[n].frames <= c.tasks[n].frames + if c.tasks[n].pc.Passed? then 1 else 0
  {
    hide Run, Inv;
    StepKeeps(c, Cancels(id));
    CancelledSendsAtMostOne(Step(c, Cancels(id)), events, n);
  }

  /** A cancel request marks its own id, if that is one of 1 to 128 characters, and nothing else. */
  lemma CancelMarksItsId(c: Conn, id: string, other: string)
    requires Enabled(c, Cancels(id))
    ensures var d := Step(c, Cancels(id));
            && d == c.(active := d.active)
            && (Cancelled(d, other) <==> Cancelled(c, other) || (other == id && 0 < |id| <= 128))
  {
    hide ReaderFree;
  }

  /** Losing the connection marks the connection and every request it knows, and nothing else. */
  lemma ClosingMarksAll(c: Conn, id: string)
    requires Enabled(c, Closes)
    ensures var d := Step(c, Closes);
            && d == c.(phase := d.phase, closed := true, active := d.active)
            && d.active.Keys == c.active.Keys && Cancelled(d, id) && (id in d.active ==> d.active[id])
  {
    hide ReaderFree;
  }

  /** A request that begins is known from then on; who is cancelled stays as it was. */
  lemma BeginningCancelsNobody(c: Conn, n: nat, id: string)
    requires Enabled(c, Begins(n))
    ensures var d := Step(c, Begins(n));
            && d.active.Keys == c.active.Keys + {c.tasks[n].id} && d.closed == c.closed
            && (Cancelled(d, id) <==> Cancelled(c, id)) && (id in c.active ==> d.active[id] == c.active[id])
  {
  }

  /** An attach or detach that is given up before it took effect may still take effect, once. */
  lemma GivenUpMayTakeEffect(c: Conn, n: nat)
    requires Enabled(c, Settles(n, GivesUp)) && c.tasks[n].pc.Awaiting? && !c.tasks[n].pc.kind.Other?
    ensures var kind, given := c.tasks[n].pc.kind, Step(c, Settles(n, GivesUp));
            && Enabled(given, TakesEffectLate(kind))
            && Step(given, TakesEffectLate(kind)).chrome
              == c.chrome.(performed := c.chrome.performed + [kind], silent := c.chrome.silent + multiset{kind})
  {
    var kind, given := c.tasks[n].pc.kind, Step(c, Settles(n, GivesUp));
    assert c.chrome.abandoned + multiset{kind} - multiset{kind} == c.chrome.abandoned;
  }

  /** So may a detach of the cleanup that was given up. */
  lemma OverdueDetachMayTakeEffect(c: Conn)
    requires Enabled(c, CleansUp(Overdue))
    ensures var tab, given := c.phase.todo[0], Step(c, CleansUp(Overdue));
            && given.issued == c.issued + [tab] && Enabled(given, DetachTakesEffectLate(tab))
            && Step(given, DetachTakesEffectLate(tab)).chrome
              == c.chrome.(performed := c.chrome.performed + [Detach(tab)], done := c.chrome.done + multiset{tab})
  {
    var tab := c.phase.todo[0];
    assert c.chrome.overdue + multiset{tab} - multiset{tab} == c.chrome.overdue;
  }

  /** A frame that cannot be written leaves its dispatch between two forwards, and is not counted
      as sent. */
  lemma UndeliveredFrameIsNone(c: Conn, n: nat)
    requires Enabled(c, Writes(n, false))
    ensures Step(c, Writes(n, false)) == c.(tasks := c.tasks[n := c.tasks[n].(pc := Between)])
  {
  }

  /** The frame that ends a session is sent although the session's requests are stopped. */
  lemma SessionEndIsSent(c: Conn, id: string)
    requires Enabled(c, EndsSession(id))
    ensures var n, d := |c.tasks|, Step(Step(c, EndsSession(id)), Writes(|c.tasks|, true));
            n < |d.tasks| && d.tasks[n].frames == 1 && d.closed
  {
    hide Unused, ReaderFree;
    var n, d := |c.tasks|, Step(c, EndsSession(id));
    assert d.tasks[n] == Task(id, false, false, Passed(Other), 0);
  }

  /** Losing the connection, or ending the session, stops every dispatch in flight. */
  lemma ClosingStops(c: Conn, e: Event, n: nat, events: seq<Event>)
    requires Inv(c) && Enabled(c, e) && (e.Closes? || e.EndsSession?)
    requires n < |c.tasks| && InFlight(c.tasks[n]) && c.tasks[n].checked
    ensures var d := Run(Step(c, e), events);
            n < |d.tasks| && d.tasks[n].frames <= c.tasks[n].frames + if c.tasks[n].pc.Passed? then 1 else 0
  {
    hide Run, Inv;
    StepKeeps(c, e);
    CancelledSendsAtMostOne(Step(c, e), events, n);
  }

  /** A request whose cancellation arrived before the request itself never reaches Chrome. */
  lemma EarlyCancelSendsNothing(c: Conn, id: string, e: Event, events: seq<Event>)
    requires Inv(c) && Cancelled(c, id) && (e == Spawns(id) || e == Dispatches(id)) && Enabled(c, e)
    ensures var n, d := |c.tasks|, Run(Step(c, e), events);
            n < |d.tasks| && d.tasks[n].id == id && d.tasks[n].frames == 0
  {
    hide Run, Inv, Unused, ReaderFree;
    StepKeeps(c, e);
    CancelledSendsAtMostOne(Step(c, e), events, |c.tasks|);
    IdsAreKept(Step(c, e), events, |c.tasks|);
  }

  lemma {:induction false} IdsAreKept(c: Conn, events: seq<Event>, n: nat)
    requires n < |c.tasks|
    ensures n < |Run(c, events).tasks| && Run(c, events).tasks[n].id == c.tasks[n].id
    decreases |events|
  {
    hide Step;
    if events != [] {
      StepKeepsIdOf(c, events[0], n);
      IdsAreKept(Step(c, events[0]), events[1..], n);
    }
  }

  lemma StepKeepsIdOf(c: Conn, e: Event, n: nat)
    requires n < |c.tasks|
    ensures n < |Step(c, e).tasks| && Step(c, e).tasks[n].id == c.tasks[n].id
  {
    hide IsExpansion, ReaderFree, Unused, Removed, AllCancelled;
    hide Begun, Checked, Written, TookEffect, Settled, Tallied, Finished;
    if Enabled(c, e) && OfDispatch(e) { DispatchMoves(c, e); }
  }

  /** Why ids in flight must differ: when one dispatch returns, another keeps a recorded
      cancellation exactly if the connection is closed, the first was not tracked, or their
      ids differ. */
  lemma ReturningKeepsOthersCancelled(c: Conn, m: nat, n: nat)
    requires m < |c.tasks| && n < |c.tasks| && m != n && Cancelled(c, c.tasks[n].id)
    ensures Cancelled(Finished(c, m), c.tasks[n].id) <==>
            c.closed || !c.tasks[m].tracked || c.tasks[m].id != c.tasks[n].id
  {
    assert c.tasks[m].tracked ==> c.tasks[m].id !in c.active - {c.tasks[m].id};
  }

  /** A run in which ids need not be fresh. */
  ghost function AnyRun(c: Conn, events: seq<Event>): Conn
    decreases |events|
  {
    if events == [] then c
    else AnyRun(if Possible(c, events[0]) then Next(c, events[0]) else c, events[1..])
  }

  lemma {:induction false} AnyRunOn(c: Conn, events: seq<Event>, e: Event)
    requires Possible(AnyRun(c, events), e)
    ensures AnyRun(c, events + [e]) == Next(AnyRun(c, events), e)
    decreases |events|
  {
    hide Possible, Next;
    if events == [] {
      assert AnyRun(Next(c, e), []) == Next(c, e);
    } else {
      assert (events + [e])[1..] == events[1..] + [e];
      AnyRunOn(if Possible(c, events[0]) then Next(c, events[0]) else c, events[1..], e);
    }
  }

  /** Two requests under one id, both begun, and a cancel for that id. */
  function TwinsCancelled(id: string): seq<Event> {
    [Spawns(id)] + [Spawns(id)] + [Begins(0)] + [Begins(1)] + [Cancels(id)]
  }

  /** Dispatch `n` writes `k` frames and has an error answered to each. */
  function Attempts(n: nat, k: nat): seq<Event> {
    if k == 0 then [] else Attempts(n, k - 1) + [Checks(n, Other)] + [Writes(n, true)] + [Settles(n, Failure)]
  }

  lemma TwinsAreCancelled(id: string)
    requires 0 < |id| <= MAX_ID_LENGTH
    ensures AnyRun(Initial(), TwinsCancelled(id)) ==
              Initial().(tasks := [Task(id, true, true, Between, 0), Task(id, true, true, Between, 0)],
                         active := map[id := true])
  {
    var c, e1 := Initial(), [Spawns(id)];
    assert AnyRun(c, []) == c && [] + e1 == e1;
    hide AnyRun;
    AnyRunOn(c, [], Spawns(id));
    AnyRunOn(c, e1, Spawns(id));
    AnyRunOn(c, e1 + [Spawns(id)], Begins(0));
    AnyRunOn(c, e1 + [Spawns(id)] + [Begins(0)], Begins(1));
    AnyRunOn(c, e1 + [Spawns(id)] + [Begins(0)] + [Begins(1)], Cancels(id));
  }

  lemma TwinReturns(id: string)
    requires 0 < |id| <= MAX_ID_LENGTH
    ensures AnyRun(Initial(), TwinsCancelled(id) + [Finishes(0)]) ==
              Initial().(tasks := [Task(id, true, true, Ended, 0), Task(id, true, true, Between, 0)])
  {
    TwinsAreCancelled(id);
    hide AnyRun, TwinsCancelled;
    AnyRunOn(Initial(), TwinsCancelled(id), Finishes(0));
  }

  function With(c: Conn, n: nat, t: Task): Conn
    requires n < |c.tasks|
  {
    c.(tasks := c.tasks[n := t])
  }

  lemma CheckAndWrite(c: Conn, n: nat)
    requires Idle(c, n)
    ensures var t := c.tasks[n];
            var passed := With(c, n, t.(pc := Passed(Other)));
            var sent := With(c, n, t.(pc := Awaiting(Other), frames := t.frames + 1));
            && Possible(c, Checks(n, Other)) && Next(c, Checks(n, Other)) == passed
            && Possible(passed, Writes(n, true)) && Next(passed, Writes(n, true)) == sent
  {
  }

  lemma ErrorAnswered(c: Conn, n: nat, t: Task)
    requires n < |c.tasks|
    ensures var sent := With(c, n, t.(pc := Awaiting(Other)));
            Possible(sent, Settles(n, Failure)) && Next(sent, Settles(n, Failure)) == With(c, n, t.(pc := Between))
  {
  }

  lemma Attempting(c: Conn, events: seq<Event>, n: nat)
    requires n < |AnyRun(c, events).tasks| && Idle(AnyRun(c, events), n)
    ensures var d := AnyRun(c, events);
            AnyRun(c, events + [Checks(n, Other)] + [Writes(n, true)] + [Settles(n, Failure)]) ==
              With(d, n, d.tasks[n].(frames := d.tasks[n].frames + 1))
  {
    hide AnyRun, Possible, Next, With, Idle;
    var d := AnyRun(c, events);
    CheckAndWrite(d, n);
    ErrorAnswered(d, n, d.tasks[n].(frames := d.tasks[n].frames + 1));
    AnyRunOn(c, events, Checks(n, Other));
    AnyRunOn(c, events + [Checks(n, Other)], Writes(n, true));
    AnyRunOn(c, events + [Checks(n, Other)] + [Writes(n, true)], Settles(n, Failure));
  }

  /** Ids in flight must differ: of two cancelled requests under one id, the first to return
      takes the other's cancellation with it, and the other goes on writing frames without end. */
  lemma {:induction false} TwinOutlivesItsCancellation(id: string, k: nat)
    requires 0 < |id| <= MAX_ID_LENGTH
    ensures Stopped(AnyRun(Initial(), TwinsCancelled(id)), 1)
    ensures AnyRun(Initial(), TwinsCancelled(id) + [Finishes(0)] + Attempts(1, k)) ==
              Initial().(tasks := [Task(id, true, true, Ended, 0), Task(id, true, true, Between, k)])
  {
    TwinsAreCancelled(id);
    hide AnyRun, TwinsCancelled;
    var before := TwinsCancelled(id) + [Finishes(0)];
    if k == 0 {
      TwinReturns(id);
      assert before + Attempts(1, 0) == before;
    } else {
      TwinOutlivesItsCancellation(id, k - 1);
      var events := before + Attempts(1, k - 1);
      Attempting(Initial(), events, 1);
      assert events + [Checks(1, Other)] + [Writes(1, true)] + [Settles(1, Failure)] == before + Attempts(1, k);
    }
  }

  // ---------- The connection's own state ----------

  /** Loops over a map take the order in which they visit its keys as an argument. */
  class BridgeConnection {
    var phase: Phase
    var closed: bool
    var active: map<string, bool>
    var attached: map<int, nat>
    var tasks: seq<Task>
    var acked: multiset<Kind>
    var log: seq<Kind>
    var issued: seq<int>
    var chrome: Chrome

    ghost function View(): Conn
      reads this
    {
      Conn(phase, closed, active, attached, tasks, acked, log, issued, chrome)
    }

    constructor ()
      ensures View() == Initial() && Inv(View())
    {
      phase, closed, active, attached := Open, false, map[], map[];
      tasks, acked, log, issued, chrome := [], multiset{}, [], [], UNTOUCHED;
      new;
      InitialHolds();
    }

    method Cancel(id: string) returns (ok: bool)
      requires Enabled(View(), Cancels(id))
      modifies this
      ensures View() == Step(old(View()), Cancels(id))
      ensures ok ==> Cancelled(View(), id)
    {
      hide Enabled;
      if id == "" || |id| > MAX_ID_LENGTH { return false; }
      active := active[id := true];
      return true;
    }

    method MarkAll(order: seq<string>)
      requires forall id :: id in active <==> id in order
      modifies this
      ensures View() == Shut(old(View()))
    {
      closed := true;
      for i := 0 to |order|
        invariant View() == old(View()).(closed := true, active := active)
        invariant active.Keys == old(active).Keys
        invariant forall id :: id in active ==> active[id] == (id in order[..i] || old(active)[id])
      {
        assert order[..i + 1] == order[..i] + [order[i]];
        active := active[order[i] := true];
      }
      assert order[..|order|] == order;
      assert active == AllCancelled(old(active));
    }

    method EndSession(id: string, order: seq<string>)
      requires Enabled(View(), EndsSession(id)) && forall key :: key in active <==> key in order
      modifies this
      ensures View() == Step(old(View()), EndsSession(id))
    {
      hide AllCancelled, ReaderFree, Unused;
      MarkAll(order);
      tasks := tasks + [Task(id, false, false, Passed(Other), 0)];
    }

    /** The reading loop has ended. */
    method Close(order: seq<string>)
      requires Enabled(View(), Closes) && forall key :: key in active <==> key in order
      modifies this
      ensures View() == Step(old(View()), Closes)
    {
      hide AllCancelled, ReaderFree;
      MarkAll(order);
      phase := Closing;
    }

    method Begin(n: nat)
      requires Enabled(View(), Begins(n))
      modifies this
      ensures View() == Step(old(View()), Begins(n))
    {
      var id := tasks[n].id;
      if id !in active { active := active[id := false]; }
      tasks := tasks[n := tasks[n].(pc := Between)];
    }

    method IsCancelled(id: string) returns (cancelled: bool)
      ensures cancelled <==> Cancelled(View(), id)
    {
      cancelled := closed || (id in active && active[id]);
    }

    method Check(n: nat, kind: Kind) returns (passed: bool)
      requires Enabled(View(), Checks(n, kind))
      modifies this
      ensures View() == Step(old(View()), Checks(n, kind))
      ensures passed <==> !Cancelled(old(View()), tasks[n].id)
    {
      var cancelled := IsCancelled(tasks[n].id);
      if !cancelled { tasks := tasks[n := tasks[n].(pc := Passed(kind))]; }
      passed := !cancelled;
    }

    /** The locked region after a successful attach or detach. */
    method Count(n: nat)
      requires Enabled(View(), Tallies(n))
      modifies this
      ensures View() == Step(old(View()), Tallies(n))
    {
      var kind := tasks[n].pc.kind;
      match kind {
        case Attach(tab) => AddAttachedTab(tab);
        case Detach(tab) => RemoveAttachedTab(tab);
        case Other =>
      }
      log := log + [kind];
      tasks := tasks[n := tasks[n].(pc := Between)];
    }

    method AddAttachedTab(tab: int)
      modifies this`attached
      ensures attached == Added(old(attached), tab)
    {
      attached := attached[tab := if tab in attached then attached[tab] + 1 else 1];
    }

    method RemoveAttachedTab(tab: int)
      modifies this`attached
      ensures attached == Removed(old(attached), tab)
    {
      if tab !in attached || attached[tab] <= 1 {
        attached := attached - {tab};
        return;
      }
      attached := attached[tab := attached[tab] - 1];
    }

    method Finish(n: nat)
      requires Enabled(View(), Finishes(n))
      modifies this
      ensures View() == Step(old(View()), Finishes(n))
    {
      if tasks[n].tracked { active := active - {tasks[n].id}; }
      tasks := tasks[n := tasks[n].(pc := Ended)];
    }

    /** One detach of the cleanup: the frame, and on success the locked region after it. */
    method DetachNext(fate: Fate)
      requires Enabled(View(), CleansUp(fate))
      modifies this
      ensures View() == Step(old(View()), CleansUp(fate))
    {
      hide Fated, Removed;
      var tab := phase.todo[0];
      if fate.Confirmed? { RemoveAttachedTab(tab); }
      issued := issued + [tab];
      phase := Cleaning(phase.todo[1..]);
      chrome := Fated(chrome, tab, fate);
    }

    /** `fates` says what becomes of each detach. */
    method Cleanup(order: seq<int>, fates: int -> Fate)
      requires Inv(View()) && phase.Closing? && AllEnded(View()) && IsKeyOrder(order, attached)
      modifies this
      ensures View() == old(View()).(phase := Done, attached := map[], issued := issued, chrome := chrome)
              && Inv(View())
      ensures IsExpansion(issued, old(attached))
    {
      var tabs := ExpandedAttachedTabs(attached, order);
      CleanupStarts(View(), tabs);
      hide Inv, IsExpansion, Step;
      attached := map[];
      phase := Cleaning(tabs);
      DetachAll(tabs, fates);
      StepKeeps(View(), EndsCleanup);
      CleanupEnds(View());
      phase := Phase.Done;
    }

    method DetachAll(tabs: seq<int>, fates: int -> Fate)
      requires Inv(View()) && phase == Cleaning(tabs) && attached == map[] && issued == []
      modifies this
      ensures Inv(View()) && issued == tabs
      ensures View() == old(View()).(phase := Cleaning([]), issued := issued, chrome := chrome)
    {
      hide Inv, Enabled, Step;
      for i := 0 to |tabs|
        invariant Inv(View()) && issued == tabs[..i] && phase == Cleaning(tabs[i..])
        invariant View() == old(View()).(phase := phase, issued := issued, chrome := chrome)
      {
        DetachKeeps(View(), fates(i));
        DetachNext(fates(i));
      }
    }
  }

  lemma CleanupStarts(c: Conn, tabs: seq<int>)
    requires Inv(c) && c.phase.Closing? && AllEnded(c) && IsExpansion(tabs, c.attached)
    ensures Inv(c.(phase := Cleaning(tabs), attached := map[])) && c.issued == []
  {
    hide DistinctIds, Conserved, Accounted, IsExpansion;
    StepKeeps(c, StartsCleanup(tabs));
    assert Step(c, StartsCleanup(tabs)) == c.(phase := Cleaning(tabs), attached := map[]);
  }

  lemma CleanupEnds(c: Conn)
    requires c.phase == Cleaning([])
    ensures Step(c, EndsCleanup) == c.(phase := Phase.Done)
  {
  }

  lemma DetachKeeps(c: Conn, fate: Fate)
    requires Inv(c) && c.phase.Cleaning? && c.phase.todo != []
    ensures Enabled(c, CleansUp(fate))
    ensures var d := Step(c, CleansUp(fate));
            && Inv(d) && d.issued == c.issued + [c.phase.todo[0]] && d.phase == Cleaning(c.phase.todo[1..])
            && d == c.(phase := d.phase, issued := d.issued, chrome := d.chrome)
  {
    StepKeeps(c, CleansUp(fate));
    NothingToRemove(c.phase.todo[0]);
    hide DistinctIds, Conserved, Accounted, Detaching, Fated, Removed;
  }
}
