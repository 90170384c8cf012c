/** The web client's connection to a host: attempts that span several awaits, reconnect
    timers, socket closes, probes and revocation, told apart by a generation counter. Each
    function below is one block of code between awaits. */
module ConnectionStore {
  import opened Options

  datatype Status = Idle | Connecting | Ready | Reconnecting | Revoked | Failed

  datatype ErrorKind =
    RevokedKind | Unauthenticated | Forbidden | IncompatibleProtocol | Maintenance | RecoveryBlocked | OtherKind

  datatype ConnectionError = ConnectionError(kind: Option<ErrorKind>, closeCode: Option<int>)

  datatype Reason = ByRevocation | ByCredential

  datatype Mode = Pair(url: string, name: string) | Resume

  // ---------- Saved hosts ----------

  datatype SavedHost = SavedHost(hostId: string, deviceId: string, url: string, token: string, name: string,
                                 pairedAt: string)

  datatype SavedHosts = SavedHosts(activeHostId: string, hosts: seq<SavedHost>)

  type Storage = Option<SavedHosts>

  /** What reading makes of the stored value: a host with an empty field other than the
      token makes all of it unreadable. */
  function ReadSaved(storage: Storage): Storage {
    if storage.Some? && forall h :: h in storage.value.hosts ==> Complete(h) then storage else None
  }

  predicate Complete(host: SavedHost) {
    host.hostId != "" && host.deviceId != "" && host.url != "" && host.name != "" && host.pairedAt != ""
  }

  function FindHost(hosts: seq<SavedHost>, hostId: string): Option<SavedHost> {
    if hosts == [] then None else if hosts[0].hostId == hostId then Some(hosts[0]) else FindHost(hosts[1..], hostId)
  }

  function ActiveHost(storage: Storage): Option<SavedHost> {
    var saved := ReadSaved(storage);
    if saved.None? then None else FindHost(saved.value.hosts, saved.value.activeHostId)
  }

  function SaveHost(host: SavedHost): Storage { Some(SavedHosts(host.hostId, [host])) }

  function ClearTokens(hosts: seq<SavedHost>, hostId: string): seq<SavedHost> {
    if hosts == [] then []
    else [if hosts[0].hostId == hostId then hosts[0].(token := "") else hosts[0]] + ClearTokens(hosts[1..], hostId)
  }

  function ClearHostToken(storage: Storage, hostId: string): Storage {
    var saved := ReadSaved(storage);
    if saved.None? then storage else Some(saved.value.(hosts := ClearTokens(saved.value.hosts, hostId)))
  }

  function Others(hosts: seq<SavedHost>, hostId: string): seq<SavedHost> {
    if hosts == [] then []
    else if hosts[0].hostId == hostId then Others(hosts[1..], hostId)
    else [hosts[0]] + Others(hosts[1..], hostId)
  }

  function RemoveHost(storage: Storage, hostId: string): Storage {
    var saved := ReadSaved(storage);
    if saved.None? then storage
    else
      var hosts := Others(saved.value.hosts, hostId);
      if hosts == [] then None else Some(SavedHosts(hosts[0].hostId, hosts))
  }

  // ---------- The store ----------

  /** What subscribers see; `connection` is the id of the live connection. */
  datatype State = State(status: Status, host: Option<SavedHost>, connection: Option<nat>, maintenance: bool,
                         error: Option<ConnectionError>, revokedReason: Option<Reason>, retryIn: Option<nat>)

  /** Where a suspended attempt resumes. */
  datatype Phase = Opening | Authenticating | Describing(host: SavedHost) | Observing(host: SavedHost) | Finished

  datatype Attempt = Attempt(mode: Mode, saved: Option<SavedHost>, phase: Phase, closeCode: Option<int>)

  /** Attempts, sockets and timers are named by the generation that made them. `attempts`
      holds the suspended calls, `open` the sockets nobody has closed. */
  datatype Store = Store(state: State, generation: nat, failures: nat, timer: Option<nat>, socket: Option<nat>,
                         hostListener: Option<nat>, disposed: bool, storage: Storage,
                         attempts: map<nat, Attempt>, open: set<nat>)

  const RECONNECT_DELAYS_MS: seq<nat> := [1_000, 2_000, 4_000, 8_000, 16_000, 30_000]

  function Initial(storage: Storage): Store {
    Store(State(Idle, ActiveHost(storage), None, false, None, None, None), 0, 0, None, None, None, false, storage,
      map[], {})
  }

  function TornDown(s: Store): Store {
    var closing := if s.state.connection.Some? then s.state.connection else s.socket;
    s.(timer := None, hostListener := None, socket := None,
       open := if closing.Some? then s.open - {closing.value} else s.open)
  }

  /** `created` tells whether the socket could be created at all. */
  function Connected(s: Store, mode: Mode, created: bool): Store {
    if s.disposed then s
    else
      var wasConnected := s.state.connection.Some? || s.state.status == Reconnecting;
      var t := TornDown(s.(generation := s.generation + 1));
      var saved := if mode.Resume? then ActiveHost(t.storage) else None;
      if mode.Resume? && (saved.None? || saved.value.token == "") then
        t.(state := t.state.(status := Idle, host := saved, connection := None, retryIn := None))
      else
        var u := t.(state := t.state.(status := if wasConnected && mode.Resume? then Reconnecting else Connecting,
                                      connection := None, error := None, retryIn := None,
                                      revokedReason := if mode.Pair? then None else t.state.revokedReason));
        if created
        then u.(socket := Some(u.generation), open := u.open + {u.generation},
                attempts := u.attempts[u.generation := Attempt(mode, saved, Opening, None)])
        else FailedWith(u, mode, ConnectionError(None, None))
  }

  function FailedWith(s: Store, mode: Mode, error: ConnectionError): Store {
    if error.kind == Some(RevokedKind) || error.closeCode == Some(4003) then RevokedFor(s, ByRevocation, Some(error))
    else if mode.Pair? || error.kind == Some(Forbidden) || error.kind == Some(IncompatibleProtocol) then
      s.(state := s.state.(status := Failed, connection := None, error := Some(error), retryIn := None))
    else if error.kind == Some(Unauthenticated) then RevokedFor(s, ByCredential, Some(error))
    else Scheduled(s, error)
  }

  function Scheduled(s: Store, error: ConnectionError): Store {
    var last := |RECONNECT_DELAYS_MS| - 1;
    var delay := RECONNECT_DELAYS_MS[if s.failures <= last then s.failures else last];
    s.(failures := s.failures + 1, timer := Some(s.generation),
       state := s.state.(status := Reconnecting, connection := None, error := Some(error), retryIn := Some(delay)))
  }

  function RevokedFor(s: Store, reason: Reason, error: Option<ConnectionError>): Store {
    var t := TornDown(s.(generation := s.generation + 1));
    var storage := if s.state.host.Some? && s.state.host.value.hostId != ""
      then ClearHostToken(t.storage, s.state.host.value.hostId) else t.storage;
    t.(storage := storage,
       state := t.state.(status := Revoked, host := ActiveHost(storage), connection := None, error := error,
                         revokedReason := Some(reason), retryIn := None, maintenance := false))
  }

  function Dropped(s: Store, generation: nat, code: Option<int>, created: bool): Store {
    if generation != s.generation then s
    else
      var t := s.(hostListener := None);
      if code == Some(4003) then RevokedFor(t, ByRevocation, Some(ConnectionError(None, code)))
      else
        var u := t.(state := t.state.(connection := None));
        if code == Some(4008) then Connected(u, Resume, created) else Scheduled(u, ConnectionError(None, code))
  }

  function Disconnected(s: Store): Store {
    var t := TornDown(s.(generation := s.generation + 1));
    t.(state := t.state.(status := Idle, connection := None, error := None, retryIn := None, maintenance := false))
  }

  function Forgotten(s: Store): Store {
    var t := Disconnected(s);
    t.(storage := if s.state.host.Some? && s.state.host.value.hostId != ""
         then RemoveHost(t.storage, s.state.host.value.hostId) else t.storage,
       state := t.state.(host := None, revokedReason := None))
  }

  /** How the await an attempt is suspended at ends; `now` is the time a pairing is saved at. */
  datatype Settled =
    | Opened
    | Authenticated(hostId: string, deviceId: string, token: string, now: string)
    | Described
    | Observed(valid: bool, maintenance: bool)
    | Rejected(kind: Option<ErrorKind>)

  function Awaits(phase: Phase, r: Settled): bool {
    match r
    case Opened => phase.Opening?
    case Authenticated(_, _, _, _) => phase.Authenticating?
    case Described => phase.Describing?
    case Observed(_, _) => phase.Observing?
    case Rejected(_) => !phase.Finished?
  }

  function Moved(s: Store, g: nat, phase: Phase): Store
    requires g in s.attempts
  {
    s.(attempts := s.attempts[g := s.attempts[g].(phase := phase)])
  }

  /** Attempt `g` resumes after an await. */
  function Resumed(s: Store, g: nat, r: Settled): Store
    requires g in s.attempts && Awaits(s.attempts[g].phase, r)
  {
    var a := s.attempts[g];
    var stale := g != s.generation;
    match r
    case Opened => Moved(s, g, if stale then Finished else Authenticating)
    case Authenticated(hostId, deviceId, token, now) =>
      if stale then Moved(s, g, Finished).(open := s.open - {g})
      else if a.mode.Pair? then
        var host := SavedHost(hostId, deviceId, a.mode.url, token, a.mode.name, now);
        Moved(s, g, Describing(host)).(storage := SaveHost(host))
      else Moved(s, g, if a.saved.Some? then Describing(a.saved.value) else Finished)
    case Described => Moved(s, g, Observing(a.phase.host))
    case Observed(valid, maintenance) =>
      if stale then Moved(s, g, Finished).(open := s.open - {g})
      else if !valid then Abandoned(s, g, None)
      else
        Moved(s, g, Finished).(
          hostListener := Some(g), failures := 0,
          state := s.state.(status := Ready, host := Some(a.phase.host), connection := Some(g), error := None,
                            revokedReason := None, retryIn := None, maintenance := maintenance))
    case Rejected(kind) => if stale then Moved(s, g, Finished) else Abandoned(s, g, kind)
  }

  /** The catch block of a current attempt. */
  function Abandoned(s: Store, g: nat, kind: Option<ErrorKind>): Store
    requires g in s.attempts
  {
    var t := Moved(s, g, Finished).(open := s.open - {g}, socket := None);
    FailedWith(t, s.attempts[g].mode, ConnectionError(kind, s.attempts[g].closeCode))
  }

  datatype Event =
    | StartCalled(created: bool)
    | PairCalled(url: string, name: string, created: bool)
    | ResumeCalled(created: bool)
    | DisconnectCalled
    | ForgetCalled
    | DisposeCalled
    | ErrorReported(kind: ErrorKind)
    | TimerFires(g: nat, created: bool)
    | SocketCloses(g: nat, code: Option<int>, created: bool)
    | AwaitSettles(g: nat, r: Settled)
    | Wakes(visible: bool, created: bool)
    | ProbeFails(g: nat, connection: nat, created: bool)
    | HostChanges(ready: bool)

  /** One step; an event that cannot happen in a state leaves it alone. */
  function Step(s: Store, e: Event): Store {
    match e
    case StartCalled(created) =>
      if s.state.host.Some? && s.state.host.value.token != "" && s.state.status == Idle
        then Connected(s, Resume, created) else s
    case PairCalled(url, name, created) => Connected(s, Pair(url, name), created)
    case ResumeCalled(created) => Connected(s, Resume, created)
    case DisconnectCalled => Disconnected(s)
    case ForgetCalled => Forgotten(s)
    case DisposeCalled => Disconnected(s.(disposed := true))
    case ErrorReported(kind) =>
      if kind.Maintenance? || kind.RecoveryBlocked? then s.(state := s.state.(maintenance := true))
      else if kind.RevokedKind? then RevokedFor(s, ByRevocation, None)
      else if kind.Unauthenticated? then RevokedFor(s, ByCredential, None)
      else s
    case TimerFires(g, created) =>
      if s.timer != Some(g) then s
      else
        var t := s.(timer := None);
        if g == t.generation then Connected(t, Resume, created) else t
    case SocketCloses(g, code, created) =>
      if g !in s.attempts then s
      else
        var t := s.(attempts := s.attempts[g := s.attempts[g].(closeCode := code)], open := s.open - {g});
        if g == t.generation && t.state.status == Ready then Dropped(t, g, code, created) else t
    case AwaitSettles(g, r) =>
      if g in s.attempts && Awaits(s.attempts[g].phase, r) then Resumed(s, g, r) else s
    case Wakes(visible, created) =>
      if visible && !s.disposed && s.state.status == Reconnecting then Connected(s.(failures := 0), Resume, created)
        else s
    case ProbeFails(g, connection, created) =>
      if g != s.generation || s.state.connection != Some(connection) then s
      else Connected(s.(failures := 0), Resume, created)
    case HostChanges(ready) =>
      if s.hostListener.Some? then s.(state := s.state.(maintenance := !ready)) else s
  }

  function Run(s: Store, events: seq<Event>): Store
    decreases |events|
  {
    if events == [] then s else Run(Step(s, events[0]), events[1..])
  }

  // ---------- The invariant ----------

  function Doubled(n: nat): nat { if n == 0 then 1 else 2 * Doubled(n - 1) }

  /** Milliseconds to wait after `n` failures in a row and one more: doubled each time from one
      second on, and at most thirty. */
  function Delay(n: nat): nat {
    var delay := 1_000 * Doubled(n);
    if delay > 30_000 then 30_000 else delay
  }

  /** The current generation has an attempt that is still suspended. */
  predicate Live(s: Store) {
    s.generation in s.attempts && !s.attempts[s.generation].phase.Finished?
  }

  /** What drives the store on: a live attempt, an armed timer, or nothing. */
  predicate OneDriver(s: Store) {
    match s.state.status
    case Connecting => Live(s) && s.timer.None?
    case Reconnecting => Live(s) != s.timer.Some?
    case _ => !Live(s) && s.timer.None?
  }

  /** Attempts are of past generations or the current one, and no socket is left open
      behind the current one. */
  predicate Sound(s: Store) {
    && (forall g :: g in s.attempts ==> g <= s.generation)
    && (forall g :: g in s.attempts && s.attempts[g].mode.Resume? ==> s.attempts[g].saved.Some?)
    && (forall g :: g in s.open ==> g == s.generation && s.socket == Some(g))
    && (s.state.connection.Some? ==> s.state.connection.value == s.generation)
  }

  predicate Inv(s: Store) {
    && Sound(s) && OneDriver(s)
    && (s.timer.Some? ==> s.timer.value == s.generation)
    && s.state.connection == (if s.state.status == Ready then Some(s.generation) else None)
    && s.hostListener == s.state.connection
    && (s.state.status == Ready ==> s.generation in s.attempts && s.failures == 0)
    && s.state.retryIn == (if s.timer.Some? && s.failures > 0 then Some(Delay(s.failures - 1)) else None)
    && (s.timer.Some? ==> s.failures > 0)
    && (s.disposed ==> s.state.status == Idle || s.state.status == Revoked)
    && (s.socket.Some? ==> s.socket.value == s.generation && s.state.status in {Connecting, Reconnecting, Ready})
    && (Live(s) || s.state.status == Ready ==> s.socket.Some?)
  }

  /** No driver and nothing open: what an operation leaves before it sets up the next. */
  predicate Quiet(s: Store) {
    Sound(s) && s.timer.None? && s.hostListener.None? && s.socket.None? && s.open == {} && !Live(s)
  }

  /** The table of delays holds the doubled ones. */
  lemma ScheduledWaits(s: Store, error: ConnectionError)
    ensures Scheduled(s, error).state.retryIn == Some(Delay(s.failures))
  {
    DoubledGrows(s.failures);
    assert Doubled(1) == 2 && Doubled(2) == 4 && Doubled(3) == 8;
    assert Doubled(4) == 2 * Doubled(3) && Doubled(5) == 2 * Doubled(4);
  }

  lemma {:induction false} DoubledGrows(n: nat)
    ensures n >= 5 ==> Doubled(n) >= 32
  {
    if n == 5 {
      assert Doubled(2) == 4;
      assert Doubled(5) == 2 * Doubled(4) == 4 * Doubled(3) == 8 * Doubled(2);
    } else if n > 5 {
      DoubledGrows(n - 1);
    }
  }

  lemma TeardownIsQuiet(s: Store)
    requires Sound(s)
    ensures var t := TornDown(s.(generation := s.generation + 1));
            Quiet(t.(state := t.state.(connection := None)))
  {
  }

  lemma RevokeKeeps(s: Store, reason: Reason, error: Option<ConnectionError>)
    requires Sound(s)
    ensures Inv(RevokedFor(s, reason, error))
  {
    hide ClearHostToken, ActiveHost;
    TeardownIsQuiet(s);
  }

  lemma FailKeeps(s: Store, mode: Mode, error: ConnectionError)
    requires Quiet(s) && !s.disposed && s.state.connection.None?
    ensures Inv(FailedWith(s, mode, error))
  {
    hide RevokedFor, Delay;
    RevokeKeeps(s, ByRevocation, Some(error));
    RevokeKeeps(s, ByCredential, Some(error));
    ScheduledWaits(s, error);
  }

  lemma ConnectKeeps(s: Store, mode: Mode, created: bool)
    requires Sound(s) && (s.disposed ==> Inv(s))
    ensures Inv(Connected(s, mode, created))
  {
    hide FailedWith, ActiveHost;
    TeardownIsQuiet(s);
    if !s.disposed {
      var t := TornDown(s.(generation := s.generation + 1));
      var wasConnected := s.state.connection.Some? || s.state.status == Reconnecting;
      var u := t.(state := t.state.(status := if wasConnected && mode.Resume? then Reconnecting else Connecting,
                                    connection := None, error := None, retryIn := None,
                                    revokedReason := if mode.Pair? then None else t.state.revokedReason));
      FailKeeps(u, mode, ConnectionError(None, None));
    }
  }

  lemma DropKeeps(s: Store, g: nat, code: Option<int>, created: bool)
    requires Inv(s) && s.state.status == Ready
    ensures Inv(Dropped(s, g, code, created))
  {
    hide Connected, RevokedFor, Delay;
    var t := s.(hostListener := None);
    RevokeKeeps(t, ByRevocation, Some(ConnectionError(None, code)));
    ConnectKeeps(t.(state := t.state.(connection := None)), Resume, created);
    ScheduledWaits(t.(state := t.state.(connection := None)), ConnectionError(None, code));
  }

  lemma DisconnectKeeps(s: Store)
    requires Sound(s)
    ensures Inv(Disconnected(s))
  {
    TeardownIsQuiet(s);
  }

  lemma AbandonKeeps(s: Store, g: nat, kind: Option<ErrorKind>)
    requires Inv(s) && g == s.generation && Live(s)
    ensures Inv(Abandoned(s, g, kind))
  {
    hide FailedWith;
    var t := Moved(s, g, Finished).(open := s.open - {g}, socket := None);
    if s.timer.None? && !s.disposed && s.state.connection.None? {
      FailKeeps(t, s.attempts[g].mode, ConnectionError(kind, s.attempts[g].closeCode));
    }
  }

  lemma ResumeAttemptKeeps(s: Store, g: nat, r: Settled)
    requires Inv(s) && g in s.attempts && Awaits(s.attempts[g].phase, r)
    ensures Inv(Resumed(s, g, r))
  {
    hide Abandoned, SaveHost, Delay;
    if g == s.generation {
      AbandonKeeps(s, g, None);
      if r.Rejected? { AbandonKeeps(s, g, r.kind); }
    }
  }

  lemma CloseKeeps(s: Store, g: nat, code: Option<int>, created: bool)
    requires Inv(s) && g in s.attempts
    ensures Inv(Step(s, SocketCloses(g, code, created)))
  {
    hide Dropped, Delay;
    var t := s.(attempts := s.attempts[g := s.attempts[g].(closeCode := code)], open := s.open - {g});
    assert Inv(t);
    if t.state.status == Ready { DropKeeps(t, g, code, created); }
  }

  lemma StepKeeps(s: Store, e: Event)
    requires Inv(s)
    ensures Inv(Step(s, e))
  {
    hide Delay, Connected, RevokedFor, Dropped, Disconnected, Resumed, RemoveHost;
    match e
    case StartCalled(created) => ConnectKeeps(s, Resume, created);
    case PairCalled(url, name, created) => ConnectKeeps(s, Pair(url, name), created);
    case ResumeCalled(created) => ConnectKeeps(s, Resume, created);
    case DisconnectCalled => DisconnectKeeps(s);
    case ForgetCalled => ForgetKeeps(s);
    case DisposeCalled => DisposeKeeps(s);
    case ErrorReported(kind) =>
      RevokeKeeps(s, ByRevocation, None);
      RevokeKeeps(s, ByCredential, None);
    case TimerFires(g, created) => ConnectKeeps(s.(timer := None), Resume, created);
    case SocketCloses(g, code, created) =>
      if g in s.attempts { CloseKeeps(s, g, code, created); }
    case AwaitSettles(g, r) =>
      if g in s.attempts && Awaits(s.attempts[g].phase, r) { ResumeAttemptKeeps(s, g, r); }
    case Wakes(visible, created) => ConnectKeeps(s.(failures := 0), Resume, created);
    case ProbeFails(g, connection, created) => ConnectKeeps(s.(failures := 0), Resume, created);
    case HostChanges(ready) =>
  }

  lemma ForgetKeeps(s: Store)
    requires Inv(s)
    ensures Inv(Forgotten(s))
  {
    hide Disconnected, RemoveHost;
    DisconnectKeeps(s);
  }

  lemma DisposeKeeps(s: Store)
    requires Inv(s)
    ensures Inv(Disconnected(s.(disposed := true)))
  {
    DisconnectKeeps(s.(disposed := true));
  }

  /** A new store shows the active saved host and is at rest. */
  lemma InitialHolds(storage: Storage)
    ensures Inv(Initial(storage))
    ensures var s := Initial(storage);
            s.state == State(Idle, ActiveHost(s.storage), None, false, None, None, None) && s.storage == storage
            && s.failures == 0 && !s.disposed
  {
  }

  /** At every step boundary of every run: connecting has one live attempt of the current
      generation, reconnecting has that or a timer of the current generation and not both,
      every other status has neither, and the connection exists exactly in ready and
      carries the generation. */
  lemma {:induction false} OneDriverOverEveryRun(s: Store, events: seq<Event>)
    requires Inv(s)
    ensures Inv(Run(s, events))
    decreases |events|
  {
    hide Step;
    if events != [] {
      StepKeeps(s, events[0]);
      OneDriverOverEveryRun(Step(s, events[0]), events[1..]);
    }
  }

  // ---------- Superseded attempts ----------

  /** The event comes from attempt `g`, its socket, its timer or a probe made under it. */
  predicate ComesFrom(e: Event, g: nat) {
    match e
    case TimerFires(h, _) => h == g
    case SocketCloses(h, _, _) => h == g
    case AwaitSettles(h, _) => h == g
    case ProbeFails(h, _, _) => h == g
    case _ => false
  }

  /** Equal but for the bookkeeping of attempt `g` itself. */
  ghost predicate SameBut(s: Store, t: Store, g: nat) {
    && s.(attempts := map[]) == t.(attempts := map[])
    && s.attempts - {g} == t.attempts - {g}
  }

  /** Whatever point a superseded attempt had reached and however its await settles, the
      store, its state and the saved hosts stay as they are. */
  lemma SupersededIsInert(s: Store, e: Event, g: nat)
    requires Inv(s) && g < s.generation && ComesFrom(e, g)
    ensures SameBut(Step(s, e), s, g)
  {
    hide Connected, Disconnected, Forgotten, Dropped, Abandoned, RevokedFor, Delay, ActiveHost, SaveHost, OneDriver;
    assert g !in s.open;
    assert s.open - {g} == s.open;
  }

  /** A superseded attempt ends where it resumes next, and closes a socket it authenticated; only
      a description that arrives is taken without looking, and the next answer ends it then. */
  lemma SupersededEnds(s: Store, g: nat, r: Settled)
    requires g in s.attempts && g != s.generation && Awaits(s.attempts[g].phase, r)
    ensures var t := Step(s, AwaitSettles(g, r));
            && t.attempts[g].phase == (if r.Described? then Observing(s.attempts[g].phase.host) else Finished)
            && t.open == if r.Authenticated? || r.Observed? then s.open - {g} else s.open
  {
  }

  /** Steps of others do not look at a superseded attempt. */
  lemma OthersDoNotLook(s: Store, t: Store, e: Event, g: nat)
    requires SameBut(s, t, g) && g < s.generation && !ComesFrom(e, g)
    ensures SameBut(Step(s, e), Step(t, e), g)
    ensures Step(s, e).generation >= s.generation
  {
    hide Connected, Disconnected, Forgotten, Dropped, Resumed, RevokedFor;
    AgreeOn(s, t, g);
    match e
    case StartCalled(created) => ConnectDoesNotLook(s, t, g, Resume, created);
    case PairCalled(url, name, created) => ConnectDoesNotLook(s, t, g, Pair(url, name), created);
    case ResumeCalled(created) => ConnectDoesNotLook(s, t, g, Resume, created);
    case DisconnectCalled => DisconnectDoesNotLook(s, t, g);
    case ForgetCalled => ForgetDoesNotLook(s, t, g);
    case DisposeCalled => DisconnectDoesNotLook(s.(disposed := true), t.(disposed := true), g);
    case ErrorReported(_) =>
      RevokeDoesNotLook(s, t, g, ByRevocation, None);
      RevokeDoesNotLook(s, t, g, ByCredential, None);
    case TimerFires(h, created) => ConnectDoesNotLook(s.(timer := None), t.(timer := None), g, Resume, created);
    case SocketCloses(h, code, created) => CloseDoesNotLook(s, t, g, h, code, created);
    case AwaitSettles(h, r) => SettleDoesNotLook(s, t, g, h, r);
    case Wakes(_, created) => ConnectDoesNotLook(s.(failures := 0), t.(failures := 0), g, Resume, created);
    case ProbeFails(_, _, created) => ConnectDoesNotLook(s.(failures := 0), t.(failures := 0), g, Resume, created);
    case HostChanges(_) =>
  }

  lemma DisconnectDoesNotLook(s: Store, t: Store, g: nat)
    requires SameBut(s, t, g)
    ensures SameBut(Disconnected(s), Disconnected(t), g)
    ensures Disconnected(s).generation == s.generation + 1
  {
    AgreeOn(s, t, g);
  }

  lemma ForgetDoesNotLook(s: Store, t: Store, g: nat)
    requires SameBut(s, t, g)
    ensures SameBut(Forgotten(s), Forgotten(t), g)
    ensures Forgotten(s).generation == s.generation + 1
  {
    hide Disconnected, RemoveHost;
    DisconnectDoesNotLook(s, t, g);
    AgreeOn(s, t, g);
    AgreeOn(Disconnected(s), Disconnected(t), g);
  }

  lemma AgreeOn(s: Store, t: Store, g: nat)
    requires SameBut(s, t, g)
    ensures s.state == t.state && s.generation == t.generation && s.failures == t.failures && s.timer == t.timer
    ensures s.socket == t.socket && s.hostListener == t.hostListener && s.disposed == t.disposed
    ensures s.storage == t.storage && s.open == t.open
    ensures forall h :: h != g ==>
            (h in s.attempts <==> h in t.attempts) && (h in s.attempts ==> s.attempts[h] == t.attempts[h])
    ensures t == s.(attempts := t.attempts)
  {
    var u, v := s.(attempts := map[]), t.(attempts := map[]);
    assert u.state == v.state && u.generation == v.generation && u.failures == v.failures && u.timer == v.timer;
    assert u.socket == v.socket && u.hostListener == v.hostListener && u.disposed == v.disposed;
    assert u.storage == v.storage && u.open == v.open;
    forall h | h != g
      ensures (h in s.attempts <==> h in t.attempts) && (h in s.attempts ==> s.attempts[h] == t.attempts[h]) {
      assert h in s.attempts <==> h in s.attempts - {g};
      assert h in t.attempts <==> h in t.attempts - {g};
      assert h in s.attempts ==> (s.attempts - {g})[h] == s.attempts[h];
      assert h in t.attempts ==> (t.attempts - {g})[h] == t.attempts[h];
    }
  }

  lemma RevokeDoesNotLook(s: Store, t: Store, g: nat, reason: Reason, error: Option<ConnectionError>)
    requires SameBut(s, t, g)
    ensures SameBut(RevokedFor(s, reason, error), RevokedFor(t, reason, error), g)
    ensures RevokedFor(s, reason, error).generation == s.generation + 1
  {
    hide ClearHostToken, ActiveHost;
    AgreeOn(s, t, g);
  }

  lemma ScheduledDoesNotLook(s: Store, t: Store, g: nat, error: ConnectionError)
    requires SameBut(s, t, g)
    ensures SameBut(Scheduled(s, error), Scheduled(t, error), g)
  {
    AgreeOn(s, t, g);
  }

  lemma WithFields(s: Store, t: Store, g: nat, open: set<nat>, storage: Storage, hostListener: Option<nat>,
                   failures: nat, state: State)
    requires SameBut(s, t, g)
    ensures SameBut(
              s.(open := open, storage := storage, hostListener := hostListener, failures := failures, state := state),
              t.(open := open, storage := storage, hostListener := hostListener, failures := failures, state := state),
              g)
  {
    AgreeOn(s, t, g);
  }

  lemma FailDoesNotLook(s: Store, t: Store, g: nat, mode: Mode, error: ConnectionError)
    requires SameBut(s, t, g)
    ensures SameBut(FailedWith(s, mode, error), FailedWith(t, mode, error), g)
    ensures FailedWith(s, mode, error).generation >= s.generation
  {
    hide RevokedFor, SameBut;
    AgreeOn(s, t, g);
    ScheduledDoesNotLook(s, t, g, error);
    var failed := s.state.(status := Failed, connection := None, error := Some(error), retryIn := None);
    WithFields(s, t, g, s.open, s.storage, s.hostListener, s.failures, failed);
    RevokeDoesNotLook(s, t, g, ByRevocation, Some(error));
    RevokeDoesNotLook(s, t, g, ByCredential, Some(error));
  }

  lemma TearingDownDoesNotLook(s: Store, t: Store, g: nat)
    requires SameBut(s, t, g)
    ensures SameBut(TornDown(s.(generation := s.generation + 1)), TornDown(t.(generation := t.generation + 1)), g)
    ensures TornDown(s.(generation := s.generation + 1)).generation == s.generation + 1
  {
    AgreeOn(s, t, g);
  }

  /** The state before the socket is created. */
  function Prepared(s: Store, mode: Mode): Store {
    var t := TornDown(s.(generation := s.generation + 1));
    var wasConnected := s.state.connection.Some? || s.state.status == Reconnecting;
    t.(state := t.state.(status := if wasConnected && mode.Resume? then Reconnecting else Connecting,
                         connection := None, error := None, retryIn := None,
                         revokedReason := if mode.Pair? then None else t.state.revokedReason))
  }

  lemma PreparingDoesNotLook(s: Store, t: Store, g: nat, mode: Mode)
    requires SameBut(s, t, g)
    ensures SameBut(Prepared(s, mode), Prepared(t, mode), g) && Prepared(s, mode).generation == s.generation + 1
  {
    hide TornDown;
    AgreeOn(s, t, g);
    TearingDownDoesNotLook(s, t, g);
    var a, b := TornDown(s.(generation := s.generation + 1)), TornDown(t.(generation := t.generation + 1));
    AgreeOn(a, b, g);
    WithFields(a, b, g, a.open, a.storage, a.hostListener, a.failures, Prepared(s, mode).state);
  }

  lemma CreatingDoesNotLook(s: Store, t: Store, g: nat, attempt: Attempt)
    requires SameBut(s, t, g) && s.generation != g
    ensures SameBut(s.(socket := Some(s.generation), open := s.open + {s.generation},
                       attempts := s.attempts[s.generation := attempt]),
                    t.(socket := Some(t.generation), open := t.open + {t.generation},
                       attempts := t.attempts[t.generation := attempt]), g)
  {
    AgreeOn(s, t, g);
    assert s.attempts[s.generation := attempt] - {g} == t.attempts[s.generation := attempt] - {g};
  }

  lemma ConnectedIs(s: Store, mode: Mode, created: bool)
    requires !s.disposed
    ensures var saved, u := if mode.Resume? then ActiveHost(s.storage) else None, Prepared(s, mode);
            Connected(s, mode, created) ==
              if mode.Resume? && (saved.None? || saved.value.token == "") then
                var t := TornDown(s.(generation := s.generation + 1));
                t.(state := t.state.(status := Idle, host := saved, connection := None, retryIn := None))
              else if created then
                u.(socket := Some(u.generation), open := u.open + {u.generation},
                   attempts := u.attempts[u.generation := Attempt(mode, saved, Opening, None)])
              else FailedWith(u, mode, ConnectionError(None, None))
  {
    hide FailedWith, ActiveHost;
  }

  lemma ConnectDoesNotLook(s: Store, t: Store, g: nat, mode: Mode, created: bool)
    requires SameBut(s, t, g) && g <= s.generation
    ensures SameBut(Connected(s, mode, created), Connected(t, mode, created), g)
    ensures Connected(s, mode, created).generation >= s.generation
  {
    AgreeOn(s, t, g);
    if !s.disposed {
      ConnectedIs(s, mode, created);
      ConnectedIs(t, mode, created);
      hide FailedWith, ActiveHost, TornDown, Prepared, Connected, SameBut;
      var saved, u, v := if mode.Resume? then ActiveHost(s.storage) else None, Prepared(s, mode), Prepared(t, mode);
      PreparingDoesNotLook(s, t, g, mode);
      if mode.Resume? && (saved.None? || saved.value.token == "") {
        var a, b := TornDown(s.(generation := s.generation + 1)), TornDown(t.(generation := t.generation + 1));
        TearingDownDoesNotLook(s, t, g);
        AgreeOn(a, b, g);
        WithFields(a, b, g, a.open, a.storage, a.hostListener, a.failures,
                   a.state.(status := Idle, host := saved, connection := None, retryIn := None));
      } else if created {
        CreatingDoesNotLook(u, v, g, Attempt(mode, saved, Opening, None));
      } else {
        FailDoesNotLook(u, v, g, mode, ConnectionError(None, None));
      }
    }
  }

  lemma CloseDoesNotLook(s: Store, t: Store, g: nat, h: nat, code: Option<int>, created: bool)
    requires SameBut(s, t, g) && g < s.generation && h != g
    ensures SameBut(Step(s, SocketCloses(h, code, created)), Step(t, SocketCloses(h, code, created)), g)
    ensures Step(s, SocketCloses(h, code, created)).generation >= s.generation
  {
    hide Connected, RevokedFor;
    AgreeOn(s, t, g);
    if h in s.attempts {
      var a := s.(attempts := s.attempts[h := s.attempts[h].(closeCode := code)], open := s.open - {h});
      var b := t.(attempts := t.attempts[h := t.attempts[h].(closeCode := code)], open := t.open - {h});
      assert SameBut(a, b, g);
      var x, y := a.(hostListener := None), b.(hostListener := None);
      RevokeDoesNotLook(x, y, g, ByRevocation, Some(ConnectionError(None, code)));
      ConnectDoesNotLook(x.(state := x.state.(connection := None)), y.(state := y.state.(connection := None)), g,
        Resume, created);
    }
  }

  lemma SettleDoesNotLook(s: Store, t: Store, g: nat, h: nat, r: Settled)
    requires SameBut(s, t, g) && g < s.generation && h != g
    ensures SameBut(Step(s, AwaitSettles(h, r)), Step(t, AwaitSettles(h, r)), g)
    ensures Step(s, AwaitSettles(h, r)).generation >= s.generation
  {
    hide Resumed, SameBut;
    AgreeOn(s, t, g);
    if h in s.attempts && Awaits(s.attempts[h].phase, r) { ResumedDoesNotLook(s, t, g, h, r); }
  }

  lemma ResumedDoesNotLook(s: Store, t: Store, g: nat, h: nat, r: Settled)
    requires SameBut(s, t, g) && h != g && h in s.attempts && Awaits(s.attempts[h].phase, r)
    requires h in t.attempts && s.attempts[h] == t.attempts[h]
    ensures SameBut(Resumed(s, h, r), Resumed(t, h, r), g)
    ensures Resumed(s, h, r).generation >= s.generation
  {
    hide Abandoned, SaveHost, Moved, SameBut;
    AgreeOn(s, t, g);
    forall phase
      ensures SameBut(Moved(s, h, phase), Moved(t, h, phase), g)
      ensures Moved(s, h, phase) == s.(attempts := Moved(s, h, phase).attempts)
    {
      MovedDoesNotLook(s, t, g, h, phase);
    }
    var x, y := Moved(s, h, Finished), Moved(t, h, Finished);
    MovedDoesNotLook(s, t, g, h, Finished);
    AgreeOn(x, y, g);
    var a := s.attempts[h];
    match r
    case Opened =>
    case Described =>
    case Authenticated(hostId, deviceId, token, now) =>
      WithFields(x, y, g, s.open - {h}, x.storage, x.hostListener, x.failures, x.state);
      if a.mode.Pair? {
        var host := SavedHost(hostId, deviceId, a.mode.url, token, a.mode.name, now);
        var u, v := Moved(s, h, Describing(host)), Moved(t, h, Describing(host));
        AgreeOn(u, v, g);
        WithFields(u, v, g, u.open, SaveHost(host), u.hostListener, u.failures, u.state);
      }
    case Observed(valid, maintenance) =>
      AbandonedDoesNotLook(s, t, g, h, None);
      WithFields(x, y, g, s.open - {h}, x.storage, x.hostListener, x.failures, x.state);
      WithFields(x, y, g, x.open, x.storage, Some(h), 0,
                 s.state.(status := Ready, host := Some(a.phase.host), connection := Some(h), error := None,
                          revokedReason := None, retryIn := None, maintenance := maintenance));
    case Rejected(kind) => AbandonedDoesNotLook(s, t, g, h, kind);
  }

  lemma MovedDoesNotLook(s: Store, t: Store, g: nat, h: nat, phase: Phase)
    requires SameBut(s, t, g) && h != g && h in s.attempts && h in t.attempts && s.attempts[h] == t.attempts[h]
    ensures SameBut(Moved(s, h, phase), Moved(t, h, phase), g)
    ensures Moved(s, h, phase) == s.(attempts := Moved(s, h, phase).attempts)
  {
    AgreeOn(s, t, g);
    assert s.attempts[h := s.attempts[h].(phase := phase)] - {g} ==
           t.attempts[h := t.attempts[h].(phase := phase)] - {g};
  }

  lemma AbandonedDoesNotLook(s: Store, t: Store, g: nat, h: nat, kind: Option<ErrorKind>)
    requires SameBut(s, t, g) && h != g && h in s.attempts
    requires h in t.attempts && s.attempts[h] == t.attempts[h]
    ensures SameBut(Abandoned(s, h, kind), Abandoned(t, h, kind), g)
    ensures Abandoned(s, h, kind).generation >= s.generation
  {
    hide FailedWith;
    AgreeOn(s, t, g);
    var x := Moved(s, h, Finished).(open := s.open - {h}, socket := None);
    var y := Moved(t, h, Finished).(open := t.open - {h}, socket := None);
    assert s.attempts[h := s.attempts[h].(phase := Finished)] - {g} ==
           t.attempts[h := t.attempts[h].(phase := Finished)] - {g};
    FailDoesNotLook(x, y, g, s.attempts[h].mode, ConnectionError(kind, s.attempts[h].closeCode));
  }

  /** The run without the events that come from attempt `g`. */
  function Without(events: seq<Event>, g: nat): seq<Event> {
    if events == [] then []
    else if ComesFrom(events[0], g) then Without(events[1..], g)
    else [events[0]] + Without(events[1..], g)
  }

  /** Over a whole run, deleting every event of a superseded attempt changes nothing but
      that attempt's own bookkeeping. */
  lemma {:induction false} SupersededIsInertOverRuns(s: Store, t: Store, events: seq<Event>, g: nat)
    requires Inv(s) && SameBut(s, t, g) && g < s.generation
    ensures SameBut(Run(s, events), Run(t, Without(events, g)), g)
    decreases |events|
  {
    hide Step, Inv, SameBut, ComesFrom;
    if events != [] {
      var e, rest := events[0], events[1..];
      StepKeeps(s, e);
      if ComesFrom(e, g) {
        SupersededIsInert(s, e, g);
        SameButIsTransitive(Step(s, e), s, t, g);
        SupersededIsInertOverRuns(Step(s, e), t, rest, g);
      } else {
        OthersDoNotLook(s, t, e, g);
        SupersededIsInertOverRuns(Step(s, e), Step(t, e), rest, g);
        assert ([e] + Without(rest, g))[1..] == Without(rest, g);
      }
    }
  }

  lemma SameButIsTransitive(s: Store, t: Store, u: Store, g: nat)
    requires SameBut(s, t, g) && SameBut(t, u, g)
    ensures SameBut(s, u, g) && s.generation == t.generation
  {
    AgreeOn(s, t, g);
  }

  // ---------- Disconnecting ----------

  /** Something other than a call of the user or of a page. */
  predicate FromOutside(e: Event) {
    e.TimerFires? || e.SocketCloses? || e.AwaitSettles? || e.Wakes? || e.ProbeFails? || e.HostChanges?
  }

  predicate AtRest(s: Store) {
    s.state.status == Idle || s.state.status == Revoked || s.state.status == Failed
  }

  lemma RestIsKept(s: Store, e: Event)
    requires Inv(s) && AtRest(s) && FromOutside(e)
    ensures Step(s, e).state == s.state && Step(s, e).storage == s.storage
  {
  }

  /** After disconnecting, failing for good or being revoked, no timer, late reply, probe or
      return to the foreground connects again or changes anything a subscriber sees. */
  lemma {:induction false} NothingReconnects(s: Store, events: seq<Event>)
    requires Inv(s) && AtRest(s) && forall e :: e in events ==> FromOutside(e)
    ensures Run(s, events).state == s.state && Run(s, events).storage == s.storage
    decreases |events|
  {
    hide Step, Inv;
    if events != [] {
      StepKeeps(s, events[0]);
      RestIsKept(s, events[0]);
      NothingReconnects(Step(s, events[0]), events[1..]);
    }
  }

  // ---------- Failing, dropping, waiting ----------

  /** The failure of an attempt: a rejected await or an answer that is none. */
  predicate IsFailure(r: Settled) { r.Rejected? || (r.Observed? && !r.valid) }

  function FailureOf(a: Attempt, r: Settled): ConnectionError
    requires IsFailure(r)
  {
    ConnectionError(if r.Rejected? then r.kind else None, a.closeCode)
  }

  predicate IsRevocation(error: ConnectionError) { error.kind == Some(RevokedKind) || error.closeCode == Some(4003) }

  predicate IsTerminal(error: ConnectionError) {
    error.kind == Some(Forbidden) || error.kind == Some(IncompatibleProtocol)
  }

  /** How a current attempt's failure ends: in revocation when the Host says so or a saved token
      is refused, for good when pairing or when retrying cannot help, and otherwise with a timer
      for the next attempt, after one more failure in a row. */
  lemma FailureOutcome(s: Store, r: Settled)
    requires Inv(s) && Live(s) && IsFailure(r) && Awaits(s.attempts[s.generation].phase, r)
    ensures var g := s.generation;
            var a, t, error := s.attempts[g], Step(s, AwaitSettles(g, r)), FailureOf(s.attempts[g], r);
            var refused := a.mode.Resume? && error.kind == Some(Unauthenticated);
            && Inv(t) && t.open == {} && t.attempts.Keys == s.attempts.Keys && t.disposed == s.disposed
            && (t.state.status == Revoked <==> IsRevocation(error) || refused)
            && (t.state.status == Failed <==> !IsRevocation(error) && (a.mode.Pair? || IsTerminal(error)))
            && (t.state.status == Reconnecting <==>
                  !IsRevocation(error) && !refused && !a.mode.Pair? && !IsTerminal(error))
            && t.state.error == Some(error)
            && (t.state.status == Revoked ==>
                  t.state.revokedReason == Some(if IsRevocation(error) then ByRevocation else ByCredential))
            && (t.state.status == Reconnecting ==>
                  t.timer == Some(g) && t.generation == g && t.failures == s.failures + 1 && t.storage == s.storage
                  && t.state.retryIn == Some(Delay(s.failures)))
  {
    StepKeeps(s, AwaitSettles(s.generation, r));
    hide Inv, ClearHostToken, ActiveHost, Delay;
    FailureKeepsAttempts(s, r);
    AbandonedNothingOpen(s, r);
  }

  lemma FailureKeepsAttempts(s: Store, r: Settled)
    requires Live(s) && IsFailure(r) && Awaits(s.attempts[s.generation].phase, r)
    ensures Step(s, AwaitSettles(s.generation, r)).attempts.Keys == s.attempts.Keys
  {
    hide Resumed;
    ResumedKeepsAttempts(s, s.generation, r);
  }

  lemma AbandonedNothingOpen(s: Store, r: Settled)
    requires Inv(s) && Live(s) && IsFailure(r) && Awaits(s.attempts[s.generation].phase, r)
    ensures Step(s, AwaitSettles(s.generation, r)).open == {}
  {
    hide ClearHostToken, ActiveHost, Delay, ReadSaved;
    assert s.open - {s.generation} == {};
  }

  predicate HasSavedToken(s: Store) { ActiveHost(s.storage).Some? && ActiveHost(s.storage).value.token != "" }

  /** How the loss of a ready connection ends, by the close code, whether a token is saved and
      whether a socket can be created. Asked to resynchronise, a store with a token connects at
      once and shows that as connecting, not as reconnecting; one without ends idle. */
  lemma DropOutcome(s: Store, code: Option<int>, created: bool)
    requires Inv(s) && s.state.status == Ready
    ensures var t, resync := Step(s, SocketCloses(s.generation, code, created)), code == Some(4008);
            && Inv(t)
            && (t.state.status == Revoked <==> code == Some(4003))
            && (t.state.status == Idle <==> resync && !HasSavedToken(s))
            && (t.state.status == Connecting <==> resync && HasSavedToken(s) && created)
            && (t.state.status == Reconnecting <==> code != Some(4003) && (resync ==> HasSavedToken(s) && !created))
            && (t.state.status == Reconnecting ==> t.timer == Some(t.generation))
            && (t.state.status == Connecting ==> Live(t) && t.generation == s.generation + 1)
            && (t.state.status == Revoked ==>
                  t.state.revokedReason == Some(ByRevocation) && t.state.error == Some(ConnectionError(None, code)))
  {
    StepKeeps(s, SocketCloses(s.generation, code, created));
    hide ClearHostToken, ActiveHost, Delay;
  }

  /** A close before an attempt is done is no drop, but its code decides how the attempt's
      failure ends. */
  lemma CloseDecidesFailure(s: Store, code: Option<int>, any: bool, r: Settled)
    requires Inv(s) && Live(s) && IsFailure(r) && Awaits(s.attempts[s.generation].phase, r)
    ensures var g := s.generation;
            var t := Step(s, SocketCloses(g, code, any));
            && t.state == s.state && t.timer == s.timer && t.storage == s.storage
            && (code == Some(4003) ==> Step(t, AwaitSettles(g, r)).state.status == Revoked)
            && (code != Some(4003) && s.attempts[g].mode.Resume? && r == Rejected(None) ==>
                  Step(t, AwaitSettles(g, r)).state.status == Reconnecting)
  {
    hide ClearHostToken, ActiveHost, Delay;
    var t := Step(s, SocketCloses(s.generation, code, any));
    StepKeeps(s, SocketCloses(s.generation, code, any));
    FailureOutcome(t, r);
  }

  /** What callers report: maintenance is only noted, a refused credential revokes, with its
      reason, and any other error changes nothing. */
  lemma ReportedErrorOutcome(s: Store, kind: ErrorKind)
    requires Inv(s)
    ensures var t := Step(s, ErrorReported(kind));
            && Inv(t)
            && (kind == RevokedKind || kind == Unauthenticated ==>
                  && t.state.status == Revoked && t.state.error.None? && !t.state.maintenance && t.open == {}
                  && t.state.revokedReason == Some(if kind == RevokedKind then ByRevocation else ByCredential))
            && (kind == Maintenance || kind == RecoveryBlocked ==> t == s.(state := s.state.(maintenance := true)))
            && (kind == Forbidden || kind == IncompatibleProtocol || kind == OtherKind ==> t == s)
  {
    StepKeeps(s, ErrorReported(kind));
    hide ClearHostToken, ActiveHost;
  }

  /** The host's own notice is shown by a ready store, and by no other. */
  lemma HostNoticeIsShown(s: Store, ready: bool)
    requires Inv(s)
    ensures Step(s, HostChanges(ready)) ==
            if s.state.status == Ready then s.(state := s.state.(maintenance := !ready)) else s
  {
  }

  /** Disconnecting ends idle, and so it stays: only the saved hosts and the host on display
      outlast it. */
  lemma DisconnectedStaysIdle(s: Store, events: seq<Event>)
    requires Inv(s) && forall e :: e in events ==> FromOutside(e)
    ensures var t := Run(Step(s, DisconnectCalled), events);
            && t.state == State(Idle, s.state.host, None, false, None, s.state.revokedReason, None)
            && t.storage == s.storage
  {
    StepKeeps(s, DisconnectCalled);
    hide Run, Inv;
    NothingReconnects(Step(s, DisconnectCalled), events);
  }

  predicate Done(s: Store) { s.disposed && AtRest(s) && s.open == {} && s.timer.None? }

  lemma DisposedDoesNothing(s: Store, e: Event)
    requires Inv(s) && Done(s)
    ensures Done(Step(s, e)) && Step(s, e).attempts.Keys == s.attempts.Keys
  {
    hide ClearHostToken, ActiveHost, RemoveHost, FailedWith, Delay;
  }

  /** After `dispose` no event whatsoever opens a socket, arms a timer or starts an attempt. */
  lemma {:induction false} DisposedIsFinal(s: Store, events: seq<Event>)
    requires Inv(s) && Done(s)
    ensures Done(Run(s, events)) && Run(s, events).attempts.Keys == s.attempts.Keys
    decreases |events|
  {
    hide Step, Inv, Done;
    if events != [] {
      StepKeeps(s, events[0]);
      DisposedDoesNothing(s, events[0]);
      DisposedIsFinal(Step(s, events[0]), events[1..]);
    }
  }

  lemma DisposingIsDone(s: Store)
    requires Inv(s)
    ensures Done(Step(s, DisposeCalled)) && Step(s, DisposeCalled).storage == s.storage
  {
    StepKeeps(s, DisposeCalled);
  }

  /** Saved hosts change in three ways only: a pairing is accepted, the host is forgotten, or
      the store ends up revoked. */
  lemma SavedHostsChangeOnlySo(s: Store, e: Event)
    requires Inv(s) && Step(s, e).storage != s.storage
    ensures || e.ForgetCalled? || Step(s, e).state.status == Revoked
            || (e.AwaitSettles? && e.r.Authenticated? && e.g in s.attempts && s.attempts[e.g].mode.Pair?
              && e.g == s.generation)
  {
    hide ClearHostToken, ActiveHost, RemoveHost, Inv;
  }

  lemma {:induction false} OthersAreTheRest(hosts: seq<SavedHost>, hostId: string, other: string)
    ensures FindHost(Others(hosts, hostId), other) == if other == hostId then None else FindHost(hosts, other)
  {
    if hosts != [] { OthersAreTheRest(hosts[1..], hostId, other); }
  }

  /** Forgetting takes the host on display out of the saved hosts and leaves every other one
      to be found as before. */
  lemma ForgottenHostIsGone(s: Store, other: string)
    requires s.state.host.Some? && s.state.host.value.hostId != "" && ReadSaved(s.storage).Some?
    ensures var kept, gone := Forgotten(s).storage, s.state.host.value.hostId;
            && Forgotten(s).state == State(Idle, None, None, false, None, None, None)
            && (kept.None? <==> Others(s.storage.value.hosts, gone) == [])
            && (kept.Some? ==>
                  && FindHost(kept.value.hosts, other) ==
                       (if other == gone then None else FindHost(s.storage.value.hosts, other))
                  && kept.value.hosts != [] && kept.value.activeHostId == kept.value.hosts[0].hostId)
  {
    OthersAreTheRest(s.storage.value.hosts, s.state.host.value.hostId, other);
  }

  // ---------- Revocation and the saved token ----------

  lemma {:induction false} ClearedHost(hosts: seq<SavedHost>, cleared: string, hostId: string)
    ensures FindHost(ClearTokens(hosts, cleared), hostId) ==
            match FindHost(hosts, hostId)
            case None => None
            case Some(h) => Some(if hostId == cleared then h.(token := "") else h)
  {
    if hosts != [] { ClearedHost(hosts[1..], cleared, hostId); }
  }

  lemma {:induction false} FoundHostHasId(hosts: seq<SavedHost>, hostId: string)
    ensures FindHost(hosts, hostId).Some? ==>
            FindHost(hosts, hostId).value.hostId == hostId && FindHost(hosts, hostId).value in hosts
  {
    if hosts != [] { FoundHostHasId(hosts[1..], hostId); }
  }

  lemma {:induction false} ClearedStaysComplete(hosts: seq<SavedHost>, cleared: string)
    requires forall h :: h in hosts ==> Complete(h)
    ensures forall h :: h in ClearTokens(hosts, cleared) ==> Complete(h)
  {
    if hosts != [] {
      assert hosts[0] in hosts;
      ClearedStaysComplete(hosts[1..], cleared);
    }
  }

  /** A host saved after pairing is found again exactly when no field but its token is empty: a
      pairing under a blank device name, or answered with a blank device id, is forgotten at
      the next read. */
  lemma SavedHostReadsBack(host: SavedHost)
    ensures ActiveHost(SaveHost(host)) == Some(host)
      <==> "" !in [host.hostId, host.deviceId, host.url, host.name, host.pairedAt]
  {
    assert FindHost([host], host.hostId) == Some(host);
    assert host in [host];
  }

  ghost predicate IsFirst(hosts: seq<SavedHost>, hostId: string, host: SavedHost, i: nat) {
    i < |hosts| && hosts[i] == host && host.hostId == hostId && forall j :: 0 <= j < i ==> hosts[j].hostId != hostId
  }

  lemma {:induction false} FoundIsFirst(hosts: seq<SavedHost>, hostId: string, host: SavedHost)
    ensures FindHost(hosts, hostId) == Some(host) <==> exists i: nat :: IsFirst(hosts, hostId, host, i)
  {
    if hosts != [] {
      FoundIsFirst(hosts[1..], hostId, host);
      if i: nat :| IsFirst(hosts[1..], hostId, host, i) {
        if hosts[0].hostId != hostId { assert IsFirst(hosts, hostId, host, i + 1); }
      }
      if i: nat :| IsFirst(hosts, hostId, host, i) {
        if i > 0 { assert IsFirst(hosts[1..], hostId, host, i - 1); }
      }
      if hosts[0].hostId == hostId && hosts[0] == host { assert IsFirst(hosts, hostId, host, 0); }
    }
  }

  /** The active host is the first of its id, provided that no saved host lacks a field. */
  lemma ActiveHostIsFirst(saved: SavedHosts, host: SavedHost)
    ensures ActiveHost(Some(saved)) == Some(host) <==>
            (forall h :: h in saved.hosts ==> Complete(h))
            && exists i: nat :: IsFirst(saved.hosts, saved.activeHostId, host, i)
  {
    FoundIsFirst(saved.hosts, saved.activeHostId, host);
  }

  /** After a revocation subscribers see its reason and what is still saved of the active host. */
  lemma RevocationIsShown(s: Store, reason: Reason, error: Option<ConnectionError>)
    ensures var t := RevokedFor(s, reason, error);
            t.state == State(Revoked, ActiveHost(t.storage), None, false, error, Some(reason), None)
  {
  }

  /** Revocation takes no token from any host but the one on display, and keeps which is active. */
  lemma RevocationKeepsOthers(s: Store, reason: Reason, error: Option<ConnectionError>, other: string)
    requires ReadSaved(s.storage).Some? && (s.state.host.Some? ==> s.state.host.value.hostId != other)
    ensures var after := RevokedFor(s, reason, error).storage;
            && after.Some? && after.value.activeHostId == s.storage.value.activeHostId
            && FindHost(after.value.hosts, other) == FindHost(s.storage.value.hosts, other)
  {
    if s.state.host.Some? { ClearedHost(s.storage.value.hosts, s.state.host.value.hostId, other); }
  }

  /** Revocation leaves the active saved host without a token exactly when the host on
      display is that host, or there was no token to lose. */
  lemma RevocationClearsActiveToken(s: Store, reason: Reason, error: Option<ConnectionError>)
    requires ActiveHost(s.storage).Some?
    ensures ActiveHost(RevokedFor(s, reason, error).storage).Some?
    ensures ActiveHost(RevokedFor(s, reason, error).storage).value.token == "" <==>
            || (s.state.host.Some? && s.state.host.value.hostId == ActiveHost(s.storage).value.hostId)
            || ActiveHost(s.storage).value.token == ""
  {
    var saved := s.storage.value;
    if s.state.host.Some? { ClearedStaysComplete(saved.hosts, s.state.host.value.hostId); }
    FoundHostHasId(saved.hosts, saved.activeHostId);
    if s.state.host.Some? {
      ClearedHost(saved.hosts, s.state.host.value.hostId, saved.activeHostId);
    }
  }

  /** A pairing that fails after its host was saved leaves the old host on display; a
      revocation then clears nothing, and the new token stays. */
  lemma LatePairingKeepsItsToken(earlier: SavedHost, host: SavedHost)
    requires Complete(earlier) && Complete(host) && earlier.hostId != host.hostId && host.token != ""
    ensures var end := Run(Initial(SaveHost(earlier)),
            Pairing(1, host) + [AwaitSettles(1, Rejected(None)), ErrorReported(RevokedKind)]);
            end.state.status == Revoked && ActiveHost(end.storage) == Some(host)
  {
    hide Step;
    var s := Initial(SaveHost(earlier));
    SavedHostReadsBack(earlier);
    PairingSavesHost(s, host);
    var events := Pairing(1, host) + [AwaitSettles(1, Rejected(None)), ErrorReported(RevokedKind)];
    var t := Step(Step(Step(s, events[0]), events[1]), events[2]);
    LateRejectionFails(t, None);
    ReportedRevocation(Step(t, events[3]));
    SavedHostReadsBack(host);
    ClearedHost([host], earlier.hostId, host.hostId);
    ClearedStaysComplete([host], earlier.hostId);
    RunOf(s, events);
  }

  /** The calls and replies by which attempt `g` pairs with a host. */
  function Pairing(g: nat, host: SavedHost): seq<Event> {
    [PairCalled(host.url, host.name, true), AwaitSettles(g, Opened),
     AwaitSettles(g, Authenticated(host.hostId, host.deviceId, host.token, host.pairedAt))]
  }

  lemma ReportedRevocation(s: Store)
    ensures Step(s, ErrorReported(RevokedKind)) == RevokedFor(s, ByRevocation, None)
  {
  }

  /** An accepted pairing has saved its host and goes on to describe it. */
  lemma PairingSavesHost(s: Store, host: SavedHost)
    requires !s.disposed
    ensures var g, events := s.generation + 1, Pairing(s.generation + 1, host);
            var t := Step(Step(Step(s, events[0]), events[1]), events[2]);
            && t.storage == SaveHost(host) && t.state.host == s.state.host && t.generation == g
            && g in t.attempts && t.attempts[g] == Attempt(Pair(host.url, host.name), None, Describing(host), None)
  {
    hide FailedWith, Abandoned, RevokedFor, TornDown;
    var g, mode := s.generation + 1, Pair(host.url, host.name);
    var t := Step(s, PairCalled(host.url, host.name, true));
    TornDownKeeps(s.(generation := g));
    assert t.attempts[g] == Attempt(mode, None, Opening, None) && t.generation == g;
    var u := Step(t, AwaitSettles(g, Opened));
    assert u.attempts[g] == Attempt(mode, None, Authenticating, None);
  }

  lemma TornDownKeeps(s: Store)
    ensures TornDown(s).state == s.state && TornDown(s).generation == s.generation && TornDown(s).attempts == s.attempts
    ensures TornDown(s).disposed == s.disposed && TornDown(s).storage == s.storage && TornDown(s).failures == s.failures
  {
  }

  /** From wherever the store is, a pairing that nothing disturbs ends ready, on display and
      saved alike, under a connection of its own generation. */
  lemma UndisturbedPairingIsReady(s: Store, host: SavedHost, maintenance: bool)
    requires !s.disposed
    ensures var g := s.generation + 1;
            var t := Run(s,
              Pairing(g, host) + [AwaitSettles(g, Described), AwaitSettles(g, Observed(true, maintenance))]);
            && t.state == State(Ready, Some(host), Some(g), maintenance, None, None, None)
            && t.generation == g && t.storage == SaveHost(host) && t.failures == 0
  {
    hide Step;
    var g := s.generation + 1;
    var events := Pairing(g, host) + [AwaitSettles(g, Described), AwaitSettles(g, Observed(true, maintenance))];
    PairingSavesHost(s, host);
    ObservedIsReady(Step(Step(Step(s, events[0]), events[1]), events[2]), g, host, maintenance);
    RunOf(s, events);
  }

  lemma ObservedIsReady(s: Store, g: nat, host: SavedHost, maintenance: bool)
    requires s.generation == g && g in s.attempts && s.attempts[g].phase == Describing(host)
    ensures var t := Step(Step(s, AwaitSettles(g, Described)), AwaitSettles(g, Observed(true, maintenance)));
            && t.state == State(Ready, Some(host), Some(g), maintenance, None, None, None)
            && t.generation == g && t.storage == s.storage && t.failures == 0
  {
    hide FailedWith, Abandoned, RevokedFor;
    var t := Step(s, AwaitSettles(g, Described));
    assert t == Moved(s, g, Observing(host)) && t.attempts[g].phase == Observing(host);
  }

  /** Resuming that nothing disturbs ends ready on the saved host, which stays as it was. */
  lemma UndisturbedResumeIsReady(s: Store, reply: Settled, maintenance: bool)
    requires !s.disposed && HasSavedToken(s) && reply.Authenticated?
    ensures var g := s.generation + 1;
            var t := Run(s,
              Resuming(g, reply) + [AwaitSettles(g, Described), AwaitSettles(g, Observed(true, maintenance))]);
            && t.state == State(Ready, ActiveHost(s.storage), Some(g), maintenance, None, None, None)
            && t.generation == g && t.storage == s.storage && t.failures == 0
  {
    hide Step, ActiveHost;
    var g := s.generation + 1;
    var events := Resuming(g, reply) + [AwaitSettles(g, Described), AwaitSettles(g, Observed(true, maintenance))];
    ResumingDescribes(s, reply);
    ObservedIsReady(Step(Step(Step(s, events[0]), events[1]), events[2]), g, ActiveHost(s.storage).value, maintenance);
    RunOf(s, events);
  }

  function Resuming(g: nat, reply: Settled): seq<Event> {
    [ResumeCalled(true), AwaitSettles(g, Opened), AwaitSettles(g, reply)]
  }

  lemma ResumingDescribes(s: Store, reply: Settled)
    requires !s.disposed && HasSavedToken(s) && reply.Authenticated?
    ensures var g, events := s.generation + 1, Resuming(s.generation + 1, reply);
            var host, t := ActiveHost(s.storage).value, Step(Step(Step(s, events[0]), events[1]), events[2]);
            && t.storage == s.storage && t.generation == g && g in t.attempts
            && t.attempts[g] == Attempt(Resume, Some(host), Describing(host), None)
  {
    hide FailedWith, Abandoned, RevokedFor, TornDown, ActiveHost;
    var g, host := s.generation + 1, ActiveHost(s.storage).value;
    var t := Step(s, ResumeCalled(true));
    TornDownKeeps(s.(generation := g));
    assert t.attempts[g] == Attempt(Resume, Some(host), Opening, None) && t.generation == g;
    var u := Step(t, AwaitSettles(g, Opened));
    assert u.attempts[g] == Attempt(Resume, Some(host), Authenticating, None);
  }

  lemma LateRejectionFails(s: Store, kind: Option<ErrorKind>)
    requires s.generation == 1 && 1 in s.attempts && s.attempts[1].phase.Describing? && s.attempts[1].mode.Pair?
    requires s.attempts[1].closeCode == None && kind != Some(RevokedKind)
    ensures var t := Step(s, AwaitSettles(1, Rejected(kind)));
            t.state.status == Failed && t.storage == s.storage && t.state.host == s.state.host
  {
  }

  lemma RunOf(s: Store, events: seq<Event>)
    requires |events| == 5
    ensures Run(s, events) == Step(Step(Step(Step(Step(s, events[0]), events[1]), events[2]), events[3]), events[4])
  {
    hide Step, Run;
    RunFrom(s, events, 0);
    RunFrom(Step(s, events[0]), events, 1);
    RunFrom(Step(Step(s, events[0]), events[1]), events, 2);
    var t := Step(Step(Step(s, events[0]), events[1]), events[2]);
    RunFrom(t, events, 3);
    RunFrom(Step(t, events[3]), events, 4);
    RunFrom(Step(Step(t, events[3]), events[4]), events, 5);
    assert events[0..] == events;
  }

  lemma RunFrom(s: Store, events: seq<Event>, i: nat)
    requires i <= |events|
    ensures Run(s, events[i..]) == if i == |events| then s else Run(Step(s, events[i]), events[i + 1..])
  {
    hide Step;
    assert i < |events| ==> events[i..][1..] == events[i + 1..];
  }

  // ---------- Connecting again ----------

  /** What makes the store connect to the saved host. */
  predicate Resumes(s: Store, e: Event) {
    match e
    case ResumeCalled(_) => true
    case StartCalled(_) => s.state.status == Idle && s.state.host.Some? && s.state.host.value.token != ""
    case TimerFires(g, _) => s.timer == Some(g)
    case Wakes(visible, _) => visible && s.state.status == Reconnecting
    case ProbeFails(g, connection, _) => g == s.generation && s.state.connection == Some(connection)
    case SocketCloses(g, code, _) => g == s.generation && s.state.status == Ready && code == Some(4008)
    case _ => false
  }

  /** Whether the environment lets the event create a socket. */
  predicate SocketCreated(e: Event) {
    match e
    case StartCalled(created) => created
    case PairCalled(_, _, created) => created
    case ResumeCalled(created) => created
    case TimerFires(_, created) => created
    case SocketCloses(_, _, created) => created
    case Wakes(_, created) => created
    case ProbeFails(_, _, created) => created
    case _ => false
  }

  /** Subscribers see a reconnection where there was a connection or one is being awaited; only
      after a close that asks for it they do not. */
  predicate ShowsReconnecting(s: Store, e: Event) {
    s.state.status == Reconnecting || (s.state.status == Ready && !e.SocketCloses?)
  }

  /** What drove the store before is gone, and a new attempt has the only socket. */
  ghost predicate AttemptStarted(s: Store, t: Store, mode: Mode, saved: Option<SavedHost>) {
    var g := s.generation + 1;
    && t.generation == g && t.storage == s.storage && !t.disposed && t.timer.None? && t.open == {g}
    && (forall h :: h in t.attempts <==> h in s.attempts || h == g)
    && t.attempts[g] == Attempt(mode, saved, Opening, None)
  }

  /** The store at the moment it connects again. */
  function Before(s: Store, e: Event): Store {
    match e
    case TimerFires(_, _) => s.(timer := None)
    case Wakes(_, _) => s.(failures := 0)
    case ProbeFails(_, _, _) => s.(failures := 0)
    case SocketCloses(g, code, _) =>
      if g !in s.attempts then s
      else
        s.(attempts := s.attempts[g := s.attempts[g].(closeCode := code)], open := s.open - {g}, hostListener := None,
           state := s.state.(connection := None))
    case _ => s
  }

  lemma ResumesByConnecting(s: Store, e: Event)
    requires Inv(s) && !s.disposed && Resumes(s, e)
    ensures Step(s, e) == Connected(Before(s, e), Resume, SocketCreated(e))
    ensures Before(s, e).attempts.Keys == s.attempts.Keys
    ensures TornDown(Before(s, e).(generation := s.generation + 1)).open == {}
  {
    hide Connected, RevokedFor, Resumed, Delay;
  }

  /** With a token, resuming starts an attempt on the saved host and shows nothing but that. */
  lemma ResumingStarts(s: Store, e: Event)
    requires Inv(s) && !s.disposed && Resumes(s, e) && HasSavedToken(s) && SocketCreated(e)
    ensures var t := Step(s, e);
            && AttemptStarted(s, t, Resume, ActiveHost(s.storage))
            && t.failures == (if e.Wakes? || e.ProbeFails? then 0 else s.failures)
            && t.state == s.state.(status := if ShowsReconnecting(s, e) then Reconnecting else Connecting,
                                   connection := None, error := None, retryIn := None)
  {
    hide ActiveHost, FailedWith, Step, Delay;
    ResumesByConnecting(s, e);
  }

  /** Without a token, resuming ends idle and shows the saved host, if any. */
  lemma ResumingWithoutToken(s: Store, e: Event)
    requires Inv(s) && !s.disposed && Resumes(s, e) && !HasSavedToken(s)
    ensures var t := Step(s, e);
            && t.state == s.state.(status := Idle, host := ActiveHost(s.storage), connection := None, retryIn := None)
            && t.storage == s.storage && t.open == {} && t.timer.None? && t.attempts.Keys == s.attempts.Keys
  {
    hide ActiveHost, FailedWith, Step, Delay;
    ResumesByConnecting(s, e);
  }

  /** Where no socket can be created, resuming waits for its next turn. */
  lemma ResumingWithoutSocket(s: Store, e: Event)
    requires Inv(s) && !s.disposed && Resumes(s, e) && HasSavedToken(s) && !SocketCreated(e)
    ensures var t, failures := Step(s, e), if e.Wakes? || e.ProbeFails? then 0 else s.failures;
            && t.state == s.state.(status := Reconnecting, connection := None,
                                   error := Some(ConnectionError(None, None)), retryIn := Some(Delay(failures)))
            && t.failures == failures + 1 && t.timer == Some(t.generation) && t.generation == s.generation + 1
            && t.storage == s.storage && t.open == {} && t.attempts.Keys == s.attempts.Keys
  {
    hide ActiveHost, Step, Delay, TornDown, RevokedFor, Scheduled;
    ResumesByConnecting(s, e);
    var b := Before(s, e);
    ConnectedIs(b, Resume, false);
    TornDownKeeps(b.(generation := b.generation + 1));
    ScheduledIs(Prepared(b, Resume), ConnectionError(None, None));
  }

  lemma ScheduledIs(s: Store, error: ConnectionError)
    ensures Scheduled(s, error) ==
            s.(failures := s.failures + 1, timer := Some(s.generation),
               state := s.state.(status := Reconnecting, connection := None, error := Some(error),
                                 retryIn := Some(Delay(s.failures))))
  {
    hide Delay;
    ScheduledWaits(s, error);
  }

  /** Attempts start in no other way, and then exactly if a socket can be created and, unless
      the user pairs, a token is saved. */
  lemma AttemptsStartExactlySo(s: Store, e: Event)
    requires Inv(s)
    ensures s.generation + 1 in Step(s, e).attempts <==>
              !s.disposed && SocketCreated(e) && (e.PairCalled? || (Resumes(s, e) && HasSavedToken(s)))
    ensures forall g :: g in Step(s, e).attempts ==> g in s.attempts || g == s.generation + 1
  {
    hide ActiveHost, Delay, RevokedFor, Resumed, Connected, Disconnected, Forgotten, Dropped;
    match e
    case StartCalled(created) => ConnectedStarts(s, Resume, created);
    case PairCalled(url, name, created) => ConnectedStarts(s, Pair(url, name), created);
    case ResumeCalled(created) => ConnectedStarts(s, Resume, created);
    case TimerFires(_, created) => ConnectedStarts(s.(timer := None), Resume, created);
    case Wakes(_, created) => ConnectedStarts(s.(failures := 0), Resume, created);
    case ProbeFails(_, _, created) => ConnectedStarts(s.(failures := 0), Resume, created);
    case DisconnectCalled => DisconnectedKeepsAttempts(s);
    case ForgetCalled => DisconnectedKeepsAttempts(s);
    case DisposeCalled => DisconnectedKeepsAttempts(s.(disposed := true));
    case ErrorReported(_) => RevokedKeepsAttempts(s);
    case AwaitSettles(g, r) =>
      if g in s.attempts && Awaits(s.attempts[g].phase, r) { ResumedKeepsAttempts(s, g, r); }
    case SocketCloses(g, code, created) => DroppedStarts(s, g, code, created);
    case HostChanges(_) =>
  }

  lemma ConnectedStarts(s: Store, mode: Mode, created: bool)
    ensures var t := Connected(s, mode, created);
            && (s.generation + 1 in t.attempts <==>
                  s.generation + 1 in s.attempts || (!s.disposed && created && (mode.Pair? || HasSavedToken(s))))
            && forall g :: g in t.attempts ==> g in s.attempts || g == s.generation + 1
  {
    hide ActiveHost, RevokedFor, Delay;
    if !s.disposed {
      ConnectedIs(s, mode, created);
      var u := Prepared(s, mode);
      RevokedKeepsAttempts(u);
      TornDownKeeps(s.(generation := s.generation + 1));
    }
  }

  lemma DisconnectedKeepsAttempts(s: Store)
    ensures Disconnected(s).attempts == s.attempts && Forgotten(s).attempts == s.attempts
  {
    hide RemoveHost;
  }

  lemma DroppedStarts(s: Store, g: nat, code: Option<int>, created: bool)
    requires Inv(s)
    ensures var t, e := Step(s, SocketCloses(g, code, created)), SocketCloses(g, code, created);
            && (s.generation + 1 in t.attempts <==> created && Resumes(s, e) && HasSavedToken(s))
            && forall h :: h in t.attempts ==> h in s.attempts || h == s.generation + 1
  {
    hide Connected, RevokedFor, Delay, ActiveHost;
    if g in s.attempts {
      var t := s.(attempts := s.attempts[g := s.attempts[g].(closeCode := code)], open := s.open - {g},
                  hostListener := None);
      var u := t.(state := t.state.(connection := None));
      RevokedKeepsAttempts(t);
      ConnectedStarts(u, Resume, created);
    }
  }

  lemma RevokedKeepsAttempts(s: Store)
    ensures forall reason, error :: RevokedFor(s, reason, error).attempts == s.attempts
  {
    hide ActiveHost, ClearHostToken;
  }

  lemma ResumedKeepsAttempts(s: Store, g: nat, r: Settled)
    requires g in s.attempts && Awaits(s.attempts[g].phase, r)
    ensures Resumed(s, g, r).attempts.Keys == s.attempts.Keys
  {
    hide RevokedFor, SaveHost, Delay;
    RevokedKeepsAttempts(Moved(s, g, Finished).(open := s.open - {g}, socket := None));
  }

  /** The replies by which attempt `g` becomes a connection. */
  function Settling(g: nat, reply: Settled, maintenance: bool): seq<Event> {
    [AwaitSettles(g, Opened), AwaitSettles(g, reply), AwaitSettles(g, Described),
     AwaitSettles(g, Observed(true, maintenance))]
  }

  lemma RunOfFour(s: Store, events: seq<Event>)
    requires |events| == 4
    ensures Run(s, events) == Step(Step(Step(Step(s, events[0]), events[1]), events[2]), events[3])
  {
    hide Step, Run;
    RunFrom(s, events, 0);
    RunFrom(Step(s, events[0]), events, 1);
    RunFrom(Step(Step(s, events[0]), events[1]), events, 2);
    RunFrom(Step(Step(Step(s, events[0]), events[1]), events[2]), events, 3);
    RunFrom(Step(Step(Step(Step(s, events[0]), events[1]), events[2]), events[3]), events, 4);
    assert events[0..] == events;
  }

  lemma SettlingIsReady(s: Store, host: SavedHost, reply: Settled, maintenance: bool)
    requires s.generation in s.attempts && reply.Authenticated?
    requires s.attempts[s.generation] == Attempt(Resume, Some(host), Opening, None)
    ensures var t := Run(s, Settling(s.generation, reply, maintenance));
            && t.state == State(Ready, Some(host), Some(s.generation), maintenance, None, None, None)
            && t.generation == s.generation && t.storage == s.storage && t.failures == 0
  {
    hide Step;
    var g := s.generation;
    var events := Settling(g, reply, maintenance);
    AuthenticatedDescribes(s, host, reply);
    ObservedIsReady(Step(Step(s, events[0]), events[1]), g, host, maintenance);
    RunOfFour(s, events);
  }

  lemma AuthenticatedDescribes(s: Store, host: SavedHost, reply: Settled)
    requires s.generation in s.attempts && reply.Authenticated?
    requires s.attempts[s.generation] == Attempt(Resume, Some(host), Opening, None)
    ensures var g := s.generation;
            var t := Step(Step(s, AwaitSettles(g, Opened)), AwaitSettles(g, reply));
            && t.storage == s.storage && t.generation == g && g in t.attempts
            && t.attempts[g].phase == Describing(host)
  {
    hide FailedWith, Abandoned, RevokedFor;
    var g := s.generation;
    var u := Step(s, AwaitSettles(g, Opened));
    assert u.attempts[g] == Attempt(Resume, Some(host), Authenticating, None);
  }

  /** Ready on the saved host under connection `g`, as after every undisturbed attempt. */
  predicate ReadyOnSaved(s: Store, t: Store, g: nat, maintenance: bool) {
    && t.state == State(Ready, ActiveHost(s.storage), Some(g), maintenance, None, None, None)
    && t.generation == g && t.storage == s.storage && t.failures == 0
  }

  /** Whatever makes the store connect again, the start, the timer, a return to the foreground, a
      probe, a close that asks for it or a call: undisturbed, it ends ready on the saved host. */
  lemma ResumingRecovers(s: Store, e: Event, reply: Settled, maintenance: bool)
    requires Inv(s) && !s.disposed && Resumes(s, e) && HasSavedToken(s) && SocketCreated(e) && reply.Authenticated?
    ensures var g := s.generation + 1;
            ReadyOnSaved(s, Run(s, [e] + Settling(g, reply, maintenance)), g, maintenance)
  {
    hide Step, ActiveHost, Resumes, Inv, Settling;
    var rest := Settling(s.generation + 1, reply, maintenance);
    ResumingStarts(s, e);
    SettlingIsReady(Step(s, e), ActiveHost(s.storage).value, reply, maintenance);
    assert ([e] + rest)[1..] == rest;
  }

  /** A new store that finds a token saved connects on start. */
  lemma StartingIsReady(storage: Storage, reply: Settled, maintenance: bool)
    requires HasSavedToken(Initial(storage)) && reply.Authenticated?
    ensures var run := Run(Initial(storage), [StartCalled(true)] + Settling(1, reply, maintenance));
            ReadyOnSaved(Initial(storage), run, 1, maintenance)
  {
    InitialHolds(storage);
    assert Resumes(Initial(storage), StartCalled(true));
    hide ActiveHost, Run, Settling, Inv, Resumes;
    ResumingRecovers(Initial(storage), StartCalled(true), reply, maintenance);
  }

  /** A lost connection comes back by itself: after a close that neither revokes nor asks to
      connect at once, the timer of that generation fires, and undisturbed the store ends ready
      on the saved host, with the saved hosts as they were. */
  lemma LostConnectionComesBack(s: Store, code: Option<int>, any: bool, reply: Settled, maintenance: bool)
    requires Inv(s) && s.state.status == Ready && HasSavedToken(s) && reply.Authenticated?
    requires code != Some(4003) && code != Some(4008)
    ensures var g := s.generation;
            var events := [SocketCloses(g, code, any), TimerFires(g, true)] + Settling(g + 1, reply, maintenance);
            ReadyOnSaved(s, Run(s, events), g + 1, maintenance)
  {
    hide Step, Inv, ActiveHost, Settling, Resumes, Run;
    var g := s.generation;
    var close, fires, settles := SocketCloses(g, code, any), TimerFires(g, true), Settling(g + 1, reply, maintenance);
    DropWaits(s, code, any);
    ResumingRecovers(Step(s, close), fires, reply, maintenance);
    RunCons(s, close, [fires] + settles);
    assert [close] + ([fires] + settles) == [close, fires] + settles;
  }

  lemma RunCons(s: Store, e: Event, rest: seq<Event>)
    ensures Run(s, [e] + rest) == Run(Step(s, e), rest)
  {
    hide Step;
    assert ([e] + rest)[1..] == rest;
  }

  lemma DropWaits(s: Store, code: Option<int>, any: bool)
    requires Inv(s) && s.state.status == Ready && code != Some(4003) && code != Some(4008)
    ensures var t := Step(s, SocketCloses(s.generation, code, any));
            && Inv(t) && t.generation == s.generation && t.storage == s.storage && !t.disposed
            && t.timer == Some(s.generation) && t.failures == 1 && t.attempts.Keys == s.attempts.Keys
            && Resumes(t, TimerFires(s.generation, true))
            && t.state == s.state.(status := Reconnecting, connection := None,
                                   error := Some(ConnectionError(None, code)), retryIn := Some(1_000))
  {
    StepKeeps(s, SocketCloses(s.generation, code, any));
    hide RevokedFor;
    assert Doubled(0) == 1;
  }

  predicate IsTransient(kind: Option<ErrorKind>) {
    kind != Some(RevokedKind) && kind != Some(Unauthenticated) && kind != Some(Forbidden)
    && kind != Some(IncompatibleProtocol)
  }

  /** From timer `g` on, each attempt is rejected with the kind given and the next timer fires. */
  function Retries(g: nat, kinds: seq<Option<ErrorKind>>): seq<Event>
    decreases |kinds|
  {
    if kinds == [] then []
    else [TimerFires(g, true)] + ([AwaitSettles(g + 1, Rejected(kinds[0]))] + Retries(g + 1, kinds[1..]))
  }

  /** However often retrying fails in between, the store keeps waiting for its next timer, and
      each wait is the one that doubling gives for the failures so far. */
  lemma {:induction false} RetriesBackOff(s: Store, kinds: seq<Option<ErrorKind>>)
    requires Inv(s) && s.state.status == Reconnecting && s.timer.Some? && HasSavedToken(s)
    requires forall kind :: kind in kinds ==> IsTransient(kind)
    ensures var t := Run(s, Retries(s.generation, kinds));
            && t.state.status == Reconnecting && t.timer == Some(s.generation + |kinds|)
            && t.generation == s.generation + |kinds| && t.failures == s.failures + |kinds|
            && t.state.retryIn == Some(Delay(t.failures - 1)) && t.storage == s.storage
    decreases |kinds|
  {
    hide Step, ActiveHost, Delay, Resumes;
    if kinds != [] {
      var g := s.generation;
      var fires, fails := TimerFires(g, true), AwaitSettles(g + 1, Rejected(kinds[0]));
      assert kinds[0] in kinds;
      RetryFails(s, kinds[0]);
      var t := Step(Step(s, fires), fails);
      RunCons(s, fires, [fails] + Retries(g + 1, kinds[1..]));
      RunCons(Step(s, fires), fails, Retries(g + 1, kinds[1..]));
      RetriesBackOff(t, kinds[1..]);
    }
  }

  lemma RetryFails(s: Store, kind: Option<ErrorKind>)
    requires Inv(s) && s.state.status == Reconnecting && s.timer.Some? && HasSavedToken(s) && IsTransient(kind)
    ensures var g := s.generation;
            var t := Step(Step(s, TimerFires(g, true)), AwaitSettles(g + 1, Rejected(kind)));
            && Inv(t) && t.state.status == Reconnecting && t.timer == Some(g + 1) && t.generation == g + 1
            && t.failures == s.failures + 1 && t.storage == s.storage
  {
    var u := Step(s, TimerFires(s.generation, true));
    StepKeeps(s, TimerFires(s.generation, true));
    assert Inv(s) && Resumes(s, TimerFires(s.generation, true)) && !s.disposed;
    hide Step, ActiveHost, Delay, Inv, Resumes;
    ResumingStarts(s, TimerFires(s.generation, true));
    FailureOutcome(u, Rejected(kind));
  }

  /** Pairing starts an attempt at once, whatever went on before, and forgets why the last
      pairing was revoked. */
  lemma PairingStarts(s: Store, url: string, name: string)
    requires Inv(s) && !s.disposed
    ensures var t := Step(s, PairCalled(url, name, true));
            && AttemptStarted(s, t, Pair(url, name), None) && t.failures == s.failures
            && t.state == s.state.(status := Connecting, connection := None, error := None, retryIn := None,
                                   revokedReason := None)
  {
    hide ActiveHost, FailedWith, Delay;
  }

  /** A pairing for which no socket can be created fails for good. */
  lemma PairingWithoutSocketFails(s: Store, url: string, name: string)
    requires Inv(s) && !s.disposed
    ensures var t := Step(s, PairCalled(url, name, false));
            && t.state.status == Failed && t.state.error == Some(ConnectionError(None, None)) && Inv(t)
            && t.storage == s.storage && t.attempts == s.attempts
  {
    StepKeeps(s, PairCalled(url, name, false));
    hide ActiveHost, Delay, RevokedFor;
  }

  // ---------- The store itself ----------

  /** Calls that could not be made because the store was disposed, or that found nothing to
      do, leave every field alone. `created` stands for whether the environment lets a
      socket be created. */
  class ConnectionStore {
    var state: State
    var generation: nat
    var failures: nat
    var timer: Option<nat>
    var socket: Option<nat>
    var hostListener: Option<nat>
    var disposed: bool
    var storage: Storage
    var attempts: map<nat, Attempt>
    var open: set<nat>

    ghost function View(): Store
      reads this
    {
      Store(state, generation, failures, timer, socket, hostListener, disposed, storage, attempts, open)
    }

    constructor (saved: Storage)
      ensures View() == Initial(saved) && Inv(View())
    {
      state := State(Idle, ActiveHost(saved), None, false, None, None, None);
      generation, failures, timer, socket, hostListener := 0, 0, None, None, None;
      disposed, storage, attempts, open := false, saved, map[], {};
      new;
      InitialHolds(saved);
    }

    method Start(created: bool)
      modifies this
      ensures View() == Step(old(View()), StartCalled(created))
    {
      hide Connected;
      if state.host.Some? && state.host.value.token != "" && state.status == Idle { Connect(Resume, created); }
    }

    method Disconnect()
      modifies this
      ensures View() == Disconnected(old(View()))
    {
      generation := generation + 1;
      Teardown();
      state := state.(status := Idle, connection := None, error := None, retryIn := None, maintenance := false);
    }

    method Forget()
      modifies this
      ensures View() == Forgotten(old(View()))
    {
      hide RemoveHost, Disconnected;
      var host := state.host;
      Disconnect();
      if host.Some? && host.value.hostId != "" { storage := RemoveHost(storage, host.value.hostId); }
      state := state.(host := None, revokedReason := None);
    }

    method ReportError(kind: ErrorKind)
      modifies this
      ensures View() == Step(old(View()), ErrorReported(kind))
    {
      hide RevokedFor;
      if kind == Maintenance || kind == RecoveryBlocked { state := state.(maintenance := true); }
      if kind == RevokedKind || kind == Unauthenticated {
        Revoke(if kind == RevokedKind then ByRevocation else ByCredential, None);
      }
    }

    method Dispose()
      modifies this
      ensures View() == Step(old(View()), DisposeCalled)
    {
      disposed := true;
      Disconnect();
    }

    method Teardown()
      modifies this
      ensures View() == TornDown(old(View()))
    {
      timer := None;
      hostListener := None;
      if state.connection.Some? {
        open := open - {state.connection.value};
      } else if socket.Some? {
        open := open - {socket.value};
      }
      socket := None;
    }

    method Connect(mode: Mode, created: bool)
      modifies this
      ensures View() == Connected(old(View()), mode, created)
    {
      hide FailedWith, TornDown, ActiveHost;
      if disposed { return; }
      generation := generation + 1;
      var wasConnected := state.connection.Some? || state.status == Reconnecting;
      Teardown();
      ghost var torn := View();
      var saved := if mode.Resume? then ActiveHost(storage) else None;
      if mode.Resume? && (saved.None? || saved.value.token == "") {
        state := state.(status := Idle, host := saved, connection := None, retryIn := None);
        return;
      }
      state := state.(status := if wasConnected && mode.Resume? then Reconnecting else Connecting,
                      connection := None, error := None, retryIn := None,
                      revokedReason := if mode.Pair? then None else state.revokedReason);
      if created {
        socket := Some(generation);
        open := open + {generation};
        attempts := attempts[generation := Attempt(mode, saved, Opening, None)];
      } else {
        Fail(mode, ConnectionError(None, None));
      }
    }

    method Fail(mode: Mode, error: ConnectionError)
      modifies this
      ensures View() == FailedWith(old(View()), mode, error)
    {
      hide RevokedFor, Scheduled;
      var terminal := error.kind == Some(Forbidden) || error.kind == Some(IncompatibleProtocol);
      if error.kind == Some(RevokedKind) || error.closeCode == Some(4003) {
        Revoke(ByRevocation, Some(error));
      } else if mode.Pair? || terminal {
        state := state.(status := Failed, connection := None, error := Some(error), retryIn := None);
      } else if error.kind == Some(Unauthenticated) {
        Revoke(ByCredential, Some(error));
      } else {
        Schedule(error);
      }
    }

    method Schedule(error: ConnectionError)
      modifies this
      ensures View() == Scheduled(old(View()), error)
    {
      var last := |RECONNECT_DELAYS_MS| - 1;
      var delay := RECONNECT_DELAYS_MS[if failures <= last then failures else last];
      failures := failures + 1;
      timer := Some(generation);
      state := state.(status := Reconnecting, connection := None, error := Some(error), retryIn := Some(delay));
    }

    method Revoke(reason: Reason, error: Option<ConnectionError>)
      modifies this
      ensures View() == RevokedFor(old(View()), reason, error)
    {
      hide TornDown, ClearHostToken, ActiveHost;
      var host := state.host;
      generation := generation + 1;
      Teardown();
      if host.Some? && host.value.hostId != "" { storage := ClearHostToken(storage, host.value.hostId); }
      state := state.(status := Revoked, host := ActiveHost(storage), connection := None, error := error,
                      revokedReason := Some(reason), retryIn := None, maintenance := false);
    }

    method Drop(g: nat, code: Option<int>, created: bool)
      modifies this
      ensures View() == Dropped(old(View()), g, code, created)
    {
      hide RevokedFor, Connected, Scheduled;
      if g != generation { return; }
      hostListener := None;
      if code == Some(4003) {
        Revoke(ByRevocation, Some(ConnectionError(None, code)));
        return;
      }
      state := state.(connection := None);
      if code == Some(4008) {
        Connect(Resume, created);
      } else {
        Schedule(ConnectionError(None, code));
      }
    }

    /** The close listener of attempt `g`'s socket. */
    method SocketClosed(g: nat, code: Option<int>, created: bool)
      modifies this
      ensures View() == Step(old(View()), SocketCloses(g, code, created))
    {
      hide Dropped;
      if g in attempts {
        attempts := attempts[g := attempts[g].(closeCode := code)];
        open := open - {g};
        if g == generation && state.status == Ready { Drop(g, code, created); }
      }
    }

    method TimerFired(g: nat, created: bool)
      modifies this
      ensures View() == Step(old(View()), TimerFires(g, created))
    {
      hide Connected;
      if timer == Some(g) {
        timer := None;
        if g == generation { Connect(Resume, created); }
      }
    }

    method Wake(visible: bool, created: bool)
      modifies this
      ensures View() == Step(old(View()), Wakes(visible, created))
    {
      hide Connected;
      if visible && !disposed && state.status == Reconnecting {
        failures := 0;
        Connect(Resume, created);
      }
    }

    /** The catch branch of a probe begun under generation `g` for a connection. */
    method ProbeFailed(g: nat, connection: nat, created: bool)
      modifies this
      ensures View() == Step(old(View()), ProbeFails(g, connection, created))
    {
      hide Connected;
      if g != generation || state.connection != Some(connection) { return; }
      failures := 0;
      Connect(Resume, created);
    }

    method HostChanged(ready: bool)
      modifies this
      ensures View() == Step(old(View()), HostChanges(ready))
    {
      if hostListener.Some? { state := state.(maintenance := !ready); }
    }

    method SetPhase(g: nat, phase: Phase)
      requires g in attempts
      modifies this`attempts
      ensures View() == Moved(old(View()), g, phase)
    {
      attempts := attempts[g := attempts[g].(phase := phase)];
    }

    /** What attempt `g` does after the await it was suspended at. */
    method Continue(g: nat, r: Settled)
      requires g in attempts && Awaits(attempts[g].phase, r)
      modifies this
      ensures View() == Resumed(old(View()), g, r)
    {
      hide Abandoned, SaveHost;
      var a := attempts[g];
      var stale := g != generation;
      match r
      case Opened => SetPhase(g, if stale then Finished else Authenticating);
      case Authenticated(hostId, deviceId, token, now) =>
        if stale {
          SetPhase(g, Finished);
          open := open - {g};
        } else if a.mode.Pair? {
          var host := SavedHost(hostId, deviceId, a.mode.url, token, a.mode.name, now);
          storage := SaveHost(host);
          SetPhase(g, Describing(host));
        } else {
          SetPhase(g, if a.saved.Some? then Describing(a.saved.value) else Finished);
        }
      case Described => SetPhase(g, Observing(a.phase.host));
      case Observed(valid, maintenance) =>
        if stale {
          SetPhase(g, Finished);
          open := open - {g};
        } else if !valid {
          GiveUp(g, None);
        } else {
          hostListener := Some(g);
          failures := 0;
          state := state.(status := Ready, host := Some(a.phase.host), connection := Some(g), error := None,
                          revokedReason := None, retryIn := None, maintenance := maintenance);
          SetPhase(g, Finished);
        }
      case Rejected(kind) =>
        if stale { SetPhase(g, Finished); } else { GiveUp(g, kind); }
    }

    method GiveUp(g: nat, kind: Option<ErrorKind>)
      requires g in attempts
      modifies this
      ensures View() == Abandoned(old(View()), g, kind)
    {
      hide FailedWith;
      open := open - {g};
      socket := None;
      SetPhase(g, Finished);
      Fail(attempts[g].mode, ConnectionError(kind, attempts[g].closeCode));
    }
  }
}
