/**
 * The form-side client as a state machine on values. Each function is one
 * event or call of the client object; the class in module FormsClient is
 * proved to update its fields exactly as these functions say.
 *
 * Callbacks are either a caller's callback `User(id)`, whose only effect is
 * recorded in `calls`, or `Ready(a)`, the completion handler that the a-th
 * `connect` call registers. Each `connect` call returns a promise, kept as
 * `attempts[a]`, and starts the timer numbered `a`; `timers` holds the timers
 * that are scheduled and have neither fired nor been cleared.
 */
module FormsClientSpec {
  import opened Wrappers
  import opened Messages
  import opened JsObject

  const ConnectedType: string := "connected"
  const FormReadyType: string := "form-ready"
  const FormDataType: string := "form-data"
  const FormSaveType: string := "form-save"

  /** The timeout of the handshake, in milliseconds (the timer itself is an explicit event). */
  const ConnectionTimeoutMs: nat := 10000

  datatype Callback = User(id: nat) | Ready(attempt: nat)

  datatype ConnectError = Timeout | PopupBlocked

  /** The state of a promise. */
  datatype Outcome = Pending | Resolved(data: Payload) | Rejected(error: ConnectError)

  /** One run of a caller's callback, with the type it was registered for and its argument. */
  datatype Call = Call(callback: nat, msgType: string, data: Payload)

  datatype State = State(
    listeners: map<string, seq<Callback>>,
    targetWindow: Option<WindowId>,
    isConnected: bool,
    connectionTimeout: Option<nat>,
    timers: set<nat>,
    attempts: seq<Outcome>,
    calls: seq<Call>,
    outbox: seq<Post>)

  /** A new client, optionally given a target window. */
  function Initial(target: Option<WindowId>): State {
    State(map[], target, false, None, {}, [], [], [])
  }

  /**
   * The registry is an object literal, so `listeners[t]` for an inherited
   * name finds a property of `Object.prototype`: truthy, but not an array.
   * `on`, `off` and `emit` then call an array method it lacks and throw a
   * TypeError before changing anything.
   */
  predicate Inherited(t: string) {
    t in InheritedNames
  }

  /** The callbacks registered for a type, in registration order. */
  function ListenersOf(s: State, t: string): seq<Callback> {
    if t in s.listeners then s.listeners[t] else []
  }

  // ---------------------------------------------------------------- registry

  /**
   * `on(t, cb)`: append `cb` to the list of `t`, creating the list if needed;
   * for an inherited name `push` throws and nothing is registered.
   */
  function On(s: State, t: string, cb: Callback): (r: State)
    ensures Inherited(t) ==> r == s
    ensures !Inherited(t) ==> ListenersOf(r, t) == ListenersOf(s, t) + [cb]
    ensures !Inherited(t) ==> r.listeners.Keys == s.listeners.Keys + {t}
    ensures forall u :: u != t ==> ListenersOf(r, u) == ListenersOf(s, u)
    ensures r.(listeners := s.listeners) == s
  {
    if Inherited(t) then s else s.(listeners := s.listeners[t := ListenersOf(s, t) + [cb]])
  }

  /** `xs.indexOf(x)`: the first index holding `x`, or -1. */
  function IndexOfItem<T(==)>(xs: seq<T>, x: T): (i: int)
    ensures i == -1 <==> x !in xs
    ensures 0 <= i ==> i < |xs| && xs[i] == x && forall j :: 0 <= j < i ==> xs[j] != x
  {
    if xs == [] then -1
    else if xs[0] == x then 0
    else var k := IndexOfItem(xs[1..], x); if k < 0 then -1 else k + 1
  }

  /** `splice(indexOf(x), 1)` when `x` is present: remove its first occurrence only. */
  function RemoveFirst<T(==)>(xs: seq<T>, x: T): seq<T> {
    var i := IndexOfItem(xs, x);
    if i < 0 then xs else xs[..i] + xs[i + 1..]
  }

  /**
   * Removal takes out exactly one copy of `x`, the first, and keeps the order
   * of everything else; without a copy it changes nothing.
   */
  lemma RemoveFirstSpec<T>(xs: seq<T>, x: T)
    ensures x !in xs ==> RemoveFirst(xs, x) == xs
    ensures x in xs ==> exists i :: 0 <= i < |xs| && xs[i] == x && x !in xs[..i] && RemoveFirst(xs, x) == xs[..i] + xs[i + 1..]
    ensures multiset(RemoveFirst(xs, x)) == multiset(xs) - multiset{x}
  {
    var i := IndexOfItem(xs, x);
    if i >= 0 {
      assert xs == xs[..i] + [x] + xs[i + 1..];
      assert x !in xs[..i];
    }
  }

  /**
   * `off(t, cb)`: remove the first registration of exactly `cb` for `t`;
   * nothing else changes. For an inherited name `indexOf` throws.
   */
  function Off(s: State, t: string, cb: Callback): State {
    if !Inherited(t) && t in s.listeners then s.(listeners := s.listeners[t := RemoveFirst(s.listeners[t], cb)]) else s
  }

  /** `off` touches only the list of `t`, and only by `RemoveFirst`; for an inherited name it changes nothing. */
  lemma OffSpec(s: State, t: string, cb: Callback)
    ensures Inherited(t) ==> Off(s, t, cb) == s
    ensures !Inherited(t) ==> ListenersOf(Off(s, t, cb), t) == RemoveFirst(ListenersOf(s, t), cb)
    ensures forall u :: u != t ==> ListenersOf(Off(s, t, cb), u) == ListenersOf(s, u)
    ensures Off(s, t, cb).listeners.Keys == s.listeners.Keys
    ensures Off(s, t, cb).(listeners := s.listeners) == s
  {
  }

  // ---------------------------------------------------------------- dispatch

  /** Promise settlement: only a pending promise takes the new outcome. */
  function Settle(attempts: seq<Outcome>, a: nat, o: Outcome): seq<Outcome> {
    if a < |attempts| && attempts[a].Pending? then attempts[a := o] else attempts
  }

  /** A promise settles at most once: a settled one keeps its outcome, and no other promise changes. */
  lemma SettleSpec(attempts: seq<Outcome>, a: nat, o: Outcome)
    ensures |Settle(attempts, a, o)| == |attempts|
    ensures forall j :: 0 <= j < |attempts| && j != a ==> Settle(attempts, a, o)[j] == attempts[j]
    ensures a < |attempts| ==> Settle(attempts, a, o)[a] == if attempts[a].Pending? then o else attempts[a]
  {
  }

  /** The `handleReady` closure of the a-th `connect`, run with the form-ready payload. */
  function HandleReady(s: State, a: nat, d: Payload): State {
    var s1 := if s.connectionTimeout.Some?
      then s.(timers := s.timers - {s.connectionTimeout.value}, connectionTimeout := None)
      else s;
    var s2 := Off(s1.(isConnected := true), FormReadyType, Ready(a));
    s2.(attempts := Settle(s2.attempts, a, Resolved(d)))
  }

  /** Running one callback. */
  function Invoke(s: State, cb: Callback, t: string, d: Payload): State {
    match cb
    case User(id) => s.(calls := s.calls + [Call(id, t, d)])
    case Ready(a) => HandleReady(s, a, d)
  }

  /**
   * `forEach` over the live list of `t` from index `k`, where `n` is the
   * length the list had when iteration began. An index past the current end
   * of the list is skipped, as `forEach` does after a removal.
   */
  function EmitFrom(s: State, t: string, d: Payload, k: nat, n: nat): State
    decreases n - k
  {
    if k >= n then s
    else
      var cbs := ListenersOf(s, t);
      EmitFrom(if k < |cbs| then Invoke(s, cbs[k], t, d) else s, t, d, k + 1, n)
  }

  /** `emit(t, d)`: run the callbacks registered for `t`; for an inherited name `forEach` throws and nothing runs. */
  function Emit(s: State, t: string, d: Payload): State {
    if Inherited(t) then s else EmitFrom(s, t, d, 0, |ListenersOf(s, t)|)
  }

  /**
   * The payload of the synthetic 'connected' event,
   * `{formId: data?.formId, formName: data?.formName}`: the form-ready
   * announcement's id and name, the id alone for the other protocol payloads,
   * and nothing for an absent payload.
   */
  function ConnectedPayload(d: Payload): (r: Payload)
    ensures r.ConnectedInfo?
    ensures d.FormReady? ==> r == ConnectedInfo(Some(Text(d.formId)), Some(Text(d.formName)))
    ensures IsTyped(d) && !d.FormReady? && !d.ConnectedInfo? ==> r == ConnectedInfo(Some(Text(d.formId)), None)
    ensures d.Undefined? ==> r == ConnectedInfo(None, None)
  {
    ConnectedInfo(FormIdOf(d), FormNameOf(d))
  }

  /** The window "message" handler (it stays attached even after `disconnect`). */
  function HandleMessage(s: State, env: Envelope, source: Option<WindowId>): State {
    if env.channel != ChannelName then s
    else
      var s1 := if !s.isConnected && source.Some?
        then Emit(s.(targetWindow := source, isConnected := true), ConnectedType, ConnectedPayload(env.data))
        else s;
      Emit(s1, env.msgType, env.data)
  }

  // ---------------------------------------------------------------- connection

  /** `connect(w)`: target `w`, start timer `a`, create promise `a`, register `Ready(a)` for form-ready. */
  function Connect(s: State, w: WindowId): (r: State)
    ensures |r.attempts| == |s.attempts| + 1 && r.attempts[|s.attempts|] == Pending
    ensures r.attempts[..|s.attempts|] == s.attempts
    ensures r.targetWindow == Some(w) && r.connectionTimeout == Some(|s.attempts|)
    ensures r.timers == s.timers + {|s.attempts|}
    ensures ListenersOf(r, FormReadyType) == ListenersOf(s, FormReadyType) + [Ready(|s.attempts|)]
    ensures forall u :: u != FormReadyType ==> ListenersOf(r, u) == ListenersOf(s, u)
    ensures r.isConnected == s.isConnected && r.calls == s.calls && r.outbox == s.outbox
  {
    var a := |s.attempts|;
    On(s.(targetWindow := Some(w), connectionTimeout := Some(a), timers := s.timers + {a}, attempts := s.attempts + [Pending]),
       FormReadyType, Ready(a))
  }

  /**
   * Timer `a` fires: its promise is rejected with a timeout if still pending.
   * Nothing else changes: not `isConnected`, not the ready handler, not the
   * `connectionTimeout` field. A cleared or already fired timer does nothing.
   */
  function TimerFires(s: State, a: nat): (r: State)
    ensures a !in s.timers ==> r == s
    ensures a !in r.timers && r.timers == s.timers - {a}
    ensures r.attempts == (if a in s.timers then Settle(s.attempts, a, Rejected(Timeout)) else s.attempts)
    ensures r.(timers := s.timers, attempts := s.attempts) == s
  {
    if a in s.timers then s.(timers := s.timers - {a}, attempts := Settle(s.attempts, a, Rejected(Timeout))) else s
  }

  /** `disconnect()`: clear the current timer, drop the target and connection, empty the registry. */
  function Disconnect(s: State): (r: State)
    ensures !r.isConnected && r.targetWindow.None? && r.connectionTimeout.None? && r.listeners == map[]
    ensures r.timers == if s.connectionTimeout.Some? then s.timers - {s.connectionTimeout.value} else s.timers
    ensures r.attempts == s.attempts && r.calls == s.calls && r.outbox == s.outbox
  {
    var timers := if s.connectionTimeout.Some? then s.timers - {s.connectionTimeout.value} else s.timers;
    s.(timers := timers, connectionTimeout := None, isConnected := false, targetWindow := None, listeners := map[])
  }

  // ---------------------------------------------------------------- sending

  predicate CanSend(s: State) {
    s.isConnected && s.targetWindow.Some?
  }

  /**
   * `sendMessage(t, d)`: when connected to a target window, post exactly one
   * envelope to it and answer true; otherwise post nothing and answer false.
   */
  function SendMessage(s: State, t: string, d: Payload, now: int): (r: (State, bool))
    ensures r.1 <==> CanSend(s)
    ensures !r.1 ==> r.0 == s
    ensures r.1 ==> r.0 == s.(outbox := s.outbox + [Post(Window(s.targetWindow.value), Outgoing(t, d, now))])
  {
    if !s.isConnected || s.targetWindow.None? then (s, false)
    else (s.(outbox := s.outbox + [Post(Window(s.targetWindow.value), Outgoing(t, d, now))]), true)
  }

  /** `sendFormData(d)`: a guarded send of type 'form-data'. */
  function SendFormData(s: State, d: Payload, now: int): (r: (State, bool))
    ensures r.1 <==> CanSend(s)
    ensures !r.1 ==> r.0 == s
    ensures r.1 ==> r.0.outbox == s.outbox + [Post(Window(s.targetWindow.value), Outgoing(FormDataType, d, now))]
  {
    SendMessage(s, FormDataType, d, now)
  }

  // ---------------------------------------------------------------- popups

  /** The address `openForm` opens. */
  function FormUrl(baseUrl: string, formId: string): string {
    baseUrl + "/#/forms/display/" + formId
  }

  /** What `openForm` returns: an immediate popup-blocked rejection, or the handshake started on the new window. */
  datatype OpenOutcome = Blocked | Opened(window: WindowId, attempt: nat)

  /**
   * `openForm(formId, baseUrl)`, where `handle` is what opening `FormUrl`
   * returned. Without a window handle nothing changes and `connect` is not called.
   */
  function OpenForm(s: State, handle: Option<WindowId>): (r: (State, OpenOutcome))
    ensures handle.None? ==> r == (s, Blocked)
    ensures handle.Some? ==> r == (Connect(s, handle.value), Opened(handle.value, |s.attempts|))
  {
    match handle
    case None => (s, Blocked)
    case Some(w) => (Connect(s, w), Opened(w, |s.attempts|))
  }

  /** The state of the promise `openForm` returned. */
  function OpenResult(s: State, o: OpenOutcome): (r: Outcome)
    ensures o.Blocked? ==> r == Rejected(PopupBlocked)
    ensures o.Opened? && o.attempt < |s.attempts| ==> r == s.attempts[o.attempt]
  {
    match o
    case Blocked => Rejected(PopupBlocked)
    case Opened(_, a) => if a < |s.attempts| then s.attempts[a] else Pending
  }

  /** `connectToForm`: a new client opens the form; on an immediate rejection it disconnects. */
  function ConnectToForm(handle: Option<WindowId>): (r: (State, OpenOutcome)) {
    var (s, o) := OpenForm(Initial(None), handle);
    if o.Blocked? then (Disconnect(s), o) else (s, o)
  }

  /**
   * The handshake timer of `connectToForm` fires. Its client is fresh, so the
   * promise it awaits is attempt 0; if the timer rejects it, the `catch` disconnects.
   */
  function ConnectToFormTimerFires(s: State): State {
    var s1 := TimerFires(s, 0);
    if 0 < |s.attempts| && s.attempts[0].Pending? && s1.attempts[0] == Rejected(Timeout) then Disconnect(s1) else s1
  }

  /** `connectToIframe`: a new client that connects to the frame's window if it has one. */
  function ConnectToIframe(contentWindow: Option<WindowId>): State {
    match contentWindow
    case None => Initial(None)
    case Some(w) => Connect(Initial(None), w)
  }

  // ================================================================ properties

  predicate AllUser(cbs: seq<Callback>) {
    forall i :: 0 <= i < |cbs| ==> cbs[i].User?
  }

  /** No completion handler is registered anywhere. */
  predicate NoReadyHandlers(s: State) {
    forall t :: t in s.listeners ==> AllUser(s.listeners[t])
  }

  /** The calls that running user callbacks `cbs` for `t` with `d` makes, in order. */
  function UserCalls(cbs: seq<Callback>, t: string, d: Payload): (r: seq<Call>)
    requires AllUser(cbs)
    ensures |r| == |cbs|
    ensures forall i :: 0 <= i < |r| ==> r[i] == Call(cbs[i].id, t, d)
  {
    if cbs == [] then [] else [Call(cbs[0].id, t, d)] + UserCalls(cbs[1..], t, d)
  }

  lemma {:induction false} EmitUserRange(s: State, t: string, d: Payload, k: nat, m: nat, n: nat)
    requires k <= m <= n && m <= |ListenersOf(s, t)|
    requires AllUser(ListenersOf(s, t)[k..m])
    ensures EmitFrom(s, t, d, k, n)
         == EmitFrom(s.(calls := s.calls + UserCalls(ListenersOf(s, t)[k..m], t, d)), t, d, m, n)
    decreases m - k
  {
    var cbs := ListenersOf(s, t);
    if k == m {
      assert cbs[k..m] == [];
      assert s.(calls := s.calls + []) == s;
    } else {
      var run := cbs[k..m];
      var rest := cbs[k + 1..m];
      assert run[0] == cbs[k];
      assert rest == run[1..];
      assert AllUser(rest) by {
        forall i | 0 <= i < |rest|
          ensures rest[i].User?
        {
          assert rest[i] == run[i + 1];
        }
      }
      var c := Call(cbs[k].id, t, d);
      var s' := s.(calls := s.calls + [c]);
      assert ListenersOf(s', t) == cbs;
      EmitUserStep(s, t, d, k, n);
      EmitUserRange(s', t, d, k + 1, m, n);
      assert UserCalls(run, t, d) == [c] + UserCalls(rest, t, d);
      AppendAssoc(s.calls, [c], UserCalls(rest, t, d));
    }
  }

  lemma AppendAssoc<T>(a: seq<T>, b: seq<T>, c: seq<T>)
    ensures (a + b) + c == a + (b + c)
  {
  }

  /** One caller's callback run by the `forEach`. */
  lemma EmitUserStep(s: State, t: string, d: Payload, k: nat, n: nat)
    requires k < n && k < |ListenersOf(s, t)| && ListenersOf(s, t)[k].User?
    ensures EmitFrom(s, t, d, k, n) == EmitFrom(s.(calls := s.calls + [Call(ListenersOf(s, t)[k].id, t, d)]), t, d, k + 1, n)
  {
  }

  /**
   * When every callback of `t` is a caller's callback, `emit(t, d)` runs
   * exactly those callbacks, in registration order, each once with `d`, and
   * changes nothing else.
   */
  lemma EmitRunsCallbacksInOrder(s: State, t: string, d: Payload)
    requires !Inherited(t) && AllUser(ListenersOf(s, t))
    ensures Emit(s, t, d) == s.(calls := s.calls + UserCalls(ListenersOf(s, t), t, d))
  {
    var cbs := ListenersOf(s, t);
    assert cbs[0..|cbs|] == cbs;
    EmitUserRange(s, t, d, 0, |cbs|, |cbs|);
  }

  /** How callbacks can change the state: calls and settlements only accumulate. */
  ghost predicate Evolves(s: State, r: State) {
    && r.targetWindow == s.targetWindow
    && (s.isConnected ==> r.isConnected)
    && r.outbox == s.outbox
    && |s.calls| <= |r.calls| && r.calls[..|s.calls|] == s.calls
    && |r.attempts| == |s.attempts|
    && (forall i :: 0 <= i < |s.attempts| && !s.attempts[i].Pending? ==> r.attempts[i] == s.attempts[i])
  }

  lemma EvolvesTransitive(s1: State, s2: State, s3: State)
    requires Evolves(s1, s2) && Evolves(s2, s3)
    ensures Evolves(s1, s3)
  {
    assert s3.calls[..|s1.calls|] == s3.calls[..|s2.calls|][..|s1.calls|];
  }

  lemma InvokeEvolves(s: State, cb: Callback, t: string, d: Payload)
    ensures Evolves(s, Invoke(s, cb, t, d))
  {
    var r := Invoke(s, cb, t, d);
    if cb.User? {
      assert r.calls[..|s.calls|] == s.calls;
    } else {
      assert r.calls == s.calls;
    }
  }

  lemma {:induction false} EmitFromEvolves(s: State, t: string, d: Payload, k: nat, n: nat)
    ensures Evolves(s, EmitFrom(s, t, d, k, n))
    decreases n - k
  {
    if k >= n {
      assert s.calls[..|s.calls|] == s.calls;
    } else {
      var cbs := ListenersOf(s, t);
      var s' := if k < |cbs| then Invoke(s, cbs[k], t, d) else s;
      if k < |cbs| {
        InvokeEvolves(s, cbs[k], t, d);
      } else {
        assert s.calls[..|s.calls|] == s.calls;
      }
      EmitFromEvolves(s', t, d, k + 1, n);
      EvolvesTransitive(s, s', EmitFrom(s', t, d, k + 1, n));
    }
  }

  /** For an inherited name, `on`, `off` and `emit` throw before anything changes. */
  lemma InheritedTypeChangesNothing(s: State, t: string, cb: Callback, d: Payload)
    requires Inherited(t)
    ensures On(s, t, cb) == s && Off(s, t, cb) == s && Emit(s, t, d) == s
  {
  }

  lemma EmitEvolves(s: State, t: string, d: Payload)
    ensures Evolves(s, Emit(s, t, d))
  {
    if Inherited(t) {
      assert s.calls[..|s.calls|] == s.calls;
    } else {
      EmitFromEvolves(s, t, d, 0, |ListenersOf(s, t)|);
    }
  }

  /** An envelope on another channel leaves the whole state unchanged and runs no callback. */
  lemma WrongChannelIgnored(s: State, env: Envelope, source: Option<WindowId>)
    requires env.channel != ChannelName
    ensures HandleMessage(s, env, source) == s
  {
  }

  /**
   * The first matching message with a source, while disconnected, targets
   * that source and connects; the 'connected' callbacks run, with the
   * message's formId and formName, before any callback of the message's own type.
   */
  lemma FirstContactConnects(s: State, env: Envelope, source: Option<WindowId>)
    requires env.channel == ChannelName && !s.isConnected && source.Some?
    requires AllUser(ListenersOf(s, ConnectedType))
    ensures var r := HandleMessage(s, env, source);
      var announced := UserCalls(ListenersOf(s, ConnectedType), ConnectedType, ConnectedPayload(env.data));
      && r.targetWindow == source && r.isConnected
      && |s.calls| + |announced| <= |r.calls|
      && r.calls[..|s.calls| + |announced|] == s.calls + announced
  {
    var s0 := s.(targetWindow := source, isConnected := true);
    assert ListenersOf(s0, ConnectedType) == ListenersOf(s, ConnectedType);
    EmitRunsCallbacksInOrder(s0, ConnectedType, ConnectedPayload(env.data));
    var s1 := Emit(s0, ConnectedType, ConnectedPayload(env.data));
    EmitEvolves(s1, env.msgType, env.data);
  }

  /** Once connected, a message is only dispatched to its own type: 'connected' is never emitted again. */
  lemma ConnectedOnlyOnce(s: State, env: Envelope, source: Option<WindowId>)
    requires env.channel == ChannelName && s.isConnected
    ensures HandleMessage(s, env, source) == Emit(s, env.msgType, env.data)
    ensures HandleMessage(s, env, source).isConnected
    ensures HandleMessage(s, env, source).targetWindow == s.targetWindow
  {
    EmitEvolves(s, env.msgType, env.data);
  }

  /** A settled promise is never settled again by a later message: no double resolution. */
  lemma SettledPromiseStaysSettled(s: State, env: Envelope, source: Option<WindowId>, a: nat)
    requires a < |s.attempts| && !s.attempts[a].Pending?
    ensures a < |HandleMessage(s, env, source).attempts|
    ensures HandleMessage(s, env, source).attempts[a] == s.attempts[a]
  {
    if env.channel == ChannelName {
      if !s.isConnected && source.Some? {
        var s0 := s.(targetWindow := source, isConnected := true);
        EmitEvolves(s0, ConnectedType, ConnectedPayload(env.data));
        var s1 := Emit(s0, ConnectedType, ConnectedPayload(env.data));
        EmitEvolves(s1, env.msgType, env.data);
      } else {
        EmitEvolves(s, env.msgType, env.data);
      }
    }
  }

  /** The 'form-ready' dispatch right after `connect`, when the completion handler is the last callback. */
  lemma {:induction false} ReadyAfterUserCallbacks(s: State, users: seq<Callback>, a: nat, d: Payload)
    requires ListenersOf(s, FormReadyType) == users + [Ready(a)] && AllUser(users)
    requires s.connectionTimeout == Some(a) && a < |s.attempts| && s.attempts[a].Pending?
    ensures var r := Emit(s, FormReadyType, d);
      && a < |r.attempts| && r.attempts[a] == Resolved(d) && r.isConnected
      && r.connectionTimeout.None? && r.timers == s.timers - {a}
      && ListenersOf(r, FormReadyType) == users
  {
    var cbs := ListenersOf(s, FormReadyType);
    var m := |cbs| - 1;
    assert cbs[0..m] == users;
    EmitUserRange(s, FormReadyType, d, 0, m, |cbs|);
    var s3 := s.(calls := s.calls + UserCalls(users, FormReadyType, d));
    assert ListenersOf(s3, FormReadyType) == cbs;
    assert cbs[m] == Ready(a);
    var s4 := HandleReady(s3, a, d);
    assert EmitFrom(s3, FormReadyType, d, m, |cbs|) == EmitFrom(s4, FormReadyType, d, m + 1, |cbs|);
    assert Ready(a) !in users by {
      assert AllUser(users);
    }
    assert IndexOfItem(cbs, Ready(a)) == m;
    assert RemoveFirst(cbs, Ready(a)) == users;
  }

  /**
   * Handshake success: after `connect` on a client with no completion
   * handler registered, a 'form-ready' message resolves the new promise with
   * its payload, clears the timer, connects, and removes the handler, so the
   * timer can no longer fire a timeout.
   */
  lemma ReadyBeforeTimeoutResolves(s: State, w: WindowId, env: Envelope, source: Option<WindowId>)
    requires NoReadyHandlers(s)
    requires env.channel == ChannelName && env.msgType == FormReadyType
    ensures var a := |s.attempts|;
      var r := HandleMessage(Connect(s, w), env, source);
      && a < |r.attempts| && r.attempts[a] == Resolved(env.data)
      && a !in r.timers && r.connectionTimeout.None? && r.isConnected
      && ListenersOf(r, FormReadyType) == ListenersOf(s, FormReadyType)
      && TimerFires(r, a) == r
  {
    var a := |s.attempts|;
    var s1 := Connect(s, w);
    var users := ListenersOf(s, FormReadyType);
    assert AllUser(users);
    assert ListenersOf(s1, FormReadyType)[..|users|] == users;
    var s2 := if !s1.isConnected && source.Some?
      then Emit(s1.(targetWindow := source, isConnected := true), ConnectedType, ConnectedPayload(env.data))
      else s1;
    if !s1.isConnected && source.Some? {
      var s0 := s1.(targetWindow := source, isConnected := true);
      assert ListenersOf(s0, ConnectedType) == ListenersOf(s, ConnectedType);
      EmitRunsCallbacksInOrder(s0, ConnectedType, ConnectedPayload(env.data));
    }
    assert ListenersOf(s2, FormReadyType) == users + [Ready(a)];
    assert s2.connectionTimeout == Some(a) && s2.attempts == s1.attempts && s2.timers == s1.timers;
    ReadyAfterUserCallbacks(s2, users, a, env.data);
  }

  /**
   * Handshake timeout: if the timer fires first, the promise is rejected with
   * a timeout, but the client's connection flag, its completion handler and
   * the timer field are left as they were; later messages cannot resolve it.
   */
  lemma TimeoutBeforeReadyRejects(s: State, w: WindowId, env: Envelope, source: Option<WindowId>)
    ensures var a := |s.attempts|;
      var r := TimerFires(Connect(s, w), a);
      && r.attempts[a] == Rejected(Timeout)
      && r.isConnected == s.isConnected
      && Ready(a) in ListenersOf(r, FormReadyType)
      && r.connectionTimeout == Some(a)
      && a < |HandleMessage(r, env, source).attempts|
      && HandleMessage(r, env, source).attempts[a] == Rejected(Timeout)
  {
    var a := |s.attempts|;
    var r := TimerFires(Connect(s, w), a);
    assert ListenersOf(r, FormReadyType)[|ListenersOf(s, FormReadyType)|] == Ready(a);
    SettledPromiseStaysSettled(r, env, source, a);
  }

  /** A second `connect` does not cancel the first timer: both stay scheduled, and the first still rejects its promise. */
  lemma SecondConnectKeepsFirstTimer(s: State, w1: WindowId, w2: WindowId)
    ensures var a := |s.attempts|;
      var r := Connect(Connect(s, w1), w2);
      && a in r.timers && a + 1 in r.timers && r.connectionTimeout == Some(a + 1)
      && TimerFires(r, a).attempts[a] == Rejected(Timeout)
  {
  }

  /**
   * The completion handler removes itself while `forEach` runs, so a callback
   * registered for 'form-ready' after `connect` is skipped on the message
   * that completes the handshake, and runs only on a later one.
   */
  lemma ReadyHandlerSkipsNextCallback(w: WindowId, d: Payload)
    ensures var s := On(Connect(Initial(None), w), FormReadyType, User(7));
      var env := Outgoing(FormReadyType, d, 0);
      var r := HandleMessage(s, env, Some(w));
      && r.attempts == [Resolved(d)]
      && r.calls == []
      && ListenersOf(r, FormReadyType) == [User(7)]
      && HandleMessage(r, env, Some(w)).calls == [Call(7, FormReadyType, d)]
  {
    var s := On(Connect(Initial(None), w), FormReadyType, User(7));
    var env := Outgoing(FormReadyType, d, 0);
    assert ListenersOf(s, ConnectedType) == [];
    var s0 := s.(targetWindow := Some(w), isConnected := true);
    assert Emit(s0, ConnectedType, ConnectedPayload(d)) == s0;
    SkipFirstDispatch(d, s0);
    var r := HandleMessage(s, env, Some(w));
    assert r == Emit(s0, FormReadyType, d);
    SkipSecondDispatch(d, r);
  }

  lemma SkipFirstDispatch(d: Payload, s0: State)
    requires ListenersOf(s0, FormReadyType) == [Ready(0), User(7)]
    requires s0.connectionTimeout == Some(0) && s0.attempts == [Pending] && s0.calls == []
    ensures var r := Emit(s0, FormReadyType, d);
      && r.attempts == [Resolved(d)] && r.calls == [] && r.isConnected
      && ListenersOf(r, FormReadyType) == [User(7)]
  {
    var s2 := HandleReady(s0, 0, d);
    assert IndexOfItem([Ready(0), User(7)], Ready(0)) == 0;
    assert RemoveFirst([Ready(0), User(7)], Ready(0)) == [User(7)];
    assert ListenersOf(s2, FormReadyType) == [User(7)];
    assert EmitFrom(s0, FormReadyType, d, 0, 2) == EmitFrom(s2, FormReadyType, d, 1, 2);
    assert EmitFrom(s2, FormReadyType, d, 1, 2) == EmitFrom(s2, FormReadyType, d, 2, 2);
  }

  lemma SkipSecondDispatch(d: Payload, r: State)
    requires ListenersOf(r, FormReadyType) == [User(7)] && r.calls == [] && r.isConnected
    ensures HandleMessage(r, Outgoing(FormReadyType, d, 0), r.targetWindow).calls == [Call(7, FormReadyType, d)]
  {
    var r1 := r.(calls := [Call(7, FormReadyType, d)]);
    assert EmitFrom(r, FormReadyType, d, 0, 1) == EmitFrom(r1, FormReadyType, d, 1, 1);
  }

  /** `disconnect` is idempotent. */
  lemma DisconnectIdempotent(s: State)
    ensures Disconnect(Disconnect(s)) == Disconnect(s)
  {
  }

  /**
   * After `disconnect` no callback runs for any message; but the window
   * handler is still attached, so a matching message with a source silently
   * connects the client again.
   */
  lemma DisconnectedClientRunsNoCallback(s: State, env: Envelope, source: Option<WindowId>)
    ensures var d := Disconnect(s); var r := HandleMessage(d, env, source);
      && r.calls == d.calls && r.attempts == d.attempts
      && (env.channel == ChannelName && source.Some? ==> r.isConnected && r.targetWindow == source)
  {
  }

  /** `connectToForm` with a blocked popup rejects at once and leaves a disconnected, empty client. */
  lemma ConnectToFormBlockedCleansUp()
    ensures ConnectToForm(None).1 == Blocked
    ensures OpenResult(ConnectToForm(None).0, ConnectToForm(None).1) == Rejected(PopupBlocked)
    ensures ConnectToForm(None).0 == Initial(None)
  {
  }

  /** `connectToForm` whose handshake times out ends disconnected, with no timer left and the promise rejected. */
  lemma ConnectToFormTimeoutCleansUp(w: WindowId)
    ensures var (s, o) := ConnectToForm(Some(w));
      var r := ConnectToFormTimerFires(s);
      && o == Opened(w, 0)
      && OpenResult(r, o) == Rejected(Timeout)
      && r.timers == {} && r.listeners == map[] && !r.isConnected && r.targetWindow.None?
  {
  }

  /**
   * Two overlapping `connect` calls: the first completion handler clears
   * `connectionTimeout`, which by then is the second call's timer, and its
   * own `off` makes `forEach` skip the second handler. One 'form-ready'
   * message resolves the first promise and strands the second: it stays
   * pending, and its timer is gone, so it can no longer time out.
   */
  lemma OverlappingConnectsStrandSecondPromise(w1: WindowId, w2: WindowId, d: Payload)
    ensures var s := Connect(Connect(Initial(None), w1), w2);
      var r := HandleMessage(s, Outgoing(FormReadyType, d, 0), Some(w1));
      && r.attempts == [Resolved(d), Pending]
      && 1 !in r.timers && r.connectionTimeout.None?
      && ListenersOf(r, FormReadyType) == [Ready(1)]
      && TimerFires(r, 1) == r
  {
    var s := Connect(Connect(Initial(None), w1), w2);
    assert ListenersOf(s, ConnectedType) == [];
    var s0 := s.(targetWindow := Some(w1), isConnected := true);
    assert Emit(s0, ConnectedType, ConnectedPayload(d)) == s0;
    var s2 := HandleReady(s0, 0, d);
    assert IndexOfItem([Ready(0), Ready(1)], Ready(0)) == 0;
    assert RemoveFirst([Ready(0), Ready(1)], Ready(0)) == [Ready(1)];
    assert ListenersOf(s2, FormReadyType) == [Ready(1)];
    assert EmitFrom(s0, FormReadyType, d, 0, 2) == EmitFrom(s2, FormReadyType, d, 1, 2);
    assert EmitFrom(s2, FormReadyType, d, 1, 2) == s2;
  }
}
