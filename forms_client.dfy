/**
 * The form-side client object. Its fields are those of the source class plus
 * the observable environment (scheduled timers, promises, callback runs and
 * posted envelopes); every method is proved to change them exactly as the
 * corresponding transition of FormsClientSpec says.
 */
module FormsClient {
  import opened Wrappers
  import opened Messages
  import opened FormsClientSpec
  import FormsChannel

  class InsuranceFormsClient {
    var listeners: map<string, seq<Callback>>
    var targetWindow: Option<WindowId>
    var isConnected: bool
    var connectionTimeout: Option<nat>
    var timers: set<nat>
    var attempts: seq<Outcome>
    var calls: seq<Call>
    var outbox: seq<Post>

    /** The client's fields as a specification state. */
    function Snapshot(): State
      reads this
    {
      State(listeners, targetWindow, isConnected, connectionTimeout, timers, attempts, calls, outbox)
    }

    constructor (targetWindow: Option<WindowId>)
      ensures Snapshot() == Initial(targetWindow)
    {
      listeners := map[];
      this.targetWindow := targetWindow;
      isConnected := false;
      connectionTimeout := None;
      timers := {};
      attempts := [];
      calls := [];
      outbox := [];
    }

    /** The `connected` getter. */
    function Connected(): bool
      reads this
    {
      isConnected
    }

    /** The `window` getter. */
    function Window(): Option<WindowId>
      reads this
    {
      targetWindow
    }

    method HandleMessage(env: Envelope, source: Option<WindowId>)
      modifies this
      ensures Snapshot() == FormsClientSpec.HandleMessage(old(Snapshot()), env, source)
    {
      if env.channel != ChannelName {
        return;
      }
      if !isConnected && source.Some? {
        targetWindow := source;
        isConnected := true;
        Emit(ConnectedType, ConnectedPayload(env.data));
      }
      Emit(env.msgType, env.data);
    }

    /** `forEach` over the live callback list of `t`, with the length fixed when it starts. */
    method Emit(t: string, d: Payload)
      modifies this
      ensures Snapshot() == FormsClientSpec.Emit(old(Snapshot()), t, d)
    {
      if !Inherited(t) && t in listeners {
        var n := |listeners[t]|;
        var k := 0;
        while k < n
          invariant k <= n
          invariant EmitFrom(Snapshot(), t, d, k, n) == FormsClientSpec.Emit(old(Snapshot()), t, d)
        {
          if t in listeners && k < |listeners[t]| {
            Invoke(listeners[t][k], t, d);
          }
          k := k + 1;
        }
      }
    }

    method Invoke(cb: Callback, t: string, d: Payload)
      modifies this
      ensures Snapshot() == FormsClientSpec.Invoke(old(Snapshot()), cb, t, d)
    {
      match cb
      case User(id) =>
        calls := calls + [Call(id, t, d)];
      case Ready(a) =>
        HandleReady(a, d);
    }

    /** The completion handler of the a-th `connect`. */
    method HandleReady(a: nat, d: Payload)
      modifies this
      ensures Snapshot() == FormsClientSpec.HandleReady(old(Snapshot()), a, d)
    {
      ghost var s0 := Snapshot();
      if connectionTimeout.Some? {
        timers := timers - {connectionTimeout.value};
        connectionTimeout := None;
      }
      isConnected := true;
      ghost var s1 := if s0.connectionTimeout.Some?
        then s0.(timers := s0.timers - {s0.connectionTimeout.value}, connectionTimeout := None)
        else s0;
      assert Snapshot() == s1.(isConnected := true);
      OffCallback(FormReadyType, Ready(a));
      assert Snapshot() == FormsClientSpec.Off(s1.(isConnected := true), FormReadyType, Ready(a));
      attempts := Settle(attempts, a, Resolved(d));
    }

    method OnCallback(t: string, cb: Callback)
      modifies this`listeners
      ensures Snapshot() == FormsClientSpec.On(old(Snapshot()), t, cb)
    {
      if Inherited(t) {
        return;
      }
      if t !in listeners {
        listeners := listeners[t := []];
      }
      listeners := listeners[t := listeners[t] + [cb]];
    }

    method OffCallback(t: string, cb: Callback)
      modifies this`listeners
      ensures Snapshot() == FormsClientSpec.Off(old(Snapshot()), t, cb)
    {
      if !Inherited(t) && t in listeners {
        var index := IndexOfItem(listeners[t], cb);
        if index > -1 {
          listeners := listeners[t := listeners[t][..index] + listeners[t][index + 1..]];
        }
      }
    }

    /** `on(t, callback)` for a caller's callback; `typeError` says that the call threw. */
    method On(t: string, callback: nat) returns (typeError: bool)
      modifies this`listeners
      ensures typeError <==> Inherited(t)
      ensures Snapshot() == FormsClientSpec.On(old(Snapshot()), t, User(callback))
    {
      typeError := Inherited(t);
      OnCallback(t, User(callback));
    }

    /** `off(t, callback)` for a caller's callback; `typeError` says that the call threw. */
    method Off(t: string, callback: nat) returns (typeError: bool)
      modifies this`listeners
      ensures typeError <==> Inherited(t)
      ensures Snapshot() == FormsClientSpec.Off(old(Snapshot()), t, User(callback))
    {
      typeError := Inherited(t);
      OffCallback(t, User(callback));
    }

    method OnFormReady(callback: nat)
      modifies this`listeners
      ensures Snapshot() == FormsClientSpec.On(old(Snapshot()), FormReadyType, User(callback))
    {
      OnCallback(FormReadyType, User(callback));
    }

    method OnFormSave(callback: nat)
      modifies this`listeners
      ensures Snapshot() == FormsClientSpec.On(old(Snapshot()), FormSaveType, User(callback))
    {
      OnCallback(FormSaveType, User(callback));
    }

    method OnConnected(callback: nat)
      modifies this`listeners
      ensures Snapshot() == FormsClientSpec.On(old(Snapshot()), ConnectedType, User(callback))
    {
      OnCallback(ConnectedType, User(callback));
    }

    /** `connect(w)`; the answer is the number of the promise it returns. */
    method Connect(w: WindowId) returns (attempt: nat)
      modifies this
      ensures attempt == |old(attempts)|
      ensures Snapshot() == FormsClientSpec.Connect(old(Snapshot()), w)
    {
      targetWindow := Some(w);
      attempt := |attempts|;
      attempts := attempts + [Pending];
      timers := timers + {attempt};
      connectionTimeout := Some(attempt);
      OnCallback(FormReadyType, Ready(attempt));
    }

    /** Timer `a` reaching its deadline. */
    method TimerFires(a: nat)
      modifies this`timers, this`attempts
      ensures Snapshot() == FormsClientSpec.TimerFires(old(Snapshot()), a)
    {
      if a in timers {
        timers := timers - {a};
        attempts := Settle(attempts, a, Rejected(Timeout));
      }
    }

    method SendMessage(t: string, d: Payload, now: int) returns (sent: bool)
      modifies this`outbox
      ensures (Snapshot(), sent) == FormsClientSpec.SendMessage(old(Snapshot()), t, d, now)
    {
      if !isConnected || targetWindow.None? {
        return false;
      }
      outbox := outbox + [Post(Target.Window(targetWindow.value), Outgoing(t, d, now))];
      return true;
    }

    method SendFormData(d: Payload, now: int) returns (sent: bool)
      modifies this`outbox
      ensures (Snapshot(), sent) == FormsClientSpec.SendFormData(old(Snapshot()), d, now)
    {
      if !isConnected || targetWindow.None? {
        return false;
      }
      outbox := outbox + [Post(Target.Window(targetWindow.value), Outgoing(FormDataType, d, now))];
      return true;
    }

    /**
     * `openForm(formId, baseUrl)`: `url` is the address opened and `handle`
     * what opening it returned.
     */
    method OpenForm(formId: string, baseUrl: string, handle: Option<WindowId>) returns (url: string, outcome: OpenOutcome)
      modifies this
      ensures url == FormUrl(baseUrl, formId)
      ensures (Snapshot(), outcome) == FormsClientSpec.OpenForm(old(Snapshot()), handle)
    {
      url := FormUrl(baseUrl, formId);
      if handle.None? {
        return url, Blocked;
      }
      var a := Connect(handle.value);
      outcome := Opened(handle.value, a);
    }

    method Disconnect()
      modifies this
      ensures Snapshot() == FormsClientSpec.Disconnect(old(Snapshot()))
    {
      if connectionTimeout.Some? {
        timers := timers - {connectionTimeout.value};
        connectionTimeout := None;
      }
      isConnected := false;
      targetWindow := None;
      listeners := map[];
    }
  }

  /** `connectToForm(formId, {baseUrl})`: a fresh client opens the form and disconnects if that is rejected at once. */
  method ConnectToForm(formId: string, baseUrl: string, handle: Option<WindowId>)
    returns (client: InsuranceFormsClient, url: string, outcome: OpenOutcome)
    ensures fresh(client)
    ensures url == FormUrl(baseUrl, formId)
    ensures (client.Snapshot(), outcome) == FormsClientSpec.ConnectToForm(handle)
  {
    client := new InsuranceFormsClient(None);
    url, outcome := client.OpenForm(formId, baseUrl, handle);
    if outcome.Blocked? {
      client.Disconnect();
    }
  }

  /**
   * The handshake timer of `connectToForm` fires: the fresh client's attempt
   * 0; a rejection reaches its `catch`, which disconnects.
   */
  method ConnectToFormTimerFires(client: InsuranceFormsClient)
    modifies client
    ensures client.Snapshot() == FormsClientSpec.ConnectToFormTimerFires(old(client.Snapshot()))
  {
    var waiting := 0 < |client.attempts| && client.attempts[0].Pending?;
    client.TimerFires(0);
    if waiting && client.attempts[0] == Rejected(Timeout) {
      client.Disconnect();
    }
  }

  /** `connectToIframe(iframe)`: a fresh client that connects to the frame's window if it has one. */
  method ConnectToIframe(contentWindow: Option<WindowId>) returns (client: InsuranceFormsClient)
    ensures fresh(client)
    ensures client.Snapshot() == FormsClientSpec.ConnectToIframe(contentWindow)
  {
    client := new InsuranceFormsClient(None);
    if contentWindow.Some? {
      var _ := client.Connect(contentWindow.value);
    }
  }

  /**
   * The client's own vocabulary is not the host channel's: its 'form-data'
   * posts match no case of the host's dispatch, so no host listener sees them.
   */
  lemma FormDataReachesNoChannelListener(listeners: set<FormsChannel.Event>, d: Payload, now: int)
    ensures FormsChannel.Dispatch(listeners, Outgoing(FormDataType, d, now)) == []
  {
    assert FormsChannel.Handled(FormDataType).None?;
  }
}
