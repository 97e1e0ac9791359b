/**
 * The process-wide lifecycle and authorization state that slip's D-Bus
 * service objects share (slip/dbus/service.py), written as values and
 * one step function per operation of the source:
 *
 *  - the caller registry: `Object.senders`, `Object.connections_senders`
 *    and `Object.connections_smobjs`, kept by `sender_seen` and
 *    `_name_owner_changed`;
 *  - the idle-timeout scheduler: `Object.current_source`,
 *    `Object.duration` and `Object.persistent`, kept by `timeout_restart`
 *    and `_timeout_cb`, and the replaceable quit callback;
 *  - the method interceptor `wrapped_method` built by `wrap_method`.
 *
 * Every effect on the outside world (subscribing to NameOwnerChanged,
 * adding and removing GLib timeouts, quitting, querying PolicyKit,
 * running the wrapped body) is an `Event` appended to the state's log.
 * Which timers are pending and which subscriptions are live is DERIVED
 * from that log (`Pending`, `Subscriptions`), so the invariant `Inv`
 * relates the coordinator's bookkeeping to what it actually did.
 */
module Service {
  import opened Wrappers

  /** A caller's unique bus name. */
  type Sender = string
  /** An opaque handle for a bus connection (`self.connection`). */
  type Conn = nat
  /** The match object `add_signal_receiver` hands back, as an opaque handle. */
  type SubId = nat
  /** A GLib source id; `timeout_add` never returns 0, so a stored id is truthy. */
  type TimerId = t: nat | t > 0 witness 1
  /** A remote method's argument, result or exception, as an opaque value. */
  type Value = string

  /** The keyword under which the interceptor asks for the sender when the method did not. */
  const SenderKeyword: string := "__slip_dbus_service_sender__"
  /** `Object.default_duration`, also the initial `Object.duration`. */
  const DefaultDuration: int := 5
  /** Seconds granted to a denied caller to acquire authorization. */
  const GraceDuration: int := 120
  /** The only PolicyKit answer that lets a call through. */
  const Yes: string := "yes"

  /** The function `quit_cb` runs: the default stops the GLib main loop. */
  datatype QuitCallback = MainloopQuit | Custom(id: nat)

  /** Effects on the outside world, in the order they happen. */
  datatype Event =
    | AddSignalReceiver(conn: Conn, sub: SubId)     // NameOwnerChanged subscription
    | RemoveSignalReceiver(conn: Conn, sub: SubId)  // `connections_smobjs[conn].remove ()`
    | TimeoutAdd(id: TimerId, ms: int, cls: ServiceClass) // `gobject.timeout_add`, calling `cls._timeout_cb`
    | SourceRemove(id: TimerId)                     // `gobject.source_remove`
    | Expired(id: TimerId)                          // the loop destroys a source whose callback returned False
    | Quit(cb: QuitCallback)                        // `quit_cb ()`
    | PolkitQuery(action: string, name: Sender, revokeIfOneShot: bool)
    | BodyCall(args: seq<Value>, kwargs: map<string, Value>)

  /** The class-level attributes of `Object` that all service objects share. */
  datatype State = State(
    senders: set<(Sender, Conn)>,
    connSenders: map<Conn, set<Sender>>,
    connSubs: map<Conn, SubId>,
    currentSource: Option<TimerId>,
    duration: int,
    persistent: bool,          // `Object.persistent`, the base class's attribute
    quitCb: QuitCallback,
    log: seq<Event>)

  /** A service class's declared policy. */
  datatype ServiceClass = ServiceClass(defaultDuration: int, persistent: bool, defaultAction: Option<string>)

  /** A service object: its class and the connection it is exported on. */
  datatype ServiceObject = ServiceObject(cls: ServiceClass, conn: Conn)

  /** What `dbus.service.method` and `polkit_auth_required` attached to a method. */
  datatype MethodDecl = MethodDecl(senderKeyword: Option<string>, requiredAction: Option<string>)

  /** PolicyKit's answer, or the exception its remote call raised. */
  datatype AuthReply = Reply(text: string) | CallFailed(error: Value)

  /** What the wrapped method body does when it is run. */
  datatype BodyOutcome = Returned(value: Value) | Raised(error: Value)

  /** What the remote caller gets back from `wrapped_method`. */
  datatype Outcome =
    | Return(value: Value)
    | KeyMissing(keyword: string)                      // `KeyError` from `k[sender_keyword]`
    | NotAuthorized(action: string, authorized: string) // `PolKit.NotAuthorized`
    | AuthError(error: Value)                          // the PolicyKit call raised
    | BodyError(error: Value)                          // the body raised

  datatype Call = Call(st: State, out: Outcome)

  /** A GLib source callback's effect and its return value (True keeps the source). */
  datatype Dispatch = Dispatch(st: State, again: bool)

  // ------------------------------------------------------------------
  // What the log says is live
  // ------------------------------------------------------------------

  function PendingStep(p: set<TimerId>, e: Event): set<TimerId>
  {
    match e
    case TimeoutAdd(id, _, _) => p + {id}
    case SourceRemove(id) => p - {id}
    case Expired(id) => p - {id}
    case _ => p
  }

  /** The GLib timeouts added and neither removed nor expired. */
  function Pending(log: seq<Event>): set<TimerId>
    decreases |log|
  {
    if log == [] then {} else PendingStep(Pending(log[..|log| - 1]), log[|log| - 1])
  }

  function SubsStep(s: set<(Conn, SubId)>, e: Event): set<(Conn, SubId)>
  {
    match e
    case AddSignalReceiver(c, u) => s + {(c, u)}
    case RemoveSignalReceiver(c, u) => s - {(c, u)}
    case _ => s
  }

  /** The NameOwnerChanged subscriptions made and not yet removed. */
  function Subscriptions(log: seq<Event>): set<(Conn, SubId)>
    decreases |log|
  {
    if log == [] then {} else SubsStep(Subscriptions(log[..|log| - 1]), log[|log| - 1])
  }

  lemma LogSnoc(log: seq<Event>, e: Event)
    ensures Pending(log + [e]) == PendingStep(Pending(log), e)
    ensures Subscriptions(log + [e]) == SubsStep(Subscriptions(log), e)
  {
    assert (log + [e])[..|log|] == log;
  }

  /**
   * The class whose `_timeout_cb` GLib calls when source `id` fires: the
   * one named by the latest `timeout_add` that returned `id`.
   */
  function ArmedBy(log: seq<Event>, id: TimerId): Option<ServiceClass>
    decreases |log|
  {
    if log == [] then None
    else
      var e := log[|log| - 1];
      if e.TimeoutAdd? && e.id == id then Some(e.cls) else ArmedBy(log[..|log| - 1], id)
  }

  lemma ArmedBySnoc(log: seq<Event>, e: Event, id: TimerId)
    ensures ArmedBy(log + [e], id) == if e.TimeoutAdd? && e.id == id then Some(e.cls) else ArmedBy(log, id)
  {
    assert (log + [e])[..|log|] == log;
  }

  /** Every pending timeout was added by some class's `timeout_restart`. */
  lemma {:induction false} PendingWasArmed(log: seq<Event>, id: TimerId)
    requires id in Pending(log)
    ensures ArmedBy(log, id).Some?
    decreases |log|
  {
    var front := log[..|log| - 1];
    var e := log[|log| - 1];
    if !(e.TimeoutAdd? && e.id == id) {
      assert id in Pending(front);
      PendingWasArmed(front, id);
    }
  }

  /** Events that touch neither a timer nor a subscription. */
  predicate Quiet(e: Event)
  {
    e.Quit? || e.PolkitQuery? || e.BodyCall?
  }

  /** True when `evs` calls the quit callback. */
  predicate Quits(evs: seq<Event>)
  {
    exists e :: e in evs && e.Quit?
  }

  // ------------------------------------------------------------------
  // The invariant
  // ------------------------------------------------------------------

  /** `senders`, `connections_senders` and `connections_smobjs` agree. */
  ghost predicate RegistryConsistent(st: State)
  {
    (forall s, c :: (s, c) in st.senders <==> c in st.connSenders && s in st.connSenders[c])
    && st.connSenders.Keys == st.connSubs.Keys
    && (forall c :: c in st.connSenders ==> st.connSenders[c] != {})
  }

  /** Exactly one live subscription per tracked connection, the one recorded in `connSubs`. */
  ghost predicate SubscriptionsMatch(st: State)
  {
    (forall c :: c in st.connSubs ==> (c, st.connSubs[c]) in Subscriptions(st.log))
    && (forall c, u :: (c, u) in Subscriptions(st.log) ==> c in st.connSubs && st.connSubs[c] == u)
  }

  /** A pending timer is always the one `current_source` names. */
  ghost predicate TimerTracked(st: State)
  {
    forall id :: id in Pending(st.log) ==> st.currentSource == Some(id)
  }

  ghost predicate Inv(st: State)
  {
    RegistryConsistent(st) && SubscriptionsMatch(st) && TimerTracked(st)
  }

  /** A quiet event leaves the pending timers and the live subscriptions as they were. */
  lemma QuietLog(log: seq<Event>, e: Event)
    requires Quiet(e)
    ensures Pending(log + [e]) == Pending(log)
    ensures Subscriptions(log + [e]) == Subscriptions(log)
  {
    LogSnoc(log, e);
    assert PendingStep(Pending(log), e) == Pending(log);
    assert SubsStep(Subscriptions(log), e) == Subscriptions(log);
  }

  lemma AppendQuiet(st: State, e: Event)
    requires Inv(st) && Quiet(e)
    ensures Inv(st.(log := st.log + [e]))
    ensures Pending(st.log + [e]) == Pending(st.log)
    ensures Subscriptions(st.log + [e]) == Subscriptions(st.log)
  {
    QuietLog(st.log, e);
  }

  /** The state at import time: `Object`'s class attributes. */
  function Initial(persistent: bool): (st: State)
    ensures Inv(st)
    ensures st.senders == {} && st.currentSource == None && st.duration == DefaultDuration
    ensures st.persistent == persistent && st.quitCb == MainloopQuit
    ensures Pending(st.log) == {} && Subscriptions(st.log) == {}
  {
    State({}, map[], map[], None, DefaultDuration, persistent, MainloopQuit, [])
  }

  // ------------------------------------------------------------------
  // Quit callback
  // ------------------------------------------------------------------

  /** `quit_cb ()`: run whatever callback is installed. */
  function QuitCb(st: State): (r: State)
    ensures r.log == st.log + [Quit(st.quitCb)]
    ensures Pending(r.log) == Pending(st.log) && Subscriptions(r.log) == Subscriptions(st.log)
    ensures Inv(r) <==> Inv(st)
    ensures r.(log := st.log) == st
  {
    QuietLog(st.log, Quit(st.quitCb));
    st.(log := st.log + [Quit(st.quitCb)])
  }

  /** `set_quit_cb (cb)`: the last callback installed is the one later quits run. */
  function SetQuitCb(st: State, cb: QuitCallback): (r: State)
    ensures QuitCb(r).log == st.log + [Quit(cb)]
    ensures r.log == st.log && (Inv(r) <==> Inv(st))
    ensures r.(quitCb := st.quitCb) == st
  {
    st.(quitCb := cb)
  }

  // ------------------------------------------------------------------
  // Caller registry
  // ------------------------------------------------------------------

  /** The callers tracked on `conn`, empty when `conn` is not tracked. */
  function SendersOn(st: State, conn: Conn): set<Sender>
  {
    if conn in st.connSenders then st.connSenders[conn] else {}
  }

  /** True when the scheduler part of two states is the same. */
  predicate SameScheduler(st: State, r: State)
  {
    r.currentSource == st.currentSource && r.duration == st.duration
    && r.persistent == st.persistent && r.quitCb == st.quitCb
  }

  /**
   * `sender_seen (sender)` on an object exported on `conn`; `sub` is what
   * `add_signal_receiver` returns if it is called.
   */
  function SenderSeen(st: State, sender: Sender, conn: Conn, sub: SubId): (r: State)
    requires Inv(st)
    ensures Inv(r)
    ensures r.senders == st.senders + {(sender, conn)}
    ensures r.connSenders == st.connSenders[conn := SendersOn(st, conn) + {sender}]
    ensures conn in st.connSubs ==> r.connSubs == st.connSubs && r.log == st.log
    ensures conn !in st.connSubs ==>
              r.connSubs == st.connSubs[conn := sub] && r.log == st.log + [AddSignalReceiver(conn, sub)]
    ensures Subscriptions(r.log) == Subscriptions(st.log) + {(conn, r.connSubs[conn])}
    ensures Pending(r.log) == Pending(st.log)
    ensures SameScheduler(st, r)
  {
    if (sender, conn) in st.senders then
      assert conn in st.connSenders && sender in st.connSenders[conn];
      assert SendersOn(st, conn) + {sender} == st.connSenders[conn];
      assert st.connSenders[conn := SendersOn(st, conn) + {sender}] == st.connSenders;
      st
    else
      TrackKeepsInv(st, sender, conn, sub);
      Track(st, sender, conn, sub)
  }

  /**
   * The registration part of `sender_seen` for a new pair: record it and,
   * when `conn` was not tracked yet, subscribe to NameOwnerChanged on it.
   */
  function Track(st: State, sender: Sender, conn: Conn, sub: SubId): (r: State)
    ensures r.senders == st.senders + {(sender, conn)}
    ensures r.connSenders == st.connSenders[conn := SendersOn(st, conn) + {sender}]
    ensures conn in st.connSenders ==> r.connSubs == st.connSubs && r.log == st.log
    ensures conn !in st.connSenders ==>
              r.connSubs == st.connSubs[conn := sub] && r.log == st.log + [AddSignalReceiver(conn, sub)]
    ensures SameScheduler(st, r)
  {
    var added := st.(senders := st.senders + {(sender, conn)});
    var subscribed :=
      if conn !in added.connSenders then
        added.(connSenders := added.connSenders[conn := {}],
               connSubs := added.connSubs[conn := sub],
               log := added.log + [AddSignalReceiver(conn, sub)])
      else added;
    subscribed.(connSenders := subscribed.connSenders[conn := subscribed.connSenders[conn] + {sender}])
  }

  lemma TrackKeepsInv(st: State, sender: Sender, conn: Conn, sub: SubId)
    requires Inv(st) && (sender, conn) !in st.senders
    ensures Inv(Track(st, sender, conn, sub))
    ensures Pending(Track(st, sender, conn, sub).log) == Pending(st.log)
    ensures Subscriptions(Track(st, sender, conn, sub).log)
         == Subscriptions(st.log) + {(conn, Track(st, sender, conn, sub).connSubs[conn])}
  {
    var r := Track(st, sender, conn, sub);
    SubscribeLog(st.log, conn, sub);
    forall s, c
      ensures (s, c) in r.senders <==> c in r.connSenders && s in r.connSenders[c]
    {
      if c == conn {
        assert (s, c) in st.senders <==> s in SendersOn(st, c);
      } else {
        assert (s, c) in st.senders <==> c in st.connSenders && s in st.connSenders[c];
      }
    }
    assert RegistryConsistent(r);
    if conn in st.connSenders {
      assert (conn, st.connSubs[conn]) in Subscriptions(st.log);
      assert Subscriptions(st.log) + {(conn, r.connSubs[conn])} == Subscriptions(st.log);
    } else {
      forall c, u | (c, u) in Subscriptions(r.log)
        ensures c in r.connSubs && r.connSubs[c] == u
      {
        if (c, u) != (conn, sub) {
          assert (c, u) in Subscriptions(st.log);
        }
      }
      assert SubscriptionsMatch(r);
    }
  }

  /** Subscribing adds one live subscription and touches no timer. */
  lemma SubscribeLog(log: seq<Event>, conn: Conn, sub: SubId)
    ensures Pending(log + [AddSignalReceiver(conn, sub)]) == Pending(log)
    ensures Subscriptions(log + [AddSignalReceiver(conn, sub)]) == Subscriptions(log) + {(conn, sub)}
  {
    LogSnoc(log, AddSignalReceiver(conn, sub));
  }

  /** The notification says `oldOwner` lost its name and `oldOwner` is tracked on `conn`. */
  predicate Vanished(st: State, conn: Conn, oldOwner: Sender, newOwner: Sender)
  {
    newOwner == "" && (oldOwner, conn) in st.senders
  }

  /**
   * `_name_owner_changed (name, old_owner, new_owner)` delivered on the
   * subscription of connection `conn`.
   */
  function NameOwnerChanged(st: State, conn: Conn, name: string, oldOwner: Sender, newOwner: Sender): (r: State)
    requires Inv(st)
    ensures Inv(r)
    ensures !Vanished(st, conn, oldOwner, newOwner) ==> r == st
    ensures Vanished(st, conn, oldOwner, newOwner) ==>
              r.senders == st.senders - {(oldOwner, conn)}
              && r.connSenders == (if SendersOn(st, conn) == {oldOwner} then st.connSenders - {conn}
                                   else st.connSenders[conn := SendersOn(st, conn) - {oldOwner}])
    ensures Vanished(st, conn, oldOwner, newOwner) && SendersOn(st, conn) == {oldOwner} ==>
              r.connSubs == st.connSubs - {conn}
              && Subscriptions(r.log) == Subscriptions(st.log) - {(conn, st.connSubs[conn])}
    ensures SendersOn(st, conn) != {oldOwner} ==>
              r.connSubs == st.connSubs && Subscriptions(r.log) == Subscriptions(st.log)
    ensures Pending(r.log) == Pending(st.log)
    ensures SameScheduler(st, r)
    ensures st.log <= r.log
    ensures Quits(r.log[|st.log|..]) <==>
              Vanished(st, conn, oldOwner, newOwner) && r.senders == {} && st.currentSource == None
  {
    if newOwner == "" && (oldOwner, conn) in st.senders then
      ForgetKeepsInv(st, conn, oldOwner);
      var cleaned := Forget(st, conn, oldOwner);
      if cleaned.senders == {} && cleaned.currentSource == None then
        var r := QuitCb(cleaned);
        assert r.log[|st.log|..] == cleaned.log[|st.log|..] + [Quit(st.quitCb)];
        r
      else
        assert !Quits(cleaned.log[|st.log|..]);
        cleaned
    else
      assert st.log[|st.log|..] == [];
      st
  }

  /** A bus notification never arms a timeout: each id keeps the class that armed it. */
  lemma NameOwnerChangedKeepsArming(st: State, conn: Conn, name: string, oldOwner: Sender, newOwner: Sender,
                                    id: TimerId)
    requires Inv(st)
    ensures ArmedBy(NameOwnerChanged(st, conn, name, oldOwner, newOwner).log, id) == ArmedBy(st.log, id)
  {
    if newOwner == "" && (oldOwner, conn) in st.senders {
      var cleaned := Forget(st, conn, oldOwner);
      if SendersOn(st, conn) == {oldOwner} {
        ArmedBySnoc(st.log, RemoveSignalReceiver(conn, st.connSubs[conn]), id);
      }
      if cleaned.senders == {} && cleaned.currentSource == None {
        ArmedBySnoc(cleaned.log, Quit(st.quitCb), id);
      }
    }
  }

  /**
   * The removal part of `_name_owner_changed`: drop the pair and, when
   * `conn` has no caller left, its subscription and both table entries.
   */
  function Forget(st: State, conn: Conn, oldOwner: Sender): (r: State)
    requires RegistryConsistent(st) && (oldOwner, conn) in st.senders
    ensures r.senders == st.senders - {(oldOwner, conn)}
    ensures r.connSenders == (if SendersOn(st, conn) == {oldOwner} then st.connSenders - {conn}
                              else st.connSenders[conn := SendersOn(st, conn) - {oldOwner}])
    ensures SendersOn(st, conn) == {oldOwner} ==>
              r.connSubs == st.connSubs - {conn}
              && r.log == st.log + [RemoveSignalReceiver(conn, st.connSubs[conn])]
    ensures SendersOn(st, conn) != {oldOwner} ==> r.connSubs == st.connSubs && r.log == st.log
    ensures SameScheduler(st, r)
  {
    var remaining := st.connSenders[conn] - {oldOwner};
    var removed := st.(senders := st.senders - {(oldOwner, conn)},
                       connSenders := st.connSenders[conn := remaining]);
    if remaining == {} then
      removed.(connSenders := removed.connSenders - {conn},
               connSubs := removed.connSubs - {conn},
               log := removed.log + [RemoveSignalReceiver(conn, st.connSubs[conn])])
    else removed
  }

  lemma ForgetKeepsInv(st: State, conn: Conn, oldOwner: Sender)
    requires Inv(st) && (oldOwner, conn) in st.senders
    ensures Inv(Forget(st, conn, oldOwner))
    ensures Pending(Forget(st, conn, oldOwner).log) == Pending(st.log)
    ensures SendersOn(st, conn) == {oldOwner} ==>
              Subscriptions(Forget(st, conn, oldOwner).log) == Subscriptions(st.log) - {(conn, st.connSubs[conn])}
  {
    var r := Forget(st, conn, oldOwner);
    LogSnoc(st.log, RemoveSignalReceiver(conn, st.connSubs[conn]));
    forall s, c
      ensures (s, c) in r.senders <==> c in r.connSenders && s in r.connSenders[c]
    {
      if c == conn {
        assert (s, c) in st.senders <==> s in st.connSenders[c];
      } else {
        assert (s, c) in st.senders <==> c in st.connSenders && s in st.connSenders[c];
      }
    }
    assert RegistryConsistent(r);
    if SendersOn(st, conn) == {oldOwner} {
      forall c, u | (c, u) in Subscriptions(r.log)
        ensures c in r.connSubs && r.connSubs[c] == u
      {
        assert (c, u) in Subscriptions(st.log);
      }
    }
  }

  // ------------------------------------------------------------------
  // Idle-timeout scheduler
  // ------------------------------------------------------------------

  /** Python's truth test on the `duration` argument: `None` and `0` are false. */
  predicate Falsy(d: Option<int>)
  {
    d.None? || d.value == 0
  }

  /** The duration `timeout_restart` works with: a falsy one means the class default. */
  function Requested(cls: ServiceClass, duration: Option<int>): int
  {
    if Falsy(duration) then cls.defaultDuration else duration.value
  }

  /** Persistence (of the base class) with a live caller keeps the timer as it is. */
  predicate Suppressed(st: State)
  {
    st.persistent && st.senders != {}
  }

  /** The `source_remove` call for the stored source, if there is one. */
  function Cancel(current: Option<TimerId>): seq<Event>
  {
    if current.Some? then [SourceRemove(current.value)] else []
  }

  /** Removing the stored source leaves no timer pending. */
  lemma CancelClears(st: State)
    requires TimerTracked(st)
    ensures Pending(st.log + Cancel(st.currentSource)) == {}
    ensures Subscriptions(st.log + Cancel(st.currentSource)) == Subscriptions(st.log)
  {
    if st.currentSource.Some? {
      LogSnoc(st.log, SourceRemove(st.currentSource.value));
    } else {
      assert st.log + Cancel(st.currentSource) == st.log;
    }
  }

  /** `timeout_restart (duration)` on an object of class `cls`; `id` is what `timeout_add` returns. */
  function TimeoutRestart(st: State, cls: ServiceClass, duration: Option<int>, id: TimerId): (r: State)
    requires Inv(st)
    ensures Inv(r)
    ensures r.duration >= Requested(cls, duration)
    ensures st.duration != 0 ==> r.duration >= st.duration
    ensures r.duration == Requested(cls, duration) || r.duration == st.duration
    ensures st.duration == 0 ==> r.duration == Requested(cls, duration)
    ensures Suppressed(st) ==> r.currentSource == st.currentSource && r.log == st.log
    ensures !Suppressed(st) ==>
              r.currentSource == Some(id) && Pending(r.log) == {id}
              && r.log == st.log + Cancel(st.currentSource) + [TimeoutAdd(id, r.duration * 1000, cls)]
              && ArmedBy(r.log, id) == Some(cls)
    ensures Subscriptions(r.log) == Subscriptions(st.log)
    ensures r.senders == st.senders && r.connSenders == st.connSenders && r.connSubs == st.connSubs
    ensures r.persistent == st.persistent && r.quitCb == st.quitCb
  {
    var d := Requested(cls, duration);
    var stretched := st.(duration := if st.duration == 0 || d > st.duration then d else st.duration);
    if !st.persistent || st.senders == {} then
      var cancelled := stretched.log + Cancel(st.currentSource);
      var add := TimeoutAdd(id, stretched.duration * 1000, cls);
      CancelClears(st);
      LogSnoc(cancelled, add);
      ArmedBySnoc(cancelled, add, id);
      stretched.(currentSource := Some(id), log := cancelled + [add])
    else
      stretched
  }

  /** `Object._timeout_cb` called on class `cls` when the timeout fires. */
  function TimeoutCb(st: State, cls: ServiceClass): (r: Dispatch)
    ensures !r.again
    ensures st.senders == {} ==> r.st == QuitCb(st)
    ensures st.senders != {} ==>
              r.st.currentSource == None && r.st.duration == cls.defaultDuration && r.st.log == st.log
    ensures r.st.senders == st.senders && r.st.connSenders == st.connSenders && r.st.connSubs == st.connSubs
    ensures r.st.persistent == st.persistent && r.st.quitCb == st.quitCb
  {
    if st.senders == {} then Dispatch(QuitCb(st), false)
    else Dispatch(st.(currentSource := None, duration := cls.defaultDuration), false)
  }

  /**
   * The main loop dispatches pending timer `id`, armed by an object of
   * class `cls`: `_timeout_cb` runs and, as it returns False, the loop
   * destroys the source.
   */
  function FireTimer(st: State, cls: ServiceClass, id: TimerId): (r: State)
    requires Inv(st) && id in Pending(st.log) && ArmedBy(st.log, id) == Some(cls)
    ensures Inv(r)
    ensures Pending(r.log) == {}
    ensures st.log <= r.log
    ensures Quits(r.log[|st.log|..]) <==> st.senders == {}
    ensures st.senders == {} ==> r.currentSource == Some(id) && r.duration == st.duration
    ensures st.senders != {} ==> r.currentSource == None && r.duration == cls.defaultDuration
    ensures r.senders == st.senders && r.connSenders == st.connSenders && r.connSubs == st.connSubs
    ensures Subscriptions(r.log) == Subscriptions(st.log)
  {
    FireTimerFacts(st, cls, id);
    var d := TimeoutCb(st, cls);
    d.st.(log := d.st.log + [Expired(id)])
  }

  lemma FireTimerFacts(st: State, cls: ServiceClass, id: TimerId)
    requires Inv(st) && id in Pending(st.log)
    ensures var r := TimeoutCb(st, cls).st; var log := r.log + [Expired(id)];
      Pending(log) == {} && Subscriptions(log) == Subscriptions(st.log)
      && st.log <= log && (Quits(log[|st.log|..]) <==> st.senders == {})
      && Inv(r.(log := log))
  {
    var r := TimeoutCb(st, cls).st;
    var log := r.log + [Expired(id)];
    LogSnoc(r.log, Expired(id));
    if st.senders == {} {
      LogSnoc(st.log, Quit(st.quitCb));
      assert log[|st.log|..] == [Quit(st.quitCb), Expired(id)];
      assert log[|st.log|..][0].Quit?;
    } else {
      assert log[|st.log|..] == [Expired(id)];
    }
  }

  // ------------------------------------------------------------------
  // Method interceptor
  // ------------------------------------------------------------------

  /**
   * `wrap_method`'s choice of sender keyword: the method's own when it
   * declared one (then the body sees it), else `SenderKeyword`, hidden.
   */
  function SenderKeywordChoice(m: MethodDecl): (r: (string, bool))
    ensures r.1 <==> m.senderKeyword.None?
    ensures r.1 ==> r.0 == SenderKeyword
    ensures !r.1 ==> m.senderKeyword == Some(r.0)
  {
    match m.senderKeyword
    case Some(kw) => (kw, false)
    case None => (SenderKeyword, true)
  }

  /** Python's truth test on an action id: `None` and `""` are false. */
  predicate Truthy(a: Option<string>)
  {
    a.Some? && a.value != ""
  }

  /**
   * The PolicyKit action a call needs: the method's `_slip_polkit_auth_required`,
   * else the object's `default_polkit_auth_required`; `None` when neither is set.
   */
  function RequiredAction(m: MethodDecl, cls: ServiceClass): (r: Option<string>)
    ensures r.Some? <==> Truthy(m.requiredAction) || Truthy(cls.defaultAction)
    ensures r.Some? ==> r.value != ""
    ensures Truthy(m.requiredAction) ==> r == m.requiredAction
    ensures !Truthy(m.requiredAction) && Truthy(cls.defaultAction) ==> r == cls.defaultAction
  {
    var action := if Truthy(m.requiredAction) then m.requiredAction else cls.defaultAction;
    if Truthy(action) then action else None
  }

  /** The keyword arguments the body receives. */
  function PassedKwargs(m: MethodDecl, kwargs: map<string, Value>): (k: map<string, Value>)
    ensures SenderKeywordChoice(m).1 ==> k.Keys == kwargs.Keys - {SenderKeyword}
    ensures !SenderKeywordChoice(m).1 ==> k == kwargs
    ensures forall key :: key in k ==> key in kwargs && k[key] == kwargs[key]
  {
    var choice := SenderKeywordChoice(m);
    if choice.1 then kwargs - {choice.0} else kwargs
  }

  /**
   * The tail of the wrapper (slip/dbus/service.py:106-111): log the body's
   * call, then, only if it returns, `timeout_restart ()` with no argument.
   */
  function RunBody(st: State, obj: ServiceObject, m: MethodDecl, args: seq<Value>, kwargs: map<string, Value>,
                   body: BodyOutcome, id: TimerId): (r: Call)
    requires Inv(st)
    ensures Inv(r.st)
    ensures r.st.senders == st.senders
    ensures r.out.Return? <==> body.Returned?
    ensures r.out.BodyError? <==> body.Raised?
    ensures r.out.Return? ==> r.out.value == body.value
    ensures r.out.BodyError? ==> r.out.error == body.error
    ensures body.Raised? ==> r.st == st.(log := st.log + [BodyCall(args, PassedKwargs(m, kwargs))])
    ensures body.Returned? ==>
              r.st == TimeoutRestart(st.(log := st.log + [BodyCall(args, PassedKwargs(m, kwargs))]), obj.cls, None, id)
  {
    var call := BodyCall(args, PassedKwargs(m, kwargs));
    AppendQuiet(st, call);
    var ran := st.(log := st.log + [call]);
    match body
    case Raised(e) => Call(ran, BodyError(e))
    case Returned(v) => Call(TimeoutRestart(ran, obj.cls, None, id), Return(v))
  }

  /** The call is let through: no action is required, or PolicyKit said "yes". */
  predicate Admitted(m: MethodDecl, obj: ServiceObject, reply: AuthReply)
  {
    RequiredAction(m, obj.cls).None? || reply == Reply(Yes)
  }

  /**
   * `wrapped_method (self, *args, **kwargs)` on `obj` for method `m`.
   * `sub`, `reply`, `body` and `id` are what `add_signal_receiver`,
   * PolicyKit, the wrapped body and `timeout_add` do, if they are called.
   */
  function WrappedMethod(st: State, obj: ServiceObject, m: MethodDecl, args: seq<Value>,
                         kwargs: map<string, Value>, sub: SubId, reply: AuthReply,
                         body: BodyOutcome, id: TimerId): (r: Call)
    requires Inv(st)
    ensures Inv(r.st)
    ensures r.out.KeyMissing? <==> SenderKeywordChoice(m).0 !in kwargs
    ensures r.out.KeyMissing? ==> r.st == st
    ensures !r.out.KeyMissing? ==> (kwargs[SenderKeywordChoice(m).0], obj.conn) in r.st.senders
    ensures !r.out.KeyMissing? ==> r.out == Verdict(RequiredAction(m, obj.cls), reply, body)
    ensures r.out.AuthError? ==>
              var sender := kwargs[SenderKeywordChoice(m).0];
              r.st == Ask(SenderSeen(st, sender, obj.conn, sub), RequiredAction(m, obj.cls).value, sender)
  {
    var kw := SenderKeywordChoice(m).0;
    if kw !in kwargs then Call(st, KeyMissing(kw))
    else
      var seen := SenderSeen(st, kwargs[kw], obj.conn, sub);
      Authorize(seen, obj, m, args, kwargs, kwargs[kw], reply, body, id)
  }

  /**
   * The wrapper once `sender` is registered: the PolicyKit check when an
   * action is required, then the body.
   */
  function Authorize(seen: State, obj: ServiceObject, m: MethodDecl, args: seq<Value>,
                     kwargs: map<string, Value>, sender: Sender, reply: AuthReply,
                     body: BodyOutcome, id: TimerId): (r: Call)
    requires Inv(seen)
    ensures Inv(r.st)
    ensures r.st.senders == seen.senders
    ensures r.out == Verdict(RequiredAction(m, obj.cls), reply, body)
    ensures r.out.AuthError? ==> r.st == Ask(seen, RequiredAction(m, obj.cls).value, sender)
  {
    var action := RequiredAction(m, obj.cls);
    if action.Some? then
      var asked := Ask(seen, action.value, sender);
      match reply
      case CallFailed(e) => Call(asked, AuthError(e))
      case Reply(text) =>
        if text != Yes then
          Call(TimeoutRestart(asked, obj.cls, Some(GraceDuration), id), NotAuthorized(action.value, text))
        else
          RunBody(asked, obj, m, args, kwargs, body, id)
    else
      RunBody(seen, obj, m, args, kwargs, body, id)
  }

  /** `polkit.IsSystemBusNameAuthorized (sender, action_id)`: the query is logged and nothing else changes. */
  function Ask(st: State, action: string, sender: Sender): (r: State)
    requires Inv(st)
    ensures Inv(r)
    ensures r.log == st.log + [PolkitQuery(action, sender, true)]
    ensures r.(log := st.log) == st
  {
    AppendQuiet(st, PolkitQuery(action, sender, true));
    st.(log := st.log + [PolkitQuery(action, sender, true)])
  }

  /**
   * What the wrapper answers once the sender keyword is present, given
   * the action it needs, PolicyKit's reply and how the body ends.
   */
  function Verdict(action: Option<string>, reply: AuthReply, body: BodyOutcome): (o: Outcome)
    ensures !o.KeyMissing?
    ensures o.NotAuthorized? <==> action.Some? && reply.Reply? && reply.text != Yes
    ensures o.NotAuthorized? ==> o == NotAuthorized(action.value, reply.text)
    ensures o.AuthError? <==> action.Some? && reply.CallFailed?
    ensures o.AuthError? ==> o.error == reply.error
    ensures o.Return? || o.BodyError? <==> action.None? || reply == Reply(Yes)
    ensures o.Return? <==> (action.None? || reply == Reply(Yes)) && body.Returned?
    ensures o.Return? ==> o.value == body.value
    ensures o.BodyError? ==> o.error == body.error
  {
    if action.Some? && reply.CallFailed? then AuthError(reply.error)
    else if action.Some? && reply.text != Yes then NotAuthorized(action.value, reply.text)
    else
      match body
      case Raised(e) => BodyError(e)
      case Returned(v) => Return(v)
  }
}
