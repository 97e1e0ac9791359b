/**
 * Properties of whole runs of the coordinator of slip/dbus/service.py:
 * any interleaving of remote calls, NameOwnerChanged notifications,
 * timer expiries and quit-callback changes on the one event-loop thread.
 */
module Traces {
  import opened Wrappers
  import opened Service
  import opened Properties

  // ------------------------------------------------------------------
  // The caller registry against an independent reference
  // ------------------------------------------------------------------

  /** What reaches the registry: a caller seen by `sender_seen`, or a NameOwnerChanged signal. */
  datatype RegOp =
    | Observe(sender: Sender, conn: Conn, sub: SubId)
    | OwnerChanged(conn: Conn, name: string, oldOwner: Sender, newOwner: Sender)

  function ApplyReg(st: State, op: RegOp): (r: State)
    requires Inv(st)
    ensures Inv(r)
  {
    match op
    case Observe(s, c, u) => SenderSeen(st, s, c, u)
    case OwnerChanged(c, n, o, w) => NameOwnerChanged(st, c, n, o, w)
  }

  function RunRegistry(st: State, ops: seq<RegOp>): (r: State)
    requires Inv(st)
    ensures Inv(r)
    decreases |ops|
  {
    if ops == [] then st else RunRegistry(ApplyReg(st, ops[0]), ops[1..])
  }

  /**
   * The reference: the pairs seen and not since reported gone by a
   * NameOwnerChanged signal with an empty new owner.
   */
  function LiveAfter(live: set<(Sender, Conn)>, ops: seq<RegOp>): set<(Sender, Conn)>
    decreases |ops|
  {
    if ops == [] then live
    else
      var next :=
        match ops[0]
        case Observe(s, c, _) => live + {(s, c)}
        case OwnerChanged(c, _, o, w) => if w == "" then live - {(o, c)} else live;
      LiveAfter(next, ops[1..])
  }

  /** The registry holds exactly the pairs the reference says are live. */
  lemma {:induction false} RegistryTracksLive(st: State, ops: seq<RegOp>)
    requires Inv(st)
    ensures RunRegistry(st, ops).senders == LiveAfter(st.senders, ops)
    decreases |ops|
  {
    if ops != [] {
      var next := ApplyReg(st, ops[0]);
      match ops[0] {
        case Observe(s, c, u) =>
          assert next.senders == st.senders + {(s, c)};
        case OwnerChanged(c, n, o, w) =>
          assert next.senders == if w == "" then st.senders - {(o, c)} else st.senders;
      }
      RegistryTracksLive(next, ops[1..]);
    }
  }

  /** From start-up, the registry is empty exactly when no seen caller is still live. */
  lemma RegistryEmptyIffNoneLive(persistent: bool, ops: seq<RegOp>)
    ensures (RunRegistry(Initial(persistent), ops).senders == {}) <==> LiveAfter({}, ops) == {}
  {
    RegistryTracksLive(Initial(persistent), ops);
  }

  // ------------------------------------------------------------------
  // Whole runs
  // ------------------------------------------------------------------

  /** What the event loop delivers to the coordinator. */
  datatype Op =
    | Invoke(obj: ServiceObject, m: MethodDecl, args: seq<Value>, kwargs: map<string, Value>,
             sub: SubId, reply: AuthReply, body: BodyOutcome, id: TimerId)
    | Notify(conn: Conn, name: string, oldOwner: Sender, newOwner: Sender)
    | Fire                             // the pending timeout, if any, expires
    | InstallQuit(cb: QuitCallback)    // `set_quit_cb`

  function Step(st: State, op: Op): (r: State)
    requires Inv(st)
    ensures Inv(r)
  {
    match op
    case Invoke(obj, m, args, kwargs, sub, reply, body, id) =>
      WrappedMethod(st, obj, m, args, kwargs, sub, reply, body, id).st
    case Notify(c, n, o, w) => NameOwnerChanged(st, c, n, o, w)
    case Fire =>
      if st.currentSource.Some? && st.currentSource.value in Pending(st.log)
      then
        // the callback is the one of the class that armed this timeout
        PendingWasArmed(st.log, st.currentSource.value);
        FireTimer(st, ArmedBy(st.log, st.currentSource.value).value, st.currentSource.value)
      else st
    case InstallQuit(cb) => SetQuitCb(st, cb)
  }

  function Run(st: State, ops: seq<Op>): (r: State)
    requires Inv(st)
    ensures Inv(r)
    decreases |ops|
  {
    if ops == [] then st else Run(Step(st, ops[0]), ops[1..])
  }

  /** Every state reached from start-up has at most one pending timeout and one subscription per connection. */
  lemma ReachableStatesAreSound(persistent: bool, ops: seq<Op>)
    ensures var r := Run(Initial(persistent), ops);
            |Pending(r.log)| <= 1
            && (forall c, u, u' :: (c, u) in Subscriptions(r.log) && (c, u') in Subscriptions(r.log) ==> u == u')
            && (forall s, c :: (s, c) in r.senders ==> (c, r.connSubs[c]) in Subscriptions(r.log))
  {
    var r := Run(Initial(persistent), ops);
    AtMostOnePendingTimer(r);
    OneSubscriptionPerConnection(r);
  }

  /** A step quits only when no caller is registered afterwards. */
  lemma StepQuitsOnlyWhenIdle(st: State, op: Op)
    requires Inv(st)
    ensures var r := Step(st, op);
            st.log <= r.log && (Quits(r.log[|st.log|..]) ==> r.senders == {})
  {
    var r := Step(st, op);
    match op {
      case Invoke(obj, m, args, kwargs, sub, reply, body, id) =>
        AtMostOneRearmPerCall(st, obj, m, args, kwargs, sub, reply, body, id);
        NoQuitCounted(r.log[|st.log|..]);
      case Notify(c, n, o, w) =>
      case Fire =>
        if !(st.currentSource.Some? && st.currentSource.value in Pending(st.log)) {
          assert r.log[|st.log|..] == [];
        }
      case InstallQuit(cb) =>
        assert r.log[|st.log|..] == [];
    }
  }

  /** Events with no quit counted hold no quit. */
  lemma {:induction false} NoQuitCounted(evs: seq<Event>)
    requires Count(evs, Quitting) == 0
    ensures !Quits(evs)
    decreases |evs|
  {
    if evs != [] {
      var front := evs[..|evs| - 1];
      NoQuitCounted(front);
      assert evs == front + [evs[|evs| - 1]];
    }
  }

  // ------------------------------------------------------------------
  // Scenarios
  // ------------------------------------------------------------------

  /**
   * Two callers on one connection: the first one vanishing keeps the
   * subscription and does not quit; the second one vanishing removes the
   * subscription and quits when no timeout is pending.
   */
  lemma SharedConnectionQuitsOnLastVanish(st: State, a: Sender, b: Sender, k: Conn, sub: SubId, sub': SubId)
    requires Inv(st) && st.senders == {} && a != b
    ensures var both := SenderSeen(SenderSeen(st, a, k, sub), b, k, sub');
            var oneGone := NameOwnerChanged(both, k, a, a, "");
            var allGone := NameOwnerChanged(oneGone, k, b, b, "");
            && both.log <= oneGone.log <= allGone.log
            && oneGone.senders == {(b, k)} && !Quits(oneGone.log[|both.log|..])
            && (k, sub) in Subscriptions(oneGone.log)
            && allGone.senders == {} && allGone.connSenders == map[]
            && Subscriptions(allGone.log) == {}
            && (Quits(allGone.log[|oneGone.log|..]) <==> st.currentSource == None)
  {
    var both := SenderSeen(SenderSeen(st, a, k, sub), b, k, sub');
    TwoCallersOnOne(st, a, b, k, sub, sub');
    FirstOfTwoVanishes(both, a, b, k, sub);
    var oneGone := NameOwnerChanged(both, k, a, a, "");
    LastVanishes(oneGone, b, k, sub);
  }

  /** One of two callers on `k` vanishing keeps the subscription and does not quit. */
  lemma FirstOfTwoVanishes(st: State, a: Sender, b: Sender, k: Conn, sub: SubId)
    requires Inv(st) && a != b
    requires st.senders == {(a, k), (b, k)} && st.connSenders == map[k := {a, b}]
    requires Subscriptions(st.log) == {(k, sub)}
    ensures var r := NameOwnerChanged(st, k, a, a, "");
            && r.senders == {(b, k)} && r.connSenders == map[k := {b}]
            && Subscriptions(r.log) == {(k, sub)}
            && r.currentSource == st.currentSource
            && !Quits(r.log[|st.log|..])
  {
    assert SendersOn(st, k) == {a, b} && {a, b} != {a};
    assert SendersOn(st, k) - {a} == {b};
    assert st.senders - {(a, k)} == {(b, k)};
  }

  /** The last caller on `k` vanishing drops the subscription, and quits unless a timeout is pending. */
  lemma LastVanishes(st: State, b: Sender, k: Conn, sub: SubId)
    requires Inv(st)
    requires st.senders == {(b, k)} && st.connSenders == map[k := {b}]
    requires Subscriptions(st.log) == {(k, sub)}
    ensures var r := NameOwnerChanged(st, k, b, b, "");
            && r.senders == {} && r.connSenders == map[]
            && Subscriptions(r.log) == {}
            && (Quits(r.log[|st.log|..]) <==> st.currentSource == None)
  {
    assert SendersOn(st, k) == {b};
    assert st.connSubs[k] == sub;
    assert st.senders - {(b, k)} == {};
    assert map[k := {b}] - {k} == map[];
  }

  /** Two callers seen on one connection of an empty registry share one subscription. */
  lemma TwoCallersOnOne(st: State, a: Sender, b: Sender, k: Conn, sub: SubId, sub': SubId)
    requires Inv(st) && st.senders == {} && a != b
    ensures var both := SenderSeen(SenderSeen(st, a, k, sub), b, k, sub');
            && both.senders == {(a, k), (b, k)}
            && both.connSenders == map[k := {a, b}]
            && Subscriptions(both.log) == {(k, sub)}
            && both.currentSource == st.currentSource
  {
    EmptyRegistry(st);
    var first := SenderSeen(st, a, k, sub);
    assert SendersOn(st, k) + {a} == {a};
    assert first.connSenders == map[k := {a}];
    assert SendersOn(first, k) + {b} == {a, b};
  }

  /** A registry with no caller tracks no connection and holds no subscription. */
  lemma EmptyRegistry(st: State)
    requires Inv(st) && st.senders == {}
    ensures st.connSenders == map[] && st.connSubs == map[] && Subscriptions(st.log) == {}
  {
    TrackedConnectionsHaveCallers(st);
    assert st.connSubs.Keys == {};
    SubscribedConnectionsTracked(st);
  }

  /** Every live subscription belongs to a connection in `connSubs`. */
  lemma SubscribedConnectionsTracked(st: State)
    requires SubscriptionsMatch(st)
    ensures forall p :: p in Subscriptions(st.log) ==> p.0 in st.connSubs
  {
    forall p | p in Subscriptions(st.log) ensures p.0 in st.connSubs {
      assert (p.0, p.1) == p;
    }
  }

  /** Every connection in `connSenders` has a registered caller. */
  lemma TrackedConnectionsHaveCallers(st: State)
    requires RegistryConsistent(st)
    ensures forall c :: c in st.connSenders ==> exists x :: (x, c) in st.senders
  {
    forall c | c in st.connSenders ensures exists x :: (x, c) in st.senders {
      var x :| x in st.connSenders[c];
      assert (x, c) in st.senders;
    }
  }

  /**
   * A non-persistent service: a caller makes one successful unguarded call
   * and then vanishes.  The call armed a timeout, so the vanishing does
   * not quit; the quit comes when that timeout expires.
   */
  lemma VanishAfterCallWaitsForTimer(st: State, obj: ServiceObject, m: MethodDecl, args: seq<Value>,
                                     a: Sender, sub: SubId, v: Value, id: TimerId)
    requires Inv(st) && st.senders == {} && !st.persistent
    requires RequiredAction(m, obj.cls).None?
    ensures var kwargs := map[SenderKeywordChoice(m).0 := a];
            var called := WrappedMethod(st, obj, m, args, kwargs, sub, Reply(Yes), Returned(v), id);
            var gone := NameOwnerChanged(called.st, obj.conn, a, a, "");
            && called.out == Return(v)
            && called.st.log <= gone.log
            && gone.senders == {} && !Quits(gone.log[|called.st.log|..])
            && id in Pending(gone.log) && ArmedBy(gone.log, id) == Some(obj.cls)
            && var fired := FireTimer(gone, obj.cls, id);
               gone.log <= fired.log && Quits(fired.log[|gone.log|..])
  {
    var kwargs := map[SenderKeywordChoice(m).0 := a];
    AdmittedOutcome(st, obj, m, args, kwargs, sub, Reply(Yes), Returned(v), id);
    var called := WrappedMethod(st, obj, m, args, kwargs, sub, Reply(Yes), Returned(v), id);
    assert called.st.senders == {(a, obj.conn)};
    var gone := NameOwnerChanged(called.st, obj.conn, a, a, "");
    assert called.st.currentSource == Some(id);
    NameOwnerChangedKeepsArming(called.st, obj.conn, a, a, "", id);
  }

  /**
   * A persistent service: a caller's unguarded call arms no timeout, so
   * when that caller vanishes the service quits at once.
   */
  lemma PersistentVanishQuitsAtOnce(st: State, obj: ServiceObject, m: MethodDecl, args: seq<Value>,
                                    a: Sender, sub: SubId, v: Value, id: TimerId)
    requires Inv(st) && st.senders == {} && st.currentSource == None && st.persistent
    requires RequiredAction(m, obj.cls).None?
    ensures var kwargs := map[SenderKeywordChoice(m).0 := a];
            var called := WrappedMethod(st, obj, m, args, kwargs, sub, Reply(Yes), Returned(v), id);
            var gone := NameOwnerChanged(called.st, obj.conn, a, a, "");
            && called.out == Return(v) && called.st.currentSource == None
            && called.st.log <= gone.log
            && gone.senders == {} && Quits(gone.log[|called.st.log|..])
  {
    var kwargs := map[SenderKeywordChoice(m).0 := a];
    AdmittedOutcome(st, obj, m, args, kwargs, sub, Reply(Yes), Returned(v), id);
    var called := WrappedMethod(st, obj, m, args, kwargs, sub, Reply(Yes), Returned(v), id);
    assert called.st.senders == {(a, obj.conn)};
  }
}
