/**
 * Properties of single operations of slip/dbus/service.py, and of short
 * sequences of them, stated over the step functions of module `Service`.
 */
module Properties {
  import opened Wrappers
  import opened Service

  /** The kinds of effect the lemmas count. */
  datatype Kind = Rearm | Body | Quitting

  predicate OfKind(e: Event, k: Kind)
  {
    match k
    case Rearm => e.TimeoutAdd?
    case Body => e.BodyCall?
    case Quitting => e.Quit?
  }

  /** How many effects of kind `k` the events hold. */
  function Count(evs: seq<Event>, k: Kind): nat
    decreases |evs|
  {
    if evs == [] then 0
    else Count(evs[..|evs| - 1], k) + (if OfKind(evs[|evs| - 1], k) then 1 else 0)
  }

  lemma {:induction false} CountAppend(a: seq<Event>, b: seq<Event>, k: Kind)
    ensures Count(a + b, k) == Count(a, k) + Count(b, k)
    decreases |b|
  {
    if b == [] {
      assert a + b == a;
    } else {
      var front := b[..|b| - 1];
      CountAppend(a, front, k);
      assert (a + b)[..|a + b| - 1] == a + front;
    }
  }

  lemma CountAppendAll(a: seq<Event>, b: seq<Event>)
    ensures forall k :: Count(a + b, k) == Count(a, k) + Count(b, k)
  {
    forall k {
      CountAppend(a, b, k);
    }
  }

  lemma CountSingleton(e: Event)
    ensures forall k :: Count([e], k) == if OfKind(e, k) then 1 else 0
  {
    assert [e][..0] == [];
  }

  /** The effects a step added: its log minus the log it started from. */
  function NewEvents(st: State, r: State): seq<Event>
    requires st.log <= r.log
  {
    r.log[|st.log|..]
  }

  lemma NewEventsChain(st: State, mid: State, r: State)
    requires st.log <= mid.log <= r.log
    ensures NewEvents(st, r) == NewEvents(st, mid) + NewEvents(mid, r)
  {
  }

  // ------------------------------------------------------------------
  // Caller registry
  // ------------------------------------------------------------------

  /** A second `sender_seen` with the same sender on the same connection changes nothing. */
  lemma SenderSeenIdempotent(st: State, sender: Sender, conn: Conn, sub: SubId, sub': SubId)
    requires Inv(st)
    ensures var once := SenderSeen(st, sender, conn, sub);
            SenderSeen(once, sender, conn, sub') == once
  {
    var once := SenderSeen(st, sender, conn, sub);
    assert (sender, conn) in once.senders;
  }

  /** Each tracked connection has exactly one live subscription; untracked ones have none. */
  lemma OneSubscriptionPerConnection(st: State)
    requires Inv(st)
    ensures forall c, u, u' :: (c, u) in Subscriptions(st.log) && (c, u') in Subscriptions(st.log) ==> u == u'
    ensures forall c :: c in st.connSenders ==> (c, st.connSubs[c]) in Subscriptions(st.log)
    ensures forall c, u :: (c, u) in Subscriptions(st.log) ==> c in st.connSenders
  {
  }

  // ------------------------------------------------------------------
  // Idle-timeout scheduler
  // ------------------------------------------------------------------

  /** At most one GLib timeout is ever pending, and none while `current_source` is None. */
  lemma AtMostOnePendingTimer(st: State)
    requires Inv(st)
    ensures |Pending(st.log)| <= 1
    ensures st.currentSource == None ==> Pending(st.log) == {}
  {
    if st.currentSource.Some? {
      var v := st.currentSource.value;
      if v in Pending(st.log) {
        assert Pending(st.log) == {v};
      } else {
        assert Pending(st.log) == {};
      }
    } else {
      assert Pending(st.log) == {};
    }
  }

  /**
   * Only the base class's `persistent` counts: the class's own flag
   * changes nothing but the class recorded as the callback's owner.
   */
  lemma PersistenceReadFromBase(st: State, cls: ServiceClass, p: bool, duration: Option<int>, id: TimerId)
    requires Inv(st)
    ensures var own := TimeoutRestart(st, cls.(persistent := p), duration, id);
            var base := TimeoutRestart(st, cls, duration, id);
            && own.(log := base.log) == base
            && |own.log| == |base.log| && own.log[..|st.log|] == base.log[..|st.log|]
            && Pending(own.log) == Pending(base.log)
  {
  }

  /**
   * Two rearms in a row that persistence does not suppress leave exactly
   * one timer pending, the second, for the largest of the stored and the
   * two requested durations.
   */
  lemma RearmTwice(st: State, cls: ServiceClass, d1: Option<int>, d2: Option<int>, id1: TimerId, id2: TimerId)
    requires Inv(st) && !Suppressed(st) && st.duration > 0
    ensures var r := TimeoutRestart(TimeoutRestart(st, cls, d1, id1), cls, d2, id2);
            Pending(r.log) == {id2} && r.currentSource == Some(id2)
            && r.duration == Max(st.duration, Max(Requested(cls, d1), Requested(cls, d2)))
            && r.log[|r.log| - 1] == TimeoutAdd(id2, r.duration * 1000, cls)
  {
  }

  function Max(a: int, b: int): int
  {
    if a < b then b else a
  }

  /**
   * With persistence and a live caller a rearm arms nothing and leaves the
   * pending timer, if any, running.
   */
  lemma PersistentRearmKeepsTimer(st: State, cls: ServiceClass, d: Option<int>, id: TimerId)
    requires Inv(st) && st.persistent && st.senders != {}
    ensures var r := TimeoutRestart(st, cls, d, id);
            r.currentSource == st.currentSource && Pending(r.log) == Pending(st.log)
  {
  }

  // ------------------------------------------------------------------
  // Method interceptor
  // ------------------------------------------------------------------

  /** The sender keyword is present, so the call gets past line 94. */
  predicate HasSender(m: MethodDecl, kwargs: map<string, Value>)
  {
    SenderKeywordChoice(m).0 in kwargs
  }

  /** The call needs an action and PolicyKit answered something other than "yes". */
  predicate Denied(m: MethodDecl, obj: ServiceObject, reply: AuthReply)
  {
    RequiredAction(m, obj.cls).Some? && reply.Reply? && reply.text != Yes
  }

  /**
   * A denied call never runs the body, raises `NotAuthorized` with the
   * action and the answer, and rearms once with the 120 s grace period,
   * unless persistence suppresses it (the caller was just registered).
   */
  lemma DeniedCall(st: State, obj: ServiceObject, m: MethodDecl, args: seq<Value>,
                                      kwargs: map<string, Value>, sub: SubId, reply: AuthReply,
                                      body: BodyOutcome, id: TimerId)
    requires Inv(st) && HasSender(m, kwargs) && Denied(m, obj, reply)
    ensures var r := WrappedMethod(st, obj, m, args, kwargs, sub, reply, body, id);
            && st.log <= r.st.log
            && r.out == NotAuthorized(RequiredAction(m, obj.cls).value, reply.text)
            && Count(NewEvents(st, r.st), Body) == 0 && Count(NewEvents(st, r.st), Quitting) == 0
            && Count(NewEvents(st, r.st), Rearm) == (if st.persistent then 0 else 1)
            && r.st.duration == (if st.duration == 0 || GraceDuration > st.duration then GraceDuration else st.duration)
            && (!st.persistent ==>
                  r.st.currentSource == Some(id) && Pending(r.st.log) == {id}
                  && r.st.log[|r.st.log| - 1] == TimeoutAdd(id, r.st.duration * 1000, obj.cls))
            && (st.persistent ==> r.st.currentSource == st.currentSource)
  {
    var asked := Asked(st, obj, m, kwargs, sub);
    DeniedUnfold(st, obj, m, args, kwargs, sub, reply, body, id);
    var r := TimeoutRestart(asked, obj.cls, Some(GraceDuration), id);
    assert Suppressed(asked) == st.persistent;
    AskedEffects(st, obj, m, kwargs, sub);
    RearmEffects(asked, obj.cls, Some(GraceDuration), id);
    NewEventsChain(st, asked, r);
    UncountedPrefix(NewEvents(st, asked), NewEvents(asked, r));
  }

  /**
   * A call whose PolicyKit request itself fails registers the caller,
   * raises the bus error, runs no body and rearms nothing: the timer and
   * its duration are as they were.
   */
  lemma AuthFailedCall(st: State, obj: ServiceObject, m: MethodDecl, args: seq<Value>,
                       kwargs: map<string, Value>, sub: SubId, reply: AuthReply,
                       body: BodyOutcome, id: TimerId)
    requires Inv(st) && HasSender(m, kwargs) && RequiredAction(m, obj.cls).Some? && reply.CallFailed?
    ensures var r := WrappedMethod(st, obj, m, args, kwargs, sub, reply, body, id);
            && r.st == Asked(st, obj, m, kwargs, sub) && r.out == AuthError(reply.error)
            && st.log <= r.st.log
            && r.st.currentSource == st.currentSource && r.st.duration == st.duration
            && Count(NewEvents(st, r.st), Rearm) == 0 && Count(NewEvents(st, r.st), Body) == 0
            && Count(NewEvents(st, r.st), Quitting) == 0
  {
    AskedEffects(st, obj, m, kwargs, sub);
  }

  /** The state once the caller is registered and PolicyKit was asked. */
  function Asked(st: State, obj: ServiceObject, m: MethodDecl, kwargs: map<string, Value>, sub: SubId): (r: State)
    requires Inv(st) && HasSender(m, kwargs) && RequiredAction(m, obj.cls).Some?
    ensures Inv(r)
  {
    var kw := SenderKeywordChoice(m).0;
    Ask(SenderSeen(st, kwargs[kw], obj.conn, sub), RequiredAction(m, obj.cls).value, kwargs[kw])
  }

  lemma AskedEffects(st: State, obj: ServiceObject, m: MethodDecl, kwargs: map<string, Value>, sub: SubId)
    requires Inv(st) && HasSender(m, kwargs) && RequiredAction(m, obj.cls).Some?
    ensures var r := Asked(st, obj, m, kwargs, sub);
            st.log <= r.log && r.senders != {} && r.persistent == st.persistent
            && r.currentSource == st.currentSource && r.duration == st.duration
            && forall k :: Count(NewEvents(st, r), k) == 0
  {
    var kw := SenderKeywordChoice(m).0;
    var seen := SenderSeen(st, kwargs[kw], obj.conn, sub);
    var query := PolkitQuery(RequiredAction(m, obj.cls).value, kwargs[kw], true);
    var r := Asked(st, obj, m, kwargs, sub);
    SeenEffects(st, kwargs[kw], obj.conn, sub);
    CountSingleton(query);
    assert NewEvents(st, r) == NewEvents(st, seen) + [query];
    CountAppendAll(NewEvents(st, seen), [query]);
  }

  lemma DeniedUnfold(st: State, obj: ServiceObject, m: MethodDecl, args: seq<Value>,
                     kwargs: map<string, Value>, sub: SubId, reply: AuthReply,
                     body: BodyOutcome, id: TimerId)
    requires Inv(st) && HasSender(m, kwargs) && Denied(m, obj, reply)
    ensures WrappedMethod(st, obj, m, args, kwargs, sub, reply, body, id)
         == Call(TimeoutRestart(Asked(st, obj, m, kwargs, sub), obj.cls, Some(GraceDuration), id),
                 NotAuthorized(RequiredAction(m, obj.cls).value, reply.text))
  {
  }

  /** `sender_seen` adds no rearm, body call or quit. */
  lemma SeenEffects(st: State, sender: Sender, conn: Conn, sub: SubId)
    requires Inv(st)
    ensures var r := SenderSeen(st, sender, conn, sub);
            st.log <= r.log && forall k :: Count(NewEvents(st, r), k) == 0
  {
    var r := SenderSeen(st, sender, conn, sub);
    if conn in st.connSubs {
      assert NewEvents(st, r) == [];
    } else {
      assert NewEvents(st, r) == [AddSignalReceiver(conn, sub)];
      CountSingleton(AddSignalReceiver(conn, sub));
    }
  }

  /** `timeout_restart` adds one rearm unless suppressed, and no body call or quit. */
  lemma RearmEffects(st: State, cls: ServiceClass, d: Option<int>, id: TimerId)
    requires Inv(st)
    ensures var r := TimeoutRestart(st, cls, d, id);
            && st.log <= r.log
            && Count(NewEvents(st, r), Rearm) == (if Suppressed(st) then 0 else 1)
            && Count(NewEvents(st, r), Body) == 0 && Count(NewEvents(st, r), Quitting) == 0
  {
    var r := TimeoutRestart(st, cls, d, id);
    if Suppressed(st) {
      assert NewEvents(st, r) == [];
    } else {
      var cancel := Cancel(st.currentSource);
      var add := TimeoutAdd(id, r.duration * 1000, cls);
      assert NewEvents(st, r) == cancel + [add];
      CountAppendAll(cancel, [add]);
      CountSingleton(add);
      if st.currentSource.Some? {
        CountSingleton(SourceRemove(st.currentSource.value));
      }
    }
  }

  /**
   * An admitted call runs the body exactly once and never quits; a body
   * that returns is followed by one rearm unless persistence suppresses
   * it, a body that raises by none.
   */
  lemma AdmittedCall(st: State, obj: ServiceObject, m: MethodDecl, args: seq<Value>,
                                        kwargs: map<string, Value>, sub: SubId, reply: AuthReply,
                                        body: BodyOutcome, id: TimerId)
    requires Inv(st) && HasSender(m, kwargs) && Admitted(m, obj, reply)
    ensures var r := WrappedMethod(st, obj, m, args, kwargs, sub, reply, body, id);
            && st.log <= r.st.log
            && Count(NewEvents(st, r.st), Body) == 1 && Count(NewEvents(st, r.st), Quitting) == 0
            && Count(NewEvents(st, r.st), Rearm) == (if body.Raised? || st.persistent then 0 else 1)
  {
    AdmittedUnfold(st, obj, m, args, kwargs, sub, reply, body, id);
    AdmissionCounts(st, obj, m, args, kwargs, sub, body, id);
  }

  /** The effects counted from the call's start to the end of the body and its rearm. */
  lemma AdmissionCounts(st: State, obj: ServiceObject, m: MethodDecl, args: seq<Value>,
                        kwargs: map<string, Value>, sub: SubId, body: BodyOutcome, id: TimerId)
    requires Inv(st) && HasSender(m, kwargs)
    ensures var r := RunBody(Admission(st, obj, m, kwargs, sub), obj, m, args, kwargs, body, id);
            && st.log <= r.st.log
            && Count(NewEvents(st, r.st), Body) == 1 && Count(NewEvents(st, r.st), Quitting) == 0
            && Count(NewEvents(st, r.st), Rearm) == (if body.Raised? || st.persistent then 0 else 1)
  {
    var before := Admission(st, obj, m, kwargs, sub);
    AdmissionEffects(st, obj, m, kwargs, sub);
    RunBodyCounts(before, obj, m, args, kwargs, body, id);
    var r := RunBody(before, obj, m, args, kwargs, body, id);
    NewEventsChain(st, before, r.st);
    UncountedPrefix(NewEvents(st, before), NewEvents(before, r.st));
  }

  /** Events holding nothing counted add nothing to the counts of what follows them. */
  lemma UncountedPrefix(a: seq<Event>, b: seq<Event>)
    requires forall k :: Count(a, k) == 0
    ensures forall k :: Count(a + b, k) == Count(b, k)
  {
    CountAppendAll(a, b);
  }

  /**
   * An admitted call answers with the body's result or exception; a
   * returning body sets the duration to the class default when the stored
   * one is 0 or smaller than it, and keeps it otherwise, and, without
   * persistence, the new timeout as the only one pending; a
   * raising body leaves the scheduler untouched.
   */
  lemma AdmittedOutcome(st: State, obj: ServiceObject, m: MethodDecl, args: seq<Value>,
                        kwargs: map<string, Value>, sub: SubId, reply: AuthReply,
                        body: BodyOutcome, id: TimerId)
    requires Inv(st) && HasSender(m, kwargs) && Admitted(m, obj, reply)
    ensures var r := WrappedMethod(st, obj, m, args, kwargs, sub, reply, body, id);
            && (body.Raised? ==> r.out == BodyError(body.error) && r.st.currentSource == st.currentSource
                                 && r.st.duration == st.duration)
            && (body.Returned? ==> r.out == Return(body.value)
                                   && r.st.duration == (if st.duration == 0 || obj.cls.defaultDuration > st.duration
                                                        then obj.cls.defaultDuration else st.duration))
            && (body.Returned? && !st.persistent ==>
                  r.st.currentSource == Some(id) && Pending(r.st.log) == {id}
                  && r.st.log[|r.st.log| - 1] == TimeoutAdd(id, r.st.duration * 1000, obj.cls))
  {
    var before := Admission(st, obj, m, kwargs, sub);
    AdmissionEffects(st, obj, m, kwargs, sub);
    AdmittedUnfold(st, obj, m, args, kwargs, sub, reply, body, id);
    RunBodyState(before, obj, m, args, kwargs, body, id);
  }

  /**
   * The body an admitted call runs receives the positional arguments and
   * the keyword arguments minus the wrapper's own sender keyword.
   */
  lemma AdmittedBodyArguments(st: State, obj: ServiceObject, m: MethodDecl, args: seq<Value>,
                              kwargs: map<string, Value>, sub: SubId, reply: AuthReply,
                              body: BodyOutcome, id: TimerId)
    requires Inv(st) && HasSender(m, kwargs) && Admitted(m, obj, reply)
    ensures var r := WrappedMethod(st, obj, m, args, kwargs, sub, reply, body, id);
            st.log <= r.st.log && BodyCall(args, PassedKwargs(m, kwargs)) in NewEvents(st, r.st)
  {
    var before := Admission(st, obj, m, kwargs, sub);
    AdmissionEffects(st, obj, m, kwargs, sub);
    AdmittedUnfold(st, obj, m, args, kwargs, sub, reply, body, id);
    RunBodyCounts(before, obj, m, args, kwargs, body, id);
    var r := RunBody(before, obj, m, args, kwargs, body, id);
    NewEventsChain(st, before, r.st);
    InConcat(BodyCall(args, PassedKwargs(m, kwargs)), NewEvents(st, before), NewEvents(before, r.st));
  }

  lemma InConcat(e: Event, a: seq<Event>, b: seq<Event>)
    requires e in b
    ensures e in a + b
  {
    var i :| 0 <= i < |b| && b[i] == e;
    assert (a + b)[|a| + i] == e;
  }

  /** The effects of running the body and the final rearm, from the state the body starts in. */
  lemma RunBodyCounts(st: State, obj: ServiceObject, m: MethodDecl, args: seq<Value>,
                      kwargs: map<string, Value>, body: BodyOutcome, id: TimerId)
    requires Inv(st) && st.senders != {}
    ensures var r := RunBody(st, obj, m, args, kwargs, body, id);
            && st.log <= r.st.log
            && BodyCall(args, PassedKwargs(m, kwargs)) in NewEvents(st, r.st)
            && Count(NewEvents(st, r.st), Body) == 1 && Count(NewEvents(st, r.st), Quitting) == 0
            && Count(NewEvents(st, r.st), Rearm) == (if body.Raised? || st.persistent then 0 else 1)
  {
    var call := BodyCall(args, PassedKwargs(m, kwargs));
    var ran := st.(log := st.log + [call]);
    AppendQuiet(st, call);
    CountSingleton(call);
    assert NewEvents(st, ran) == [call];
    var r := RunBody(st, obj, m, args, kwargs, body, id);
    match body {
      case Raised(e) =>
        assert r.st == ran;
      case Returned(v) =>
        assert r.st == TimeoutRestart(ran, obj.cls, None, id);
        assert Suppressed(ran) == st.persistent;
        RearmEffects(ran, obj.cls, None, id);
        NewEventsChain(st, ran, r.st);
        CountAppendAll([call], NewEvents(ran, r.st));
    }
  }

  /** The answer and the scheduler after running the body, from the state the body starts in. */
  lemma RunBodyState(st: State, obj: ServiceObject, m: MethodDecl, args: seq<Value>,
                     kwargs: map<string, Value>, body: BodyOutcome, id: TimerId)
    requires Inv(st) && st.senders != {}
    ensures var r := RunBody(st, obj, m, args, kwargs, body, id);
            && (body.Raised? ==> r.out == BodyError(body.error) && r.st.currentSource == st.currentSource
                                 && r.st.duration == st.duration)
            && (body.Returned? ==> r.out == Return(body.value)
                                   && r.st.duration == (if st.duration == 0 || obj.cls.defaultDuration > st.duration
                                                        then obj.cls.defaultDuration else st.duration))
            && (body.Returned? && !st.persistent ==>
                  r.st.currentSource == Some(id) && Pending(r.st.log) == {id}
                  && r.st.log[|r.st.log| - 1] == TimeoutAdd(id, r.st.duration * 1000, obj.cls))
  {
    var ran := st.(log := st.log + [BodyCall(args, PassedKwargs(m, kwargs))]);
    assert Suppressed(ran) == st.persistent;
  }

  /** The state in which an admitted call's body starts. */
  function Admission(st: State, obj: ServiceObject, m: MethodDecl, kwargs: map<string, Value>, sub: SubId): (r: State)
    requires Inv(st) && HasSender(m, kwargs)
    ensures Inv(r)
  {
    if RequiredAction(m, obj.cls).Some? then Asked(st, obj, m, kwargs, sub)
    else SenderSeen(st, kwargs[SenderKeywordChoice(m).0], obj.conn, sub)
  }

  lemma AdmissionEffects(st: State, obj: ServiceObject, m: MethodDecl, kwargs: map<string, Value>, sub: SubId)
    requires Inv(st) && HasSender(m, kwargs)
    ensures var r := Admission(st, obj, m, kwargs, sub);
            st.log <= r.log && r.senders != {} && r.persistent == st.persistent
            && r.currentSource == st.currentSource && r.duration == st.duration
            && forall k :: Count(NewEvents(st, r), k) == 0
  {
    if RequiredAction(m, obj.cls).Some? {
      AskedEffects(st, obj, m, kwargs, sub);
    } else {
      SeenEffects(st, kwargs[SenderKeywordChoice(m).0], obj.conn, sub);
    }
  }

  lemma AdmittedUnfold(st: State, obj: ServiceObject, m: MethodDecl, args: seq<Value>,
                       kwargs: map<string, Value>, sub: SubId, reply: AuthReply,
                       body: BodyOutcome, id: TimerId)
    requires Inv(st) && HasSender(m, kwargs) && Admitted(m, obj, reply)
    ensures WrappedMethod(st, obj, m, args, kwargs, sub, reply, body, id)
         == RunBody(Admission(st, obj, m, kwargs, sub), obj, m, args, kwargs, body, id)
  {
  }

  /**
   * Whatever happens, one call to the wrapper rearms at most once, runs the
   * body at most once and never quits.
   */
  lemma AtMostOneRearmPerCall(st: State, obj: ServiceObject, m: MethodDecl, args: seq<Value>,
                              kwargs: map<string, Value>, sub: SubId, reply: AuthReply,
                              body: BodyOutcome, id: TimerId)
    requires Inv(st)
    ensures var r := WrappedMethod(st, obj, m, args, kwargs, sub, reply, body, id);
            && st.log <= r.st.log
            && Count(NewEvents(st, r.st), Rearm) <= 1
            && Count(NewEvents(st, r.st), Body) <= 1
            && Count(NewEvents(st, r.st), Quitting) == 0
  {
    var r := WrappedMethod(st, obj, m, args, kwargs, sub, reply, body, id);
    if !HasSender(m, kwargs) {
      assert NewEvents(st, r.st) == [];
    } else if Denied(m, obj, reply) {
      DeniedCall(st, obj, m, args, kwargs, sub, reply, body, id);
    } else if Admitted(m, obj, reply) {
      AdmittedCall(st, obj, m, args, kwargs, sub, reply, body, id);
    } else {
      AskedEffects(st, obj, m, kwargs, sub);
      assert r.st == Asked(st, obj, m, kwargs, sub);
    }
  }
}
