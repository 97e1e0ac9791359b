/**
 * The shared state of slip's D-Bus service objects as one mutable
 * object: the class attributes of `Object` in slip/dbus/service.py
 * (`senders`, `connections_senders`, `connections_smobjs`,
 * `current_source`, `duration`, `persistent`) and the module's quit
 * callback become fields that the methods update in place.  The
 * effects on the outside world go to the ghost `log`.  Each method is
 * proved to move `Abs()` exactly as the matching step function of
 * module `Service` does, and to keep `Valid()`.
 */
module Lifecycle {
  import opened Wrappers
  import S = Service

  class Coordinator {
    var senders: set<(S.Sender, S.Conn)>
    var connSenders: map<S.Conn, set<S.Sender>>
    var connSubs: map<S.Conn, S.SubId>
    var currentSource: Option<S.TimerId>
    var duration: int
    var persistent: bool
    var quitCb: S.QuitCallback
    ghost var log: seq<S.Event>

    /** The fields as a `Service.State` value. */
    ghost function Abs(): S.State
      reads this
    {
      S.State(senders, connSenders, connSubs, currentSource, duration, persistent, quitCb, log)
    }

    ghost predicate Valid()
      reads this
    {
      S.Inv(Abs())
    }

    /** The class attributes as `Object` declares them; `persistent` is `Object.persistent`. */
    constructor (persistent: bool)
      ensures Abs() == S.Initial(persistent)
      ensures Valid()
    {
      senders := {};
      connSenders := map[];
      connSubs := map[];
      currentSource := None;
      duration := S.DefaultDuration;
      this.persistent := persistent;
      quitCb := S.MainloopQuit;
      log := [];
    }

    /** `set_quit_cb (cb)`. */
    method SetQuitCb(cb: S.QuitCallback)
      requires Valid()
      modifies this
      ensures Abs() == S.SetQuitCb(old(Abs()), cb)
      ensures Valid()
    {
      quitCb := cb;
    }

    /** `quit_cb ()`. */
    method QuitCb()
      requires Valid()
      modifies this
      ensures Abs() == S.QuitCb(old(Abs()))
      ensures Valid()
    {
      log := log + [S.Quit(quitCb)];
    }

    /** `sender_seen (sender)` for an object exported on `conn`. */
    method SenderSeen(sender: S.Sender, conn: S.Conn, sub: S.SubId)
      requires Valid()
      modifies this
      ensures Abs() == S.SenderSeen(old(Abs()), sender, conn, sub)
      ensures Valid()
    {
      ghost var before := Abs();
      if (sender, conn) !in senders {
        senders := senders + {(sender, conn)};
        if conn !in connSenders.Keys {
          connSenders := connSenders[conn := {}];
          connSubs := connSubs[conn := sub];
          log := log + [S.AddSignalReceiver(conn, sub)];
        }
        connSenders := connSenders[conn := connSenders[conn] + {sender}];
      }
      assert Abs() == S.SenderSeen(before, sender, conn, sub);
    }

    /** `_name_owner_changed (name, old_owner, new_owner)` on connection `conn`. */
    method NameOwnerChanged(conn: S.Conn, name: string, oldOwner: S.Sender, newOwner: S.Sender)
      requires Valid()
      modifies this
      ensures Abs() == S.NameOwnerChanged(old(Abs()), conn, name, oldOwner, newOwner)
      ensures Valid()
    {
      if newOwner == "" && (oldOwner, conn) in senders {
        ghost var before := Abs();
        S.ForgetKeepsInv(before, conn, oldOwner);
        senders := senders - {(oldOwner, conn)};
        connSenders := connSenders[conn := connSenders[conn] - {oldOwner}];
        if connSenders[conn] == {} {
          log := log + [S.RemoveSignalReceiver(conn, connSubs[conn])];
          connSenders := connSenders - {conn};
          connSubs := connSubs - {conn};
        }
        assert Abs() == S.Forget(before, conn, oldOwner);
        if senders == {} && currentSource == None {
          QuitCb();
        }
      }
    }

    /** `timeout_restart (duration)` on an object of class `cls`; `id` is what `timeout_add` returns. */
    method TimeoutRestart(cls: S.ServiceClass, duration: Option<int>, id: S.TimerId)
      requires Valid()
      modifies this
      ensures Abs() == S.TimeoutRestart(old(Abs()), cls, duration, id)
      ensures Valid()
    {
      var d := if S.Falsy(duration) then cls.defaultDuration else duration.value;
      if this.duration == 0 || d > this.duration {
        this.duration := d;
      }
      if !persistent || senders == {} {
        if currentSource.Some? {
          log := log + [S.SourceRemove(currentSource.value)];
        }
        currentSource := Some(id);
        log := log + [S.TimeoutAdd(id, this.duration * 1000, cls)];
      }
    }

    /**
     * The main loop fires pending timer `id`, armed by an object of class
     * `cls` (the callback `timeout_add` was given is `cls._timeout_cb`):
     * it runs, and since it returns False the loop destroys the source
     * (the ghost `Expired` event).
     */
    method TimeoutCb(cls: S.ServiceClass, ghost id: S.TimerId) returns (again: bool)
      requires Valid() && id in S.Pending(log) && S.ArmedBy(log, id) == Some(cls)
      modifies this
      ensures Abs() == S.FireTimer(old(Abs()), cls, id)
      ensures Valid()
      ensures !again
    {
      if senders == {} {
        log := log + [S.Quit(quitCb)];
        again := false;
      } else {
        currentSource := None;
        duration := cls.defaultDuration;
        again := false;
      }
      log := log + [S.Expired(id)];
    }

    /**
     * `wrapped_method (self, *args, **kwargs)` on `obj` for method `m`.
     * `sub`, `reply`, `body` and `id` stand for what `add_signal_receiver`,
     * PolicyKit, the wrapped body and `timeout_add` do if they are called.
     */
    method WrappedMethod(obj: S.ServiceObject, m: S.MethodDecl, args: seq<S.Value>,
                         kwargs: map<string, S.Value>, sub: S.SubId, reply: S.AuthReply,
                         body: S.BodyOutcome, id: S.TimerId) returns (out: S.Outcome)
      requires Valid()
      modifies this
      ensures Valid()
      ensures Abs() == S.WrappedMethod(old(Abs()), obj, m, args, kwargs, sub, reply, body, id).st
      ensures out == S.WrappedMethod(old(Abs()), obj, m, args, kwargs, sub, reply, body, id).out
    {
      var choice := S.SenderKeywordChoice(m);
      var kw, hidden := choice.0, choice.1;
      if kw !in kwargs {
        return S.KeyMissing(kw);
      }
      var k := kwargs;
      SenderSeen(k[kw], obj.conn, sub);

      var action := S.RequiredAction(m, obj.cls);
      if action.Some? {
        S.AppendQuiet(Abs(), S.PolkitQuery(action.value, k[kw], true));
        log := log + [S.PolkitQuery(action.value, k[kw], true)];
        match reply {
          case CallFailed(e) =>
            return S.AuthError(e);
          case Reply(authorized) =>
            if authorized != S.Yes {
              TimeoutRestart(obj.cls, Some(S.GraceDuration), id);
              return S.NotAuthorized(action.value, authorized);
            }
        }
      }

      if hidden {
        k := k - {kw};
      }
      S.AppendQuiet(Abs(), S.BodyCall(args, k));
      log := log + [S.BodyCall(args, k)];
      match body {
        case Raised(e) =>
          return S.BodyError(e);
        case Returned(v) =>
          TimeoutRestart(obj.cls, None, id);
          return S.Return(v);
      }
    }
  }
}
