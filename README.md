# slip D-Bus service lifecycle, modelled in Dafny

This project models the lifecycle and authorization coordinator of
`slip.dbus.service`. That coordinator is the part of python-slip that lets
a D-Bus–activated system service quit by itself when nobody uses it, and
lets it guard its remote methods with PolicyKit.

All service objects share one set of class attributes on `Object`:

- **Caller registry.** `senders`, `connections_senders` and
  `connections_smobjs` record every remote caller seen, per bus connection.
  They also record the NameOwnerChanged subscription per connection.
  `sender_seen` adds to the registry; `_name_owner_changed` removes a
  caller when its bus name disappears.
- **Idle-timeout scheduler.** `current_source`, `duration` and `persistent`
  keep at most one GLib timeout armed. `timeout_restart` re-arms it, and
  `_timeout_cb` runs when it fires.
- **Quit callback.** A replaceable function, `set_quit_cb` / `quit_cb`,
  stops the service.
- **Method interceptor.** `wrapped_method`, built by `wrap_method`, runs
  around every exported method. It records the caller and checks the
  PolicyKit action the method or the class requires. It then runs the body
  and re-arms the timeout.

The model has four modules:

- **`Service`** (`service.dfy`) writes the shared state as a value,
  `State`, with one function per source operation. Every effect on the
  outside world is an `Event` appended to the state's `log`. These effects
  are: subscribing and unsubscribing, `timeout_add`, `source_remove`, the
  loop destroying an expired source, quitting, asking PolicyKit, and
  running the body. The timers still pending (`Pending`) and the live
  subscriptions (`Subscriptions`) are computed from that log. The invariant
  `Inv` ties the bookkeeping to them:
  - the three registry tables agree;
  - every tracked connection has exactly the one live subscription
    recorded for it;
  - any pending timer is the one `current_source` names.

  Every operation preserves `Inv`.
- **`Lifecycle`** (`coordinator.dfy`) is the same state as a mutable
  object, `Coordinator`, whose methods update its fields in place as the
  Python code does. Each method is proved to move `Abs()` exactly as the
  matching `Service` function does, and to keep `Valid()`.
- **`Properties`** (`properties.dfy`) proves facts about one operation or
  a short sequence of them. It counts the re-arms, body runs and quits a
  call causes.
- **`Traces`** (`traces.dfy`) covers whole runs: any interleaving of calls,
  NameOwnerChanged signals, timer expiries and quit-callback changes. It
  checks the registry against an independent reference, `LiveAfter`, and
  proves the life-cycle scenarios with one or two callers.

Python's truth tests are written out:

- A falsy `duration` is `None` or `0`.
- A falsy action id is `None` or `""`.
- A falsy `new_owner` is `""`.
- A stored GLib source id is never 0, so a stored source is always truthy.

## Model

| member | source | states |
|---|---|---|
| Service.Initial | slip/dbus/service.py:148-159 | start-up state: no caller, no timer pending, no subscription, duration 5, base persistence as given, the module's default `mainloop.quit` (line 39) as the quit callback; satisfies the invariant |
| Service.QuitCb | slip/dbus/service.py:49-51 | `quit_cb` runs the installed callback and changes nothing else: no timer, subscription or registry entry |
| Service.SetQuitCb | slip/dbus/service.py:45-47 | after `set_quit_cb(cb)`, the next quit runs `cb`; nothing else changes |
| Service.SenderSeen | slip/dbus/service.py:197-207 | keeps the invariant; the pair is added to `senders` and the sender to its connection's set; subscribes exactly when the connection was untracked, which adds one live subscription; timers untouched |
| Service.Track | slip/dbus/service.py:198-207 | registering a new pair creates the connection's entries and subscription only when the connection was not tracked |
| Service.TrackKeepsInv | slip/dbus/service.py:198-207 | registering a new pair keeps the registry consistent and adds exactly the connection's subscription to the live ones |
| Service.NameOwnerChanged | slip/dbus/service.py:172-185 | a no-op unless the new owner is empty and the pair is tracked; otherwise removes the pair, and the connection's entries and subscription when its last caller goes; quits iff no caller is left and no timeout is armed; keeps the invariant |
| Service.Forget | slip/dbus/service.py:175-182 | removing a pair drops the connection's entries and unsubscribes exactly when the pair was its last caller |
| Service.ForgetKeepsInv | slip/dbus/service.py:175-182 | removing a pair keeps the registry consistent and takes away exactly the connection's subscription when it empties |
| Service.CancelClears | slip/dbus/service.py:193-194 | removing the stored source leaves no timer pending |
| Service.TimeoutRestart | slip/dbus/service.py:187-195 | duration becomes the requested one (the class default when falsy) if the stored one is 0 or smaller than the requested one, and stays otherwise; unless base persistence holds with live callers, the old source is removed and the new one is the only pending timer, armed for duration×1000 ms with the calling class's `_timeout_cb`; with it, nothing is armed or removed; registry untouched |
| Service.TimeoutCb | slip/dbus/service.py:161-170 | never asks to be called again; quits when no caller is registered; otherwise clears `current_source` and resets the duration to the class default, touching nothing else |
| Service.FireTimer | slip/dbus/service.py:161-170 | a pending timeout, fired as the callback of the class that armed it, leaves no timer pending and keeps the invariant; it quits iff no caller is registered, and then `current_source` keeps the expired id |
| Service.FireTimerFacts | slip/dbus/service.py:161-170 | the log after the callback and the source's destruction has no pending timer and quits iff there is no caller |
| Service.SenderKeywordChoice | slip/dbus/service.py:86-91 | the method's own sender keyword, shown to the body, when it declared one; otherwise `__slip_dbus_service_sender__`, hidden |
| Service.RequiredAction | slip/dbus/service.py:96-99 | an action is required iff the method's or the class's action id is truthy; the method's wins; never empty |
| Service.PassedKwargs | slip/dbus/service.py:106-107 | the body gets the keyword arguments with only the wrapper's own sender keyword removed |
| Service.RunBody | slip/dbus/service.py:106-111 | running the body keeps the registry; returns iff the body returns, with its value; raises iff the body raises, with its exception; a raising body only logs its call, a returning one is followed by exactly `timeout_restart ()` with no argument |
| Service.PendingWasArmed | slip/dbus/service.py:195 | every pending timeout was armed by some class, whose `_timeout_cb` it calls |
| Service.NameOwnerChangedKeepsArming | slip/dbus/service.py:172-185 | a NameOwnerChanged signal never changes which class armed a timeout |
| Service.WrappedMethod | slip/dbus/service.py:93-113 | KeyError iff the sender keyword is absent, and then nothing changes; otherwise the caller is registered, the invariant kept, and the answer is `Verdict` of the required action, PolicyKit's reply and the body; when the PolicyKit call fails, the state is the registration plus the query and nothing else |
| Service.Authorize | slip/dbus/service.py:96-113 | after registration the answer is `Verdict(...)` and the registry is not changed again; a failing PolicyKit call leaves the state right after the query |
| Service.Ask | slip/dbus/service.py:100 | asking PolicyKit logs one query for the caller's bus name and action, with revoke-if-one-shot set, and changes nothing else |
| Service.Verdict | slip/dbus/service.py:99-113 | NotAuthorized, carrying the action and the answer, iff an action is required and the answer is not "yes"; the PolicyKit call's exception iff it failed; otherwise the body's value or exception |
| Properties.SenderSeenIdempotent | slip/dbus/service.py:198 | a second `sender_seen` of the same pair changes nothing |
| Properties.OneSubscriptionPerConnection | slip/dbus/service.py:200-206 | one live subscription per tracked connection, none for an untracked one |
| Properties.AtMostOnePendingTimer | slip/dbus/service.py:193-195 | at most one timeout pending, none while `current_source` is None |
| Properties.PersistenceReadFromBase | slip/dbus/service.py:192 | a subclass's own `persistent` flag changes nothing in `timeout_restart` but the class recorded as the callback's owner |
| Properties.RearmTwice | slip/dbus/service.py:187-195 | two re-arms that persistence does not suppress leave only the second timer pending, for the largest of the stored and requested durations |
| Properties.PersistentRearmKeepsTimer | slip/dbus/service.py:192-195 | with persistence and a live caller, a re-arm leaves the pending timer as it was |
| Properties.SeenEffects | slip/dbus/service.py:197-207 | `sender_seen` re-arms nothing, runs nothing and never quits |
| Properties.RearmEffects | slip/dbus/service.py:187-195 | `timeout_restart` arms exactly one timer unless suppressed by persistence, and runs nothing and never quits |
| Properties.AskedEffects | slip/dbus/service.py:94-100 | registration plus the PolicyKit query leave at least one caller, keep the scheduler, and add no re-arm, body run or quit |
| Properties.DeniedCall | slip/dbus/service.py:99-104 | a denied call never runs the body or quits, answers NotAuthorized with the action and the answer, and arms exactly one timer for the class, unless persistence suppresses it; the duration becomes 120 s if the stored one is 0 or smaller than 120, and stays otherwise |
| Properties.AuthFailedCall | slip/dbus/service.py:96-100 | a call whose PolicyKit request fails registers the caller and logs the query, raises the bus error, runs no body, re-arms nothing, never quits, and keeps the timer and duration |
| Properties.AdmittedCall | slip/dbus/service.py:106-111 | an admitted call runs the body exactly once, never quits, and re-arms once iff the body returns and the service is not persistent |
| Properties.AdmittedOutcome | slip/dbus/service.py:109-113 | an admitted call whose body returns answers with its value and sets the duration to the class default if the stored one is 0 or smaller than that default and keeps it otherwise and, without persistence, leaves the new timer, armed for that duration by the class, as the only pending one; a raising body's exception is the answer and the scheduler is untouched |
| Properties.AdmittedBodyArguments | slip/dbus/service.py:106-109 | the body receives the positional arguments and the keyword arguments without the hidden sender keyword |
| Properties.RunBodyCounts | slip/dbus/service.py:109-111 | running the body logs exactly one body call and at most the one re-arm that follows a return |
| Properties.RunBodyState | slip/dbus/service.py:109-113 | after the body, the answer is its value or exception; a return re-arms for the class default or the larger stored duration, a raise leaves the scheduler untouched |
| Properties.AtMostOneRearmPerCall | slip/dbus/service.py:93-113 | whatever happens, one call re-arms at most once, runs the body at most once and never quits |
| Traces.RegistryTracksLive | slip/dbus/service.py:172-207 | over any sequence of sightings and NameOwnerChanged signals, `senders` is exactly the pairs seen and not since reported gone |
| Traces.RegistryEmptyIffNoneLive | slip/dbus/service.py:184 | from start-up, the registry is empty iff no seen caller is still live |
| Traces.ApplyReg | slip/dbus/service.py:172-207 | one registry operation keeps the invariant |
| Traces.RunRegistry | slip/dbus/service.py:172-207 | any sequence of registry operations keeps the invariant |
| Traces.Step | slip/dbus/service.py:93-207 | any call, signal, expiry (run by the class that armed the timer) or change of quit callback keeps the invariant |
| Traces.Run | slip/dbus/service.py:93-207 | any run keeps the invariant |
| Traces.ReachableStatesAreSound | slip/dbus/service.py:187-207 | every reachable state has at most one pending timer, one subscription per connection, and a live subscription for every caller's connection |
| Traces.StepQuitsOnlyWhenIdle | slip/dbus/service.py:161-185 | any step that quits leaves no registered caller |
| Traces.TwoCallersOnOne | slip/dbus/service.py:197-207 | two callers on one connection share one entry and one subscription |
| Traces.FirstOfTwoVanishes | slip/dbus/service.py:175-185 | one of two callers on a connection vanishing keeps the subscription and does not quit |
| Traces.LastVanishes | slip/dbus/service.py:175-185 | the last caller vanishing drops the subscription and quits iff no timeout is armed |
| Traces.SharedConnectionQuitsOnLastVanish | slip/dbus/service.py:172-207 | two callers on one connection: the first vanishing keeps the subscription and does not quit; the second removes it, and quits iff no timeout is armed |
| Traces.EmptyRegistry | slip/dbus/service.py:154-156 | with no caller, no connection is tracked and no subscription is live |
| Traces.TrackedConnectionsHaveCallers | slip/dbus/service.py:179-182 | a tracked connection always has a registered caller |
| Traces.SubscribedConnectionsTracked | slip/dbus/service.py:200-206 | every live subscription belongs to a tracked connection |
| Traces.VanishAfterCallWaitsForTimer | slip/dbus/service.py:184 | in a non-persistent service, a caller's successful unguarded call arms a timer, so its vanishing does not quit; the timer stays armed by the object's class, and the quit comes when it fires |
| Traces.PersistentVanishQuitsAtOnce | slip/dbus/service.py:192 | in a persistent service with no timer armed, a call arms nothing, so the caller vanishing quits at once |
| Lifecycle.Coordinator.constructor | slip/dbus/service.py:148-159 | the fields start as `Object`'s class attributes; the invariant holds |
| Lifecycle.Coordinator.SetQuitCb | slip/dbus/service.py:45-47 | updates the field exactly as `Service.SetQuitCb` does; keeps the invariant |
| Lifecycle.Coordinator.QuitCb | slip/dbus/service.py:49-51 | logs the installed callback's run exactly as `Service.QuitCb` does |
| Lifecycle.Coordinator.SenderSeen | slip/dbus/service.py:197-207 | updates the tables in place exactly as `Service.SenderSeen` does; keeps the invariant |
| Lifecycle.Coordinator.NameOwnerChanged | slip/dbus/service.py:172-185 | updates the tables in place exactly as `Service.NameOwnerChanged` does; keeps the invariant |
| Lifecycle.Coordinator.TimeoutRestart | slip/dbus/service.py:187-195 | updates duration, source and log exactly as `Service.TimeoutRestart` does; keeps the invariant |
| Lifecycle.Coordinator.TimeoutCb | slip/dbus/service.py:161-170 | called for the class that armed the pending timer, returns False, and the state moves exactly as `Service.FireTimer` says |
| Lifecycle.Coordinator.WrappedMethod | slip/dbus/service.py:93-113 | state and answer are exactly those of `Service.WrappedMethod`; keeps the invariant |

## Behaviour as written

Behaviour of the code that a caller might not expect, and that the
model keeps:

- **A raising body is not followed by a re-arm.** `timeout_restart` at
  line 111 runs only when the body returns. `Service.RunBody` and
  `Properties.AdmittedOutcome` state this.
- **`_timeout_cb` never re-arms.** When callers remain, it only clears
  `current_source` and resets `duration` (lines 167-170). The service
  then waits for the next call or for NameOwnerChanged.
- **A re-arm does not always replace the pending timer.** With
  `Object.persistent` set and a live caller, `timeout_restart` neither
  removes nor adds a source (line 192).
- **Persistence is read from the base class.** It is `Object.persistent`,
  not the subclass's own attribute (`Properties.PersistenceReadFromBase`).
- **A failing PolicyKit call is not a denial.** Its exception reaches the
  caller without the 120-second grace re-arm, and no timer is touched
  (`Properties.AuthFailedCall`).
- **The caller is registered before the authorization check.** A denied
  caller is therefore tracked, and with persistence the grace re-arm is
  suppressed.
- **A vanish after a successful call does not quit at once.** In a
  non-persistent service that call armed a timer, so the quit at line
  184 does not happen; the quit comes when the timer fires
  (`Traces.VanishAfterCallWaitsForTimer`).
- **After a quit in `_timeout_cb`, `current_source` keeps the expired id**
  (`Service.FireTimer`).

## Left out

- PolicyKit's D-Bus plumbing (slip/dbus/service.py:55-79): the system bus
  connection and the remote call. PolicyKit's answer or the exception it
  raises is a parameter (`AuthReply`). `IsProcessAuthorized` is not called
  by the coordinator and is not modelled.
- The GLib main loop and time:
  - `set_mainloop` (lines 41-43) and the default quit callback stopping
    the loop are one `MainloopQuit` value.
  - Time passing is the `Fire`/`FireTimer` step.
  - Source ids returned by `timeout_add` are parameters.
- The metaclass and attribute copying (lines 115-135):
  - `InterfaceType` and the `_dbus_*` attribute copying onto the wrapper
    are not modelled.
  - A method is described by what the wrapper reads from it, in
    `MethodDecl`.
  - `polkit_auth_required` (lines 137-143) is the `requiredAction` field
    of `MethodDecl`.
- The wrapped body's own effects are not modelled. Its arguments are
  logged, and its result or exception is a parameter.
- Concurrency is not modelled. All handlers run on the one event-loop
  thread, so each operation is one atomic step.
- `Service.TimeoutRestart` logs `duration * 1000` as an unbounded integer.
  GLib's conversion of a negative or oversized interval to its unsigned
  32-bit type is not modelled.
- `Object.quit_fn` (line 153) is declared but never used, so it is not
  modelled.
- doc/dbus/example/example-conf-mechanism.py, the example service, is not
  part of this model.
- The PolicyKit answer is compared with "yes" as a string. An answer of
  another type is not modelled.
