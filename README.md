# Seashell frontend controller: connection health and confirmed actions

This project models the `FrontendController` of Seashell's browser client
(`src/frontend/frontend/frontend.js`) in Dafny and proves properties of the model.

- **Connection health.** The controller keeps three independent flags:
  `timeout`, `disconnected` and `failed`. All three start false. Five
  transport notifications assign them in place:
  - `timein` clears `timeout`;
  - `timeout` sets it;
  - `connected` clears all three;
  - `disconnected` sets `disconnected`;
  - `failed` sets `failed`.

  `connection_health.dfy` (module `ConnectionHealth`) states this on values.
  A `Health` record holds the flags, `Step` applies one notification, and
  `Run` replays a history of notifications. Reference predicates say when
  each flag is set without replaying anything. For example, `TimedOutAfter`
  holds when a `timeout` arrived and no `timein` or `connected` came after it.
  Lemmas prove that replaying a history always agrees with these predicates.
- **The controller object.** `frontend_controller.dfy` (module `Frontend`)
  has a class `FrontendController`. Its three `bool` fields are the flags,
  and one method per transport callback assigns them. A ghost `history`
  records every notification delivered so far. The invariant `Valid()`
  says that the fields always equal `Run` of that history. The constructor
  reads `host` from the credentials cookie when one is stored.
- **Confirmation-gated actions.** `confirmed_actions.dfy` (module
  `ConfirmedActions`) models `archive` and `logout` as functions. Each takes
  the user's answer to the dialog, and for archive also how the remote call
  settled. Each returns the ordered list of effects the controller performs.

## Model

| member | source | states |
|---|---|---|
| `ConnectionHealth.Initial` | src/frontend/frontend/frontend.js:32-34 | a fresh controller has `timeout`, `disconnected` and `failed` all false |
| `ConnectionHealth.Step` | src/frontend/frontend/frontend.js:98-103 | per flag: `timeout` is set only by `timeout`, cleared only by `timein` and `connected`; `disconnected` and `failed` are set only by their own event and cleared only by `connected`; every other event leaves the flag as it was |
| `ConnectionHealth.TimeoutFlagAfter` | src/frontend/frontend/frontend.js:98-101 | over any history, from any start, `timeout` ends true iff a `timeout` arrived with no later `timein` or `connected`, or it was true and none of the three arrived |
| `ConnectionHealth.DisconnectedFlagAfter` | src/frontend/frontend/frontend.js:100-102 | over any history, `disconnected` ends true iff a `disconnected` arrived after the last `connected`, or it was true and neither arrived |
| `ConnectionHealth.FailedFlagAfter` | src/frontend/frontend/frontend.js:100-103 | over any history, `failed` ends true iff a `failed` arrived after the last `connected`, or it was true and neither arrived |
| `ConnectionHealth.HistoryDeterminesHealth` | src/frontend/frontend/frontend.js:98-103 | from the initial state, the flags after any history equal the three reference predicates: `timeout` iff the last of `timein`/`timeout`/`connected` was `timeout`, each link flag iff its event came after the last `connected` |
| `ConnectionHealth.ConnectedForgetsHistory` | src/frontend/frontend/frontend.js:100-101 | `connected` is the single reset point: whatever the flags and the events before it, the state after `connected` plus later events equals replaying only the later events from the initial state |
| `ConnectionHealth.FlagsIndependent` | src/frontend/frontend/frontend.js:98-103 | any run of events that avoids a flag's own setters and clearers leaves that flag unchanged; in particular `disconnected` and `failed` never touch `timeout` and the timeout events never touch the link flags |
| `ConnectionHealth.HistoryFor` | src/frontend/frontend/frontend.js:98-103 | every one of the eight flag combinations is reached from the initial state by some history, so the flags are independent and may be true together |
| `ConnectionHealth.RunAppend` | src/frontend/frontend/frontend.js:98-103 | delivering two batches of events in turn is the same as delivering their concatenation |
| `Frontend.FrontendController.constructor` | src/frontend/frontend/frontend.js:32-39 | all three flags start false with an empty history; `host` is the cookie's host when a credentials cookie is stored and unset otherwise |
| `Frontend.FrontendController.OnTimein` | src/frontend/frontend/frontend.js:98 | `timeout` becomes false; `disconnected`, `failed` and `host` are unchanged; the flags still equal the replayed history |
| `Frontend.FrontendController.OnTimeout` | src/frontend/frontend/frontend.js:99 | `timeout` becomes true; `disconnected`, `failed` and `host` are unchanged; the flags still equal the replayed history |
| `Frontend.FrontendController.OnConnected` | src/frontend/frontend/frontend.js:100-101 | all three flags become false whatever they were; `host` is unchanged; the flags still equal the replayed history |
| `Frontend.FrontendController.OnDisconnected` | src/frontend/frontend/frontend.js:102 | `disconnected` becomes true; `timeout`, `failed` and `host` are unchanged; the flags still equal the replayed history |
| `Frontend.FrontendController.OnFailed` | src/frontend/frontend/frontend.js:103 | `failed` becomes true; `timeout`, `disconnected` and `host` are unchanged; the flags still equal the replayed history |
| `Frontend.ControllerFlagsFromHistory` | src/frontend/frontend/frontend.js:98-103 | a valid controller's fields are read off its delivered history by the reference predicates |
| `ConfirmedActions.Archive` | src/frontend/frontend/frontend.js:59-72 | the dialog always comes first; declining gives nothing beyond the dialog; the remote archive call is made, right after the dialog, iff the user confirms; exactly four effects follow a resolved call and three a rejected one; the client navigates iff confirmed and the call resolves, and then the path is set to `/` before the reload; an error is reported iff confirmed and the call rejects, and the report carries that error and "Failed to archive projects." |
| `ConfirmedActions.Logout` | src/frontend/frontend/frontend.js:74-81 | the dialog always comes first and is all that declining gives; confirming gives exactly three effects; the credentials cookie is removed iff the user confirms; the client navigates iff confirmed, only to `https://cas.uwaterloo.ca/logout`, and after the cookie is removed; no error is ever reported |
| `Frontend.DisconnectThenReconnect` | src/frontend/frontend/frontend.js:100-102 | scenario: from a fresh controller, `disconnected` alone raises only that flag, and a following `connected` clears every flag again |
| `ConfirmedActions.ArchiveOutcomes` | src/frontend/frontend/frontend.js:59-71 | the exact effect list for each outcome: declined gives only the dialog; confirmed and rejected gives the dialog, the call and the report; confirmed and resolved gives the dialog, the call, set path `/` and reload |
| `ConfirmedActions.LogoutOutcomes` | src/frontend/frontend/frontend.js:74-80 | the exact effect list for each answer: declined gives only the dialog; confirmed gives the dialog, cookie removal, then the logout URL |

Two points where the code's behaviour is easy to misread, and the model follows the code:

- A later `connected` also clears `timeout`. So `timeout` is not simply the
  most recent of `timeout`/`timein`. It is true iff the most recent of
  `timeout`, `timein` and `connected` was `timeout`.
- The menu bindings have no dispatch table and no "last binding wins" rule:
  jQuery's `.on` adds a handler, and each element is bound once. They are
  left out (see below).

## Left out

- The menu handlers (`src/frontend/js/ui/menu.js`) are left out. Each one makes a single call to an editor or project function that is not part of this model. `setupMenu` only binds DOM click handlers with jQuery, and the comment and autoformat handlers are empty.
- The third `true` argument to `register_callback` is not modelled. Its meaning is defined in the websocket module, which is not part of this model.
- The `help`, `settings` and `login` dialogs are left out. They are UI only, and `login` calls `self.refresh`, which is not defined in this file.
- `reconnect` (`ws.connect`), the hotkeys configuration and the module's `run` block are left out. The `run` block does the initial connect, reloads settings on `connected` and broadcasts window resizes. All of these are network or DOM wiring.
- `self.errors` is only a reference to the error service. It appears in the model only as the `Report` effect.
- Promises and asynchrony are not modelled. The dialog answer and the remote call's outcome are inputs. The source has no policy for a second dialog while one is pending, so the model has none either.
- `ConfirmedActions.Archive` assumes that setting the path and reloading never throw. In the source, the `.catch` would also turn such a throw into the same report. A synchronous throw from `archiveProjects` itself, as opposed to a rejected promise, is not modelled either.
- `ConfirmedActions.Logout` assumes that removing the cookie never throws. In the source, such a throw would skip the navigation that follows it.
- The value of `SEASHELL_CREDS_COOKIE` is defined outside this file. The model names the cookie only through the `RemoveCredsCookie` effect.
- Cookie truthiness is reduced to "a credentials cookie is stored or not". A stored cookie without a `host` is not modelled.
