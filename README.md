# ryzom websocket session, modelled in Dafny

This project models `ryzom.consumers.Consumer`, the per-connection
websocket handler of ryzom. Ryzom is a server-driven reactive UI in which
the browser keeps a thin websocket link. The server pushes DDP-style
insert/change/remove notifications for component subtrees, and clients
subscribe to named publications, call server methods and ask for views by
URL.

One `Consumer` serves one connection. The model covers everything it does:

- `connect` registers a client row for the connection's channel and sends `Connected`.
- `disconnect` deletes that row. The database cascade then deletes the client's subscriptions.
- `receive` validates each incoming envelope (`_id`, `type`, `params`) and picks the error reply, if any. It then dispatches to `recv_subscribe`, `recv_unsubscribe`, `recv_method` or `recv_geturl`. A `KeyError` raised inside a handler becomes one generic `Bad format` error.
- `handle_ddp` turns channel-layer `inserted`/`changed`/`removed` events into uncorrelated `DDP` envelopes, through `insert_component` and `remove_component`.

Files:

- `json.dfy`, module `Json`, covers decoded JSON values and the Python operations the consumer applies to them:
  - truthiness;
  - `v[key]`, whose outcomes are the value, a `KeyError` or a `TypeError`;
  - `key in v`, which tests dict membership, a substring or a list element;
  - `str(v)` inside an f-string.
- `session.dfy`, module `Session`, holds the state, the envelopes and one pure step function per consumer method. Each step function's contract states what the source promises.
- `consumer.dfy`, module `Consumers`, holds the `Consumer` class:
  - its fields are the client table, the subscription table, the `view` attribute, the log of view-hook calls and the outbox, where each `self.send` becomes an append;
  - every method is imperative, like the source: the route loop with `break` and the subscription key loop with early `return` are kept;
  - each method is proved to produce exactly the state and status given by the matching `Session` step function.
- `session_facts.dfy`, module `SessionFacts`, holds lemmas relating steps: the table invariant, the disconnect cascade, connect/disconnect round trips and whole message streams.

Modelling choices:

- How an exception ends a handler is explicit. `Handled` is a normal return. `KeyError` is a `KeyError`, which `receive` catches. `Uncaught` is any other exception, which leaves `receive`: a `TypeError` from subscripting a non-dict, Django's `DoesNotExist`, or an `AttributeError` on a message that is not a JSON object. Every lookup that can raise comes before the handler's first write or send, and the contracts prove that a raising handler leaves the state unchanged.
- `Clients.objects.get` (ryzom/consumers.py:233) raises `DoesNotExist` when the channel has no client row. It never returns a falsy value, so the `if not client` branch (245-252) cannot run. The model raises `Uncaught` at line 233 and has no such branch. `Publications.objects.get` (254) is modelled the same way: an unknown publication raises `Uncaught`.
- A registered server method is a function from its argument to `Returned(value)`, `RaisedKeyError` or `RaisedOther`. A `KeyError` from inside the method is caught by `receive` like any other, so it also becomes `Bad format`.
- The route table, the method registry, the publication names and the view hooks (`construct`, `oncreate`, `onurl`, `render`) come in through `Config`; the user comes in as an `Identity` argument of `connect`. Every call to `onurl`, `ondestroy`, `oncreate` and `render` is recorded in `hooks`. Each view object carries a serial number, so the call to `construct` shows as the new view's fresh serial. Together these let "the same view object is kept" and "`ondestroy` is called once" be stated.
- `connect` requires that the channel has no client row yet. The channel layer gives every connection a fresh channel name.
- Three behaviours are kept as the code has them:
  - `disconnect` (ryzom/consumers.py:42-50) only deletes the client row, so the view is not destroyed;
  - `recv_unsubscribe` (275-284) only echoes `params.name` and removes nothing, although its docstring (272-274) says it is meant to delete the subscription;
  - a missing client or publication in `recv_subscribe` raises (233, 254) rather than replying `Client not found`.

## Model

| member | source | states |
|---|---|---|
| `Json.Contains` | ryzom/consumers.py:235 | `key in params` is dict membership, a substring occurrence for strings, list membership for lists, and a `TypeError` otherwise |
| `Json.OccursInAt` | ryzom/consumers.py:235 | the recursive substring test holds exactly when the key occurs at some index of the string |
| `Json.Decimal` | ryzom/consumers.py:106 | `str(n)` of a non-negative integer is a non-empty string of decimal digits, without a leading zero, whose digits read back as `n` |
| `Json.Display` | ryzom/consumers.py:106 | the f-string rendering of the message type: a string is itself; `None`, `True`, `False` are spelled out; an integer is its decimal digits without a leading zero, preceded by `-` exactly when it is negative |
| `Session.Connect` | ryzom/consumers.py:34-40 | adds exactly one client row for the channel, holding the user only for a registered user, and sends one `Connected` envelope without `_id`; subscriptions, view, hooks and both counters untouched |
| `Session.WithoutClient` | ryzom/consumers.py:50 | the cascade keeps exactly the subscriptions not owned by the channel |
| `Session.Disconnect` | ryzom/consumers.py:50 | removes this channel's client and all its subscriptions, keeps every other client (with its user) and every other subscription, and sends nothing |
| `Session.Receive` | ryzom/consumers.py:68-108 | no reply and no change for a missing or falsy `_id`; exactly one `Bad message` error for a missing `type`; exactly one `Bad message type` / `<type> not recognized` error for an unknown type; for a recognised type, the handler's own outcome (`Session.Dispatch`), except that a `KeyError` becomes exactly one `Bad format` error; at most one reply, always carrying the request's `_id`; only `geturl` may stay unanswered; tables only gain this channel's own subscription; the subscription-id counter never moves back; an uncaught exception changes nothing |
| `Session.Dispatch` | ryzom/consumers.py:85-99 | `subscribe`, `unsubscribe`, `method` and `geturl` each go to their own handler; a handler that raises leaves the state unchanged; at most one reply with the request `_id` |
| `Session.FirstMatch` | ryzom/consumers.py:120-121 | the chosen route matches and no earlier route does; no result exactly when no route matches |
| `Session.Navigate` | ryzom/consumers.py:122-140 | a view of the matched class is kept (same serial), gets `onurl`, and an empty `Success` is sent only if `onurl` returns a truthy value; otherwise the old view gets `ondestroy` once, a new view gets `oncreate(url)` and `render`, and `Success` carries the rendered markup |
| `Session.GetUrl` | ryzom/consumers.py:119-141 | a missing `params` or `url` is a `KeyError`; a url matching no route sends nothing and keeps the view; otherwise only the first matching route's class decides; a url that is not a string raises as soon as a route is tried, and passes silently when there is no route; any other exception exactly when `params` is not a dict or a non-string url meets a route; tables never change |
| `Session.CallMethod` | ryzom/consumers.py:152-175 | a `KeyError` exactly when `params` or `name` is missing, or a registered method lacks `params.params` or raises `KeyError` itself; any other exception exactly when `params` is not a dict, the name is not a string, or a registered method gets a non-dict `params` or raises something else; exactly one reply with the request `_id` when handled; `Not found` / `Method <name> not found` for an unregistered name; `Success` for a truthy return and `Error` for a falsy one, both with the return value as params; only the outbox changes |
| `Session.FirstAbsent` | ryzom/consumers.py:234-244 | names the first key reported absent, in order, with all earlier keys present; all present exactly when every key is; a `TypeError` when params is not a container |
| `Session.Subscribe` | ryzom/consumers.py:231-268 | a missing `params` is the only `KeyError`; the first absent of `name`, `_id` gives one `Subscription <key> not found` error and adds nothing; otherwise exactly one subscription with the publication, `parent = params._id`, this channel's client and the next id, and a `Success{name, sub_id}` naming that id; any other exception exactly when the channel has no client row, `params` is not a container, or both keys are present but `params.name` is not a publication's name |
| `Session.Unsubscribe` | ryzom/consumers.py:276-284 | a request carrying `params.name` is always answered, with exactly one `unsubscribed` envelope echoing `params.name` with message `Got unsub`; a missing `params` or `name` is a `KeyError`, a non-dict `params` any other exception; no table changes |
| `Session.InsertComponent` | ryzom/consumers.py:177-189 | one DDP `insert` (or `change`) envelope carrying `instance`, without `_id`; a missing `instance` raises |
| `Session.RemoveComponent` | ryzom/consumers.py:191-206 | one DDP `remove` envelope carrying `{_id, parent}`, without `_id` of its own; a missing key raises |
| `Session.HandleDdp` | ryzom/consumers.py:208-219 | `inserted`→insert, `changed`→change, `removed`→remove, any other type sends nothing; a missing `params` or `type` raises; what it sends is one `DDP` envelope without `_id`; tables and view never change |
| `Consumers.Consumer.Connect` | ryzom/consumers.py:26-40 | the object's new state is `Session.Connect` of its old state |
| `Consumers.Consumer.Disconnect` | ryzom/consumers.py:42-50 | the object's new state is `Session.Disconnect` of its old state |
| `Consumers.Consumer.Receive` | ryzom/consumers.py:52-108 | new state and status are `Session.Receive` of the old state |
| `Consumers.Consumer.RecvGetUrl` | ryzom/consumers.py:110-141 | the route loop with `break` yields `Session.GetUrl`; its invariant is that no earlier route matched and nothing has changed |
| `Consumers.Consumer.Navigate` | ryzom/consumers.py:122-140 | the matched-route body yields `Session.Navigate` |
| `Consumers.Consumer.RecvMethod` | ryzom/consumers.py:143-175 | yields `Session.CallMethod` |
| `Consumers.Consumer.RecvSubscribe` | ryzom/consumers.py:221-268 | the key loop with early return yields `Session.Subscribe`; its invariant is that every key checked so far is present |
| `Consumers.Consumer.RecvUnsubscribe` | ryzom/consumers.py:270-284 | yields `Session.Unsubscribe` |
| `Consumers.Consumer.InsertComponent` | ryzom/consumers.py:177-189 | yields `Session.InsertComponent` |
| `Consumers.Consumer.RemoveComponent` | ryzom/consumers.py:191-206 | yields `Session.RemoveComponent` |
| `Consumers.Consumer.HandleDdp` | ryzom/consumers.py:208-219 | yields `Session.HandleDdp` |
| `SessionFacts.WithoutClientOfNone` | ryzom/consumers.py:50 | the cascade for a client that owns no subscription removes nothing |
| `SessionFacts.WithoutClientDistinct` | ryzom/consumers.py:50 | the cascade keeps subscription ids distinct |
| `SessionFacts.DisconnectPreservesValid` | ryzom/consumers.py:42-50 | after `disconnect` every subscription still belongs to an existing client, ids stay distinct and below the next id |
| `SessionFacts.DisconnectWhenGone` | ryzom/consumers.py:50 | `disconnect` when the client is already gone is a no-op |
| `SessionFacts.DisconnectIdempotent` | ryzom/consumers.py:50 | a second `disconnect` changes nothing |
| `SessionFacts.ConnectPreservesValid` | ryzom/consumers.py:36-39 | `connect` keeps the table invariant |
| `SessionFacts.ConnectThenDisconnect` | ryzom/consumers.py:34-50 | connect followed by disconnect leaves the tables exactly as they were; only the `Connected` envelope remains |
| `SessionFacts.ReceivePreservesValid` | ryzom/consumers.py:254-260 | every request, including a subscribe that adds a row, keeps the table invariant |
| `SessionFacts.SubscribeIssuesFreshId` | ryzom/consumers.py:255-265 | the new subscription's id differs from every existing subscription's id |
| `SessionFacts.MissingKeyRepliesBadFormat` | ryzom/consumers.py:88-99 | a handler's `KeyError` becomes exactly one `Bad format` / `"params" key not found` error with the request `_id` and no other change |
| `SessionFacts.NavigateReplacesWithNewView` | ryzom/consumers.py:130-140 | a replaced view is a different object; the hook calls are exactly `ondestroy` on the old view, then `oncreate` and `render` on the new one |
| `SessionFacts.ConnectThenSubscribe` | ryzom/consumers.py:221-268 | after `connect`, a well-formed subscribe to a known publication adds exactly the expected row and sends `Connected` then `Success{name, sub_id}` |
| `SessionFacts.ReceiveAllPreservesValid` | ryzom/consumers.py:52-108 | over any stream of requests the client table never changes, the invariant holds, and every added subscription belongs to this channel |
| `SessionFacts.HandleIssuesCounter` | ryzom/consumers.py:42-108 | a request, a pushed DDP event or a disconnect keeps the invariant, and either adds one row carrying the counter's id and advances the counter by one, or adds no row and leaves the counter alone |
| `SessionFacts.IssuedIdsIncrease` | ryzom/consumers.py:255-265 | over any run of requests, DDP events and disconnects, the subscription ids handed out strictly increase, lie between the counter at the start and at the end, and each exceeds every id in the table before the run; the invariant holds at the end |

## Left out

- JSON text: `json.loads` and `json.dumps` are not modelled. Messages are structured `Json.Value`s, and numbers are integers only (no floats).
- Transport: `accept()` and the transport behind `send` are left out. A send is an append to the outbox.
- `print(e)` in `receive` is a debug side effect and is not modelled.
- The user lookup through `async_to_sync(get_user)` is a foreign call. Its result is the `Identity` argument of `connect`.
- Configuration loaded through `settings` and `importlib` (the route table and `server_methods`) is passed in as `Config`. The registry is a map, so `getattr` finding arbitrary Python attributes of the methods class is not modelled.
- Collaborator internals are abstract:
  - regex matching is `Route.matches`;
  - the view hooks are functions of the view's state;
  - publication `init()` and `save()` are reduced to appending the row.
- The publication's initial scan is not modelled. It pushes `inserted` events through the channel layer, and they reach the consumer later as separate `handle_ddp` calls. Those calls are modelled, but the scan that produces them is not.
- Exceptions raised inside view hooks or inside publication `init()` are not modelled. Exceptions raised by server methods are.
- `ondestroy` is recorded in the hook log only. The destroyed view's own effects are outside the model.
- `Session.Navigate`: `isinstance(cview, url.callback)` is modelled as equality of view classes. A view of a subclass of the matched class is treated as a different class.
- `Session.Subscribe`: a publication name that is not a string is treated as an unknown publication and raises. Django would first coerce it to a string.
- `Json.Display`: lists and dicts are rendered as `[...]` and `{...}` rather than as Python's full `repr`. The only effect is on the text of a `Bad message type` error for a non-string `type`.
- Concurrency is left out:
  - other connections writing to the shared tables between two steps of this one;
  - the channel layer's delivery of `handle.ddp` events;
  - subscription ids: the database sequence is modelled as the counter `nextSubId`.
- The processing streams in `SessionFacts.ReceiveAll` and `SessionFacts.RunEvents` stop at the first uncaught exception. What the transport then does with the connection is not modelled.
