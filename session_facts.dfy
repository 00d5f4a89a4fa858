/** Properties of the session that relate several steps, or a step and the
    table invariant. */
module SessionFacts {
  import opened Json
  import opened Session

  // ---------------------------------------------------------------------------
  // The cascade on disconnect

  /** Removing the rows of a client that owns none changes nothing. */
  lemma {:induction false} WithoutClientOfNone(subs: seq<Subscription>, ch: Channel)
    requires forall i :: 0 <= i < |subs| ==> subs[i].client != ch
    ensures WithoutClient(subs, ch) == subs
    decreases |subs|
  {
    if subs != [] {
      var init := subs[..|subs| - 1];
      WithoutClientOfNone(init, ch);
      assert subs == init + [subs[|subs| - 1]];
    }
  }

  /** Removing rows keeps the remaining ids distinct. */
  lemma {:induction false} WithoutClientDistinct(subs: seq<Subscription>, ch: Channel)
    requires DistinctIds(subs)
    ensures DistinctIds(WithoutClient(subs, ch))
    decreases |subs|
  {
    if subs != [] {
      var init := subs[..|subs| - 1];
      var last := subs[|subs| - 1];
      WithoutClientDistinct(init, ch);
      var rest := WithoutClient(init, ch);
      if last.client != ch {
        assert WithoutClient(subs, ch) == rest + [last];
        forall i | 0 <= i < |rest|
          ensures rest[i].id != last.id
        {
          assert rest[i] in init;
          var k :| 0 <= k < |init| && init[k] == rest[i];
          assert subs[k] == rest[i];
        }
      }
    }
  }

  /** `disconnect` keeps the table invariant. */
  lemma DisconnectPreservesValid(s: State, cfg: Config)
    requires Valid(s)
    ensures Valid(Disconnect(s, cfg))
  {
    var r := Disconnect(s, cfg);
    WithoutClientDistinct(s.subs, cfg.channel);
    forall i | 0 <= i < |r.subs|
      ensures r.subs[i].client in r.clients && r.subs[i].id < r.nextSubId
    {
      assert r.subs[i] in s.subs;
    }
  }

  /** `disconnect` of a channel whose client is already gone is a no-op. */
  lemma DisconnectWhenGone(s: State, cfg: Config)
    requires Valid(s) && cfg.channel !in s.clients
    ensures Disconnect(s, cfg) == s
  {
    WithoutClientOfNone(s.subs, cfg.channel);
  }

  /** A second `disconnect` changes nothing. */
  lemma DisconnectIdempotent(s: State, cfg: Config)
    ensures Disconnect(Disconnect(s, cfg), cfg) == Disconnect(s, cfg)
  {
    var once := Disconnect(s, cfg);
    forall i | 0 <= i < |once.subs|
      ensures once.subs[i].client != cfg.channel
    {
      assert once.subs[i] in once.subs;
    }
    WithoutClientOfNone(once.subs, cfg.channel);
  }

  // ---------------------------------------------------------------------------
  // connect

  /** `connect` keeps the table invariant. */
  lemma ConnectPreservesValid(s: State, cfg: Config, who: Identity)
    requires Valid(s) && cfg.channel !in s.clients
    ensures Valid(Connect(s, cfg, who))
  {
  }

  /** A connection that connects and then disconnects leaves the tables as it
      found them; only the `Connected` envelope remains. */
  lemma ConnectThenDisconnect(s: State, cfg: Config, who: Identity)
    requires Valid(s) && cfg.channel !in s.clients
    ensures Disconnect(Connect(s, cfg, who), cfg) == Send(s, ConnectedEnvelope)
  {
    var c := Connect(s, cfg, who);
    assert c.clients - {cfg.channel} == s.clients;
    WithoutClientOfNone(s.subs, cfg.channel);
  }

  // ---------------------------------------------------------------------------
  // receive

  /** Every request keeps the table invariant. */
  lemma ReceivePreservesValid(s: State, cfg: Config, data: Value)
    requires Valid(s)
    ensures Valid(Receive(s, cfg, data).after)
  {
  }

  /** A new subscription's id differs from every id in the table; the ids of
      rows a disconnect has deleted are covered by `IssuedIdsIncrease`. */
  lemma SubscribeIssuesFreshId(s: State, cfg: Config, id: Value, req: map<string, Value>)
    requires Valid(s)
    requires |Subscribe(s, cfg, id, req).after.subs| > |s.subs|
    ensures forall x :: x in s.subs ==> x.id != Subscribe(s, cfg, id, req).after.subs[|s.subs|].id
  {
  }

  /** A `KeyError` in any handler becomes exactly one `Bad format` error with the
      request's `_id`, and nothing else changes. */
  lemma MissingKeyRepliesBadFormat(s: State, cfg: Config, data: Value)
    requires Recognised(data) && Handler(s, cfg, data).status == KeyError
    ensures Receive(s, cfg, data) == Step(Send(s, BadFormat(data.fields["_id"])), Handled)
    ensures OnlySent(s, Receive(s, cfg, data).after, [BadFormat(data.fields["_id"])])
  {
  }

  /** Replacing the view yields a different view object, and the old one is
      destroyed exactly once. */
  lemma NavigateReplacesWithNewView(s: State, cfg: Config, id: Value, cls: ViewClass, url: string)
    requires Valid(s) && s.view.Some? && s.view.value.cls != cls
    ensures Navigate(s, cfg, id, cls, url).view.value.serial != s.view.value.serial
    ensures Navigate(s, cfg, id, cls, url).hooks[|s.hooks|..] ==
            [OnDestroy(s.view.value.serial), OnCreate(s.nextSerial, url), Render(s.nextSerial)]
  {
  }

  /** A fresh connection that subscribes component `parent` to a known
      publication gets `Connected`, then one `Success` naming the publication
      and the new subscription's id, and owns exactly that one new row. */
  lemma ConnectThenSubscribe(s: State, cfg: Config, who: Identity, id: Value, pub: string, parent: Value)
    requires Valid(s) && cfg.channel !in s.clients && pub in cfg.publications && Truthy(id)
    ensures
      var msg := Obj(map["_id" := id, "type" := Str("subscribe"),
                         "params" := Obj(map["name" := Str(pub), "_id" := parent])]);
      var r := Receive(Connect(s, cfg, who), cfg, msg);
      && r.status == Handled
      && r.after.subs == s.subs + [Subscription(s.nextSubId, pub, parent, cfg.channel)]
      && r.after.outbox == s.outbox + [ConnectedEnvelope,
                                       Reply(id, "Success", Obj(map["name" := Str(pub), "sub_id" := Num(s.nextSubId)]))]
  {
  }

  // ---------------------------------------------------------------------------
  // A connection's whole message stream

  /** The state after receiving `msgs` in order; an uncaught exception ends the
      connection's processing. */
  function ReceiveAll(s: State, cfg: Config, msgs: seq<Value>): State
    decreases |msgs|
  {
    if msgs == [] then s
    else
      var r := Receive(s, cfg, msgs[0]);
      if r.status == Uncaught then s else ReceiveAll(r.after, cfg, msgs[1..])
  }

  /** Requests never touch the client table, keep the invariant, and every
      subscription they add belongs to this channel. */
  lemma {:induction false} ReceiveAllPreservesValid(s: State, cfg: Config, msgs: seq<Value>)
    requires Valid(s)
    ensures Valid(ReceiveAll(s, cfg, msgs))
    ensures ReceiveAll(s, cfg, msgs).clients == s.clients
    ensures |ReceiveAll(s, cfg, msgs).subs| >= |s.subs| && ReceiveAll(s, cfg, msgs).subs[..|s.subs|] == s.subs
    ensures forall i :: |s.subs| <= i < |ReceiveAll(s, cfg, msgs).subs| ==> ReceiveAll(s, cfg, msgs).subs[i].client == cfg.channel
    decreases |msgs|
  {
    if msgs != [] {
      var r := Receive(s, cfg, msgs[0]);
      if r.status != Uncaught {
        ReceivePreservesValid(s, cfg, msgs[0]);
        ReceiveAllPreservesValid(r.after, cfg, msgs[1..]);
        var fin := ReceiveAll(r.after, cfg, msgs[1..]);
        assert fin == ReceiveAll(s, cfg, msgs);
        assert fin.subs[..|r.after.subs|] == r.after.subs;
        assert fin.subs[..|s.subs|] == fin.subs[..|r.after.subs|][..|s.subs|];
        forall i | |s.subs| <= i < |fin.subs|
          ensures fin.subs[i].client == cfg.channel
        {
          if i < |r.after.subs| {
            assert fin.subs[i] == r.after.subs[i];
          }
        }
      }
    }
  }

  // ---------------------------------------------------------------------------
  // Subscription ids over a connection's lifetime

  /** What can happen to an open connection: a request from the browser, a
      DDP event pushed to it, or the socket closing. */
  datatype Event = Request(data: Value) | Push(event: Value) | Close

  /** The consumer method that handles one event. */
  function Handle(s: State, cfg: Config, e: Event): Step {
    match e
    case Request(data) => Receive(s, cfg, data)
    case Push(event) => HandleDdp(s, event)
    case Close => Step(Disconnect(s, cfg), Handled)
  }

  /** The final state of a run and the subscription ids it handed out, in order. */
  datatype Run = Run(last: State, issued: seq<nat>)

  /** Handles `events` in order; an uncaught exception ends the run. */
  function RunEvents(s: State, cfg: Config, events: seq<Event>): Run
    decreases |events|
  {
    if events == [] then Run(s, [])
    else
      var r := Handle(s, cfg, events[0]);
      if r.status == Uncaught then Run(s, [])
      else
        var added := if |r.after.subs| > |s.subs| then [r.after.subs[|s.subs|].id] else [];
        var rest := RunEvents(r.after, cfg, events[1..]);
        Run(rest.last, added + rest.issued)
  }

  /** One event keeps the invariant, and either hands out the counter's
      current id and advances it by one, or adds no row and leaves the counter
      alone. */
  lemma HandleIssuesCounter(s: State, cfg: Config, e: Event)
    requires Valid(s)
    ensures var r := Handle(s, cfg, e);
      && (r.status != Uncaught ==> Valid(r.after))
      && if |r.after.subs| > |s.subs|
         then r.after.subs[|s.subs|].id == s.nextSubId && r.after.nextSubId == s.nextSubId + 1
         else r.after.nextSubId == s.nextSubId
  {
    match e {
      case Request(data) => ReceivePreservesValid(s, cfg, data);
      case Push(_) =>
      case Close => DisconnectPreservesValid(s, cfg);
    }
  }

  /** Over any run, the ids handed out strictly increase, each is at least the
      counter at the start and below the counter at the end, and on a valid
      table each exceeds every id the table held before; the invariant holds
      throughout. */
  lemma {:induction false} IssuedIdsIncrease(s: State, cfg: Config, events: seq<Event>)
    requires Valid(s)
    ensures var run := RunEvents(s, cfg, events);
      && Valid(run.last)
      && s.nextSubId <= run.last.nextSubId
      && (forall i, j :: 0 <= i < j < |run.issued| ==> run.issued[i] < run.issued[j])
      && (forall i :: 0 <= i < |run.issued| ==> s.nextSubId <= run.issued[i] < run.last.nextSubId)
      && (forall x, i :: x in s.subs && 0 <= i < |run.issued| ==> x.id < run.issued[i])
    decreases |events|
  {
    var run := RunEvents(s, cfg, events);
    if events != [] {
      var r := Handle(s, cfg, events[0]);
      if r.status != Uncaught {
        HandleIssuesCounter(s, cfg, events[0]);
        IssuedIdsIncrease(r.after, cfg, events[1..]);
        var rest := RunEvents(r.after, cfg, events[1..]);
        var added := if |r.after.subs| > |s.subs| then [r.after.subs[|s.subs|].id] else [];
        assert run.issued == added + rest.issued;
        forall x, i | x in s.subs && 0 <= i < |run.issued|
          ensures x.id < run.issued[i]
        {
          var k :| 0 <= k < |s.subs| && s.subs[k] == x;
          assert x.id < s.nextSubId;
        }
      }
    }
  }
}
