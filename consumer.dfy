/** `ryzom.consumers.Consumer`: one websocket connection's handler object. Its
    fields are the database tables it writes (clients and subscriptions), its
    `view` attribute, the view hooks it has called and the messages it has
    sent. Each method is proved to do what the step function of the same name
    in `Session` says. */
module Consumers {
  import opened Json
  import opened Session

  class Consumer {
    const cfg: Config
    var clients: map<Channel, Option<nat>>
    var subs: seq<Subscription>
    var nextSubId: nat
    var view: Option<View>
    var nextSerial: nat
    var hooks: seq<HookCall>
    var outbox: seq<Envelope>

    /** The abstract value of the consumer and the tables it sees. */
    function Snapshot(): State
      reads this
    {
      State(clients, subs, nextSubId, view, nextSerial, hooks, outbox)
    }

    /** A consumer for a new connection over the existing tables; it has no view yet. */
    constructor(cfg: Config, clients: map<Channel, Option<nat>>, subs: seq<Subscription>, nextSubId: nat)
      ensures this.cfg == cfg
      ensures Snapshot() == State(clients, subs, nextSubId, None, 0, [], [])
    {
      this.cfg := cfg;
      this.clients := clients;
      this.subs := subs;
      this.nextSubId := nextSubId;
      this.view := None;
      this.nextSerial := 0;
      this.hooks := [];
      this.outbox := [];
    }

    /** `self.send`: the message goes to the end of the outbox. */
    method Send(e: Envelope)
      modifies this
      ensures Snapshot() == Session.Send(old(Snapshot()), e)
    {
      outbox := outbox + [e];
    }

    method Connect(who: Identity)
      requires cfg.channel !in clients
      modifies this
      ensures Snapshot() == Session.Connect(old(Snapshot()), cfg, who)
    {
      clients := clients[cfg.channel := if who.RegisteredUser? then Some(who.userId) else None];
      Send(ConnectedEnvelope);
    }

    method Disconnect()
      modifies this
      ensures Snapshot() == Session.Disconnect(old(Snapshot()), cfg)
    {
      clients := clients - {cfg.channel};
      subs := WithoutClient(subs, cfg.channel);
    }

    method Receive(data: Value) returns (status: Status)
      modifies this
      ensures Step(Snapshot(), status) == Session.Receive(old(Snapshot()), cfg, data)
    {
      if !data.Obj? {
        return Uncaught;
      }
      var req := data.fields;
      if !("_id" in req && Truthy(req["_id"])) {
        return Handled;
      }
      var id := req["_id"];
      if "type" !in req {
        Send(ErrorReply(id, "Bad message", "message type not found"));
        return Handled;
      }
      var msgType := req["type"];
      if msgType in RequestTypes {
        if msgType == Str("subscribe") {
          status := RecvSubscribe(id, req);
        } else if msgType == Str("unsubscribe") {
          status := RecvUnsubscribe(id, req);
        } else if msgType == Str("method") {
          status := RecvMethod(id, req);
        } else {
          status := RecvGetUrl(id, req);
        }
        if status == KeyError {
          Send(BadFormat(id));
          status := Handled;
        }
      } else {
        Send(ErrorReply(id, "Bad message type", Display(msgType) + " not recognized"));
        status := Handled;
      }
    }

    method RecvGetUrl(id: Value, req: map<string, Value>) returns (status: Status)
      modifies this
      ensures Step(Snapshot(), status) == GetUrl(old(Snapshot()), cfg, id, req)
    {
      if "params" !in req {
        return KeyError;
      }
      var toUrl := Get(req["params"], "url");
      if toUrl.NoKey? {
        return KeyError;
      } else if toUrl.NotDict? {
        return Uncaught;
      }
      var url := toUrl.value;
      status := Handled;
      var i := 0;
      while i < |cfg.routes|
        invariant 0 <= i <= |cfg.routes|
        invariant i > 0 ==> url.Str? && forall j :: 0 <= j < i ==> !cfg.routes[j].matches(url.s)
        invariant Snapshot() == old(Snapshot())
      {
        if !url.Str? {
          return Uncaught;
        }
        if cfg.routes[i].matches(url.s) {
          assert FirstMatch(cfg.routes, url.s) == Some(i);
          Navigate(id, cfg.routes[i].callback, url.s);
          break;
        }
        i := i + 1;
      }
    }

    /** The body of the matching route: keep and navigate a view of the route's
        class, or destroy the old view and create, render and send a new one. */
    method Navigate(id: Value, cls: ViewClass, url: string)
      modifies this
      ensures Snapshot() == Session.Navigate(old(Snapshot()), cfg, id, cls, url)
    {
      var cview := view;
      if cview.Some? && cview.value.cls == cls {
        var nav := cfg.views.onurl(cls, cview.value.state, url);
        view := Some(cview.value.(state := nav.state));
        hooks := hooks + [OnUrl(cview.value.serial, url)];
        if Truthy(nav.accepted) {
          Send(Reply(id, "Success", Arr([])));
        }
      } else {
        if cview.Some? {
          hooks := hooks + [OnDestroy(cview.value.serial)];
        }
        var serial := nextSerial;
        view := Some(View(cls, serial, cfg.views.construct(cls, cfg.channel)));
        nextSerial := nextSerial + 1;
        view := Some(view.value.(state := cfg.views.oncreate(cls, view.value.state, url)));
        hooks := hooks + [OnCreate(serial, url)];
        var markup := cfg.views.render(cls, view.value.state);
        hooks := hooks + [Render(serial)];
        Send(Reply(id, "Success", markup));
      }
    }

    method RecvMethod(id: Value, req: map<string, Value>) returns (status: Status)
      modifies this
      ensures Step(Snapshot(), status) == CallMethod(old(Snapshot()), cfg, id, req)
    {
      if "params" !in req {
        return KeyError;
      }
      var params := req["params"];
      var name := Get(params, "name");
      if name.NoKey? {
        return KeyError;
      } else if name.NotDict? || !name.value.Str? {
        return Uncaught;
      }
      if name.value.s !in cfg.methods {
        Send(ErrorReply(id, "Not found", "Method " + name.value.s + " not found"));
        return Handled;
      }
      var arg := Get(params, "params");
      if arg.NoKey? {
        return KeyError;
      } else if arg.NotDict? {
        return Uncaught;
      }
      var ret := cfg.methods[name.value.s](arg.value);
      if ret.RaisedKeyError? {
        return KeyError;
      } else if ret.RaisedOther? {
        return Uncaught;
      }
      if Truthy(ret.value) {
        Send(Reply(id, "Success", ret.value));
      } else {
        Send(Reply(id, "Error", ret.value));
      }
      return Handled;
    }

    method RecvSubscribe(id: Value, req: map<string, Value>) returns (status: Status)
      modifies this
      ensures Step(Snapshot(), status) == Subscribe(old(Snapshot()), cfg, id, req)
    {
      if "params" !in req {
        return KeyError;
      }
      var params := req["params"];
      if cfg.channel !in clients {
        return Uncaught;
      }
      var keys := SubscriptionKeys;
      for k := 0 to |keys|
        invariant forall j :: 0 <= j < k ==> Contains(params, keys[j]) == Some(true)
        invariant Snapshot() == old(Snapshot())
      {
        var present := Contains(params, keys[k]);
        if present.None? {
          return Uncaught;
        }
        if !present.value {
          Send(ErrorReply(id, "Bad format", "Subscription " + keys[k] + " not found"));
          return Handled;
        }
      }
      var name := Get(params, "name");
      if !name.Found? || !(name.value.Str? && name.value.s in cfg.publications) {
        return Uncaught;
      }
      assert Contains(params, keys[1]) == Some(true);
      var sub := Subscription(nextSubId, name.value.s, params.fields["_id"], cfg.channel);
      subs := subs + [sub];
      nextSubId := nextSubId + 1;
      Send(Reply(id, "Success", Obj(map["name" := name.value, "sub_id" := Num(sub.id)])));
      return Handled;
    }

    method RecvUnsubscribe(id: Value, req: map<string, Value>) returns (status: Status)
      modifies this
      ensures Step(Snapshot(), status) == Unsubscribe(old(Snapshot()), cfg, id, req)
    {
      if "params" !in req {
        return KeyError;
      }
      var name := Get(req["params"], "name");
      if name.NoKey? {
        return KeyError;
      } else if name.NotDict? {
        return Uncaught;
      }
      Send(Envelope(Some(id), "unsubscribed", Some("Got unsub"), Some(Obj(map["name" := name.value]))));
      return Handled;
    }

    method InsertComponent(data: Value, change: bool) returns (status: Status)
      modifies this
      ensures Step(Snapshot(), status) == Session.InsertComponent(old(Snapshot()), data, change)
    {
      var instance := Get(data, "instance");
      if !instance.Found? {
        return Uncaught;
      }
      Send(Ddp(if change then "change" else "insert", instance.value));
      return Handled;
    }

    method RemoveComponent(data: Value) returns (status: Status)
      modifies this
      ensures Step(Snapshot(), status) == Session.RemoveComponent(old(Snapshot()), data)
    {
      var cid := Get(data, "_id");
      if !cid.Found? {
        return Uncaught;
      }
      var parent := Get(data, "parent");
      if !parent.Found? {
        return Uncaught;
      }
      Send(Ddp("remove", Obj(map["_id" := cid.value, "parent" := parent.value])));
      return Handled;
    }

    method HandleDdp(event: Value) returns (status: Status)
      modifies this
      ensures Step(Snapshot(), status) == Session.HandleDdp(old(Snapshot()), event)
    {
      var params := Get(event, "params");
      if !params.Found? {
        return Uncaught;
      }
      var eventType := Get(params.value, "type");
      if !eventType.Found? {
        return Uncaught;
      }
      if eventType.value == Str("inserted") {
        status := InsertComponent(params.value, false);
      } else if eventType.value == Str("changed") {
        status := InsertComponent(params.value, true);
      } else if eventType.value == Str("removed") {
        status := RemoveComponent(params.value);
      } else {
        status := Handled;
      }
    }
  }
}
