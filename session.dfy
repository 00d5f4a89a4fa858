/** The per-connection websocket session of `ryzom.consumers.Consumer`, as pure
    step functions over an explicit state. Each function says what one handler
    does to the tables, the view and the stream of sent envelopes. */
module Session {
  import opened Json

  /** The channel layer's name for one websocket connection (`self.channel_name`). */
  type Channel = string

  /** What the identify call yields for the connection scope: a `User` row or an anonymous user. */
  datatype Identity = RegisteredUser(userId: nat) | AnonymousUser

  /** A row of the Subscriptions table: a publication, the requesting component and the owning client. */
  datatype Subscription = Subscription(id: nat, publication: string, parent: Value, client: Channel)

  /** An outgoing message; a `None` field is a key the sent dict does not have. */
  datatype Envelope = Envelope(id: Option<Value>, kind: string, message: Option<string>, params: Option<Value>)

  /** How a registered server method ends: it returns a value or raises. */
  datatype MethodResult = Returned(value: Value) | RaisedKeyError | RaisedOther

  /** A view class, the `callback` of a route. */
  type ViewClass = nat

  /** One entry of the route table: the compiled pattern's match test and the view class. */
  datatype Route = Route(matches: string -> bool, callback: ViewClass)

  /** The view attached to the connection; `serial` tells view objects apart. */
  datatype View = View(cls: ViewClass, serial: nat, state: Value)

  /** What `onurl` leaves in the view and what it returns. */
  datatype Navigation = Navigation(state: Value, accepted: Value)

  /** The view classes' constructor and hooks, dispatched on the class. */
  datatype ViewHooks = ViewHooks(
    construct: (ViewClass, Channel) -> Value,
    oncreate: (ViewClass, Value, string) -> Value,
    onurl: (ViewClass, Value, string) -> Navigation,
    render: (ViewClass, Value) -> Value)

  /** A call into a view hook, in the order the consumer makes them. */
  datatype HookCall = OnUrl(serial: nat, url: string) | OnDestroy(serial: nat) | OnCreate(serial: nat, url: string) | Render(serial: nat)

  /** What the consumer is configured with: its channel, the route table, the
      method registry, the publication names and the view hooks. */
  datatype Config = Config(
    channel: Channel,
    routes: seq<Route>,
    methods: map<string, Value -> MethodResult>,
    publications: set<string>,
    views: ViewHooks)

  /** The tables, the connection's view, the hook calls made so far and the sent envelopes. */
  datatype State = State(
    clients: map<Channel, Option<nat>>,
    subs: seq<Subscription>,
    nextSubId: nat,
    view: Option<View>,
    nextSerial: nat,
    hooks: seq<HookCall>,
    outbox: seq<Envelope>)

  /** How a handler ends: normally, with a `KeyError`, or with any other exception,
      which leaves `receive` uncaught. */
  datatype Status = Handled | KeyError | Uncaught

  datatype Step = Step(after: State, status: Status)

  /** The table invariant: every subscription belongs to a connected client and
      has an id below the next one to issue, ids are distinct, and the view's
      serial was issued. */
  predicate Valid(s: State) {
    (forall i :: 0 <= i < |s.subs| ==> s.subs[i].client in s.clients && s.subs[i].id < s.nextSubId)
    && DistinctIds(s.subs)
    && ViewIssued(s)
  }

  /** The attached view's serial has been issued. */
  predicate ViewIssued(s: State) {
    s.view.Some? ==> s.view.value.serial < s.nextSerial
  }

  /** No two subscription rows share an id. */
  predicate DistinctIds(subs: seq<Subscription>) {
    forall i, j :: 0 <= i < j < |subs| ==> subs[i].id != subs[j].id
  }

  /** What a request may do to the tables: at most append one subscription,
      owned by this channel's existing client and numbered with the next id. */
  predicate TablesGrowByOwnSubscription(s: State, after: State, cfg: Config) {
    after.clients == s.clients
    && (SameTables(s, after)
        || (|after.subs| == |s.subs| + 1 && after.subs[..|s.subs|] == s.subs
            && after.subs[|s.subs|].id == s.nextSubId && after.subs[|s.subs|].client == cfg.channel
            && cfg.channel in s.clients && after.nextSubId == s.nextSubId + 1))
  }

  // ---------------------------------------------------------------------------
  // Envelopes

  const ConnectedEnvelope := Envelope(None, "Connected", None, None)

  function Reply(id: Value, kind: string, params: Value): Envelope {
    Envelope(Some(id), kind, None, Some(params))
  }

  function ErrorReply(id: Value, name: string, message: string): Envelope {
    Reply(id, "Error", Obj(map["name" := Str(name), "message" := Str(message)]))
  }

  function BadFormat(id: Value): Envelope {
    ErrorReply(id, "Bad format", "\"params\" key not found")
  }

  function Ddp(kind: string, params: Value): Envelope {
    Envelope(None, "DDP", None, Some(Obj(map["type" := Str(kind), "params" := params])))
  }

  function Send(s: State, e: Envelope): State {
    s.(outbox := s.outbox + [e])
  }

  /** `after` is `before` with `sent` appended to the outbox and nothing else changed. */
  predicate OnlySent(before: State, after: State, sent: seq<Envelope>) {
    after == before.(outbox := before.outbox + sent)
  }

  /** The tables are the same in both states. */
  predicate SameTables(before: State, after: State) {
    after.clients == before.clients && after.subs == before.subs && after.nextSubId == before.nextSubId
  }

  /** `after` sent exactly one envelope more than `before`, and it carries `id`. */
  predicate RepliedOnce(before: State, after: State, id: Value) {
    |after.outbox| == |before.outbox| + 1
    && after.outbox[..|before.outbox|] == before.outbox
    && after.outbox[|before.outbox|].id == Some(id)
  }

  /** `after` sent nothing more than `before`, or exactly one reply carrying `id`. */
  predicate AtMostOneReply(before: State, after: State, id: Value) {
    after.outbox == before.outbox || RepliedOnce(before, after, id)
  }

  // ---------------------------------------------------------------------------
  // Connection lifecycle

  /** `connect`: one client row for this channel, holding the user only when the
      identity is a registered user, and one `Connected` envelope without `_id`. */
  function Connect(s: State, cfg: Config, who: Identity): (r: State)
    requires cfg.channel !in s.clients
    ensures r.clients == s.clients[cfg.channel := if who.RegisteredUser? then Some(who.userId) else None]
    ensures |r.clients| == |s.clients| + 1
    ensures r.outbox == s.outbox + [ConnectedEnvelope] && r.outbox[|s.outbox|].id.None?
    ensures r.subs == s.subs && r.view == s.view && r.hooks == s.hooks
    ensures r.nextSubId == s.nextSubId && r.nextSerial == s.nextSerial
  {
    var user := if who.RegisteredUser? then Some(who.userId) else None;
    s.(clients := s.clients[cfg.channel := user], outbox := s.outbox + [ConnectedEnvelope])
  }

  /** The subscriptions that do not belong to `ch`, in their order. */
  function WithoutClient(subs: seq<Subscription>, ch: Channel): (r: seq<Subscription>)
    ensures |r| <= |subs|
    ensures forall x :: x in r <==> x in subs && x.client != ch
    decreases |subs|
  {
    if subs == [] then []
    else
      var rest := WithoutClient(subs[..|subs| - 1], ch);
      var last := subs[|subs| - 1];
      assert subs == subs[..|subs| - 1] + [last];
      if last.client == ch then rest else rest + [last]
  }

  /** `disconnect`: the client row of this channel goes and, by cascade, every
      subscription it owns; every other row stays. */
  function Disconnect(s: State, cfg: Config): (r: State)
    ensures cfg.channel !in r.clients
    ensures forall c :: c != cfg.channel ==> (c in r.clients <==> c in s.clients)
    ensures forall c :: c in r.clients ==> r.clients[c] == s.clients[c]
    ensures forall x :: x in r.subs <==> x in s.subs && x.client != cfg.channel
    ensures r.nextSubId == s.nextSubId && r.view == s.view && r.hooks == s.hooks && r.outbox == s.outbox
  {
    s.(clients := s.clients - {cfg.channel}, subs := WithoutClient(s.subs, cfg.channel))
  }

  // ---------------------------------------------------------------------------
  // receive

  /** The `_id` of a request when it is present and truthy. */
  function RequestId(req: map<string, Value>): (r: Option<Value>)
    ensures r.Some? <==> "_id" in req && Truthy(req["_id"])
    ensures r.Some? ==> r.value == req["_id"] && Truthy(r.value)
  {
    if "_id" in req && Truthy(req["_id"]) then Some(req["_id"]) else None
  }

  const RequestTypes: seq<Value> := [Str("subscribe"), Str("unsubscribe"), Str("method"), Str("geturl")]

  /** A request with a truthy `_id` and a `type`: the envelope `receive` accepts. */
  predicate Typed(data: Value) {
    data.Obj? && RequestId(data.fields).Some? && "type" in data.fields
  }

  /** A request whose `type` is one of the four the consumer handles. */
  predicate Recognised(data: Value) {
    Typed(data) && data.fields["type"] in RequestTypes
  }

  /** The outcome of the handler a recognised request is dispatched to. */
  function Handler(s: State, cfg: Config, data: Value): Step
    requires Recognised(data)
  {
    Dispatch(s, cfg, data.fields["type"].s, data.fields["_id"], data.fields)
  }

  /** `receive`: validates the envelope, dispatches it, and turns a `KeyError`
      in the handler into one generic `Bad format` error. */
  function Receive(s: State, cfg: Config, data: Value): (r: Step)
    ensures r.status != KeyError
    ensures r.status == Uncaught ==> r.after == s
    ensures !data.Obj? ==> r == Step(s, Uncaught)
    // a missing or falsy _id: no reply and no change
    ensures data.Obj? && RequestId(data.fields).None? ==> r == Step(s, Handled)
    // an _id but no type: exactly one 'Bad message' error
    ensures data.Obj? && RequestId(data.fields).Some? && "type" !in data.fields ==>
      r == Step(Send(s, ErrorReply(data.fields["_id"], "Bad message", "message type not found")), Handled)
    // an unknown type: exactly one 'Bad message type' error naming it
    ensures Typed(data) && !Recognised(data) ==>
      r == Step(Send(s, ErrorReply(data.fields["_id"], "Bad message type", Display(data.fields["type"]) + " not recognized")), Handled)
    // a recognised type: the outcome is its handler's, unless the handler raises KeyError
    ensures Recognised(data) && Handler(s, cfg, data).status != KeyError ==> r == Handler(s, cfg, data)
    // ... and a KeyError becomes exactly one 'Bad format' error with the request's _id
    ensures Recognised(data) && Handler(s, cfg, data).status == KeyError ==>
      r == Step(Send(s, BadFormat(data.fields["_id"])), Handled)
    // every request gets at most one reply, correlated by its _id
    ensures data.Obj? && RequestId(data.fields).Some? ==> AtMostOneReply(s, r.after, data.fields["_id"])
    // only geturl may leave a request with an _id unanswered
    ensures data.Obj? && RequestId(data.fields).Some? && r.status == Handled && r.after.outbox == s.outbox ==>
      data.fields["type"] == Str("geturl")
    // the tables only ever gain this channel's own new subscription
    ensures TablesGrowByOwnSubscription(s, r.after, cfg)
    // subscription ids are never handed out twice: the counter only moves forward
    ensures r.after.nextSubId >= s.nextSubId
    ensures ViewIssued(s) ==> ViewIssued(r.after)
  {
    if !data.Obj? then Step(s, Uncaught)
    else
      var req := data.fields;
      match RequestId(req)
      case None => Step(s, Handled)
      case Some(id) =>
        if "type" !in req then
          Step(Send(s, ErrorReply(id, "Bad message", "message type not found")), Handled)
        else
          var t := req["type"];
          if t in RequestTypes then
            var h := Dispatch(s, cfg, t.s, id, req);
            if h.status == KeyError then Step(Send(h.after, BadFormat(id)), Handled) else h
          else
            Step(Send(s, ErrorReply(id, "Bad message type", Display(t) + " not recognized")), Handled)
  }

  /** The `recv_<type>` handler for a recognised type. */
  function Dispatch(s: State, cfg: Config, kind: string, id: Value, req: map<string, Value>): (r: Step)
    requires Str(kind) in RequestTypes
    ensures r.status != Handled ==> r.after == s
    ensures AtMostOneReply(s, r.after, id)
    ensures r.status == Handled && r.after.outbox == s.outbox ==> kind == "geturl"
    ensures TablesGrowByOwnSubscription(s, r.after, cfg)
    ensures ViewIssued(s) ==> ViewIssued(r.after)
    // each recognised type goes to its own handler
    ensures kind == "subscribe" ==> r == Subscribe(s, cfg, id, req)
    ensures kind == "unsubscribe" ==> r == Unsubscribe(s, cfg, id, req)
    ensures kind == "method" ==> r == CallMethod(s, cfg, id, req)
    ensures kind == "geturl" ==> r == GetUrl(s, cfg, id, req)
  {
    if kind == "subscribe" then Subscribe(s, cfg, id, req)
    else if kind == "unsubscribe" then Unsubscribe(s, cfg, id, req)
    else if kind == "method" then CallMethod(s, cfg, id, req)
    else GetUrl(s, cfg, id, req)
  }

  // ---------------------------------------------------------------------------
  // geturl

  /** The index of the first route whose pattern matches `url`. */
  function FirstMatch(routes: seq<Route>, url: string): (r: Option<nat>)
    ensures r.Some? ==> r.value < |routes| && routes[r.value].matches(url)
    ensures r.Some? ==> forall j :: 0 <= j < r.value ==> !routes[j].matches(url)
    ensures r.None? <==> forall j :: 0 <= j < |routes| ==> !routes[j].matches(url)
  {
    if routes == [] then None
    else if routes[0].matches(url) then Some(0)
    else
      match FirstMatch(routes[1..], url)
      case None => None
      case Some(i) => Some(i + 1)
  }

  /** The view currently attached is an instance of `cls`. */
  predicate HasViewOf(s: State, cls: ViewClass) {
    s.view.Some? && s.view.value.cls == cls
  }

  /** The body of the matching route: navigate the current view in place when it
      already has the route's class, otherwise destroy it and create a new one. */
  function Navigate(s: State, cfg: Config, id: Value, cls: ViewClass, url: string): (r: State)
    ensures SameTables(s, r)
    ensures r.view.Some? && r.view.value.cls == cls
    ensures ViewIssued(s) ==> ViewIssued(r)
    // same class: same view object, onurl called, empty Success only if it accepted
    ensures HasViewOf(s, cls) ==>
      var nav := cfg.views.onurl(cls, s.view.value.state, url);
      && r.view.value.serial == s.view.value.serial
      && r.view.value.state == nav.state
      && r.nextSerial == s.nextSerial
      && r.hooks == s.hooks + [OnUrl(s.view.value.serial, url)]
      && r.outbox == s.outbox + (if Truthy(nav.accepted) then [Reply(id, "Success", Arr([]))] else [])
    // otherwise: the old view destroyed once, a new view created and rendered
    ensures !HasViewOf(s, cls) ==>
      var v := r.view.value;
      && v.serial == s.nextSerial && r.nextSerial == s.nextSerial + 1
      && v.state == cfg.views.oncreate(cls, cfg.views.construct(cls, cfg.channel), url)
      && r.hooks == s.hooks + (if s.view.Some? then [OnDestroy(s.view.value.serial)] else [])
                            + [OnCreate(v.serial, url), Render(v.serial)]
      && r.outbox == s.outbox + [Reply(id, "Success", cfg.views.render(cls, v.state))]
  {
    if HasViewOf(s, cls) then
      var v := s.view.value;
      var nav := cfg.views.onurl(cls, v.state, url);
      var s1 := s.(view := Some(v.(state := nav.state)), hooks := s.hooks + [OnUrl(v.serial, url)]);
      if Truthy(nav.accepted) then Send(s1, Reply(id, "Success", Arr([]))) else s1
    else
      var destroyed := if s.view.Some? then s.hooks + [OnDestroy(s.view.value.serial)] else s.hooks;
      var serial := s.nextSerial;
      var created := cfg.views.oncreate(cls, cfg.views.construct(cls, cfg.channel), url);
      var markup := cfg.views.render(cls, created);
      var s1 := s.(view := Some(View(cls, serial, created)), nextSerial := serial + 1,
                   hooks := destroyed + [OnCreate(serial, url), Render(serial)]);
      Send(s1, Reply(id, "Success", markup))
  }

  /** `recv_geturl`: only the first matching route is used; no match sends nothing. */
  function GetUrl(s: State, cfg: Config, id: Value, req: map<string, Value>): (r: Step)
    ensures r.status != Handled ==> r.after == s
    ensures SameTables(s, r.after)
    ensures AtMostOneReply(s, r.after, id)
    ensures ViewIssued(s) ==> ViewIssued(r.after)
    ensures r.status == KeyError <==> Get(Obj(req), "params").NoKey? || Get(req["params"], "url").NoKey?
    // a url that matches no route: nothing sent, view untouched
    ensures ("params" in req && Get(req["params"], "url").Found? && Get(req["params"], "url").value.Str?
             && FirstMatch(cfg.routes, Get(req["params"], "url").value.s).None?) ==> r == Step(s, Handled)
    // a url that matches: the first matching route's class decides
    ensures "params" in req && Get(req["params"], "url").Found? && Get(req["params"], "url").value.Str?
            && FirstMatch(cfg.routes, Get(req["params"], "url").value.s).Some? ==>
      var url := Get(req["params"], "url").value.s;
      r == Step(Navigate(s, cfg, id, cfg.routes[FirstMatch(cfg.routes, url).value].callback, url), Handled)
    // a url that is not a string: the first pattern match raises, unless there is no route to try
    ensures "params" in req && Get(req["params"], "url").Found? && !Get(req["params"], "url").value.Str? ==>
      r == Step(s, if |cfg.routes| == 0 then Handled else Uncaught)
    // raising other than KeyError: `params` is not a dict, or a non-string url meets a route
    ensures r.status == Uncaught <==>
      && "params" in req
      && (|| Get(req["params"], "url").NotDict?
          || (Get(req["params"], "url").Found? && !Get(req["params"], "url").value.Str? && |cfg.routes| > 0))
  {
    if "params" !in req then Step(s, KeyError)
    else
      match Get(req["params"], "url")
      case NoKey => Step(s, KeyError)
      case NotDict => Step(s, Uncaught)
      case Found(u) =>
        if |cfg.routes| == 0 then Step(s, Handled)
        else if !u.Str? then Step(s, Uncaught)
        else
          match FirstMatch(cfg.routes, u.s)
          case None => Step(s, Handled)
          case Some(i) => Step(Navigate(s, cfg, id, cfg.routes[i].callback, u.s), Handled)
  }

  // ---------------------------------------------------------------------------
  // method

  /** `params.name` of a method request, when it is a string. */
  function MethodName(req: map<string, Value>): Option<string> {
    if "params" in req && Get(req["params"], "name").Found? && Get(req["params"], "name").value.Str?
    then Some(Get(req["params"], "name").value.s)
    else None
  }

  /** The request names a method of the registry. */
  predicate Registered(cfg: Config, req: map<string, Value>) {
    MethodName(req).Some? && MethodName(req).value in cfg.methods
  }

  /** `params.params` of a method request; a missing `params` reads as a missing key. */
  function MethodArg(req: map<string, Value>): Lookup {
    if "params" in req then Get(req["params"], "params") else NoKey
  }

  /** What the registered method returns or raises on its argument. */
  function Call(cfg: Config, req: map<string, Value>): MethodResult
    requires Registered(cfg, req) && MethodArg(req).Found?
  {
    cfg.methods[MethodName(req).value](MethodArg(req).value)
  }

  /** `recv_method`: exactly one reply unless a key is missing or the handler raises. */
  function CallMethod(s: State, cfg: Config, id: Value, req: map<string, Value>): (r: Step)
    ensures r.status != Handled ==> r.after == s
    ensures r.status == Handled ==> RepliedOnce(s, r.after, id) && SameTables(s, r.after)
    ensures r.after.view == s.view && r.after.hooks == s.hooks
    ensures r.status == Handled ==> OnlySent(s, r.after, [r.after.outbox[|s.outbox|]])
    // a KeyError: no params, no name, or a registered name whose call lacks its
    // arguments or whose handler raises KeyError itself
    ensures r.status == KeyError <==>
      || "params" !in req
      || Get(req["params"], "name").NoKey?
      || (&& Registered(cfg, req)
          && (|| MethodArg(req).NoKey?
              || (MethodArg(req).Found? && Call(cfg, req).RaisedKeyError?)))
    // any other exception: `params` is not a dict, the name is not a string, or a
    // registered method is called with a non-dict `params` or raises itself
    ensures r.status == Uncaught <==>
      && "params" in req
      && (|| Get(req["params"], "name").NotDict?
          || (Get(req["params"], "name").Found? && !Get(req["params"], "name").value.Str?)
          || (&& Registered(cfg, req)
              && (|| MethodArg(req).NotDict?
                  || (MethodArg(req).Found? && Call(cfg, req).RaisedOther?))))
    // an unregistered name
    ensures MethodName(req).Some? && MethodName(req).value !in cfg.methods ==>
      r == Step(Send(s, ErrorReply(id, "Not found", "Method " + MethodName(req).value + " not found")), Handled)
    // a registered handler that returns: Success when truthy, Error when falsy, its value as params
    ensures Registered(cfg, req) && MethodArg(req).Found? && Call(cfg, req).Returned? ==>
      var ret := Call(cfg, req).value;
      r == Step(Send(s, Reply(id, if Truthy(ret) then "Success" else "Error", ret)), Handled)
  {
    if "params" !in req then Step(s, KeyError)
    else
      var params := req["params"];
      match Get(params, "name")
      case NoKey => Step(s, KeyError)
      case NotDict => Step(s, Uncaught)
      case Found(n) =>
        if !n.Str? then Step(s, Uncaught)
        else if n.s !in cfg.methods then
          var e := ErrorReply(id, "Not found", "Method " + n.s + " not found");
          assert OnlySent(s, Send(s, e), [e]);
          Step(Send(s, e), Handled)
        else
          match Get(params, "params")
          case NoKey => Step(s, KeyError)
          case NotDict => Step(s, Uncaught)
          case Found(arg) =>
            match cfg.methods[n.s](arg)
            case RaisedKeyError => Step(s, KeyError)
            case RaisedOther => Step(s, Uncaught)
            case Returned(ret) =>
              var e := Reply(id, if Truthy(ret) then "Success" else "Error", ret);
              assert OnlySent(s, Send(s, e), [e]);
              Step(Send(s, e), Handled)
  }

  // ---------------------------------------------------------------------------
  // subscribe / unsubscribe

  const SubscriptionKeys: seq<string> := ["name", "_id"]

  /** The outcome of checking `key in params` for each key in turn. */
  datatype KeyCheck = AllPresent | Absent(at: nat) | NotContainer

  /** The first key that `in` reports absent, or a `TypeError` on the first test. */
  function FirstAbsent(v: Value, keys: seq<string>): (r: KeyCheck)
    ensures r.NotContainer? <==> |keys| > 0 && !IsContainer(v)
    ensures r.AllPresent? <==> forall j :: 0 <= j < |keys| ==> Contains(v, keys[j]) == Some(true)
    ensures r.Absent? ==> r.at < |keys| && Contains(v, keys[r.at]) == Some(false)
    ensures r.Absent? ==> forall j :: 0 <= j < r.at ==> Contains(v, keys[j]) == Some(true)
  {
    if keys == [] then AllPresent
    else
      match Contains(v, keys[0])
      case None => NotContainer
      case Some(present) =>
        if !present then Absent(0)
        else
          match FirstAbsent(v, keys[1..])
          case AllPresent => AllPresent
          case NotContainer => NotContainer
          case Absent(i) => Absent(i + 1)
  }

  /** `recv_subscribe`: checks `name` then `_id`, then appends exactly one
      subscription owned by this channel's client and replies with its id. */
  function Subscribe(s: State, cfg: Config, id: Value, req: map<string, Value>): (r: Step)
    ensures r.status != Handled ==> r.after == s
    ensures r.status == KeyError <==> "params" !in req
    ensures r.status == Handled ==> RepliedOnce(s, r.after, id)
    ensures r.after.view == s.view && r.after.hooks == s.hooks && r.after.nextSerial == s.nextSerial
    ensures TablesGrowByOwnSubscription(s, r.after, cfg)
    // a missing key: one error naming the first one, nothing added
    ensures "params" in req && cfg.channel in s.clients && FirstAbsent(req["params"], SubscriptionKeys).Absent? ==>
      var key := SubscriptionKeys[FirstAbsent(req["params"], SubscriptionKeys).at];
      r == Step(Send(s, ErrorReply(id, "Bad format", "Subscription " + key + " not found")), Handled)
    // both keys and a known publication: one new subscription and a Success with its id
    ensures "params" in req && cfg.channel in s.clients && req["params"].Obj?
            && "name" in req["params"].fields && "_id" in req["params"].fields
            && req["params"].fields["name"].Str? && req["params"].fields["name"].s in cfg.publications ==>
      var p := req["params"].fields;
      var sub := Subscription(s.nextSubId, p["name"].s, p["_id"], cfg.channel);
      && r.status == Handled
      && r.after.subs == s.subs + [sub]
      && r.after.nextSubId == s.nextSubId + 1
      && r.after.clients == s.clients && r.after.view == s.view && r.after.hooks == s.hooks
      && r.after.outbox == s.outbox + [Reply(id, "Success", Obj(map["name" := p["name"], "sub_id" := Num(sub.id)]))]
    // any other exception: no client row, params not a container, or both keys
    // present but `params.name` not the name of a publication
    ensures r.status == Uncaught <==>
      && "params" in req
      && (|| cfg.channel !in s.clients
          || FirstAbsent(req["params"], SubscriptionKeys).NotContainer?
          || (&& FirstAbsent(req["params"], SubscriptionKeys).AllPresent?
              && !(&& Get(req["params"], "name").Found?
                   && Get(req["params"], "name").value.Str?
                   && Get(req["params"], "name").value.s in cfg.publications)))
  {
    if "params" !in req then Step(s, KeyError)
    else
      var params := req["params"];
      if cfg.channel !in s.clients then Step(s, Uncaught)
      else
        match FirstAbsent(params, SubscriptionKeys)
        case NotContainer => Step(s, Uncaught)
        case Absent(k) =>
          var e := ErrorReply(id, "Bad format", "Subscription " + SubscriptionKeys[k] + " not found");
          assert OnlySent(s, Send(s, e), [e]);
          Step(Send(s, e), Handled)
        case AllPresent =>
          match Get(params, "name")
          case NoKey => Step(s, Uncaught)
          case NotDict => Step(s, Uncaught)
          case Found(n) =>
            if !(n.Str? && n.s in cfg.publications) then Step(s, Uncaught)
            else
              assert Contains(params, SubscriptionKeys[1]) == Some(true);
              var sub := Subscription(s.nextSubId, n.s, params.fields["_id"], cfg.channel);
              var e := Reply(id, "Success", Obj(map["name" := n, "sub_id" := Num(sub.id)]));
              Step(Send(s.(subs := s.subs + [sub], nextSubId := s.nextSubId + 1), e), Handled)
  }

  /** `recv_unsubscribe`: echoes `params.name` and changes nothing else. */
  function Unsubscribe(s: State, cfg: Config, id: Value, req: map<string, Value>): (r: Step)
    ensures r.status != Handled ==> r.after == s
    ensures r.status == KeyError <==> "params" !in req || Get(req["params"], "name").NoKey?
    ensures r.status == Handled ==>
      "params" in req && req["params"].Obj? && "name" in req["params"].fields &&
      OnlySent(s, r.after, [Envelope(Some(id), "unsubscribed", Some("Got unsub"),
                                     Some(Obj(map["name" := req["params"].fields["name"]])))])
    // a request carrying `params.name` is always answered
    ensures r.status == Handled <==> "params" in req && req["params"].Obj? && "name" in req["params"].fields
    ensures r.status == Uncaught <==> "params" in req && !req["params"].Obj?
  {
    if "params" !in req then Step(s, KeyError)
    else
      match Get(req["params"], "name")
      case NoKey => Step(s, KeyError)
      case NotDict => Step(s, Uncaught)
      case Found(n) =>
        Step(Send(s, Envelope(Some(id), "unsubscribed", Some("Got unsub"), Some(Obj(map["name" := n])))), Handled)
  }

  // ---------------------------------------------------------------------------
  // handle.ddp events from the channel layer

  /** `insert_component`: a DDP insert (or change) carrying `instance`. */
  function InsertComponent(s: State, data: Value, change: bool): (r: Step)
    ensures r.status != KeyError
    ensures r.status == Uncaught <==> Get(data, "instance").NoKey? || Get(data, "instance").NotDict?
    ensures r.status == Uncaught ==> r.after == s
    ensures r.status == Handled ==>
      OnlySent(s, r.after, [Ddp(if change then "change" else "insert", data.fields["instance"])])
  {
    match Get(data, "instance")
    case Found(inst) => Step(Send(s, Ddp(if change then "change" else "insert", inst)), Handled)
    case _ => Step(s, Uncaught)
  }

  /** `remove_component`: a DDP remove carrying `{_id, parent}`. */
  function RemoveComponent(s: State, data: Value): (r: Step)
    ensures r.status != KeyError
    ensures r.status == Uncaught <==> !(Get(data, "_id").Found? && Get(data, "parent").Found?)
    ensures r.status == Uncaught ==> r.after == s
    ensures r.status == Handled ==>
      OnlySent(s, r.after, [Ddp("remove", Obj(map["_id" := data.fields["_id"], "parent" := data.fields["parent"]]))])
  {
    match Get(data, "_id")
    case Found(cid) =>
      (match Get(data, "parent")
       case Found(parent) => Step(Send(s, Ddp("remove", Obj(map["_id" := cid, "parent" := parent]))), Handled)
       case _ => Step(s, Uncaught))
    case _ => Step(s, Uncaught)
  }

  /** `handle_ddp`: inserted, changed and removed events become DDP envelopes
      without an `_id`; any other event type sends nothing. A missing key here is
      not caught. */
  function HandleDdp(s: State, event: Value): (r: Step)
    ensures r.status != KeyError
    ensures r.status == Uncaught ==> r.after == s
    ensures SameTables(s, r.after) && r.after.view == s.view && r.after.hooks == s.hooks
    ensures r.after.outbox == s.outbox || (|r.after.outbox| == |s.outbox| + 1 && r.after.outbox[..|s.outbox|] == s.outbox
                                            && r.after.outbox[|s.outbox|].id.None? && r.after.outbox[|s.outbox|].kind == "DDP")
    ensures Get(event, "params").Found? && Get(Get(event, "params").value, "type").Found? ==>
      var p := Get(event, "params").value;
      var t := Get(p, "type").value;
      && (t == Str("inserted") ==> r == InsertComponent(s, p, false))
      && (t == Str("changed") ==> r == InsertComponent(s, p, true))
      && (t == Str("removed") ==> r == RemoveComponent(s, p))
      && (t !in [Str("inserted"), Str("changed"), Str("removed")] ==> r == Step(s, Handled))
    // no `params` or no `type`: the lookup raises and nothing is sent
    ensures !(Get(event, "params").Found? && Get(Get(event, "params").value, "type").Found?) ==> r == Step(s, Uncaught)
  {
    match Get(event, "params")
    case Found(p) =>
      (match Get(p, "type")
       case Found(t) =>
         if t == Str("inserted") then InsertComponent(s, p, false)
         else if t == Str("changed") then InsertComponent(s, p, true)
         else if t == Str("removed") then RemoveComponent(s, p)
         else Step(s, Handled)
       case _ => Step(s, Uncaught))
    case _ => Step(s, Uncaught)
  }
}
