/**
  The event connection (src/wsListener.ts): the wait for a non-empty access
  token with exponential backoff, the broker URL, the callbacks the STOMP
  client runs (beforeConnect, onConnect, onStompError) and the disposer that
  connectWebSockets returns.

  The credential provider becomes the sequence of its replies; the STOMP
  client becomes a log of the calls made to it (client creation,
  activation, deactivation, subscription). Timers are not run: the wait
  loop reports the delays it would sleep.
 */
module WsListener {
  import opened OrderTypes
  import opened Tools

  // ----- the token wait loop -----

  /** One reply of `params.authDataProvider()`: a `{token, UUID}` value, or
      a rejected promise. */
  datatype Reply = Reply(token: string, uuid: string) | Throws

  datatype WaitStatus =
    | Obtained(token: string)   // the loop ended with this token
    | Threw                     // the provider rejected: awaitAccessToken throws
    | Pending                   // every reply so far had an empty token: still waiting

  /** How far awaitAccessToken got on a sequence of replies: its status,
      the number of provider calls, the final `tries`, the value left in
      `userUUID` and the backoff delays slept, in order. */
  datatype Wait = Wait(status: WaitStatus, calls: nat, tries: nat, uuid: string, delaysMs: seq<nat>)

  function Pow2(n: nat): nat {
    if n == 0 then 1 else 2 * Pow2(n - 1)
  }

  function Min(a: int, b: int): int {
    if a <= b then a else b
  }

  /** `1000 * Math.min(Math.pow(2, tries), 30)` */
  function BackoffMs(tries: nat): nat {
    1000 * Min(Pow2(tries), 30)
  }

  /** The delays slept after the 1st, 2nd, ..., n-th empty token. */
  function Delays(n: nat): (r: seq<nat>)
    ensures |r| == n
    ensures forall i :: 0 <= i < n ==> r[i] == BackoffMs(i + 1)
  {
    if n == 0 then [] else Delays(n - 1) + [BackoffMs(n)]
  }

  predicate EmptyReply(r: Reply) {
    r.Reply? && r.token == ""
  }

  /** The UUID of the last reply that carried one, or `uuid0`. */
  function LastUUID(rs: seq<Reply>, uuid0: string): string
    decreases |rs|
  {
    if rs == [] then uuid0
    else match rs[|rs| - 1] {
      case Reply(_, uuid) => uuid
      case Throws => LastUUID(rs[..|rs| - 1], uuid0)
    }
  }

  /** The specification of awaitAccessToken on replies `rs`, with `uuid0`
      in `userUUID` at the start: the provider is called until it yields
      a non-empty token (or rejects), every earlier reply had an empty
      token, each of them incremented `tries` and was followed by the
      delay for that count, and `userUUID` holds the UUID of the last
      reply. */
  ghost predicate IsWaitOutcome(rs: seq<Reply>, uuid0: string, w: Wait) {
    && w.tries <= w.calls <= |rs|
    && (forall j :: 0 <= j < w.tries ==> EmptyReply(rs[j]))
    && (match w.status
        case Obtained(t) => t != "" && w.calls == w.tries + 1 && rs[w.tries].Reply? && rs[w.tries].token == t
        case Threw => w.calls == w.tries + 1 && rs[w.tries].Throws?
        case Pending => w.calls == w.tries == |rs|)
    && w.delaysMs == Delays(w.tries)
    && w.uuid == LastUUID(rs[..w.calls], uuid0)
  }

  /** awaitAccessToken, run on the replies the provider gives. The source
      has no retry cap; with finitely many replies that are all empty the
      loop is still waiting when they run out. */
  method AwaitAccessToken(responses: seq<Reply>, uuid0: string) returns (w: Wait)
    ensures IsWaitOutcome(responses, uuid0, w)
  {
    var token := "";
    var tries := 0;
    var userUUID := uuid0;
    var delays: seq<nat> := [];
    var i := 0;
    while token == "" && i < |responses|
      invariant 0 <= i <= |responses|
      invariant token == "" ==> tries == i
      invariant token != "" ==> i > 0 && tries == i - 1 && responses[tries] == Reply(token, userUUID)
      invariant forall j :: 0 <= j < tries ==> EmptyReply(responses[j])
      invariant delays == Delays(tries)
      invariant userUUID == LastUUID(responses[..i], uuid0)
    {
      var data := responses[i];
      assert responses[..i + 1][..i] == responses[..i];
      i := i + 1;
      if data.Throws? {
        return Wait(Threw, i, tries, userUUID, delays);
      }
      token := data.token;
      userUUID := data.uuid;
      if token == "" {
        tries := tries + 1;
        delays := delays + [BackoffMs(tries)];
      }
    }
    if token != "" {
      w := Wait(Obtained(token), i, tries, userUUID, delays);
    } else {
      w := Wait(Pending, i, tries, userUUID, delays);
    }
  }

  /** The specification picks one outcome: the first non-empty or
      rejected reply ends the wait. */
  lemma WaitOutcomeUnique(rs: seq<Reply>, uuid0: string, w1: Wait, w2: Wait)
    requires IsWaitOutcome(rs, uuid0, w1) && IsWaitOutcome(rs, uuid0, w2)
    ensures w1 == w2
  {
  }

  lemma {:induction false} Pow2Monotone(j: nat, k: nat)
    requires j <= k
    ensures Pow2(j) <= Pow2(k)
    decreases k
  {
    if j < k {
      Pow2Monotone(j, k - 1);
    }
  }

  /** The first wait is 2 s, no wait exceeds 30 s, the waits never shrink,
      and from the fifth empty token on every wait is 30 s. */
  lemma BackoffSchedule(j: nat, k: nat)
    requires 1 <= j <= k
    ensures BackoffMs(1) == 2000
    ensures 2000 <= BackoffMs(j) <= BackoffMs(k) <= 30000
    ensures k >= 5 ==> BackoffMs(k) == 30000
  {
    Pow2Monotone(1, j);
    Pow2Monotone(j, k);
    if k >= 5 {
      Pow2Monotone(5, k);
    }
  }

  lemma DelaysBounded(n: nat)
    ensures forall i :: 0 <= i < n ==> 2000 <= Delays(n)[i] <= 30000
  {
    forall i | 0 <= i < n
      ensures 2000 <= Delays(n)[i] <= 30000
    {
      BackoffSchedule(i + 1, i + 1);
    }
  }

  // ----- the broker URL -----

  /** `replaceProtocolInUrl(params.baseURL, 'wss://') + '/websocket'`;
      None when `new URL` throws, which rejects connectWebSockets. An
      undefined replacement turns into the text "undefined". */
  function BrokerUrl(baseURL: string): (r: Option<string>)
    ensures r.None? <==> ProtocolOf(baseURL).None?
    ensures r.Some? ==> |r.value| >= 10 && r.value[|r.value| - 10..] == "/websocket"
  {
    match ReplaceProtocolInUrl(baseURL, "wss://")
    case Replaced(url) => Some(url + "/websocket")
    case NoMatch => Some("undefined" + "/websocket")
    case InvalidUrl => None
  }

  lemma BrokerUrlOfSchemeUrl(scheme: string, rest: string)
    requires ValidScheme(scheme) && Lower(scheme) == scheme
    ensures BrokerUrl(scheme + "://" + rest) == Some("wss://" + rest + "/websocket")
  {
    ReplaceSchemeUrl(scheme, rest, "wss://");
  }

  /** A base URL with leading spaces parses, but its prefix test fails, so
      the broker URL is the text "undefined/websocket". */
  lemma BrokerUrlOfPaddedUrl(padding: string, scheme: string, rest: string)
    requires |padding| > 0 && forall i :: 0 <= i < |padding| ==> IsC0OrSpace(padding[i])
    requires ValidScheme(scheme)
    ensures BrokerUrl(padding + scheme + "://" + rest) == Some("undefined" + "/websocket")
  {
    LeadingSpaceIsNoMatch(padding, scheme, rest, "wss://");
  }

  // ----- the subscriptions of onConnect -----

  /** The parts of ConnectWebSocketsParams the decisions read; each
      `has...` says whether that handler is set. `enableKDS` is not read
      by this file. */
  datatype ConnectParams = ConnectParams(
    baseURL: string,
    tenant: string,
    venue: string,
    hasKDSHandler: bool,
    hasOrdersUpdateHandler: bool,
    hasNotificationHandler: bool,
    hasSteeringHandler: bool)

  datatype Channel = Kds | OrderChanges | Notifications | Steering

  /** One `client.subscribe(destination, callback, headers)` to the
      destination `/{channel}/{tenant}/{scope}`; `venueHeader` is the
      `x-venue` header, None for no headers. */
  datatype Subscription = Subscription(channel: Channel, tenant: string, scope: string, venueHeader: Option<string>)

  function ChannelName(c: Channel): string {
    match c
    case Kds => "kds"
    case OrderChanges => "order-changes"
    case Notifications => "notifications"
    case Steering => "steering"
  }

  /** The position of a channel's subscription in onConnect. */
  function ChannelRank(c: Channel): nat {
    match c
    case Kds => 0
    case OrderChanges => 1
    case Notifications => 2
    case Steering => 3
  }

  /** The kitchen-display and steering channels are scoped by venue, the
      order-changes and notification channels by the user's UUID. */
  function Scope(c: Channel, p: ConnectParams, userUUID: string): string {
    if c == Kds || c == Steering then p.venue else userUUID
  }

  function Destination(c: Channel, tenant: string, scope: string): string {
    "/" + ChannelName(c) + "/" + tenant + "/" + scope
  }

  /** Two channels never share a destination, whatever the tenant and
      scopes: their names differ in the first letter. */
  lemma DestinationsDistinct(c1: Channel, c2: Channel, tenant: string, s1: string, s2: string)
    requires c1 != c2
    ensures Destination(c1, tenant, s1) != Destination(c2, tenant, s2)
  {
    assert Destination(c1, tenant, s1)[1] == ChannelName(c1)[0];
    assert Destination(c2, tenant, s2)[1] == ChannelName(c2)[0];
  }

  /** The destination string a subscription is made to. */
  function DestinationOf(sub: Subscription): string {
    Destination(sub.channel, sub.tenant, sub.scope)
  }

  predicate Subscribes(plan: seq<Subscription>, c: Channel) {
    exists i :: 0 <= i < |plan| && plan[i].channel == c
  }

  /** The headers of a subscription: `{ 'x-venue': venue }` on the
      order-changes and notification channels when the venue is set. */
  function Header(c: Channel, p: ConnectParams): Option<string> {
    if (c == OrderChanges || c == Notifications) && p.venue != "" then Some(p.venue) else None
  }

  function Subscribe(c: Channel, p: ConnectParams, userUUID: string): Subscription {
    Subscription(c, p.tenant, Scope(c, p, userUUID), Header(c, p))
  }

  /** `[s]` when `b` holds, else nothing. */
  function When(b: bool, s: Subscription): seq<Subscription> {
    if b then [s] else []
  }

  /** The subscriptions in `plan` come in strictly increasing channel rank,
      all below `k`, and each is the one onConnect makes for its channel. */
  ghost predicate PlanPrefix(plan: seq<Subscription>, p: ConnectParams, userUUID: string, k: nat) {
    && (forall i, j :: 0 <= i < j < |plan| ==> ChannelRank(plan[i].channel) < ChannelRank(plan[j].channel))
    && (forall i :: 0 <= i < |plan| ==> ChannelRank(plan[i].channel) < k)
    && (forall i :: 0 <= i < |plan| ==> plan[i] == Subscribe(plan[i].channel, p, userUUID))
  }

  /** PlanPrefix, one subscription at a time from the end. */
  ghost predicate Ranked(plan: seq<Subscription>, p: ConnectParams, userUUID: string, k: nat)
    decreases |plan|
  {
    plan == [] ||
    var last := plan[|plan| - 1];
    && ChannelRank(last.channel) < k
    && last == Subscribe(last.channel, p, userUUID)
    && Ranked(plan[..|plan| - 1], p, userUUID, ChannelRank(last.channel))
  }

  lemma {:induction false} RankedIsPlanPrefix(plan: seq<Subscription>, p: ConnectParams, userUUID: string, k: nat)
    requires Ranked(plan, p, userUUID, k)
    ensures PlanPrefix(plan, p, userUUID, k)
  {
    if plan != [] {
      var n := |plan| - 1;
      RankedIsPlanPrefix(plan[..n], p, userUUID, ChannelRank(plan[n].channel));
      assert forall i :: 0 <= i < n ==> plan[..n][i] == plan[i];
    }
  }

  /** The channels of a plan, in order. */
  function Channels(plan: seq<Subscription>): (r: seq<Channel>)
    ensures |r| == |plan|
    ensures forall i :: 0 <= i < |plan| ==> r[i] == plan[i].channel
  {
    if plan == [] then [] else Channels(plan[..|plan| - 1]) + [plan[|plan| - 1].channel]
  }

  lemma ChannelsAppend(plan: seq<Subscription>, b: bool, s: Subscription)
    ensures Channels(plan + When(b, s)) == Channels(plan) + (if b then [s.channel] else [])
  {
    if b {
      assert (plan + [s])[..|plan|] == plan;
    } else {
      assert plan + [] == plan;
    }
  }

  lemma SubscribesChannels(plan: seq<Subscription>, c: Channel)
    ensures Subscribes(plan, c) <==> c in Channels(plan)
  {
    if c in Channels(plan) {
      var i :| 0 <= i < |plan| && Channels(plan)[i] == c;
      assert plan[i].channel == c;
    }
  }

  /** The subscriptions onConnect makes, in order. */
  function SubscriptionPlan(p: ConnectParams, userUUID: string): seq<Subscription> {
    When(p.hasKDSHandler, Subscribe(Kds, p, userUUID))
    + When(p.hasOrdersUpdateHandler, Subscribe(OrderChanges, p, userUUID))
    + When(p.hasNotificationHandler, Subscribe(Notifications, p, userUUID))
    + When(p.hasSteeringHandler && p.venue != "", Subscribe(Steering, p, userUUID))
  }

  /** The channels onConnect subscribes to: the kitchen-display channel iff
      its handler is set, the order-changes and notification channels iff
      theirs are, the steering channel iff its handler and the venue are
      set. */
  function WantedChannels(p: ConnectParams): seq<Channel> {
    (if p.hasKDSHandler then [Kds] else [])
    + (if p.hasOrdersUpdateHandler then [OrderChanges] else [])
    + (if p.hasNotificationHandler then [Notifications] else [])
    + (if p.hasSteeringHandler && p.venue != "" then [Steering] else [])
  }

  /** onConnect subscribes to exactly the wanted channels, each once and
      in the order kitchen display, order changes, notifications, steering. */
  lemma {:induction false} PlanChannels(p: ConnectParams, userUUID: string)
    ensures Channels(SubscriptionPlan(p, userUUID)) == WantedChannels(p)
  {
    var u := userUUID;
    var w1 := When(p.hasKDSHandler, Subscribe(Kds, p, u));
    var w2 := When(p.hasOrdersUpdateHandler, Subscribe(OrderChanges, p, u));
    var w3 := When(p.hasNotificationHandler, Subscribe(Notifications, p, u));
    var c1: seq<Channel> := if p.hasKDSHandler then [Kds] else [];
    var c2: seq<Channel> := if p.hasOrdersUpdateHandler then [OrderChanges] else [];
    var c3: seq<Channel> := if p.hasNotificationHandler then [Notifications] else [];
    var c4: seq<Channel> := if p.hasSteeringHandler && p.venue != "" then [Steering] else [];
    assert Channels(w1) == c1;
    ChannelsAppend(w1, p.hasOrdersUpdateHandler, Subscribe(OrderChanges, p, u));
    assert Channels(w1 + w2) == c1 + c2;
    ChannelsAppend(w1 + w2, p.hasNotificationHandler, Subscribe(Notifications, p, u));
    assert Channels(w1 + w2 + w3) == c1 + c2 + c3;
    ChannelsAppend(w1 + w2 + w3, p.hasSteeringHandler && p.venue != "", Subscribe(Steering, p, u));
  }

  lemma PlanSubscribes(p: ConnectParams, userUUID: string, c: Channel)
    ensures Subscribes(SubscriptionPlan(p, userUUID), c) <==> c in WantedChannels(p)
  {
    PlanChannels(p, userUUID);
    SubscribesChannels(SubscriptionPlan(p, userUUID), c);
  }

  /** Each subscription goes to `/{channel}/{tenant}/{venue or UUID}`, with
      the `x-venue` header only on the two UUID-scoped channels and only
      when the venue is set, and the channels come in increasing rank. */
  lemma {:induction false} PlanShape(p: ConnectParams, userUUID: string)
    ensures PlanPrefix(SubscriptionPlan(p, userUUID), p, userUUID, 4)
  {
    var u := userUUID;
    var w1 := When(p.hasKDSHandler, Subscribe(Kds, p, u));
    var w2 := When(p.hasOrdersUpdateHandler, Subscribe(OrderChanges, p, u));
    var w3 := When(p.hasNotificationHandler, Subscribe(Notifications, p, u));
    RankedStep([], p.hasKDSHandler, Kds, p, u);
    assert [] + w1 == w1;
    RankedStep(w1, p.hasOrdersUpdateHandler, OrderChanges, p, u);
    RankedStep(w1 + w2, p.hasNotificationHandler, Notifications, p, u);
    RankedStep(w1 + w2 + w3, p.hasSteeringHandler && p.venue != "", Steering, p, u);
    RankedIsPlanPrefix(SubscriptionPlan(p, u), p, u, 4);
  }

  /** Each subscription is made to `/{channel}/{tenant}/{venue or UUID}`,
      and no two subscriptions of the plan share a destination. */
  lemma PlanDestinations(p: ConnectParams, userUUID: string)
    ensures var plan := SubscriptionPlan(p, userUUID);
      forall i :: 0 <= i < |plan| ==>
        DestinationOf(plan[i]) == Destination(plan[i].channel, p.tenant, Scope(plan[i].channel, p, userUUID))
    ensures var plan := SubscriptionPlan(p, userUUID);
      forall i, j :: 0 <= i < j < |plan| ==> DestinationOf(plan[i]) != DestinationOf(plan[j])
  {
    var plan := SubscriptionPlan(p, userUUID);
    PlanShape(p, userUUID);
    forall i, j | 0 <= i < j < |plan|
      ensures DestinationOf(plan[i]) != DestinationOf(plan[j])
    {
      assert plan[i].tenant == p.tenant == plan[j].tenant;
      DestinationsDistinct(plan[i].channel, plan[j].channel, p.tenant, plan[i].scope, plan[j].scope);
    }
  }

  lemma RankedStep(plan: seq<Subscription>, b: bool, c: Channel, p: ConnectParams, userUUID: string)
    requires Ranked(plan, p, userUUID, ChannelRank(c))
    ensures Ranked(plan + When(b, Subscribe(c, p, userUUID)), p, userUUID, ChannelRank(c) + 1)
  {
    var s := Subscribe(c, p, userUUID);
    if b {
      assert (plan + [s])[..|plan|] == plan;
    } else {
      assert plan + [] == plan;
      RankedWeaken(plan, p, userUUID, ChannelRank(c), ChannelRank(c) + 1);
    }
  }

  lemma RankedWeaken(plan: seq<Subscription>, p: ConnectParams, userUUID: string, k: nat, k': nat)
    requires Ranked(plan, p, userUUID, k) && k <= k'
    ensures Ranked(plan, p, userUUID, k')
  {
  }

  // ----- the connection -----

  /** A call made on a STOMP client; clients are numbered 1, 2, ... in
      the order they are created. */
  datatype ClientCall =
    | CreateClient(client: nat)
    | Activate(client: nat)
    | Deactivate(client: nat)
    | Subscribed(client: nat, subscription: Subscription)

  /** The disposer connectWebSockets resolves to. */
  datatype Disposer = DeactivateClient | NoOp

  /** connectWebSockets rejects (bad base URL), is still waiting for a
      token, or resolves to a disposer. */
  datatype ConnectResult = Rejects | Waiting | Ready(disposer: Disposer)

  /** One subscribe call on `client` per subscription of `plan`. */
  function SubscribeCalls(client: nat, plan: seq<Subscription>): (r: seq<ClientCall>)
    ensures |r| == |plan|
    ensures forall i :: 0 <= i < |plan| ==> r[i] == Subscribed(client, plan[i])
  {
    if plan == [] then [] else SubscribeCalls(client, plan[..|plan| - 1]) + [Subscribed(client, plan[|plan| - 1])]
  }

  /** The state one connectWebSockets call closes over. */
  class EventConnection {
    const params: ConnectParams
    const brokerURL: string
    var userUUID: string
    /** `stompConfig.connectHeaders.login`; None while connectHeaders is
        unset */
    var connectHeaders: Option<string>
    /** the client `client` refers to; 0 before the first is created */
    var client: nat
    /** calls made on STOMP clients, oldest first */
    var clientCalls: seq<ClientCall>
    /** access tokens passed to `params.onConnectedAsync`, oldest first */
    var connectedCalls: seq<string>

    constructor (p: ConnectParams, url: string)
      ensures params == p && brokerURL == url
      ensures userUUID == "" && connectHeaders == None && client == 0
      ensures clientCalls == [] && connectedCalls == []
    {
      params := p;
      brokerURL := url;
      userUUID := "";
      connectHeaders := None;
      client := 0;
      clientCalls := [];
      connectedCalls := [];
    }

    /** `client = createNewClient(stompConfig); client.activate();` */
    method StartNewClient()
      modifies this`client, this`clientCalls
      ensures client == old(client) + 1
      ensures clientCalls == old(clientCalls) + [CreateClient(client), Activate(client)]
    {
      client := client + 1;
      clientCalls := clientCalls + [CreateClient(client), Activate(client)];
    }

    /** beforeConnect: wait for a token and put it in the connect headers.
        When the wait throws or is still going on, the headers stay. */
    method BeforeConnect(replies: seq<Reply>) returns (w: Wait)
      modifies this`userUUID, this`connectHeaders
      ensures IsWaitOutcome(replies, old(userUUID), w)
      ensures userUUID == w.uuid
      ensures connectHeaders == if w.status.Obtained? then Some(w.status.token) else old(connectHeaders)
    {
      w := AwaitAccessToken(replies, userUUID);
      userUUID := w.uuid;
      if w.status.Obtained? {
        connectHeaders := Some(w.status.token);
      }
    }

    /** onConnect; `connectedOk` says whether `params.onConnectedAsync`
        resolves (if it rejects, no subscription is made). */
    method OnConnect(connectedOk: bool)
      modifies this`clientCalls, this`connectedCalls
      ensures connectHeaders.None? ==> clientCalls == old(clientCalls) && connectedCalls == old(connectedCalls)
      ensures connectHeaders.Some? ==>
        && connectedCalls == old(connectedCalls) + [connectHeaders.value]
        && clientCalls == old(clientCalls) +
             (if connectedOk then SubscribeCalls(client, SubscriptionPlan(params, userUUID)) else [])
    {
      if connectHeaders.None? {
        return;
      }
      var accessToken := connectHeaders.value;
      connectedCalls := connectedCalls + [accessToken];
      if !connectedOk {
        return;
      }
      ghost var before := clientCalls;
      ghost var u := userUUID;
      ghost var w1 := When(params.hasKDSHandler, Subscribe(Kds, params, u));
      ghost var w2 := When(params.hasOrdersUpdateHandler, Subscribe(OrderChanges, params, u));
      ghost var w3 := When(params.hasNotificationHandler, Subscribe(Notifications, params, u));
      assert clientCalls == before + SubscribeCalls(client, []);
      SubscribeIf(params.hasKDSHandler, Subscribe(Kds, params, userUUID), before, []);
      assert [] + w1 == w1;
      SubscribeIf(params.hasOrdersUpdateHandler, Subscribe(OrderChanges, params, userUUID), before, w1);
      SubscribeIf(params.hasNotificationHandler, Subscribe(Notifications, params, userUUID), before, w1 + w2);
      SubscribeIf(params.hasSteeringHandler && params.venue != "", Subscribe(Steering, params, userUUID), before, w1 + w2 + w3);
    }

    /** `if (handler) client.subscribe(...)` for one channel. */
    method SubscribeIf(b: bool, sub: Subscription, ghost before: seq<ClientCall>, ghost planned: seq<Subscription>)
      requires clientCalls == before + SubscribeCalls(client, planned)
      modifies this`clientCalls
      ensures clientCalls == before + SubscribeCalls(client, planned + When(b, sub))
    {
      if b {
        assert (planned + [sub])[..|planned|] == planned;
        clientCalls := clientCalls + [Subscribed(client, sub)];
      } else {
        assert planned + [] == planned;
      }
    }

    /** onStompError: deactivate the current client, then create and
        activate a new one with the same configuration. */
    method OnStompError()
      modifies this`client, this`clientCalls
      ensures client == old(client) + 1
      ensures clientCalls == old(clientCalls) + [Deactivate(old(client)), CreateClient(client), Activate(client)]
    {
      clientCalls := clientCalls + [Deactivate(client)];
      StartNewClient();
    }

    /** Calling the disposer: it deactivates whatever client `client`
        refers to at that time. */
    method Dispose(d: Disposer)
      modifies this`clientCalls
      ensures clientCalls == old(clientCalls) + (if d == DeactivateClient then [Deactivate(client)] else [])
    {
      if d == DeactivateClient {
        clientCalls := clientCalls + [Deactivate(client)];
      }
    }
  }

  /** connectWebSockets with the provider's replies to its initial token
      wait. */
  method ConnectWebSockets(p: ConnectParams, replies: seq<Reply>) returns (result: ConnectResult, conn: EventConnection?)
    ensures BrokerUrl(p.baseURL).None? <==> result == Rejects
    ensures result == Rejects <==> conn == null
    ensures conn != null ==> fresh(conn) && conn.params == p && conn.brokerURL == BrokerUrl(p.baseURL).value
    ensures conn != null ==> exists w ::
      && IsWaitOutcome(replies, "", w)
      && conn.userUUID == w.uuid
      && conn.connectedCalls == []
      && match w.status
         case Obtained(t) =>
           result == Ready(DeactivateClient) && conn.connectHeaders == Some(t)
           && conn.client == 1 && conn.clientCalls == [CreateClient(1), Activate(1)]
         case Threw =>
           result == Ready(NoOp) && conn.connectHeaders == None && conn.client == 0 && conn.clientCalls == []
         case Pending =>
           result == Waiting && conn.connectHeaders == None && conn.client == 0 && conn.clientCalls == []
  {
    var url := BrokerUrl(p.baseURL);
    if url.None? {
      return Rejects, null;
    }
    conn := new EventConnection(p, url.value);
    var w := AwaitAccessToken(replies, conn.userUUID);
    conn.userUUID := w.uuid;
    match w.status {
      case Threw =>
        result := Ready(NoOp);
      case Pending =>
        result := Waiting;
      case Obtained(token) =>
        conn.connectHeaders := Some(token);
        conn.StartNewClient();
        result := Ready(DeactivateClient);
    }
  }
}
