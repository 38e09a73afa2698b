/** The broadcast hub of server.py: the two global lists, `broadcast_state`,
    and the state changes made by the WebSocket endpoint, the HTTP POST
    endpoint and the history read.

    Every transition is a pure function from one hub state to the next. The
    outcome of each `send_json` is an input: `failing` is the set of
    connections whose send raises during that broadcast. */
module Server {
  import opened Clicks
  import opened Registry

  /** `click_history` and `active_connections`. */
  datatype Hub<D> = Hub(history: seq<Click<D>>, conns: seq<ConnId>)

  /** The JSON objects pushed to a WebSocket client. */
  datatype Message<D> = Init(history: seq<Click<D>>) | Update(history: seq<Click<D>>) {
    /** The `type` field of the pushed object. */
    function Type(): (t: string)
      ensures t in {"init", "update"}
      ensures (t == "init") <==> Init?
    {
      if Init? then "init" else "update"
    }
  }

  /** One `send_json` call: to whom, what, and whether it went through. */
  datatype Attempt<D> = Attempt(conn: ConnId, msg: Message<D>, delivered: bool)

  /** The result of a broadcast: the next hub state and the sends it made. */
  datatype Broadcast<D> = Broadcast(hub: Hub<D>, sent: seq<Attempt<D>>)

  /** The response body of `POST /click`. */
  datatype PostResponse<D> = PostResponse(message: string, clickAdded: Click<D>)

  datatype Posted<D> = Posted(hub: Hub<D>, sent: seq<Attempt<D>>, response: PostResponse<D>)

  datatype Connected<D> = Connected(hub: Hub<D>, init: Message<D>)

  /** What the send loop of a broadcast produces: every send it made, and
      the connections whose send failed, in registry order. */
  datatype Sends<D> = Sends(sent: seq<Attempt<D>>, failed: seq<ConnId>)

  /** The state at start-up: no clicks, no connections. */
  function Start<D>(): (h: Hub<D>)
    ensures |h.history| == 0 && |h.conns| == 0
    ensures Valid(h)
  {
    Hub([], [])
  }

  /** What the hub keeps true: no connection is registered twice and every
      stored record has one of the two shapes the endpoints build. */
  predicate Valid<D>(h: Hub<D>) {
    && NoDup(h.conns)
    && forall k :: 0 <= k < |h.history| ==> WellFormed(h.history[k])
  }

  /** The first loop of `broadcast_state`: try every registered connection in
      order, whatever happened to the earlier ones, and collect the failures. */
  function FanOut<D>(conns: seq<ConnId>, msg: Message<D>, failing: set<ConnId>): (r: Sends<D>)
    ensures |r.sent| == |conns|
    ensures forall i :: 0 <= i < |conns| ==>
              r.sent[i].conn == conns[i] && r.sent[i].msg == msg && (r.sent[i].delivered <==> conns[i] !in failing)
    ensures r.failed == Failures(conns, failing)
  {
    if |conns| == 0 then Sends([], [])
    else
      var c := conns[0];
      var rest := FanOut(conns[1..], msg, failing);
      Sends([Attempt(c, msg, c !in failing)] + rest.sent, (if c in failing then [c] else []) + rest.failed)
  }

  /** `broadcast_state`: snapshot the history once, send the same update to
      every registered connection, then remove the ones whose send failed. */
  function BroadcastState<D>(h: Hub<D>, failing: set<ConnId>): (r: Broadcast<D>)
    ensures r.hub.history == h.history
    ensures |r.sent| == |h.conns|
    ensures forall i :: 0 <= i < |h.conns| ==>
              r.sent[i] == Attempt(h.conns[i], Update(h.history), h.conns[i] !in failing)
    ensures r.hub.conns == Survivors(h.conns, failing)
    ensures forall c :: c in h.conns && c !in failing ==> c in r.hub.conns
    ensures forall c :: c in failing ==> c !in r.hub.conns
    ensures Subsequence(r.hub.conns, h.conns)
  {
    var msg := Update(h.history);
    var f := FanOut(h.conns, msg, failing);
    PruneFailuresIsSurvivors(h.conns, failing);
    SurvivorsMembers(h.conns, failing);
    SurvivorsKeepOrder(h.conns, failing);
    Broadcast(Hub(h.history, Prune(h.conns, f.failed)), f.sent)
  }

  /** The send loop of `broadcast_state`: one attempt per registered
      connection, failures appended to `disconnected` as they happen. */
  method SendAll<D>(conns: seq<ConnId>, msg: Message<D>, failing: set<ConnId>)
    returns (sent: seq<Attempt<D>>, disconnected: seq<ConnId>)
    ensures |sent| == |conns|
    ensures forall k :: 0 <= k < |conns| ==> sent[k] == Attempt(conns[k], msg, conns[k] !in failing)
    ensures disconnected == Failures(conns, failing)
  {
    sent, disconnected := [], [];
    var i := 0;
    while i < |conns|
      invariant 0 <= i <= |conns|
      invariant |sent| == i
      invariant forall k :: 0 <= k < i ==> sent[k] == Attempt(conns[k], msg, conns[k] !in failing)
      invariant Failures(conns, failing) == disconnected + Failures(conns[i..], failing)
    {
      var c := conns[i];
      FailuresStep(conns, i, failing);
      var ok := c !in failing;
      sent := sent + [Attempt(c, msg, ok)];
      if !ok {
        disconnected := disconnected + [c];
      }
      i := i + 1;
    }
  }

  /** The cleanup loop of `broadcast_state`: remove each collected connection
      if it is still registered. */
  method RemoveAll(conns: seq<ConnId>, disconnected: seq<ConnId>) returns (r: seq<ConnId>)
    ensures r == Prune(conns, disconnected)
    ensures multiset(r) <= multiset(conns)
  {
    r := conns;
    var j := 0;
    while j < |disconnected|
      invariant 0 <= j <= |disconnected|
      invariant Prune(r, disconnected[j..]) == Prune(conns, disconnected)
      invariant multiset(r) <= multiset(conns)
    {
      var c := disconnected[j];
      assert disconnected[j..][1..] == disconnected[j + 1..];
      assert Prune(r, disconnected[j..]) == Prune(Discard(r, c), disconnected[j + 1..]);
      if c in r {
        r := RemoveFirst(r, c);
      }
      j := j + 1;
    }
  }

  /** `broadcast_state` as the two loops of the source. */
  method BroadcastLoop<D>(h: Hub<D>, failing: set<ConnId>) returns (next: Hub<D>, sent: seq<Attempt<D>>)
    ensures next.history == h.history
    ensures |sent| == |h.conns|
    ensures forall i :: 0 <= i < |h.conns| ==>
              sent[i] == Attempt(h.conns[i], Update(h.history), h.conns[i] !in failing)
    ensures next.conns == Survivors(h.conns, failing)
  {
    var snapshot := h.history;
    var disconnected;
    sent, disconnected := SendAll(h.conns, Update(snapshot), failing);
    var conns := RemoveAll(h.conns, disconnected);
    PruneFailuresIsSurvivors(h.conns, failing);
    next := Hub(snapshot, conns);
  }

  /** Connection accepted: append it to `active_connections`, then the `init`
      message carries the history at that moment. */
  function Connect<D>(h: Hub<D>, c: ConnId): (r: Connected<D>)
    ensures r.hub.history == h.history
    ensures r.hub.conns == h.conns + [c]
    ensures r.init == Init(r.hub.history)
  {
    Connected(Hub(h.history, h.conns + [c]), Init(h.history))
  }

  /** The `finally` cleanup of the WebSocket endpoint. */
  function Disconnect<D>(h: Hub<D>, c: ConnId): (r: Hub<D>)
    ensures r.history == h.history
    ensures multiset(r.conns) == multiset(h.conns) - multiset{c}
  {
    Hub(h.history, Discard(h.conns, c))
  }

  /** A click received on connection `c`: append its record, then broadcast. */
  function SubmitWs<D>(h: Hub<D>, c: ConnId, data: D, failing: set<ConnId>): (r: Broadcast<D>)
    ensures |r.hub.history| == |h.history| + 1
    ensures r.hub.history[..|h.history|] == h.history
    ensures r.hub.history[|h.history|] == Click(Socket(c), data, WebSocket)
    ensures r.hub.conns == Survivors(h.conns, failing)
    ensures |r.sent| == |h.conns|
    ensures forall i :: 0 <= i < |h.conns| ==>
              r.sent[i] == Attempt(h.conns[i], Update(r.hub.history), h.conns[i] !in failing)
  {
    var appended := Hub(h.history + [WsClick(c, data)], h.conns);
    BroadcastState(appended, failing)
  }

  /** `POST /click`: append the record labelled "http_poster", broadcast, and
      answer with the record that was added. */
  function PostClick<D>(h: Hub<D>, data: D, failing: set<ConnId>): (r: Posted<D>)
    ensures |r.hub.history| == |h.history| + 1
    ensures r.hub.history[..|h.history|] == h.history
    ensures r.hub.history[|h.history|] == r.response.clickAdded
    ensures r.response.clickAdded == Click(HttpPoster, data, Http)
    ensures r.response.message == "Click received and broadcasted"
    ensures r.hub.conns == Survivors(h.conns, failing)
    ensures |r.sent| == |h.conns|
    ensures forall i :: 0 <= i < |h.conns| ==>
              r.sent[i] == Attempt(h.conns[i], Update(r.hub.history), h.conns[i] !in failing)
  {
    var added := HttpClick(data);
    var b := BroadcastState(Hub(h.history + [added], h.conns), failing);
    Posted(b.hub, b.sent, PostResponse("Click received and broadcasted", added))
  }

  /** `GET /clicks`: the history as it stands. */
  function GetClicks<D>(h: Hub<D>): (r: seq<Click<D>>)
    ensures r == h.history
    ensures Valid(h) ==> forall k :: 0 <= k < |r| ==> WellFormed(r[k])
  {
    h.history
  }

  /** Reading the history after a submission returns the old history with the
      new record as its last element. */
  lemma ReadAfterPost<D>(h: Hub<D>, data: D, failing: set<ConnId>)
    ensures var p := PostClick(h, data, failing);
            && GetClicks(p.hub) == GetClicks(h) + [p.response.clickAdded]
            && GetClicks(p.hub)[|GetClicks(p.hub)| - 1] == p.response.clickAdded
  {
  }

  lemma ReadAfterSubmitWs<D>(h: Hub<D>, c: ConnId, data: D, failing: set<ConnId>)
    ensures GetClicks(SubmitWs(h, c, data, failing).hub) == GetClicks(h) + [WsClick(c, data)]
  {
  }

  /** Every push of one broadcast carries the same snapshot, and that snapshot
      is the history that was current when the broadcast began. */
  lemma BroadcastOneSnapshot<D>(h: Hub<D>, failing: set<ConnId>)
    ensures var b := BroadcastState(h, failing);
            forall i, j :: 0 <= i < |b.sent| && 0 <= j < |b.sent| ==>
              b.sent[i].msg == b.sent[j].msg == Update(h.history)
  {
  }

  /** Failures are isolated: what happens to one connection's send depends
      only on that connection, not on which other sends fail. */
  lemma BroadcastIsolation<D>(h: Hub<D>, f: set<ConnId>, g: set<ConnId>, i: nat)
    requires i < |h.conns| && (h.conns[i] in f <==> h.conns[i] in g)
    ensures BroadcastState(h, f).sent[i] == BroadcastState(h, g).sent[i]
  {
  }

  /** Connection cleanup applied a second time changes nothing. */
  lemma DisconnectIdempotent<D>(h: Hub<D>, c: ConnId)
    requires Valid(h)
    ensures c !in Disconnect(h, c).conns
    ensures Disconnect(Disconnect(h, c), c) == Disconnect(h, c)
  {
    DiscardIdempotent(h.conns, c);
  }

  /** The cleanup of a connection that a broadcast already pruned is a no-op. */
  lemma DisconnectAfterPrune<D>(h: Hub<D>, failing: set<ConnId>, c: ConnId)
    requires c in failing
    ensures var b := BroadcastState(h, failing);
            Disconnect(b.hub, c) == b.hub
  {
  }

  /** Cleanup and a broadcast commute: the registry ends up the same whether
      the connection's cleanup runs before or after another client's click. */
  lemma {:induction false} DisconnectCommutesWithBroadcast<D>(h: Hub<D>, failing: set<ConnId>, c: ConnId)
    requires Valid(h)
    ensures Disconnect(BroadcastState(h, failing).hub, c) == BroadcastState(Disconnect(h, c), failing).hub
  {
    var b := BroadcastState(h, failing);
    SurvivorsNoDup(h.conns, failing);
    DiscardIsSurvivors(b.hub.conns, c);
    DiscardIsSurvivors(h.conns, c);
    SurvivorsTwice(h.conns, failing, {c});
    SurvivorsTwice(h.conns, {c}, failing);
    assert failing + {c} == {c} + failing;
  }

  /** A connection that is accepted and then cleaned up leaves the hub as it
      was, provided its id was fresh. */
  lemma ConnectThenDisconnect<D>(h: Hub<D>, c: ConnId)
    requires Valid(h) && c !in h.conns
    ensures Disconnect(Connect(h, c).hub, c) == h
  {
    AppendFresh(h.conns, c);
  }

  /** Every transition keeps the hub valid; connecting needs a fresh id. */
  lemma ConnectKeepsValid<D>(h: Hub<D>, c: ConnId)
    requires Valid(h) && c !in h.conns
    ensures Valid(Connect(h, c).hub)
  {
  }

  lemma DisconnectKeepsValid<D>(h: Hub<D>, c: ConnId)
    requires Valid(h)
    ensures Valid(Disconnect(h, c))
  {
    DiscardIdempotent(h.conns, c);
  }

  lemma BroadcastKeepsValid<D>(h: Hub<D>, failing: set<ConnId>)
    requires Valid(h)
    ensures Valid(BroadcastState(h, failing).hub)
  {
    SurvivorsNoDup(h.conns, failing);
  }

  lemma SubmitWsKeepsValid<D>(h: Hub<D>, c: ConnId, data: D, failing: set<ConnId>)
    requires Valid(h)
    ensures Valid(SubmitWs(h, c, data, failing).hub)
  {
    SurvivorsNoDup(h.conns, failing);
    BuiltClicksWellFormed(c, data);
    var r := SubmitWs(h, c, data, failing).hub;
    forall k | 0 <= k < |r.history|
      ensures WellFormed(r.history[k])
    {
      if k < |h.history| {
        assert r.history[k] == r.history[..|h.history|][k];
      }
    }
  }

  lemma PostClickKeepsValid<D>(h: Hub<D>, data: D, failing: set<ConnId>)
    requires Valid(h)
    ensures Valid(PostClick(h, data, failing).hub)
  {
    SurvivorsNoDup(h.conns, failing);
    BuiltClicksWellFormed(0, data);
    var r := PostClick(h, data, failing).hub;
    forall k | 0 <= k < |r.history|
      ensures WellFormed(r.history[k])
    {
      if k < |h.history| {
        assert r.history[k] == r.history[..|h.history|][k];
      }
    }
  }
}
