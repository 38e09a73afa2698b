/** Runs of the hub: any sequence of connects, clicks, cleanups and reads,
    each applied atomically in arrival order. */
module Trace {
  import opened Clicks
  import opened Registry
  import opened Server

  /** One thing that can happen to the hub. `Open` is a WebSocket accept
      followed by the `init` send; when that send fails the endpoint's
      `finally` block removes the connection again. */
  datatype Event<D> =
    | Open(c: ConnId, initFails: bool)
    | Submit(c: ConnId, data: D, failing: set<ConnId>)
    | Post(data: D, failing: set<ConnId>)
    | Close(c: ConnId)
    | Read

  /** The hub after some events, and every push those events made, in order. */
  datatype Stepped<D> = Stepped(hub: Hub<D>, pushed: seq<Attempt<D>>)

  function Step<D>(h: Hub<D>, e: Event<D>): (r: Stepped<D>)
    ensures |h.history| <= |r.hub.history| <= |h.history| + 1
  {
    match e
    case Open(c, initFails) =>
      var k := Connect(h, c);
      Stepped(if initFails then Disconnect(k.hub, c) else k.hub, [Attempt(c, k.init, !initFails)])
    case Submit(c, data, failing) =>
      var b := SubmitWs(h, c, data, failing);
      Stepped(b.hub, b.sent)
    case Post(data, failing) =>
      var p := PostClick(h, data, failing);
      Stepped(p.hub, p.sent)
    case Close(c) =>
      Stepped(Disconnect(h, c), [])
    case Read =>
      Stepped(h, [])
  }

  /** A step only appends to the history, every push it makes carries the
      history as it stands after the step, and a read or a cleanup adds
      nothing. */
  lemma StepGrows<D>(h: Hub<D>, e: Event<D>)
    ensures var r := Step(h, e);
            && h.history <= r.hub.history
            && (forall i :: 0 <= i < |r.pushed| ==> r.pushed[i].msg.history == r.hub.history)
    ensures e.Read? ==> Step(h, e).hub == h && Step(h, e).pushed == []
    ensures e.Close? ==> Step(h, e).hub.history == h.history && Step(h, e).pushed == []
  {
  }

  function Run<D>(h: Hub<D>, es: seq<Event<D>>): (r: Stepped<D>)
    ensures |h.history| <= |r.hub.history| <= |h.history| + |es|
    decreases |es|
  {
    if |es| == 0 then Stepped(h, [])
    else
      var s := Step(h, es[0]);
      var rest := Run(s.hub, es[1..]);
      Stepped(rest.hub, s.pushed + rest.pushed)
  }

  /** Running `e` then `es` is one step followed by the rest of the run. */
  lemma RunCons<D>(h: Hub<D>, e: Event<D>, es: seq<Event<D>>)
    ensures var s := Step(h, e);
            var rest := Run(s.hub, es);
            Run(h, [e] + es) == Stepped(rest.hub, s.pushed + rest.pushed)
  {
  }

  /** The history only ever grows at its end, and every push (init or
      update) carries a history that extends the one of every earlier push.
      So a subscriber never sees a record disappear or change, and each push
      holds every record it saw before plus the ones added since. */
  lemma {:induction false} RunPushesGrow<D>(h: Hub<D>, es: seq<Event<D>>)
    ensures h.history <= Run(h, es).hub.history
    ensures var r := Run(h, es);
            forall i :: 0 <= i < |r.pushed| ==>
              h.history <= r.pushed[i].msg.history <= r.hub.history
    ensures var r := Run(h, es);
            forall i, j :: 0 <= i < j < |r.pushed| ==>
              r.pushed[i].msg.history <= r.pushed[j].msg.history
    decreases |es|
  {
    if |es| > 0 {
      var s := Step(h, es[0]);
      StepGrows(h, es[0]);
      RunPushesGrow(s.hub, es[1..]);
      var rest := Run(s.hub, es[1..]);
      PushesConcat(h.history, s.hub.history, rest.hub.history, s.pushed, rest.pushed);
    }
  }

  /** The pushes of one step followed by those of the rest of a run keep
      growing when the step's pushes all carry the history between the two. */
  lemma PushesConcat<D>(h0: seq<Click<D>>, h1: seq<Click<D>>, h2: seq<Click<D>>,
                        p: seq<Attempt<D>>, q: seq<Attempt<D>>)
    requires h0 <= h1 <= h2
    requires forall i :: 0 <= i < |p| ==> p[i].msg.history == h1
    requires forall i :: 0 <= i < |q| ==> h1 <= q[i].msg.history <= h2
    requires forall i, j :: 0 <= i < j < |q| ==> q[i].msg.history <= q[j].msg.history
    ensures forall i :: 0 <= i < |p + q| ==> h0 <= (p + q)[i].msg.history <= h2
    ensures forall i, j :: 0 <= i < j < |p + q| ==> (p + q)[i].msg.history <= (p + q)[j].msg.history
  {
    var all := p + q;
    forall i | 0 <= i < |all|
      ensures h0 <= all[i].msg.history <= h2
    {
      if i >= |p| {
        assert all[i] == q[i - |p|];
      }
    }
    forall i, j | 0 <= i < j < |all|
      ensures all[i].msg.history <= all[j].msg.history
    {
      if i >= |p| {
        assert all[i] == q[i - |p|] && all[j] == q[j - |p|];
      } else if j >= |p| {
        assert all[j] == q[j - |p|];
      }
    }
  }

  /** Every connect uses an id that is not registered at that moment. */
  predicate FreshOpens<D>(h: Hub<D>, es: seq<Event<D>>)
    decreases |es|
  {
    |es| == 0 ||
    ((es[0].Open? ==> es[0].c !in h.conns) && FreshOpens(Step(h, es[0]).hub, es[1..]))
  }

  /** One step keeps the hub valid when a connect uses a fresh id. */
  lemma StepKeepsValid<D>(h: Hub<D>, e: Event<D>)
    requires Valid(h) && (e.Open? ==> e.c !in h.conns)
    ensures Valid(Step(h, e).hub)
  {
    match e {
      case Open(c, initFails) =>
        ConnectKeepsValid(h, c);
        DisconnectKeepsValid(Connect(h, c).hub, c);
      case Submit(c, data, failing) =>
        SubmitWsKeepsValid(h, c, data, failing);
      case Post(data, failing) =>
        PostClickKeepsValid(h, data, failing);
      case Close(c) =>
        DisconnectKeepsValid(h, c);
      case Read =>
    }
  }

  /** With fresh ids on connect, every run keeps the registry free of
      duplicates and every stored record well formed. */
  lemma {:induction false} RunKeepsValid<D>(h: Hub<D>, es: seq<Event<D>>)
    requires Valid(h) && FreshOpens(h, es)
    ensures Valid(Run(h, es).hub)
    decreases |es|
  {
    if |es| > 0 {
      StepKeepsValid(h, es[0]);
      RunKeepsValid(Step(h, es[0]).hub, es[1..]);
    }
  }
}
