/** Small runs of the hub, for any payloads and any connection ids. */
module Scenarios {
  import opened Clicks
  import opened Registry
  import opened Server
  import opened Trace

  /** One HTTP click on a fresh hub is the whole history afterwards, and with
      nobody connected nothing is pushed. */
  lemma PostOnFreshHub<D>(p: D)
    ensures var r := Run(Start<D>(), [Post(p, {}), Read]);
            && GetClicks(r.hub) == [Click(Label("http_poster"), p, Http)]
            && r.pushed == []
  {
    var e1, e2 := Post(p, {}), Read;
    var h1 := Step(Start<D>(), e1).hub;
    assert Step(Start<D>(), e1) == Stepped(Hub([HttpClick(p)], []), []);
    RunCons(h1, e2, []);
    RunCons(Start<D>(), e1, [e2]);
  }

  /** A subscriber that connects to an empty hub gets an empty `init`, then
      one update per click holding every click so far, in submission order. */
  lemma SubscriberSeesEveryClick<D>(s: ConnId, p: D, q: D)
    ensures var r := Run(Start<D>(), [Open(s, false), Post(p, {}), Submit(s, q, {})]);
            r.pushed == [
              Attempt(s, Init([]), true),
              Attempt(s, Update([HttpClick(p)]), true),
              Attempt(s, Update([HttpClick(p), WsClick(s, q)]), true)
            ]
  {
    var e1, e2, e3 := Open(s, false), Post(p, {}), Submit(s, q, {});
    var recP, recQ := HttpClick(p), WsClick(s, q);
    OpenStep(Start<D>(), s);
    var s1 := Step(Start<D>(), e1);
    assert s1 == Stepped(Hub([], [s]), [Attempt(s, Init([]), true)]);
    assert [] + [recP] == [recP] && [recP] + [recQ] == [recP, recQ];
    SoleSubscriberStep(s, [], e2, recP);
    var s2 := Step(s1.hub, e2);
    assert s2 == Stepped(Hub([recP], [s]), [Attempt(s, Update([recP]), true)]);
    SoleSubscriberStep(s, [recP], e3, recQ);
    var s3 := Step(s2.hub, e3);
    assert s3 == Stepped(Hub([recP, recQ], [s]), [Attempt(s, Update([recP, recQ]), true)]);
    RunCons(s2.hub, e3, []);
    RunCons(s1.hub, e2, [e3]);
    RunCons(Start<D>(), e1, [e2, e3]);
  }

  /** With one healthy subscriber, a click appends its record and pushes the
      new history to that subscriber alone. */
  lemma SoleSubscriberStep<D>(s: ConnId, hist: seq<Click<D>>, e: Event<D>, rec: Click<D>)
    requires (e.Post? && e.failing == {} && rec == HttpClick(e.data))
          || (e.Submit? && e.c == s && e.failing == {} && rec == WsClick(s, e.data))
    ensures Step(Hub(hist, [s]), e) == Stepped(Hub(hist + [rec], [s]), [Attempt(s, Update(hist + [rec]), true)])
  {
    assert [s][1..] == [];
    assert Survivors([s], {}) == [s];
  }

  /** The click of the scenario below: `a` fails, `b` receives. */
  lemma PostWithFirstBroken<D>(a: ConnId, b: ConnId, p: D)
    requires a != b
    ensures Step(Hub([], [a, b]), Post(p, {a})) ==
            Stepped(Hub([HttpClick(p)], [b]),
                    [Attempt(a, Update([HttpClick(p)]), false), Attempt(b, Update([HttpClick(p)]), true)])
  {
    assert [a, b][1..] == [b] && [b][1..] == [];
    assert b !in {a};
    assert Survivors([b], {a}) == [b];
    assert Survivors([a, b], {a}) == [b];
  }

  /** A connect whose `init` send succeeds. */
  lemma OpenStep<D>(h: Hub<D>, c: ConnId)
    ensures Step(h, Open(c, false)) == Stepped(Hub(h.history, h.conns + [c]), [Attempt(c, Init(h.history), true)])
  {
  }

  /** Cleanup of a connection that is not registered changes nothing. */
  lemma CloseUnregistered<D>(h: Hub<D>, c: ConnId)
    requires c !in h.conns
    ensures Step(h, Close(c)) == Stepped(h, [])
  {
  }

  /** Two subscribers; the first one's channel is broken when a click
      arrives. The second still receives the update, the first is removed,
      and its later cleanup changes nothing. */
  lemma BrokenSubscriberIsPruned<D>(a: ConnId, b: ConnId, p: D)
    requires a != b
    ensures var h2 := Step(Step(Start<D>(), Open(a, false)).hub, Open(b, false)).hub;
            var s3 := Step(h2, Post(p, {a}));
            && s3.hub == Hub([HttpClick(p)], [b])
            && s3.pushed == [
                 Attempt(a, Update([HttpClick(p)]), false),
                 Attempt(b, Update([HttpClick(p)]), true)
               ]
            && Step(s3.hub, Close(a)).hub == s3.hub
  {
    var h0: Hub<D> := Start();
    OpenStep(h0, a);
    OpenStep(Hub(h0.history, [a]), b);
    assert [a] + [b] == [a, b];
    PostWithFirstBroken(a, b, p);
    assert a !in [b];
    CloseUnregistered(Hub([HttpClick(p)], [b]), a);
  }
}
