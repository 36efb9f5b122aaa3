/** The hypotheses on models can be met, by models that change their state and send. */
module Witness {
  import opened Stamps
  import opened Events
  import opened Models
  import opened Kernel
  import opened Handling
  import opened Closed
  import opened Equivalence

  /** Each LP owns entity 1, which it overwrites with an event's payload; it passes every event on to
      itself one tick later, until the end of time. */
  function Relay(l: LPId, s: LpState, e: Event): seq<Action> {
    [RequestWrite(1), Write(1, e.payload.bytes)]
    + if e.ts.time < TWO64 - 1 then [Send(Event(TimeStamp(e.ts.time + 1, 1), l, l, 0, 0, e.payload, 0, false))] else []
  }

  function RelayModel(): Model {
    Model((l: LPId) => map[1 := []], (l: LPId) => [Event(TimeStamp(0, 1), l, l, 0, 0, Payload(0, []), 0, false)], Relay, (l: LPId) => true)
  }

  lemma OneAfter(a: Action, rest: seq<Action>, entities: set<EntityId>, requested: set<EntityId>)
    ensures SendsOf([a] + rest) == (if a.Send? then [a.ev] else []) + SendsOf(rest)
    ensures Disciplined(entities, requested, [a] + rest) <==>
      if a.RequestWrite? then a.id in entities && Disciplined(entities, requested + {a.id}, rest)
      else (a.Write? ==> a.id in requested) && Disciplined(entities, requested, rest)
  {
    assert ([a] + rest)[1..] == rest;
  }

  lemma NothingAfter(entities: set<EntityId>, requested: set<EntityId>)
    ensures SendsOf([]) == [] && Disciplined(entities, requested, [])
  {
  }

  lemma RelayScript(l: LPId, s: LpState, e: Event)
    ensures forall t :: t in SendsOf(Relay(l, s, e)) ==> OwnMessage(l, t) && NotBefore(e.ts, t) && t.ts.sequence != 0 && e.ts.Lt(t.ts)
    ensures s.Keys == {1} ==> Disciplined(s.Keys, {}, Relay(l, s, e))
  {
    hide SendsOf, Disciplined;
    var ask, write := RequestWrite(1), Write(1, e.payload.bytes);
    NothingAfter(s.Keys, {1});
    if e.ts.time < TWO64 - 1 {
      var send := Send(Event(TimeStamp(e.ts.time + 1, 1), l, l, 0, 0, e.payload, 0, false));
      assert Relay(l, s, e) == [ask] + ([write] + ([send] + []));
      OneAfter(send, [], s.Keys, {1});
      OneAfter(write, [send] + [], s.Keys, {1});
      OneAfter(ask, [write] + ([send] + []), s.Keys, {});
    } else {
      assert Relay(l, s, e) == [ask] + ([write] + []);
      OneAfter(write, [], s.Keys, {1});
      OneAfter(ask, [write] + [], s.Keys, {});
    }
    assert {} + {1} == {1};
  }

  lemma RelayIsDeterministic()
    ensures DeterministicModel(RelayModel())
  {
    var m := RelayModel();
    forall l: LPId, s: LpState, e: Event
      ensures forall t :: t in SendsOf(m.handle(l, s, e)) ==> OwnMessage(l, t) && NotBefore(e.ts, t) && t.ts.sequence != 0 && e.ts.Lt(t.ts)
      ensures s.Keys == m.init(l).Keys ==> Disciplined(s.Keys, {}, m.handle(l, s, e))
    {
      RelayScript(l, s, e);
    }
    forall l: LPId, s: LpState, e: Event, f: Event | ContentOf(e) == ContentOf(f)
      ensures m.handle(l, s, e) == m.handle(l, s, f)
    {
      assert e.ts == ContentOf(e).ts && e.payload == ContentOf(e).payload;
    }
  }
}
