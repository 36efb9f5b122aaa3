/** Events, their identity, and the order in which the pending queue yields them
    (src/event.hpp, src/common.hpp, and the queue order of src/simulation.hpp). */
module Events {
  import opened Stamps

  type LPId = u32
  type EntityId = u64
  type Uid = u64
  type Bytes = seq<u8>

  datatype Option<+T> = None | Some(value: T)

  datatype Payload = Payload(kind: u32, bytes: Bytes)

  datatype Event = Event(
    ts: TimeStamp,
    src: LPId,
    dst: LPId,
    target: EntityId,
    uid: Uid,
    payload: Payload,
    gvtColor: u8,
    isAnti: bool)

  /** An event and its anti-message share this identity. */
  datatype UidKey = UidKey(src: LPId, uid: Uid)

  /** The key of a message that is still on its way: event and anti-message differ. */
  datatype InflightKey = InflightKey(src: LPId, uid: Uid, isAnti: bool)

  function KeyOf(ev: Event): UidKey {
    UidKey(ev.src, ev.uid)
  }

  function FlightKeyOf(ev: Event): InflightKey {
    InflightKey(ev.src, ev.uid, ev.isAnti)
  }

  /** The (stamp, source, uid) order of EventTimeOrder and, inverted, of PendingOrder. */
  predicate Before(a: Event, b: Event) {
    a.ts.Lt(b.ts) || (a.ts == b.ts && (a.src < b.src || (a.src == b.src && a.uid < b.uid)))
  }

  /** An event the priority queue may yield next: no pending event comes before it.  An event and
      its own anti-message tie; the heap may yield either. */
  ghost predicate IsTop(pending: multiset<Event>, ev: Event) {
    ev in pending && forall x :: x in pending ==> !Before(x, ev)
  }

  lemma {:induction false} TopExists(pending: multiset<Event>) returns (ev: Event)
    requires pending != multiset{}
    ensures IsTop(pending, ev)
    decreases |pending|
  {
    var x :| x in pending;
    var rest := pending - multiset{x};
    if rest == multiset{} {
      assert pending == multiset{x};
      ev := x;
    } else {
      var y := TopExists(rest);
      ev := if Before(x, y) then x else y;
      forall z | z in pending ensures !Before(z, ev) {
        if z != x { assert z in rest; }
      }
    }
  }

  /** The head by its fields: nothing waits at an earlier time; nothing at its time has a smaller
      sequence; nothing at its stamp a smaller source; and nothing of its source a smaller uid. */
  lemma TopMeans(pending: multiset<Event>, ev: Event)
    ensures IsTop(pending, ev) <==>
      && ev in pending
      && forall x :: x in pending ==>
           && ev.ts.time <= x.ts.time
           && (x.ts.time == ev.ts.time ==> ev.ts.sequence <= x.ts.sequence)
           && (x.ts == ev.ts ==> ev.src <= x.src)
           && (x.ts == ev.ts && x.src == ev.src ==> ev.uid <= x.uid)
  {
  }

  /** What a model can see of an event: everything but the transport identity, the GVT colour
      and the anti-message flag. */
  datatype Content = Content(ts: TimeStamp, src: LPId, dst: LPId, target: EntityId, payload: Payload)

  function ContentOf(ev: Event): Content {
    Content(ev.ts, ev.src, ev.dst, ev.target, ev.payload)
  }
}
