/** Running a handler, said of the script it makes: which writes stand, in which order its outputs and
    messages come, and what a requested snapshot holds. */
module HandlerLaws {
  import opened Stamps
  import opened Events
  import opened Models
  import opened Kernel
  import opened LpInvariant
  import opened RankSteps
  import opened Replay

  /** Places in a script, in order. */
  ghost predicate Rising(at: seq<nat>) {
    forall j, k :: 0 <= j < k < |at| ==> at[j] < at[k]
  }

  lemma RisingCons(i: nat, rest: seq<nat>)
    requires Rising(rest) && forall k :: 0 <= k < |rest| ==> i < rest[k]
    ensures Rising([i] + rest)
  {
  }

  /** The script's messages from a place on, each once and in the order it asks for them. */
  ghost predicate AreTheSends(script: seq<Action>, from: nat, at: seq<nat>, msgs: seq<Event>) {
    && |at| == |msgs| && Rising(at)
    && (forall k :: 0 <= k < |at| ==> from <= at[k] < |script| && script[at[k]] == Send(msgs[k]))
    && (forall i: nat :: from <= i < |script| && script[i].Send? ==> i in at)
  }

  /** The script's outputs from a place on, each once and in the order it emits them. */
  ghost predicate AreTheEmits(script: seq<Action>, from: nat, at: seq<nat>, outputs: seq<Output>) {
    && |at| == |outputs| && Rising(at)
    && (forall k :: 0 <= k < |at| ==> from <= at[k] < |script| && script[at[k]] == Emit(outputs[k].ts, outputs[k].payload))
    && (forall i: nat :: from <= i < |script| && script[i].Emit? ==> i in at)
  }

  lemma NextSend(script: seq<Action>, i: nat, at: seq<nat>, msgs: seq<Event>)
    requires i < |script| && script[i].Send? && AreTheSends(script, i + 1, at, msgs)
    ensures AreTheSends(script, i, [i] + at, [script[i].ev] + msgs)
  {
    RisingCons(i, at);
    forall k | 0 <= k < |[i] + at| ensures i <= ([i] + at)[k] < |script| && script[([i] + at)[k]] == Send(([script[i].ev] + msgs)[k]) {
      if k > 0 { assert script[at[k - 1]] == Send(msgs[k - 1]); }
    }
  }

  lemma NextEmit(script: seq<Action>, i: nat, at: seq<nat>, outputs: seq<Output>)
    requires i < |script| && script[i].Emit? && AreTheEmits(script, i + 1, at, outputs)
    ensures AreTheEmits(script, i, [i] + at, [Output(script[i].ts, script[i].payload)] + outputs)
  {
    RisingCons(i, at);
    var o := Output(script[i].ts, script[i].payload);
    forall k | 0 <= k < |[i] + at|
      ensures i <= ([i] + at)[k] < |script| && script[([i] + at)[k]] == Emit(([o] + outputs)[k].ts, ([o] + outputs)[k].payload)
    {
      if k > 0 { assert script[at[k - 1]] == Emit(outputs[k - 1].ts, outputs[k - 1].payload); }
    }
  }

  lemma NotASend(script: seq<Action>, i: nat, at: seq<nat>, msgs: seq<Event>)
    requires i < |script| && !script[i].Send? && AreTheSends(script, i + 1, at, msgs)
    ensures AreTheSends(script, i, at, msgs)
  {
  }

  lemma NotAnEmit(script: seq<Action>, i: nat, at: seq<nat>, outputs: seq<Output>)
    requires i < |script| && !script[i].Emit? && AreTheEmits(script, i + 1, at, outputs)
    ensures AreTheEmits(script, i, at, outputs)
  {
  }

  lemma {:induction false} SendsInOrder(script: seq<Action>, from: nat) returns (at: seq<nat>)
    requires from <= |script|
    ensures AreTheSends(script, from, at, SendsOf(script[from..]))
    decreases |script| - from
  {
    if from == |script| {
      at := [];
    } else {
      at := SendsInOrder(script, from + 1);
      hide AreTheSends;
      assert script[from..][1..] == script[from + 1..];
      if script[from].Send? {
        NextSend(script, from, at, SendsOf(script[from + 1..]));
        at := [from] + at;
      } else {
        NotASend(script, from, at, SendsOf(script[from + 1..]));
        assert [] + SendsOf(script[from + 1..]) == SendsOf(script[from + 1..]);
      }
    }
  }

  lemma OneAction(byEntity: bool, f: Frame, script: seq<Action>, i: nat)
    requires i < |script|
    ensures RunFrame(byEntity, f, script[i..]) == RunFrame(byEntity, StepFrame(byEntity, f, script[i]), script[i + 1..])
    ensures StepFrame(byEntity, f, script[i]).committed
         == f.committed + if script[i].Emit? then [Output(script[i].ts, script[i].payload)] else []
  {
    assert script[i..][1..] == script[i + 1..];
  }

  lemma {:induction false} EmitsInOrder(byEntity: bool, f: Frame, script: seq<Action>, from: nat) returns (at: seq<nat>, outputs: seq<Output>)
    requires from <= |script|
    ensures RunFrame(byEntity, f, script[from..]).committed == f.committed + outputs
    ensures AreTheEmits(script, from, at, outputs)
    decreases |script| - from
  {
    if from == |script| {
      at, outputs := [], [];
    } else {
      hide AreTheEmits, RunFrame, StepFrame;
      OneAction(byEntity, f, script, from);
      at, outputs := EmitsInOrder(byEntity, StepFrame(byEntity, f, script[from]), script, from + 1);
      if script[from].Emit? {
        NextEmit(script, from, at, outputs);
        at, outputs := [from] + at, [Output(script[from].ts, script[from].payload)] + outputs;
      } else {
        NotAnEmit(script, from, at, outputs);
      }
    }
  }

  /** No later action of the script writes the entity. */
  ghost predicate NotWritten(script: seq<Action>, from: nat, id: EntityId) {
    forall i :: from <= i < |script| && script[i].Write? ==> script[i].id != id
  }

  lemma {:induction false} UnwrittenStays(byEntity: bool, f: Frame, script: seq<Action>, id: EntityId)
    requires NotWritten(script, 0, id)
    ensures
      var s := RunFrame(byEntity, f, script).state;
      (id in s <==> id in f.state) && (id in s ==> s[id] == f.state[id])
    decreases |script|
  {
    if |script| > 0 {
      assert script[0].Write? ==> script[0].id != id;
      UnwrittenStays(byEntity, StepFrame(byEntity, f, script[0]), script[1..], id);
    }
  }

  lemma {:induction false} LastWriteStands(byEntity: bool, f: Frame, script: seq<Action>, i: nat)
    requires i < |script| && script[i].Write? && NotWritten(script, i + 1, script[i].id)
    ensures
      var s := RunFrame(byEntity, f, script).state;
      script[i].id in s && s[script[i].id] == script[i].bytes
    decreases i
  {
    var g := StepFrame(byEntity, f, script[0]);
    if i == 0 {
      UnwrittenStays(byEntity, g, script[1..], script[0].id);
    } else {
      assert script[1..][i - 1] == script[i];
      LastWriteStands(byEntity, g, script[1..], i - 1);
    }
  }

  /** The last place at which a script writes an entity, if it does. */
  lemma {:induction false} LastWriteExists(script: seq<Action>, id: EntityId) returns (i: nat)
    ensures if i < |script| then script[i].Write? && script[i].id == id && NotWritten(script, i + 1, id) else NotWritten(script, 0, id)
    decreases |script|
  {
    if |script| == 0 {
      i := 0;
    } else {
      var n := |script| - 1;
      if script[n].Write? && script[n].id == id {
        i := n;
      } else {
        i := LastWriteExists(script[..n], id);
        i := if i < n then i else |script|;
      }
    }
  }

  /** What a state is after a script: every entity has the bytes last written to it, and one that is
      not written is as before. */
  ghost predicate Written(before: LpState, script: seq<Action>, after: LpState) {
    && (forall i :: 0 <= i < |script| && script[i].Write? && NotWritten(script, i + 1, script[i].id) ==>
          script[i].id in after && after[script[i].id] == script[i].bytes)
    && (forall id: EntityId :: NotWritten(script, 0, id) ==>
          (id in after <==> id in before) && (id in after ==> after[id] == before[id]))
  }

  lemma RunWrites(byEntity: bool, f: Frame, script: seq<Action>)
    ensures Written(f.state, script, RunFrame(byEntity, f, script).state)
  {
    hide RunFrame, NotWritten;
    var s := RunFrame(byEntity, f, script).state;
    forall i | 0 <= i < |script| && script[i].Write? && NotWritten(script, i + 1, script[i].id)
      ensures script[i].id in s && s[script[i].id] == script[i].bytes
    {
      LastWriteStands(byEntity, f, script, i);
    }
    forall id: EntityId | NotWritten(script, 0, id)
      ensures (id in s <==> id in f.state) && (id in s ==> s[id] == f.state[id])
    {
      UnwrittenStays(byEntity, f, script, id);
    }
  }

  /** That determines the state. */
  lemma WrittenIsUnique(before: LpState, script: seq<Action>, a: LpState, b: LpState)
    requires Written(before, script, a) && Written(before, script, b)
    ensures a == b
  {
    forall id: EntityId ensures (id in a <==> id in b) && (id in a ==> a[id] == b[id]) {
      var i := LastWriteExists(script, id);
    }
    assert a.Keys == b.Keys;
  }

  /** The first action of a script that asks to write an entity; with LP-wide snapshots, any entity. */
  ghost predicate FirstRequest(script: seq<Action>, i: nat, id: EntityId, byEntity: bool) {
    && i < |script| && script[i] == RequestWrite(id)
    && forall j :: 0 <= j < i && script[j].RequestWrite? ==> byEntity && script[j].id != id
  }

  lemma {:induction false} KeptSnapshot(byEntity: bool, f: Frame, script: seq<Action>)
    ensures
      var u := RunFrame(byEntity, f, script);
      && (f.hasLpSnapshot ==> u.hasLpSnapshot && u.preLpState == f.preLpState)
      && (forall id: EntityId :: id in f.preEntityState ==> id in u.preEntityState && u.preEntityState[id] == f.preEntityState[id])
    decreases |script|
  {
    if |script| > 0 { KeptSnapshot(byEntity, StepFrame(byEntity, f, script[0]), script[1..]); }
  }

  lemma {:induction false} RunSplits(byEntity: bool, f: Frame, script: seq<Action>, i: nat)
    requires i <= |script|
    ensures RunFrame(byEntity, f, script) == RunFrame(byEntity, RunFrame(byEntity, f, script[..i]), script[i..])
    decreases i
  {
    if i > 0 {
      assert script[..i][1..] == script[1..][..i - 1];
      assert script[1..][i - 1..] == script[i..];
      RunSplits(byEntity, StepFrame(byEntity, f, script[0]), script[1..], i - 1);
    }
  }

  lemma {:induction false} NoRequestNoSnapshot(byEntity: bool, f: Frame, script: seq<Action>, id: EntityId)
    requires !f.hasLpSnapshot && id !in f.preEntityState && (!byEntity ==> f.preEntityState == map[])
    requires forall j :: 0 <= j < |script| && script[j].RequestWrite? ==> byEntity && script[j].id != id
    ensures
      var u := RunFrame(byEntity, f, script);
      !u.hasLpSnapshot && id !in u.preEntityState && (!byEntity ==> u.preEntityState == map[])
    decreases |script|
  {
    if |script| > 0 {
      assert script[0].RequestWrite? ==> byEntity && script[0].id != id;
      NoRequestNoSnapshot(byEntity, StepFrame(byEntity, f, script[0]), script[1..], id);
    }
  }

  /** A snapshot is taken at the first request, of the state as it is just then: of the entity alone
      (an unknown one has no bytes), or of the whole LP. */
  lemma SnapshotAtFirstRequest(byEntity: bool, state: LpState, script: seq<Action>, i: nat, id: EntityId)
    requires FirstRequest(script, i, id, byEntity)
    ensures
      var now := RunFrame(byEntity, OpenFrame(state), script[..i]).state;
      var u := RunFrame(byEntity, OpenFrame(state), script);
      && Written(state, script[..i], now)
      && (byEntity ==> id in u.preEntityState && u.preEntityState[id] == if id in now then now[id] else [])
      && (!byEntity ==> u.hasLpSnapshot && u.preLpState == now)
  {
    var g := RunFrame(byEntity, OpenFrame(state), script[..i]);
    RunWrites(byEntity, OpenFrame(state), script[..i]);
    hide Written;
    NoRequestNoSnapshot(byEntity, OpenFrame(state), script[..i], id);
    RunSplits(byEntity, OpenFrame(state), script, i);
    assert script[i..][0] == script[i];
    KeptSnapshot(byEntity, StepFrame(byEntity, g, script[i]), script[i..][1..]);
  }
}
