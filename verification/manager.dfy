/**
 * The batch coordinator: an ordered list of engines, advanced together once
 * per frame and pruned of the ones that have stopped.
 *
 * Engines are reference objects in the library: the caller keeps its own
 * reference (to call start() on it) and the manager's list holds another,
 * possibly several times over. The model names each engine by an id and keeps
 * the current state of every engine in a heap; the manager's list holds ids, so
 * an engine listed twice is one engine seen twice.
 */
module AnimationManager {
  import E = AnimationEngine

  type EngineId = nat
  type Heap = map<EngineId, E.Engine>

  datatype Manager = Manager(animations: seq<EngineId>)

  /** Every listed id names an engine of the heap. */
  predicate AllIn(ids: seq<EngineId>, heap: Heap)
  {
    forall i :: 0 <= i < |ids| ==> ids[i] in heap
  }

  /** A new manager holds no engines. */
  function Empty(): (m: Manager)
    ensures |m.animations| == 0
  {
    Manager([])
  }

  /**
   * addAnimation: the engine goes at the end of the list; earlier entries are
   * unchanged, and an engine already listed is listed once more.
   */
  function AddAnimation(m: Manager, id: EngineId): (r: Manager)
    ensures |r.animations| == |m.animations| + 1
    ensures r.animations[..|m.animations|] == m.animations
    ensures r.animations[|m.animations|] == id
    ensures multiset(r.animations)[id] == multiset(m.animations)[id] + 1
    ensures forall other :: other != id ==> multiset(r.animations)[other] == multiset(m.animations)[other]
  {
    Manager(m.animations + [id])
  }

  /** The heap after updating the listed engines one entry at a time, in list order. */
  function Advance(heap: Heap, ids: seq<EngineId>, dt: real): (h: Heap)
    requires AllIn(ids, heap)
    ensures h.Keys == heap.Keys
    decreases |ids|
  {
    if |ids| == 0 then heap
    else
      var id := ids[0];
      Advance(heap[id := E.Update(heap[id], dt)], ids[1..], dt)
  }

  /**
   * The listed ids whose engines are running, in their original order: what
   * removeIf leaves behind.
   */
  function Survivors(ids: seq<EngineId>, heap: Heap): (s: seq<EngineId>)
    requires AllIn(ids, heap)
    ensures |s| <= |ids|
    ensures AllIn(s, heap)
    ensures forall i :: 0 <= i < |s| ==> heap[s[i]].running
    decreases |ids|
  {
    if |ids| == 0 then []
    else (if E.IsRunning(heap[ids[0]]) then [ids[0]] else []) + Survivors(ids[1..], heap)
  }

  /** Each running engine keeps all its entries and each stopped one loses all of them. */
  lemma {:induction false} SurvivorsCount(ids: seq<EngineId>, heap: Heap, id: EngineId)
    requires AllIn(ids, heap) && id in heap
    ensures multiset(Survivors(ids, heap))[id] == if heap[id].running then multiset(ids)[id] else 0
    decreases |ids|
  {
    if |ids| > 0 {
      assert ids == [ids[0]] + ids[1..];
      SurvivorsCount(ids[1..], heap, id);
    }
  }

  /** Filtering distributes over concatenation: relative order is kept. */
  lemma {:induction false} SurvivorsAppend(a: seq<EngineId>, b: seq<EngineId>, heap: Heap)
    requires AllIn(a, heap) && AllIn(b, heap)
    ensures AllIn(a + b, heap)
    ensures Survivors(a + b, heap) == Survivors(a, heap) + Survivors(b, heap)
    decreases |a|
  {
    assert AllIn(a + b, heap) by {
      forall i | 0 <= i < |a + b|
        ensures (a + b)[i] in heap
      {
        if i >= |a| {
          assert (a + b)[i] == b[i - |a|];
        }
      }
    }
    if |a| == 0 {
      assert a + b == b;
    } else {
      var head := if E.IsRunning(heap[a[0]]) then [a[0]] else [];
      assert (a + b)[0] == a[0];
      assert (a + b)[1..] == a[1..] + b;
      SurvivorsAppend(a[1..], b, heap);
      calc {
        Survivors(a + b, heap);
        head + Survivors(a[1..] + b, heap);
        head + (Survivors(a[1..], heap) + Survivors(b, heap));
        (head + Survivors(a[1..], heap)) + Survivors(b, heap);
        Survivors(a, heap) + Survivors(b, heap);
      }
    }
  }

  /** Updating one more entry at the end of the list is one more update of that engine. */
  lemma {:induction false} AdvanceSnoc(heap: Heap, ids: seq<EngineId>, id: EngineId, dt: real)
    requires AllIn(ids, heap) && id in heap
    ensures AllIn(ids + [id], heap)
    ensures Advance(heap, ids + [id], dt)
         == Advance(heap, ids, dt)[id := E.Update(Advance(heap, ids, dt)[id], dt)]
    decreases |ids|
  {
    assert AllIn(ids + [id], heap) by {
      forall i | 0 <= i < |ids + [id]|
        ensures (ids + [id])[i] in heap
      {
        if i < |ids| {
          assert (ids + [id])[i] == ids[i];
        }
      }
    }
    if |ids| > 0 {
      var first := ids[0];
      var h1 := heap[first := E.Update(heap[first], dt)];
      assert (ids + [id])[1..] == ids[1..] + [id];
      AdvanceSnoc(h1, ids[1..], id, dt);
    }
  }

  /**
   * Aliasing: after one pass, an engine listed k times has been updated k
   * times with the same delta, and an engine not listed is untouched.
   */
  lemma {:induction false} AdvanceAliases(heap: Heap, ids: seq<EngineId>, dt: real, id: EngineId)
    requires AllIn(ids, heap) && id in heap
    ensures Advance(heap, ids, dt)[id] == E.Run(heap[id], E.Repeat(dt, multiset(ids)[id]))
    decreases |ids|
  {
    if |ids| > 0 {
      var first := ids[0];
      var h1 := heap[first := E.Update(heap[first], dt)];
      assert ids == [first] + ids[1..];
      AdvanceAliases(h1, ids[1..], dt, id);
      var k := multiset(ids[1..])[id];
      if first == id {
        assert multiset(ids)[id] == k + 1;
        assert E.Repeat(dt, k + 1)[1..] == E.Repeat(dt, k);
      } else {
        assert multiset(ids)[id] == k;
      }
    }
  }

  /** The for-loop of update(deltaTime): every listed entry is updated once, in list order. */
  method UpdateEach(ids: seq<EngineId>, heap: Heap, dt: real) returns (h: Heap)
    requires AllIn(ids, heap)
    ensures h.Keys == heap.Keys
    ensures h == Advance(heap, ids, dt)
  {
    h := heap;
    for i := 0 to |ids|
      invariant AllIn(ids[..i], heap)
      invariant h == Advance(heap, ids[..i], dt)
    {
      AdvanceSnoc(heap, ids[..i], ids[i], dt);
      assert ids[..i + 1] == ids[..i] + [ids[i]];
      h := h[ids[i] := E.Update(h[ids[i]], dt)];
    }
    assert ids[..|ids|] == ids;
  }

  /** removeIf { !it.isRunning }: keep the entries whose engine runs, in order. */
  method RemoveStopped(ids: seq<EngineId>, h: Heap) returns (kept: seq<EngineId>)
    requires AllIn(ids, h)
    ensures kept == Survivors(ids, h)
    ensures forall i :: 0 <= i < |kept| ==> kept[i] in h && h[kept[i]].running
  {
    kept := [];
    for i := 0 to |ids|
      invariant AllIn(ids[..i], h)
      invariant kept == Survivors(ids[..i], h)
    {
      SurvivorsAppend(ids[..i], [ids[i]], h);
      assert ids[..i + 1] == ids[..i] + [ids[i]];
      if E.IsRunning(h[ids[i]]) {
        kept := kept + [ids[i]];
      }
    }
    assert ids[..|ids|] == ids;
  }

  /**
   * update(deltaTime): update every listed entry in list order, then remove
   * every entry whose engine is no longer running. An engine listed k times
   * is updated k times; every entry left is running; the list never grows.
   */
  method Update(m: Manager, heap: Heap, dt: real) returns (r: Manager, h: Heap)
    requires AllIn(m.animations, heap)
    ensures h.Keys == heap.Keys
    ensures h == Advance(heap, m.animations, dt)
    ensures forall id :: id in heap ==>
      h[id] == E.Run(heap[id], E.Repeat(dt, multiset(m.animations)[id]))
    ensures r.animations == Survivors(m.animations, h)
    ensures AllIn(r.animations, h)
    ensures forall i :: 0 <= i < |r.animations| ==> h[r.animations[i]].running
    ensures |r.animations| <= |m.animations|
    ensures |m.animations| == 0 ==> r == m && h == heap
  {
    h := UpdateEach(m.animations, heap, dt);
    var kept := RemoveStopped(m.animations, h);
    r := Manager(kept);
    forall id | id in heap
      ensures h[id] == E.Run(heap[id], E.Repeat(dt, multiset(m.animations)[id]))
    {
      AdvanceAliases(heap, m.animations, dt, id);
    }
  }

  /**
   * An engine that was added but never started reports nothing, keeps its
   * state, and is gone from the list after the next update.
   */
  lemma NeverStartedIsDropped(m: Manager, heap: Heap, dt: real, id: EngineId)
    requires AllIn(m.animations, heap) && id in heap && !heap[id].running
    ensures Advance(heap, m.animations, dt)[id] == heap[id]
    ensures id !in Survivors(m.animations, Advance(heap, m.animations, dt))
  {
    AdvanceAliases(heap, m.animations, dt, id);
    E.RunWhileStopped(heap[id], E.Repeat(dt, multiset(m.animations)[id]));
  }

  /**
   * Three distinct running engines, of which the first two overshoot their
   * duration on this frame and the third does not: exactly the third remains.
   */
  lemma TwoFinishOneContinues(heap: Heap, a: EngineId, b: EngineId, c: EngineId, dt: real)
    requires a in heap && b in heap && c in heap
    requires a != b && b != c && a != c
    requires heap[a].running && heap[a].elapsed + dt > heap[a].duration
    requires heap[b].running && heap[b].elapsed + dt > heap[b].duration
    requires heap[c].running && heap[c].elapsed + dt <= heap[c].duration
    ensures Survivors([a, b, c], Advance(heap, [a, b, c], dt)) == [c]
  {
    var ids := [a, b, c];
    var h := Advance(heap, ids, dt);
    AdvanceAliases(heap, ids, dt, a);
    AdvanceAliases(heap, ids, dt, b);
    AdvanceAliases(heap, ids, dt, c);
    assert multiset(ids)[a] == 1 && multiset(ids)[b] == 1 && multiset(ids)[c] == 1;
    assert E.Repeat(dt, 1) == [dt];
    assert !h[a].running && !h[b].running && h[c].running;
    assert ids[1..] == [b, c];
    assert [b, c][1..] == [c];
    assert [c][1..] == [];
    calc {
      Survivors(ids, h);
      Survivors([b, c], h);
      Survivors([c], h);
      [c] + Survivors([], h);
      [c];
    }
  }
}
