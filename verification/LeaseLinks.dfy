/**
How the two timers of every key stay tied to its deadlines.

A `Board` is what the schedule remembers and what the wheel holds for it. `Linked` says
that each key's handles reach exactly its own pending callbacks, and that a callback
pending on the wheel is one of some key's two deadlines. Each lemma is one step of the
schedule.
*/
module LeaseLinks {
  import opened Wrappers
  import opened WheelCounts
  import opened TimerTable
  import L = Lifecycle
  import opened KeyLives

  type KeyId = L.KeyId
  type Callback = L.Callback
  type Handle = Option<TimerId>

  /** A key's two timers, weakly: a timer that has run leaves a stale handle. */
  datatype Stages = Stages(retire: Handle, reap: Handle)

  function StagesOf(stages: map<KeyId, Stages>, k: KeyId): Stages {
    if k in stages then stages[k] else Stages(None, None)
  }

  function HandleOf(stages: map<KeyId, Stages>, c: Callback): Handle {
    if c.Retire? then StagesOf(stages, c.key).retire else StagesOf(stages, c.key).reap
  }

  function WithHandle(stages: map<KeyId, Stages>, c: Callback, id: TimerId): map<KeyId, Stages> {
    var s := StagesOf(stages, c.key);
    stages[c.key := if c.Retire? then s.(retire := Some(id)) else s.(reap := Some(id))]
  }

  /**
  `stages` are the handles kept per key, `book` the timers behind them, `offset` the second
  of tick 0; `retireAt` and `reapAt` are the pending deadlines.
  */
  datatype Board = Board(stages: map<KeyId, Stages>, book: Book<Callback>, offset: nat,
                         retireAt: map<KeyId, nat>, reapAt: map<KeyId, nat>)
  {
    ghost function At(c: Callback): map<KeyId, nat> {
      if c.Retire? then retireAt else reapAt
    }

    ghost function WithAt(c: Callback, at: map<KeyId, nat>): Board {
      if c.Retire? then this.(retireAt := at) else this.(reapAt := at)
    }
  }

  /** A stage's handle reaches that stage's callback or none, and does so while it is pending. */
  ghost predicate LinkedStage(b: Board, c: Callback) {
    var h := HandleOf(b.stages, c);
    (h.Some? ==> h.value < b.book.nextId)
    && (h.Some? && h.value in b.book.callback ==> b.book.callback[h.value] == c)
    && (c.key in b.At(c) ==>
          h.Some? && h.value in b.book.callback && h.value in b.book.deadline
          && b.offset + b.book.deadline[h.value] == b.At(c)[c.key])
  }

  ghost predicate LinkedTimer(b: Board, id: TimerId) {
    id in b.book.callback ==>
      HandleOf(b.stages, b.book.callback[id]) == Some(id) && b.book.callback[id].key in b.At(b.book.callback[id])
  }

  ghost predicate Linked(b: Board) {
    Consistent(b.book)
    && (forall c: Callback :: LinkedStage(b, c)) && (forall id: TimerId :: LinkedTimer(b, id))
  }

  /** What each stage's deadline becomes once a second has passed. */
  ghost function Later1(b: Board): Board {
    var t := b.offset + b.book.ticks + 1;
    b.(book := Passed(b.book), retireAt := b.retireAt - DueBy(b.retireAt, t), reapAt := b.reapAt - DueBy(b.reapAt, t))
  }

  /** A tick fires exactly the stages due by it. */
  lemma LinkedTick(b: Board, ids: seq<TimerId>, fired: seq<Callback>)
    requires Linked(b)
    requires Taken(b.book.callback, ids, fired)
    requires Ids(ids) == DueOn(b.book.deadline, b.book.ticks + 1) * b.book.callback.Keys
    ensures var t := b.offset + b.book.ticks + 1;
            L.Retired(fired) == DueBy(b.retireAt, t) && L.Reaped(fired) == DueBy(b.reapAt, t)
    ensures Linked(Later1(b))
  {
    var t := b.offset + b.book.ticks + 1;
    forall c: Callback
      ensures c in fired <==> c.key in DueBy(b.At(c), t)
    {
      FiredStage(b, ids, fired, c);
    }
    FiredKeys(fired, DueBy(b.retireAt, t), DueBy(b.reapAt, t));
    ChangedConsistent(b.book, 0, Change<Callback>.Tick);
    forall c: Callback
      ensures LinkedStage(Later1(b), c)
    {
      assert LinkedStage(b, c);
    }
    forall id: TimerId
      ensures LinkedTimer(Later1(b), id)
    {
      assert LinkedTimer(b, id);
      assert ConsistentFor(b.book, id);
      if id in b.book.callback {
        assert LinkedStage(b, b.book.callback[id]);
      }
    }
  }

  lemma FiredKeys(fired: seq<Callback>, retire: set<KeyId>, reap: set<KeyId>)
    requires forall c: Callback :: c in fired <==> c.key in if c.Retire? then retire else reap
    ensures L.Retired(fired) == retire && L.Reaped(fired) == reap
  {
    forall k
      ensures k in L.Retired(fired) <==> k in retire
      ensures k in L.Reaped(fired) <==> k in reap
    {
      assert L.Retire(k) in fired <==> k in retire;
      assert L.Reap(k) in fired <==> k in reap;
    }
  }

  lemma FiredStage(b: Board, ids: seq<TimerId>, fired: seq<Callback>, c: Callback)
    requires Linked(b)
    requires Taken(b.book.callback, ids, fired)
    requires Ids(ids) == DueOn(b.book.deadline, b.book.ticks + 1) * b.book.callback.Keys
    ensures c in fired <==> c.key in DueBy(b.At(c), b.offset + b.book.ticks + 1)
  {
    assert LinkedStage(b, c);
    if c in fired {
      var i :| 0 <= i < |fired| && fired[i] == c;
      assert ids[i] in Ids(ids);
      assert LinkedTimer(b, ids[i]);
    }
    if c.key in DueBy(b.At(c), b.offset + b.book.ticks + 1) {
      var id := HandleOf(b.stages, c).value;
      assert ConsistentFor(b.book, id);
      assert id in Ids(ids);
      var i :| 0 <= i < |ids| && ids[i] == id;
      assert fired[i] == c;
    }
  }

  /** Dropping the schedule fires every pending stage. */
  lemma LinkedDrop(b: Board, ids: seq<TimerId>, fired: seq<Callback>)
    requires Linked(b)
    requires Taken(b.book.callback, ids, fired) && Ids(ids) == b.book.callback.Keys
    ensures L.Retired(fired) == b.retireAt.Keys && L.Reaped(fired) == b.reapAt.Keys
  {
    forall c: Callback
      ensures c in fired <==> c.key in b.At(c).Keys
    {
      assert LinkedStage(b, c);
      if c in fired {
        var i :| 0 <= i < |fired| && fired[i] == c;
        assert LinkedTimer(b, ids[i]);
      }
      if c.key in b.At(c) {
        assert HandleOf(b.stages, c).value in Ids(ids);
        var i :| 0 <= i < |ids| && ids[i] == HandleOf(b.stages, c).value;
        assert fired[i] == c;
      }
    }
    FiredKeys(fired, b.retireAt.Keys, b.reapAt.Keys);
  }

  /** A timer made for `c`; the deadline is recorded when the wheel holds it. */
  ghost function Placed(b: Board, reach: nat, c: Callback, delay: nat): Board {
    var b' := b.(stages := WithHandle(b.stages, c, b.book.nextId), book := Added(b.book, reach, c, delay));
    if Places(delay, reach) then b'.WithAt(c, b.At(c)[c.key := b.offset + b.book.ticks + delay]) else b'
  }

  lemma LinkedPlaced(b: Board, reach: nat, c: Callback, delay: nat)
    requires Linked(b) && c.key !in b.At(c)
    ensures Linked(Placed(b, reach, c, delay))
  {
    var b' := Placed(b, reach, c, delay);
    ChangedConsistent(b.book, reach, Add(c, delay));
    forall x: Callback
      ensures LinkedStage(b', x)
    {
      PlacedStage(b, reach, c, delay, x);
    }
    forall id: TimerId
      ensures LinkedTimer(b', id)
    {
      PlacedTimer(b, reach, c, delay, id);
    }
  }

  lemma PlacedStage(b: Board, reach: nat, c: Callback, delay: nat, x: Callback)
    requires Linked(b) && c.key !in b.At(c)
    ensures LinkedStage(Placed(b, reach, c, delay), x)
  {
    assert LinkedStage(b, x);
    assert ConsistentFor(b.book, b.book.nextId);
  }

  lemma PlacedTimer(b: Board, reach: nat, c: Callback, delay: nat, id: TimerId)
    requires Linked(b) && c.key !in b.At(c)
    ensures LinkedTimer(Placed(b, reach, c, delay), id)
  {
    assert LinkedTimer(b, id);
    assert ConsistentFor(b.book, id);
    if id in b.book.callback {
      assert LinkedStage(b, b.book.callback[id]);
    }
  }

  /** A second route for one of a key's timers, whether or not its callback is still pending. */
  ghost function Renewed(b: Board, reach: nat, c: Callback, delay: nat): Board
    requires HandleOf(b.stages, c).Some?
  {
    var b' := b.(book := Rerouted(b.book, reach, HandleOf(b.stages, c).value, delay));
    if Places(delay, reach) && c.key in b.At(c)
    then b'.WithAt(c, b.At(c)[c.key := Later(b.At(c)[c.key], b.offset + b.book.ticks + delay)]) else b'
  }

  lemma LinkedRenewed(b: Board, reach: nat, c: Callback, delay: nat)
    requires Linked(b) && HandleOf(b.stages, c).Some?
    ensures Linked(Renewed(b, reach, c, delay))
  {
    var b' := Renewed(b, reach, c, delay);
    assert LinkedStage(b, c);
    ChangedConsistent(b.book, reach, Change<Callback>.Again(HandleOf(b.stages, c).value, delay));
    forall x: Callback
      ensures LinkedStage(b', x)
    {
      assert LinkedStage(b, x);
    }
    forall id: TimerId
      ensures LinkedTimer(b', id)
    {
      assert LinkedTimer(b, id);
    }
  }

  /** A stage that is fired, if it is still pending. */
  ghost function Struck(b: Board, c: Callback): Board
    requires HandleOf(b.stages, c).Some?
  {
    b.(book := Fired(b.book, HandleOf(b.stages, c).value)).WithAt(c, b.At(c) - {c.key})
  }

  lemma LinkedStruck(b: Board, c: Callback)
    requires Linked(b) && HandleOf(b.stages, c).Some?
    ensures HandleOf(b.stages, c).value in b.book.callback <==> c.key in b.At(c)
    ensures Linked(Struck(b, c))
  {
    var b' := Struck(b, c);
    assert LinkedStage(b, c);
    assert LinkedTimer(b, HandleOf(b.stages, c).value);
    ChangedConsistent(b.book, 0, Change<Callback>.Fire(HandleOf(b.stages, c).value));
    forall x: Callback
      ensures LinkedStage(b', x)
    {
      assert LinkedStage(b, x);
    }
    forall id: TimerId
      ensures LinkedTimer(b', id)
    {
      assert LinkedTimer(b, id);
    }
  }

  /** A key with nothing pending can be forgotten. */
  lemma LinkedForget(b: Board, k: KeyId)
    requires Linked(b) && k !in b.retireAt && k !in b.reapAt
    ensures Linked(b.(stages := b.stages - {k}))
  {
    var b' := b.(stages := b.stages - {k});
    forall c: Callback
      ensures LinkedStage(b', c)
    {
      assert LinkedStage(b, c);
    }
    forall id: TimerId
      ensures LinkedTimer(b', id)
    {
      assert LinkedTimer(b, id);
    }
  }

  /** With no timers nothing is pending. */
  lemma LinkedNothing(b: Board)
    requires Consistent(b.book) && b.stages == map[] && b.book.callback == map[] && b.retireAt == map[] && b.reapAt == map[]
    ensures Linked(b)
  {
    forall c: Callback
      ensures LinkedStage(b, c)
    {
    }
    forall id: TimerId
      ensures LinkedTimer(b, id)
    {
    }
  }
}
