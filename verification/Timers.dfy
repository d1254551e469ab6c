/**
Timers on the wheel: a callback that runs once, reached through counted references.

Only the wheel's routes hold strong references, and releasing the last one runs the
callback. Seen from outside that is a table of deadlines: `deadline` maps every timer
still held to the last tick one of its routes drains on, `callback` to what it would
run, and `ran` records when each callback ran. `Valid` ties the reference counts the
code keeps to the routes in the wheel, and says each callback is pending or has run,
never both and never twice.
*/
module TimerTable {
  import opened Powers
  import opened Routes
  import opened WheelCounts
  import opened TimingWheels

  function Has(m: map<TimerId, nat>, x: TimerId): nat {
    if x in m then m[x] else 0
  }

  ghost function Ids(ids: seq<TimerId>): set<TimerId> {
    set x | x in ids
  }

  ghost predicate Distinct(ids: seq<TimerId>) {
    forall i, j | 0 <= i < j < |ids| :: ids[i] != ids[j]
  }

  /** `fired` are the callbacks that `pending` holds for `ids`. */
  ghost predicate Taken<C>(pending: map<TimerId, C>, ids: seq<TimerId>, fired: seq<C>) {
    |ids| == |fired| && forall i | 0 <= i < |ids| :: ids[i] in pending && fired[i] == pending[ids[i]]
  }

  lemma TakeOne<C>(pending: map<TimerId, C>, ids: seq<TimerId>, fired: seq<C>, x: TimerId)
    requires Distinct(ids) && Taken(pending, ids, fired) && x in pending && x !in Ids(ids)
    ensures Distinct(ids + [x]) && Taken(pending, ids + [x], fired + [pending[x]]) && Ids(ids + [x]) == Ids(ids) + {x}
  {
  }

  /** Timers that lose their last reference when `out` is dropped. */
  ghost function Spent(refs: map<TimerId, nat>, out: seq<TimerId>): set<TimerId> {
    refs.Keys - Remaining(refs, out).Keys
  }

  ghost function Stamped(ran: map<TimerId, nat>, ids: set<TimerId>, t: nat): map<TimerId, nat> {
    ran + map x | x in ids :: t
  }

  // ---- dropping references, as a function of the table ----

  datatype Table<C> = Table(strong: map<TimerId, nat>, callback: map<TimerId, C>, fired: seq<C>, ids: seq<TimerId>)

  /** Dropping one reference to `x`. */
  ghost function DropOne<C>(t: Table<C>, x: TimerId): Table<C> {
    if x in t.strong && t.strong[x] == 1 then
      if x in t.callback then
        Table(t.strong - {x}, t.callback - {x}, t.fired + [t.callback[x]], t.ids + [x])
      else t.(strong := t.strong - {x})
    else if x in t.strong && t.strong[x] > 1 then t.(strong := t.strong[x := t.strong[x] - 1])
    else t
  }

  ghost function Dropping<C>(strong: map<TimerId, nat>, callback: map<TimerId, C>, released: seq<TimerId>): Table<C> {
    if released == [] then Table(strong, callback, [], [])
    else DropOne(Dropping(strong, callback, released[..|released| - 1]), released[|released| - 1])
  }

  /** `t` is the table once the timers in `spent` lost their last reference. */
  ghost predicate Means<C>(callback: map<TimerId, C>, spent: set<TimerId>, t: Table<C>) {
    t.callback == callback - spent
    && Taken(callback, t.ids, t.fired) && Distinct(t.ids)
    && Ids(t.ids) == spent * callback.Keys
  }

  lemma DropOneMeans<C>(callback: map<TimerId, C>, spent: set<TimerId>, t: Table<C>, x: TimerId)
    requires Means(callback, spent, t) && x in t.strong && t.strong[x] > 0 && x !in spent
    ensures Means(callback, if t.strong[x] == 1 then spent + {x} else spent, DropOne(t, x))
  {
    if t.strong[x] == 1 && x in callback {
      TakeOne(callback, t.ids, t.fired, x);
    }
  }

  lemma {:induction false} DroppingMeans<C>(strong: map<TimerId, nat>, callback: map<TimerId, C>, released: seq<TimerId>)
    requires callback.Keys <= strong.Keys
    requires forall x: TimerId :: multiset(released)[x] <= Has(strong, x)
    requires forall x | x in strong :: strong[x] > 0
    ensures Dropping(strong, callback, released).strong == Remaining(strong, released)
    ensures Means(callback, Spent(strong, released), Dropping(strong, callback, released))
  {
    if released == [] {
      assert Remaining(strong, []) == strong;
    } else {
      var k := |released| - 1;
      LastReference(released);
      DroppingMeans(strong, callback, released[..k]);
      RemainingNext(strong, released, k);
      DropOneMeans(callback, Spent(strong, released[..k]), Dropping(strong, callback, released[..k]), released[k]);
    }
  }

  lemma LastReference(released: seq<TimerId>)
    requires released != []
    ensures var k := |released| - 1;
            forall y: TimerId :: multiset(released)[y] == multiset(released[..k])[y] + (if released[k] == y then 1 else 0)
  {
    var k := |released| - 1;
    assert released == released[..k] + [released[k]];
  }

  /** Dropping every reference leaves nothing. */
  lemma AllSpent(refs: map<TimerId, nat>, released: seq<TimerId>)
    requires forall x: TimerId :: multiset(released)[x] == Has(refs, x)
    ensures Remaining(refs, released) == map[] && Spent(refs, released) == refs.Keys
  {
  }

  /** How counts and spent timers change when one more reference is dropped. */
  lemma RemainingNext(refs: map<TimerId, nat>, released: seq<TimerId>, k: nat)
    requires k + 1 == |released| && forall x | x in refs :: refs[x] > 0
    requires forall x: TimerId :: multiset(released)[x] <= Has(refs, x)
    requires forall y: TimerId :: multiset(released)[y] == multiset(released[..k])[y] + (if released[k] == y then 1 else 0)
    ensures var x := released[k];
            var before := Remaining(refs, released[..k]);
            x in before && before[x] > 0
            && Remaining(refs, released) == (if before[x] == 1 then before - {x} else before[x := before[x] - 1])
            && Spent(refs, released) == Spent(refs, released[..k]) + (if before[x] == 1 then {x} else {})
            && x !in Spent(refs, released[..k])
  {
    var x := released[k];
    assert multiset(released)[x] <= Has(refs, x);
  }

  // ---- what the table means: deadlines, pending callbacks, and when each callback ran ----

  datatype Book<C> = Book(ticks: nat, callback: map<TimerId, C>, deadline: map<TimerId, nat>, nextId: TimerId, ran: map<TimerId, nat>)

  /** A timer ever made is pending, with its deadline ahead, or has run; never both. */
  ghost predicate ConsistentFor<C>(b: Book<C>, x: TimerId) {
    (x in b.deadline ==> b.deadline[x] > b.ticks && x < b.nextId)
    && (x in b.callback ==> x in b.deadline && x !in b.ran)
    && (x < b.nextId <==> x in b.callback || x in b.ran)
  }

  ghost predicate Consistent<C>(b: Book<C>) {
    forall x: TimerId :: ConsistentFor(b, x)
  }

  predicate Places(delay: nat, reach: nat) {
    1 <= delay <= reach
  }

  /** A new timer; one the wheel cannot place runs at once. */
  ghost function Added<C>(b: Book<C>, reach: nat, c: C, delay: nat): Book<C> {
    if Places(delay, reach) then
      b.(callback := b.callback[b.nextId := c], deadline := b.deadline[b.nextId := b.ticks + delay], nextId := b.nextId + 1)
    else b.(ran := b.ran[b.nextId := b.ticks], nextId := b.nextId + 1)
  }

  /** One more route for a timer the wheel holds. */
  ghost function Rerouted<C>(b: Book<C>, reach: nat, id: TimerId, delay: nat): Book<C> {
    if Places(delay, reach) && id in b.deadline then
      b.(deadline := b.deadline[id := Later(b.deadline[id], b.ticks + delay)])
    else b
  }

  ghost function Fired<C>(b: Book<C>, id: TimerId): Book<C> {
    if id in b.callback then b.(callback := b.callback - {id}, ran := b.ran[id := b.ticks]) else b
  }

  ghost function Passed<C>(b: Book<C>): Book<C> {
    var due := DueOn(b.deadline, b.ticks + 1);
    b.(ticks := b.ticks + 1, callback := b.callback - due, deadline := b.deadline - due,
       ran := Stamped(b.ran, due * b.callback.Keys, b.ticks + 1))
  }

  ghost function Emptied<C>(b: Book<C>): Book<C> {
    Book(0, map[], map[], b.nextId, Stamped(b.ran, b.callback.Keys, b.ticks))
  }

  datatype Change<C> = Add(c: C, delay: nat) | Again(id: TimerId, delay: nat) | Fire(id: TimerId) | Tick | DropAll

  ghost function Changed<C>(b: Book<C>, reach: nat, change: Change<C>): Book<C> {
    match change
    case Add(c, delay) => Added(b, reach, c, delay)
    case Again(id, delay) => Rerouted(b, reach, id, delay)
    case Fire(id) => Fired(b, id)
    case Tick => Passed(b)
    case DropAll => Emptied(b)
  }

  lemma ChangedConsistent<C>(b: Book<C>, reach: nat, change: Change<C>)
    requires Consistent(b)
    ensures Consistent(Changed(b, reach, change))
  {
    forall x: TimerId
      ensures ConsistentFor(Changed(b, reach, change), x)
    {
      assert ConsistentFor(b, x);
    }
  }

  /** Whether `change` is where the pending timer `x` runs. */
  ghost predicate Runs<C>(b: Book<C>, change: Change<C>, x: TimerId) {
    change.DropAll? || (change.Fire? && change.id == x) || (change.Tick? && x in b.deadline && b.deadline[x] == b.ticks + 1)
  }

  /**
  A callback runs at the first of: being fired, the tick its last route drains on, the
  wheel being dropped. Rescheduling only ever moves that tick later.
  */
  lemma RunsExactlyWhenDue<C>(b: Book<C>, reach: nat, change: Change<C>, x: TimerId)
    requires Consistent(b) && x in b.callback && x in b.deadline
    ensures var b' := Changed(b, reach, change);
            if Runs(b, change, x) then x !in b'.callback && x in b'.ran && b'.ran[x] == (if change.Tick? then b.ticks + 1 else b.ticks)
            else x in b'.callback && b'.callback[x] == b.callback[x] && x !in b'.ran
                 && x in b'.deadline && b'.deadline[x] == if change.Again? && change.id == x && Places(change.delay, reach)
                                      then Later(b.deadline[x], b.ticks + change.delay) else b.deadline[x]
  {
    assert ConsistentFor(b, x);
    assert ConsistentFor(b, b.nextId);
  }

  ghost function ChangedAll<C>(b: Book<C>, reach: nat, changes: seq<Change<C>>): Book<C> {
    if changes == [] then b else Changed(ChangedAll(b, reach, changes[..|changes| - 1]), reach, changes[|changes| - 1])
  }

  /** A callback that has run never runs again, over any run of operations. */
  lemma {:induction false} RunsOnce<C>(b: Book<C>, reach: nat, changes: seq<Change<C>>, x: TimerId)
    requires Consistent(b) && x in b.ran
    ensures var b' := ChangedAll(b, reach, changes);
            Consistent(b') && x in b'.ran && b'.ran[x] == b.ran[x] && x !in b'.callback
  {
    if changes == [] {
      assert ConsistentFor(b, x);
    } else {
      var before := ChangedAll(b, reach, changes[..|changes| - 1]);
      RunsOnce(b, reach, changes[..|changes| - 1], x);
      assert ConsistentFor(before, x);
      assert ConsistentFor(before, before.nextId);
      ChangedConsistent(before, reach, changes[|changes| - 1]);
      assert ConsistentFor(ChangedAll(b, reach, changes), x);
    }
  }

  class Timers<C> {
    var wheel: TimingWheel
    /** Strong reference counts of the timers still held: `Arc::strong_count`. */
    var strong: map<TimerId, nat>
    /** Callbacks not yet taken. */
    var callback: map<TimerId, C>
    var nextId: TimerId

    ghost var deadline: map<TimerId, nat>
    ghost var ran: map<TimerId, nat>

    ghost function State(): Book<C>
      reads this, wheel`ticks
    {
      Book(wheel.ticks, callback, deadline, nextId, ran)
    }

    ghost predicate Valid()
      reads this, wheel
    {
      wheel.Valid() && strong == wheel.refs && deadline == wheel.last && Consistent(State())
    }

    constructor (maxDelay: nat, radix: nat)
      requires 1 < radix <= SLOT_LIMIT + 1 && maxDelay <= U64_MAX
      ensures Valid() && fresh(wheel)
      ensures State() == Book(0, map[], map[], 0, map[])
      ensures SmallestSpan(radix, maxDelay, wheel.reach)
    {
      wheel := new TimingWheel(maxDelay, radix);
      strong, callback, nextId := map[], map[], 0;
      deadline, ran := map[], map[];
    }

    /** Makes a timer and hands its only reference to the wheel. */
    method Add(delay: nat, c: C) returns (id: TimerId, now: bool)
      requires Valid() && delay <= U64_MAX
      modifies this, wheel
      ensures Valid() && wheel == old(wheel)
      ensures id == old(nextId) && now == !Places(delay, wheel.reach)
      ensures State() == Added(old(State()), wheel.reach, c, delay)
    {
      ChangedConsistent(State(), wheel.reach, Change.Add(c, delay));
      id := nextId;
      assert ConsistentFor(State(), id);
      nextId := nextId + 1;
      var held := wheel.Schedule(delay, id);
      now := !held;
      if held {
        strong, callback := strong[id := 1], callback[id := c];
        deadline := deadline[id := wheel.ticks + delay];
      } else {
        ran := ran[id := wheel.ticks];
      }
    }

    /** Schedules a timer the wheel already holds a second time. */
    method Again(id: TimerId, delay: nat)
      requires Valid() && delay <= U64_MAX && id in strong
      modifies this, wheel
      ensures Valid() && wheel == old(wheel)
      ensures State() == Rerouted(old(State()), wheel.reach, id, delay)
    {
      ChangedConsistent(State(), wheel.reach, Change<C>.Again(id, delay));
      var held := wheel.Schedule(delay, id);
      if held {
        strong := strong[id := strong[id] + 1];
        deadline := deadline[id := Later(deadline[id], wheel.ticks + delay)];
      }
    }

    /** Runs a callback ahead of its deadline; the routes still holding the timer go inert. */
    method Fire(id: TimerId) returns (fired: bool)
      requires Valid()
      modifies this`callback, this`ran
      ensures Valid() && fired == (id in old(callback))
      ensures State() == Fired(old(State()), id)
    {
      ChangedConsistent(State(), wheel.reach, Change<C>.Fire(id));
      fired := id in callback;
      if fired {
        callback := callback - {id};
        ran := ran[id := wheel.ticks];
      }
    }

    /** Drops references one by one; a timer's last one takes its callback, if still there. */
    method Drop(released: seq<TimerId>) returns (fired: seq<C>, ghost ids: seq<TimerId>)
      requires callback.Keys <= strong.Keys
      requires forall x: TimerId :: multiset(released)[x] <= Has(strong, x)
      requires forall x | x in strong :: strong[x] > 0
      modifies this`strong, this`callback
      ensures Table(strong, callback, fired, ids) == Dropping(old(strong), old(callback), released)
      ensures strong == Remaining(old(strong), released)
      ensures callback == old(callback) - Spent(old(strong), released)
      ensures Taken(old(callback), ids, fired) && Distinct(ids)
      ensures Ids(ids) == Spent(old(strong), released) * old(callback).Keys
    {
      fired, ids := [], [];
      var k := 0;
      while k < |released|
        invariant k <= |released|
        invariant Table(strong, callback, fired, ids) == Dropping(old(strong), old(callback), released[..k])
      {
        var x := released[k];
        assert released[..k + 1][..k] == released[..k];
        if x in strong && strong[x] == 1 {
          strong := strong - {x};
          if x in callback {
            fired, ids := fired + [callback[x]], ids + [x];
            callback := callback - {x};
          }
        } else if x in strong && strong[x] > 1 {
          strong := strong[x := strong[x] - 1];
        }
        k := k + 1;
      }
      assert released[..k] == released;
      DroppingMeans(old(strong), old(callback), released);
    }

    lemma Held()
      requires Valid()
      ensures callback.Keys <= strong.Keys && forall x | x in strong :: strong[x] > 0
    {
      forall x: TimerId
        ensures x in callback ==> x in strong
        ensures x in strong ==> strong[x] > 0
      {
        assert ConsistentFor(State(), x);
        assert SoundFor(wheel.radix, wheel.reach, wheel.ticks, wheel.levels, wheel.refs, wheel.last, x);
      }
    }

    /** The references one tick drops, and the callbacks that go with the last of them. */
    method TickRoutes() returns (fired: seq<C>, ghost ids: seq<TimerId>)
      requires Valid()
      modifies this`strong, this`callback, wheel
      ensures wheel.Valid() && wheel.ticks == old(wheel.ticks) + 1
      ensures strong == wheel.refs && wheel.last == deadline - DueOn(deadline, wheel.ticks)
      ensures callback == old(callback) - DueOn(deadline, wheel.ticks)
      ensures Taken(old(callback), ids, fired) && Distinct(ids)
      ensures Ids(ids) == DueOn(deadline, wheel.ticks) * old(callback).Keys
    {
      Held();
      var released := wheel.Tick();
      fired, ids := Drop(released);
    }

    /** One tick: the callbacks whose last route drains now run, each once. */
    method Tick() returns (fired: seq<C>, ghost ids: seq<TimerId>)
      requires Valid()
      modifies this, wheel
      ensures Valid() && wheel == old(wheel)
      ensures State() == Passed(old(State()))
      ensures Taken(old(callback), ids, fired) && Distinct(ids)
      ensures Ids(ids) == DueOn(old(deadline), wheel.ticks) * old(callback).Keys
    {
      ChangedConsistent(State(), wheel.reach, Change<C>.Tick);
      fired, ids := TickRoutes();
      deadline := wheel.last;
      ran := Stamped(ran, Ids(ids), wheel.ticks);
    }

    /** Dropping every route the wheel holds. */
    method DropRoutes() returns (fired: seq<C>, ghost ids: seq<TimerId>)
      requires Valid()
      modifies this`strong, this`callback
      ensures callback == map[] && strong == map[]
      ensures Taken(old(callback), ids, fired) && Distinct(ids)
      ensures Ids(ids) == old(callback).Keys
    {
      Held();
      var released := wheel.Contents();
      AllSpent(strong, released);
      fired, ids := Drop(released);
    }

    /** Replaces the wheel; dropping the old one runs every callback not yet taken, each once. */
    method DropWheel(maxDelay: nat, radix: nat) returns (fired: seq<C>, ghost ids: seq<TimerId>)
      requires Valid() && 1 < radix <= SLOT_LIMIT + 1 && maxDelay <= U64_MAX
      modifies this
      ensures Valid() && fresh(wheel) && SmallestSpan(radix, maxDelay, wheel.reach)
      ensures State() == Emptied(old(State()))
      ensures Taken(old(callback), ids, fired) && Distinct(ids)
      ensures Ids(ids) == old(callback).Keys
    {
      ghost var before := State();
      ChangedConsistent(before, 0, DropAll);
      fired, ids := DropRoutes();
      ran := Stamped(ran, before.callback.Keys, wheel.ticks);
      deadline := map[];
      wheel := new TimingWheel(maxDelay, radix);
    }
  }
}
