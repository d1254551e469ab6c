/**
Runs in which the manager hands out an id that is still pending, and what comes of it.

Two things leave a pending id idle: a subscription whose answer finds its client gone, and a
server connection that was retired deregistering again, under an id since given to a client.
*/
module RecycledIds {
  import opened Wrappers
  import opened Routing
  import opened RelayRuns

  lemma OneMore(limits: Limits, run: seq<Turn>, turn: Turn)
    ensures After(limits, run + [turn]) == Next(After(limits, run), limits, turn)
    ensures ProperRun(limits, run + [turn]) <==> ProperRun(limits, run) && Proper(After(limits, run), turn)
    ensures CleanRun(limits, run + [turn]) <==> CleanRun(limits, run) && Clean(After(limits, run).routes, turn.task)
  {
    assert (run + [turn])[..|run|] == run;
  }

  /** Only a connection that was accepted has asked for anything. */
  lemma {:induction false} AskedKnown(limits: Limits, run: seq<Turn>, c: ConnId, s: Sender, key: string)
    requires ProperRun(limits, run) && Asked(run, c, s, key)
    ensures s in After(limits, run).peers
  {
    var n := |run| - 1;
    var i :| 0 <= i < |run| && run[i].task.SubscribeTask? && run[i].task.conn == c && run[i].task.sender == s && run[i].task.key == key;
    if i < n {
      assert run[..n][i] == run[i];
      AskedKnown(limits, run[..n], c, s, key);
    }
  }

  // ---- what comes of it ----

  /**
  If the next id handed out is still pending, its new holder need only register a service:
  the next stream for the old subscription goes to a channel that never subscribed.
  */
  lemma PendingIdMisdelivers(limits: Limits, run: seq<Turn>, s: Sender, key: string, socket: nat, server: ConnId) returns (longer: seq<Turn>, stream: Turn)
    requires ProperRun(limits, run) && s !in After(limits, run).peers
    requires !Clean(After(limits, run).routes, Accept) && RegisterRefusal(After(limits, run).routes, limits, key, false).None?
    ensures run <= longer && ProperRun(limits, longer) && Proper(After(limits, longer), stream) && stream.task.StreamTask?
    ensures var p := After(limits, run).routes.pending[Handed(After(limits, run).routes)];
            stream.task.key == p.key && [Sent(s, StreamResp(server, p.generation, socket))] == Step(After(limits, longer).routes, limits, stream.open, stream.task).1
    ensures forall c, k :: !Asked(longer, c, s, k)
  {
    var w := After(limits, run);
    var c := Handed(w.routes);
    var accept, register := Turn(Accept, {s}, s), Turn(RegisterTask(key, c, s, false, false), {s}, s);
    stream := Turn(StreamTask(w.routes.pending[c].key, socket, server, c, 0, None), {s}, s);
    OneMore(limits, run, accept);
    OneMore(limits, run + [accept], register);
    HandedBelow(w.routes.ids, Serving(w.routes.servers));
    longer := run + [accept] + [register];
    forall d, k
      ensures !Asked(longer, d, s, k)
    {
      if Asked(longer, d, s, k) {
        var i :| 0 <= i < |longer| && longer[i].task.SubscribeTask? && longer[i].task.conn == d && longer[i].task.sender == s && longer[i].task.key == k;
        assert run[i] == longer[i];
        AskedKnown(limits, run, d, s, k);
      }
    }
  }

  lemma {:induction false} HandedBelow(ids: Ids, serving: set<ConnId>)
    ensures GetConnId(ids, serving).1 < GetConnId(ids, serving).0.next
    decreases |ids.idle|
  {
    if ids.idle != [] {
      HandedBelow(ids.(idle := ids.idle[..|ids.idle| - 1]), serving);
    }
  }

  /** If its new holder subscribes in another namespace instead, the stream counts go wrong. */
  lemma PendingIdMiscounts(limits: Limits, run: seq<Turn>, s: Sender, key: string, open: set<Sender>) returns (longer: seq<Turn>)
    requires ProperRun(limits, run) && s !in After(limits, run).peers && GoodCounts(After(limits, run).routes, limits)
    requires !Clean(After(limits, run).routes, Accept)
    requires var r := After(limits, run).routes;
             NamespaceOf(r.pending[Handed(r)].key) != NamespaceOf(key) && CountOf(r.counts, NamespaceOf(key)) < limits.streams
             && key in r.servers && exists info :: info in r.servers[key] && info.healthy && Reachable(r.ids, open, info.conn)
    ensures run <= longer && ProperRun(limits, longer) && !GoodCounts(After(limits, longer).routes, limits)
  {
    var r := After(limits, run).routes;
    var c := Handed(r);
    var accept, subscribe := Turn(Accept, open, s), Turn(SubscribeTask(key, c, s, [], true), open, s);
    OneMore(limits, run, accept);
    OneMore(limits, run + [accept], subscribe);
    longer := run + [accept] + [subscribe];
    var accepted := After(limits, run + [accept]).routes;
    AcceptActive(r.ids, Serving(r.servers));
    SameCounts(r, accepted, limits);
    var cs := Candidates(r.servers[key], []);
    var info :| info in r.servers[key] && info.healthy && Reachable(r.ids, open, info.conn);
    CandidatesAre(r.servers[key], [], info);
    var k := ChooseFirst(accepted, open, key, cs);
    var j :| 0 <= j < |cs| && cs[j] == info;
    ChooseKeeps(accepted, limits, open, key, cs);
    var (p, choice) := Choose(accepted, open, key, cs);
    SameCounts(accepted, p, limits);
    SelectedCounts(p, limits, open, key, c, s, choice.value);
  }

  lemma {:induction false} AcceptActive(ids: Ids, serving: set<ConnId>)
    ensures GetConnId(ids, serving).0.active == ids.active
    decreases |ids.idle|
  {
    if ids.idle != [] {
      AcceptActive(ids.(idle := ids.idle[..|ids.idle| - 1]), serving);
    }
  }

  // ---- how it comes about ----

  /** The run is proper and clean, and ends in `w`. */
  ghost predicate Reaches(limits: Limits, run: seq<Turn>, w: World) {
    ProperRun(limits, run) && CleanRun(limits, run) && After(limits, run) == w
  }

  lemma Goes(limits: Limits, run: seq<Turn>, w: World, turn: Turn, w': World) returns (longer: seq<Turn>)
    requires Reaches(limits, run, w) && Proper(w, turn) && Clean(w.routes, turn.task) && Next(w, limits, turn) == w'
    ensures Reaches(limits, longer, w')
  {
    OneMore(limits, run, turn);
    longer := run + [turn];
  }

  /** Room for two services and a second connection of each, and for a stream. */
  predicate Roomy(limits: Limits, a: string, b: string) {
    limits.services > 0 && limits.connections > 1 && limits.streams > 0 && NamespaceOf(a) != NamespaceOf(b)
  }

  function InfoOf(c: ConnId, generation: nat): Info {
    Info(c, generation, true, false, false)
  }

  function Accepts(s: Sender): Turn {
    Turn(Accept, {}, s)
  }

  function Registers(key: string, c: ConnId, s: Sender): Turn {
    Turn(RegisterTask(key, c, s, false, false), {s}, s)
  }

  lemma NoKeys(servers: map<string, seq<Info>>, ns: nat)
    requires forall key | key in servers :: NamespaceOf(key) != ns
    ensures KeysOf(servers, ns) == {}
  {
  }

  lemma NewService(r: Routes, limits: Limits, key: string, c: ConnId, s: Sender)
    requires limits.services > 0 && c < r.ids.next && forall k | k in r.servers :: NamespaceOf(k) != NamespaceOf(key)
    ensures Register(r, limits, key, c, s, false, false)
            == r.(servers := r.servers[key := [InfoOf(c, r.next)]], next := r.next + 1, ids := r.ids.(active := r.ids.active[c := s]))
  {
    NoKeys(r.servers, NamespaceOf(key));
    assert [] + [InfoOf(c, r.next)] == [InfoOf(c, r.next)];
  }

  /** A connection is accepted under a new id. */
  lemma Newcomer(limits: Limits, run: seq<Turn>, w: World, s: Sender) returns (longer: seq<Turn>)
    requires Reaches(limits, run, w) && w.routes.ids.idle == [] && s !in w.peers && w.routes.ids.next !in w.routes.pending
    ensures var ids := w.routes.ids;
            Reaches(limits, longer, World(w.routes.(ids := ids.(next := ids.next + 1)), w.peers[s := Peer(ids.next, Accepted)]))
  {
    var ids := w.routes.ids;
    longer := Goes(limits, run, w, Accepts(s), World(w.routes.(ids := ids.(next := ids.next + 1)), w.peers[s := Peer(ids.next, Accepted)]));
  }

  function WithService(r: Routes, key: string, list: seq<Info>, c: ConnId, s: Sender): Routes {
    r.(servers := r.servers[key := list], next := r.next + 1, ids := r.ids.(active := r.ids.active[c := s]))
  }

  /** It registers the first connection of a service in a namespace with no other. */
  lemma Opens(limits: Limits, run: seq<Turn>, w: World, key: string, c: ConnId, s: Sender) returns (longer: seq<Turn>)
    requires Reaches(limits, run, w) && limits.services > 0 && c < w.routes.ids.next && s in w.peers && w.peers[s] == Peer(c, Accepted)
    requires forall k | k in w.routes.servers :: NamespaceOf(k) != NamespaceOf(key)
    ensures Reaches(limits, longer, World(WithService(w.routes, key, [InfoOf(c, w.routes.next)], c, s), w.peers[s := Peer(c, Registered)]))
  {
    NewService(w.routes, limits, key, c, s);
    longer := Goes(limits, run, w, Registers(key, c, s), World(WithService(w.routes, key, [InfoOf(c, w.routes.next)], c, s), w.peers[s := Peer(c, Registered)]));
  }

  // ---- two services: connections 0 and 1 serve `a` and `b`, on channels 10 and 11 ----

  function One(a: string): World {
    World(Routes(map[a := [InfoOf(0, 1)]], map[], map[], 2, Ids(1, [], map[0 := 10])), map[10 := Peer(0, Registered)])
  }

  lemma OneService(limits: Limits, a: string) returns (run: seq<Turn>)
    requires limits.services > 0
    ensures Reaches(limits, run, One(a))
  {
    var w := World(Routes(map[], map[], map[], 1, Ids(1, [], map[])), map[10 := Peer(0, Accepted)]);
    assert Reaches(limits, [], World(Start(), map[]));
    run := Newcomer(limits, [], World(Start(), map[]), 10);
    run := Opens(limits, run, w, a, 0, 10);
  }

  function ServersOf(a: string, b: string): map<string, seq<Info>> {
    map[a := [InfoOf(0, 1)], b := [InfoOf(1, 2)]]
  }

  function Two(a: string, b: string): World {
    World(Routes(ServersOf(a, b), map[], map[], 3, Ids(2, [], map[0 := 10, 1 := 11])), map[10 := Peer(0, Registered), 11 := Peer(1, Registered)])
  }

  /** With a second connection accepted, on channel 11. */
  function OneAndMore(a: string): World {
    World(One(a).routes.(ids := Ids(2, [], map[0 := 10])), One(a).peers[11 := Peer(1, Accepted)])
  }

  lemma TwoIs(a: string, b: string)
    ensures Two(a, b) == World(WithService(OneAndMore(a).routes, b, [InfoOf(1, 2)], 1, 11), OneAndMore(a).peers[11 := Peer(1, Registered)])
  {
  }

  lemma OneAndMoreReached(limits: Limits, a: string) returns (run: seq<Turn>)
    requires limits.services > 0
    ensures Reaches(limits, run, OneAndMore(a))
  {
    run := OneService(limits, a);
    run := Newcomer(limits, run, One(a), 11);
  }

  lemma TwoServices(limits: Limits, a: string, b: string) returns (run: seq<Turn>)
    requires Roomy(limits, a, b)
    ensures Reaches(limits, run, Two(a, b))
  {
    run := OneAndMoreReached(limits, a);
    run := Opens(limits, run, OneAndMore(a), b, 1, 11);
    TwoIs(a, b);
  }

  // ---- what strands a pending id ----

  /** Two services and client 13 under id 2: its subscription, if any, and whether id 2 is on its channel, idle or neither. */
  function ClientAt(a: string, b: string, pending: map<ConnId, Pending>, next: nat, ids: Ids): Routes {
    Routes(ServersOf(a, b), pending, if pending == map[] then map[] else map[NamespaceOf(a) := 1], next, ids)
  }

  function Served(): map<ConnId, Sender> {
    map[0 := 10, 1 := 11]
  }

  /** The client is pending under id 2, which is idle and on no channel. */
  function Stranded(a: string, b: string, next: nat): Routes {
    ClientAt(a, b, map[2 := Pending(0, 1, a)], next, Ids(3, [2], Served()))
  }

  lemma NotServing(a: string, b: string)
    ensures 2 !in Serving(ServersOf(a, b))
  {
    if 2 in Serving(ServersOf(a, b)) {
      var k, j := ServingAt(ServersOf(a, b), 2);
    }
  }

  lemma Recycles(a: string, b: string)
    ensures GetConnId(Ids(3, [2], Served()), Serving(ServersOf(a, b))) == (Ids(3, [], Served()), 2)
  {
    NotServing(a, b);
    assert [2][..0] == [];
  }

  function Subscribes(a: string, open: set<Sender>): Turn {
    Turn(SubscribeTask(a, 2, 13, [], true), open, 13)
  }

  lemma Deregistered(s: Sender)
    ensures Deregister(Ids(3, [], Served()[2 := s]), 2) == Ids(3, [2], Served())
  {
    assert [] + [2] == [2];
    assert Served()[2 := s] - {2} == Served();
  }

  lemma SubscribedTo(limits: Limits, a: string, b: string, next: nat, open: set<Sender>)
    requires Roomy(limits, a, b) && 10 in open
    ensures Step(ClientAt(a, b, map[], next, Ids(3, [], Served())), limits, open, SubscribeTask(a, 2, 13, [], true)).0
            == if 13 in open then ClientAt(a, b, map[2 := Pending(0, 1, a)], next, Ids(3, [], Served()[2 := 13])) else Stranded(a, b, next)
  {
    var r := ClientAt(a, b, map[], next, Ids(3, [], Served()));
    assert [InfoOf(0, 1)][..0] == [];
    assert Candidates([InfoOf(0, 1)], []) == [InfoOf(0, 1)];
    assert Choose(r, open, a, [InfoOf(0, 1)]) == (r, Some(InfoOf(0, 1)));
    Deregistered(13);
  }

  /** The client's channel is closed by the time its subscription is answered. */
  lemma ClientGone(limits: Limits, a: string, b: string) returns (run: seq<Turn>, peers: map<Sender, Peer>)
    requires Roomy(limits, a, b)
    ensures Reaches(limits, run, World(Stranded(a, b, 3), peers)) && 14 !in peers
  {
    var w := World(ClientAt(a, b, map[], 3, Ids(3, [], Served())), Two(a, b).peers[13 := Peer(2, Accepted)]);
    peers := w.peers[13 := Peer(2, Subscribed(a))];
    run := TwoServices(limits, a, b);
    run := Newcomer(limits, run, Two(a, b), 13);
    SubscribedTo(limits, a, b, 3, {10, 11});
    run := Goes(limits, run, w, Subscribes(a, {10, 11}), World(Stranded(a, b, 3), peers));
  }

  /** Two services, and a second connection of `b` on id 2 and channel 12. */
  function Third(a: string, b: string): World {
    World(Routes(ServersOf(a, b)[b := [InfoOf(1, 2), InfoOf(2, 3)]], map[], map[], 4, Ids(3, [], Served()[2 := 12])),
          Two(a, b).peers[12 := Peer(2, Registered)])
  }

  lemma ThirdReached(limits: Limits, a: string, b: string) returns (run: seq<Turn>)
    requires Roomy(limits, a, b)
    ensures Reaches(limits, run, Third(a, b))
  {
    var w := World(Two(a, b).routes.(ids := Ids(3, [], Served())), Two(a, b).peers[12 := Peer(2, Accepted)]);
    run := TwoServices(limits, a, b);
    run := Newcomer(limits, run, Two(a, b), 12);
    SecondConnection(limits, a, b);
    run := Goes(limits, run, w, Registers(b, 2, 12), Third(a, b));
  }

  lemma SecondConnection(limits: Limits, a: string, b: string)
    requires Roomy(limits, a, b)
    ensures Register(Two(a, b).routes.(ids := Ids(3, [], Served())), limits, b, 2, 12, false, false) == Third(a, b).routes
  {
    assert [InfoOf(1, 2)] + [InfoOf(2, 3)] == [InfoOf(1, 2), InfoOf(2, 3)];
  }

  lemma RemovedFrom(a: string, b: string)
    requires a != b
    ensures RemoveConn(ServersOf(a, b)[b := [InfoOf(1, 2), InfoOf(2, 3)]], b, 2) == ServersOf(a, b)
    ensures RemoveConn(ServersOf(a, b), b, 2) == ServersOf(a, b)
  {
    var list := [InfoOf(1, 2), InfoOf(2, 3)];
    assert list[1..][0].conn == 2;
    assert FindConn(list, 2) == Some(1);
    assert list[..1] + list[2..] == [InfoOf(1, 2)];
  }

  function Retires(b: string): Turn {
    Turn(RetireTask(b, 2), {}, 10)
  }

  function Retired(a: string, b: string): World {
    World(ClientAt(a, b, map[], 4, Ids(3, [2], Served())), Third(a, b).peers)
  }

  lemma RetiredNext(limits: Limits, a: string, b: string)
    requires a != b
    ensures Next(Third(a, b), limits, Retires(b)) == Retired(a, b)
  {
    RemovedFrom(a, b);
    Deregistered(12);
  }

  lemma RecycledNext(limits: Limits, a: string, b: string)
    ensures Next(Retired(a, b), limits, Accepts(13))
            == World(ClientAt(a, b, map[], 4, Ids(3, [], Served())), Third(a, b).peers[13 := Peer(2, Accepted)])
  {
    Recycles(a, b);
  }

  /** The connection is retired, and its id goes to client 13. */
  lemma RetiredReached(limits: Limits, a: string, b: string) returns (run: seq<Turn>, peers: map<Sender, Peer>)
    requires Roomy(limits, a, b)
    ensures Reaches(limits, run, World(ClientAt(a, b, map[], 4, Ids(3, [], Served())), peers))
    ensures 13 in peers && peers[13] == Peer(2, Accepted) && 14 !in peers
  {
    peers := Third(a, b).peers[13 := Peer(2, Accepted)];
    run := ThirdReached(limits, a, b);
    RetiredNext(limits, a, b);
    run := Goes(limits, run, Third(a, b), Retires(b), Retired(a, b));
    RecycledNext(limits, a, b);
    run := Goes(limits, run, Retired(a, b), Accepts(13), World(ClientAt(a, b, map[], 4, Ids(3, [], Served())), peers));
  }

  /** The client subscribes, and then the retired connection deregisters its id all the same. */
  lemma LateDeregister(limits: Limits, a: string, b: string) returns (run: seq<Turn>, peers: map<Sender, Peer>)
    requires Roomy(limits, a, b)
    ensures Reaches(limits, run, World(Stranded(a, b, 4), peers)) && 14 !in peers
  {
    run, peers := RetiredReached(limits, a, b);
    var w := World(ClientAt(a, b, map[], 4, Ids(3, [], Served())), peers);
    var w' := World(ClientAt(a, b, map[2 := Pending(0, 1, a)], 4, Ids(3, [], Served()[2 := 13])), peers[13 := Peer(2, Subscribed(a))]);
    SubscribedTo(limits, a, b, 4, {10, 11, 13});
    run := Goes(limits, run, w, Subscribes(a, {10, 11, 13}), w');
    RemovedFrom(a, b);
    Deregistered(13);
    peers := w'.peers;
    run := Goes(limits, run, w', Turn(DeregisterServerTask(b, 2), {}, 12), World(Stranded(a, b, 4), peers));
  }

  lemma StrandedMiscounts(limits: Limits, a: string, b: string, next: nat)
    requires Roomy(limits, a, b)
    ensures var r := Stranded(a, b, next);
            CountOf(r.counts, NamespaceOf(b)) < limits.streams
            && b in r.servers && exists info :: info in r.servers[b] && info.healthy && Reachable(r.ids, {10, 11}, info.conn)
  {
    assert InfoOf(1, 2) in ServersOf(a, b)[b] && Reachable(Ids(3, [2], Served()), {10, 11}, 1);
  }

  /**
  Both causes, from nothing, and what follows: by proper turns, all clean but the one that
  hands out the pending id, a stream of one namespace reaches a channel that never subscribed;
  by others, a stream count is no longer the number of pending streams.
  */
  lemma RunsGoWrong(limits: Limits, a: string, b: string, late: bool)
    returns (run: seq<Turn>, misled: seq<Turn>, stream: Turn, miscounted: seq<Turn>)
    requires Roomy(limits, a, b)
    ensures CleanRun(limits, run) && run <= misled && run <= miscounted && After(limits, run).routes == Stranded(a, b, if late then 4 else 3)
    ensures ProperRun(limits, misled) && Proper(After(limits, misled), stream) && stream.task.StreamTask? && stream.task.key == a
    ensures [Sent(14, StreamResp(5, 1, 77))] == Step(After(limits, misled).routes, limits, stream.open, stream.task).1
    ensures forall c, k :: !Asked(misled, c, 14, k)
    ensures ProperRun(limits, miscounted) && !GoodCounts(After(limits, miscounted).routes, limits)
  {
    var peers: map<Sender, Peer>;
    if late {
      run, peers := LateDeregister(limits, a, b);
    } else {
      run, peers := ClientGone(limits, a, b);
    }
    Recycles(a, b);
    misled, stream := PendingIdMisdelivers(limits, run, 14, b, 77, 5);
    RunHeldIff(limits, run);
    StrandedMiscounts(limits, a, b, if late then 4 else 3);
    miscounted := PendingIdMiscounts(limits, run, 14, b, {10, 11});
  }
}
