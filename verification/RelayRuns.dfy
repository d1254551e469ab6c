/**
Whole runs of the relay manager, with the connections behind its ids.

An accepted connection gets an id and makes one channel; it registers once, or subscribes to
one key as often as it retries and then deregisters. Ids are recycled, and a connection that
was retired, or whose client is gone, may still have a task under way. One condition decides
whether every run keeps each id with its connection: an id handed out is not still pending.
*/
module RelayRuns {
  import opened Wrappers
  import opened Routing
  import ServiceKeys

  /** What a connection has asked for so far. */
  datatype Phase = Accepted | Registered | Subscribed(key: string) | Finished

  datatype Peer = Peer(conn: ConnId, phase: Phase) {
    /** It may still subscribe under its id. */
    predicate Open() {
      phase.Accepted? || phase.Subscribed?
    }
  }

  /** The manager and the connections it accepted, by their channels. */
  datatype World = World(routes: Routes, peers: map<Sender, Peer>)

  /** One task of a run: the channels whose receivers live while it is handled, and the connection it is from. */
  datatype Turn = Turn(task: Task, open: set<Sender>, from: Sender)

  ghost function Handed(r: Routes): ConnId {
    GetConnId(r.ids, Serving(r.servers)).1
  }

  /**
  What connections do. Anyone may retire or deregister a server connection, at any time and
  any number of times, and open streams or acknowledge under any ids.
  */
  predicate Proper(w: World, turn: Turn) {
    match turn.task
    case Accept => turn.from !in w.peers
    case RegisterTask(_, c, s, _, _) => s == turn.from && s in w.peers && w.peers[s] == Peer(c, Accepted)
    case SubscribeTask(key, c, s, _, _) =>
      s == turn.from && s in w.peers && (w.peers[s] == Peer(c, Accepted) || w.peers[s] == Peer(c, Subscribed(key)))
    case DeregisterClientTask(_, c) => turn.from in w.peers && w.peers[turn.from].conn == c && w.peers[turn.from].Open()
    case _ => true
  }

  ghost function PeersAfter(w: World, turn: Turn): map<Sender, Peer> {
    match turn.task
    case Accept => w.peers[turn.from := Peer(Handed(w.routes), Accepted)]
    case RegisterTask(_, c, _, _, _) => w.peers[turn.from := Peer(c, Registered)]
    case SubscribeTask(key, c, _, _, _) => w.peers[turn.from := Peer(c, Subscribed(key))]
    case DeregisterClientTask(_, c) => w.peers[turn.from := Peer(c, Finished)]
    case _ => w.peers
  }

  ghost function Next(w: World, limits: Limits, turn: Turn): World {
    World(Step(w.routes, limits, turn.open, turn.task).0, PeersAfter(w, turn))
  }

  // ---- each id with its connection ----

  /** Not used yet: nothing knows the id. */
  ghost predicate Waiting(r: Routes, c: ConnId) {
    c !in r.ids.idle && c !in r.ids.active && c !in r.pending
  }

  /** Its subscription is the pending one, and no one else's channel answers under its id. */
  ghost predicate Pends(r: Routes, s: Sender, p: Peer) {
    p.phase.Subscribed? && p.conn in r.pending && r.pending[p.conn].key == p.phase.key
    && (p.conn in r.ids.active ==> r.ids.active[p.conn] == s)
  }

  ghost predicate Holds(r: Routes, s: Sender, p: Peer) {
    p.Open() ==> p.conn < r.ids.next && p.conn !in Serving(r.servers) && (Waiting(r, p.conn) || Pends(r, s, p))
  }

  ghost predicate Apart(peers: map<Sender, Peer>, s: Sender, t: Sender) {
    s in peers && t in peers && s != t && peers[s].Open() && peers[t].Open() ==> peers[s].conn != peers[t].conn
  }

  /** A pending id is that of the connection whose subscription it is. */
  ghost predicate Owned(w: World, c: ConnId) {
    c in w.routes.pending ==> exists s :: s in w.peers && w.peers[s] == Peer(c, Subscribed(w.routes.pending[c].key))
  }

  ghost predicate Held(w: World) {
    (forall s | s in w.peers :: Holds(w.routes, s, w.peers[s]))
    && (forall s, t :: Apart(w.peers, s, t))
    && forall c :: Owned(w, c)
  }

  /** The one thing asked of the manager: an id it hands out is no longer pending. */
  ghost predicate Clean(r: Routes, task: Task) {
    task.Accept? ==> Handed(r) !in r.pending
  }

  // ---- what a task leaves of the other ids ----

  ghost predicate QuietIds(ids: Ids, after: Ids, c: ConnId) {
    (c in after.active ==> c in ids.active && after.active[c] == ids.active[c])
    && (c !in ids.active && c in after.idle ==> c in ids.idle)
  }

  /** `c` is at most taken out of the active set. */
  ghost predicate Quiet(r: Routes, after: Routes, c: ConnId) {
    QuietIds(r.ids, after.ids, c)
    && (c in after.pending <==> c in r.pending) && (c in r.pending ==> after.pending[c] == r.pending[c])
  }

  lemma {:induction false} ChooseQuiet(r: Routes, open: set<Sender>, key: string, candidates: seq<Info>, c: ConnId)
    ensures Quiet(r, Choose(r, open, key, candidates).0, c)
    decreases |candidates|
  {
    if candidates != [] && !Reachable(r.ids, open, candidates[0].conn) {
      ChooseQuiet(DeregisterServer(r, key, candidates[0].conn), open, key, candidates[1..], c);
    }
  }

  lemma {:induction false} AcceptQuiet(ids: Ids, serving: set<ConnId>, c: ConnId)
    ensures QuietIds(ids, GetConnId(ids, serving).0, c)
    decreases |ids.idle|
  {
    if ids.idle != [] {
      AcceptQuiet(ids.(idle := ids.idle[..|ids.idle| - 1]), serving, c);
    }
  }

  lemma SelectedQuiet(p: Routes, open: set<Sender>, key: string, client: ConnId, s: Sender, info: Info, c: ConnId)
    requires c != client
    ensures Quiet(p, Selected(p, open, key, client, s, info).0, c)
  {
  }

  lemma StepQuiet(r: Routes, limits: Limits, open: set<Sender>, task: Task, c: ConnId)
    requires task.RegisterTask? || task.SubscribeTask? || task.DeregisterClientTask? ==> task.conn != c
    ensures Quiet(r, Step(r, limits, open, task).0, c)
  {
    if task.Accept? {
      AcceptQuiet(r.ids, Serving(r.servers), c);
    } else if task.SubscribeTask? && task.key in r.servers {
      var candidates := Candidates(r.servers[task.key], task.excluded);
      var (p, choice) := Choose(r, open, task.key, candidates);
      ChooseQuiet(r, open, task.key, candidates, c);
      if choice.Some? {
        SelectedQuiet(p, open, task.key, task.conn, task.sender, choice.value, c);
      }
    }
  }

  // ---- one step ----

  lemma HeldLegal(w: World, turn: Turn)
    requires Held(w) && Proper(w, turn)
    ensures Legal(w.routes, turn.task)
  {
    if turn.task.RegisterTask? || turn.task.SubscribeTask? {
      assert Holds(w.routes, turn.from, w.peers[turn.from]);
    }
  }

  lemma OthersHold(w: World, limits: Limits, turn: Turn, s: Sender)
    requires Sound(w.routes, limits) && Held(w) && Proper(w, turn)
    requires s in w.peers && (turn.task.RegisterTask? || turn.task.SubscribeTask? || turn.task.DeregisterClientTask? ==> s != turn.from)
    ensures Holds(Next(w, limits, turn).routes, s, w.peers[s])
  {
    HeldLegal(w, turn);
    StepEntries(w.routes, limits, turn.open, turn.task);
    StepIds(w.routes, limits, turn.open, turn.task);
    assert Holds(w.routes, s, w.peers[s]) && Apart(w.peers, s, turn.from);
    if w.peers[s].Open() {
      StepQuiet(w.routes, limits, turn.open, turn.task, w.peers[s].conn);
    }
  }

  lemma SelectedPends(p: Routes, open: set<Sender>, key: string, s: Sender, info: Info, c: ConnId)
    requires c < p.ids.next && (c in p.ids.active ==> p.ids.active[c] == s)
    ensures Pends(Selected(p, open, key, c, s, info).0, s, Peer(c, Subscribed(key)))
  {
  }

  /** A subscription leaves its connection waiting as before, or pending under its own key and channel. */
  lemma SubscriberHolds(w: World, limits: Limits, turn: Turn)
    requires Sound(w.routes, limits) && Held(w) && Proper(w, turn) && turn.task.SubscribeTask?
    ensures Holds(Next(w, limits, turn).routes, turn.from, Peer(turn.task.conn, Subscribed(turn.task.key)))
  {
    var r, task := w.routes, turn.task;
    HeldLegal(w, turn);
    StepEntries(r, limits, turn.open, task);
    StepIds(r, limits, turn.open, task);
    assert Holds(r, turn.from, w.peers[turn.from]);
    if task.key in r.servers {
      var candidates := Candidates(r.servers[task.key], task.excluded);
      var (p, choice) := Choose(r, turn.open, task.key, candidates);
      ChooseQuiet(r, turn.open, task.key, candidates, task.conn);
      ChooseKeeps(r, limits, turn.open, task.key, candidates);
      if choice.Some? {
        SelectedPends(p, turn.open, task.key, task.sender, choice.value, task.conn);
      }
    }
  }

  /** The newcomer waits under the id it got exactly when that id was not pending. */
  lemma NewcomerHolds(w: World, limits: Limits, turn: Turn)
    requires Sound(w.routes, limits) && turn.task.Accept?
    ensures Holds(Next(w, limits, turn).routes, turn.from, Peer(Handed(w.routes), Accepted)) <==> Clean(w.routes, turn.task)
  {
    ServingBelow(w.routes.servers, w.routes.ids.next);
    AcceptedIdIsFree(w.routes.ids, Serving(w.routes.servers));
  }

  lemma ServingBelow(servers: map<string, seq<Info>>, next: ConnId)
    requires GoodEntries(servers, next)
    ensures forall c | c in Serving(servers) :: c < next
  {
    forall c | c in Serving(servers)
      ensures c < next
    {
      var k, j := ServingAt(servers, c);
      assert GoodConns(servers[k], next);
    }
  }

  lemma StepApart(w: World, limits: Limits, turn: Turn, s: Sender, t: Sender)
    requires Sound(w.routes, limits) && Held(w) && Proper(w, turn) && Clean(w.routes, turn.task)
    ensures Apart(PeersAfter(w, turn), s, t)
  {
    assert Apart(w.peers, s, t);
    if turn.task.Accept? {
      ServingBelow(w.routes.servers, w.routes.ids.next);
      AcceptedIdIsFree(w.routes.ids, Serving(w.routes.servers));
      var other := if s == turn.from then t else s;
      assert other in w.peers ==> Holds(w.routes, other, w.peers[other]);
    }
  }

  lemma StepPending(r: Routes, limits: Limits, open: set<Sender>, task: Task, c: ConnId)
    ensures var after := Step(r, limits, open, task).0;
            c in after.pending ==>
              (c in r.pending && after.pending[c] == r.pending[c] && (task.DeregisterClientTask? ==> task.conn != c))
              || (task.SubscribeTask? && task.conn == c)
  {
    if !((task.RegisterTask? || task.SubscribeTask? || task.DeregisterClientTask?) && task.conn == c) {
      StepQuiet(r, limits, open, task, c);
    }
  }

  lemma StepOwned(w: World, limits: Limits, turn: Turn, c: ConnId)
    requires Sound(w.routes, limits) && Held(w) && Proper(w, turn)
    ensures Owned(Next(w, limits, turn), c)
  {
    var after := Next(w, limits, turn);
    StepPending(w.routes, limits, turn.open, turn.task, c);
    if c in after.routes.pending {
      if turn.task.SubscribeTask? && turn.task.conn == c {
        SubscriberHolds(w, limits, turn);
        assert after.peers[turn.from] == Peer(c, Subscribed(after.routes.pending[c].key));
      } else {
        assert Owned(w, c);
        var s :| s in w.peers && w.peers[s] == Peer(c, Subscribed(w.routes.pending[c].key));
        assert after.peers[s] == w.peers[s];
      }
    }
  }

  /** A proper turn keeps the routing state sound, and every id with its connection exactly when it is clean. */
  lemma StepHeldIff(w: World, limits: Limits, turn: Turn)
    requires Sound(w.routes, limits) && Held(w) && Proper(w, turn) && limits.connections > 0
    ensures Sound(Next(w, limits, turn).routes, limits)
    ensures Held(Next(w, limits, turn)) <==> Clean(w.routes, turn.task)
  {
    HeldLegal(w, turn);
    StepSound(w.routes, limits, turn.open, turn.task);
    var after := Next(w, limits, turn);
    if turn.task.Accept? {
      NewcomerHolds(w, limits, turn);
      assert after.peers[turn.from] == Peer(Handed(w.routes), Accepted);
    }
    if Clean(w.routes, turn.task) {
      forall s | s in after.peers
        ensures Holds(after.routes, s, after.peers[s])
      {
        if s in w.peers && after.peers[s] == w.peers[s] && !(turn.task.SubscribeTask? && s == turn.from) {
          OthersHold(w, limits, turn, s);
        } else if turn.task.SubscribeTask? {
          SubscriberHolds(w, limits, turn);
        }
      }
      forall s, t
        ensures Apart(after.peers, s, t)
      {
        StepApart(w, limits, turn, s, t);
      }
      forall c
        ensures Owned(after, c)
      {
        StepOwned(w, limits, turn, c);
      }
    }
  }

  // ---- whole runs ----

  function Start(): Routes {
    Routes(map[], map[], map[], 1, Ids(0, [], map[]))
  }

  ghost function After(limits: Limits, run: seq<Turn>): World {
    if run == [] then World(Start(), map[])
    else
      var n := |run| - 1;
      Next(After(limits, run[..n]), limits, run[n])
  }

  ghost function SentAt(limits: Limits, run: seq<Turn>, i: nat): seq<Sent>
    requires i < |run|
  {
    Step(After(limits, run[..i]).routes, limits, run[i].open, run[i].task).1
  }

  ghost predicate ProperRun(limits: Limits, run: seq<Turn>) {
    run == [] || (var n := |run| - 1; ProperRun(limits, run[..n]) && Proper(After(limits, run[..n]), run[n]))
  }

  ghost predicate CleanRun(limits: Limits, run: seq<Turn>) {
    run == [] || (var n := |run| - 1; CleanRun(limits, run[..n]) && Clean(After(limits, run[..n]).routes, run[n].task))
  }

  ghost predicate HeldThroughout(limits: Limits, run: seq<Turn>) {
    Held(After(limits, run)) && (run == [] || HeldThroughout(limits, run[..|run| - 1]))
  }

  lemma StartHeld(limits: Limits)
    ensures Sound(Start(), limits) && Held(World(Start(), map[]))
  {
    forall ns: nat
      ensures CountsAt(map[], map[], limits, ns) && KeysOf(map[], ns) == {}
    {
      assert StreamsOf(map[], ns) == {};
    }
  }

  /** Every run stays sound up to its first unclean turn, and exactly the clean runs keep every id with its connection. */
  lemma {:induction false} RunHeldIff(limits: Limits, run: seq<Turn>)
    requires ProperRun(limits, run) && limits.connections > 0
    ensures HeldThroughout(limits, run) <==> CleanRun(limits, run)
    ensures CleanRun(limits, run) ==> Sound(After(limits, run).routes, limits)
  {
    StartHeld(limits);
    if run != [] {
      var n := |run| - 1;
      RunHeldIff(limits, run[..n]);
      if CleanRun(limits, run[..n]) {
        assert HeldThroughout(limits, run[..n]);
        StepHeldIff(After(limits, run[..n]), limits, run[n]);
      }
    }
  }

  /** With no condition at all: services, transports, generations and limits stay in order, and so do the ids. */
  lemma {:induction false} EveryRunGood(limits: Limits, run: seq<Turn>)
    requires limits.connections > 0
    ensures var r := After(limits, run).routes;
            GoodServers(r.servers, limits, r.next) && GoodIds(r.ids)
  {
    StartHeld(limits);
    if run != [] {
      var n := |run| - 1;
      EveryRunGood(limits, run[..n]);
      StepServers(After(limits, run[..n]).routes, limits, run[n].open, run[n].task);
      StepIds(After(limits, run[..n]).routes, limits, run[n].open, run[n].task);
    }
  }

  /** The counts of a clean run: each is the number of pending streams of its namespace, within the limit and never zero. */
  lemma RunCounts(limits: Limits, run: seq<Turn>, ns: nat)
    requires ProperRun(limits, run) && CleanRun(limits, run) && limits.connections > 0
    ensures var r := After(limits, run).routes;
            CountOf(r.counts, ns) == |StreamsOf(r.pending, ns)| <= limits.streams && (ns in r.counts ==> r.counts[ns] > 0)
  {
    RunHeldIff(limits, run);
    assert CountsAt(After(limits, run).routes.pending, After(limits, run).routes.counts, limits, ns);
  }

  /** An id handed out in a clean run is active nowhere, serves nothing, and no connection that may still subscribe has it. */
  lemma HandedIsFree(limits: Limits, run: seq<Turn>, s: Sender)
    requires ProperRun(limits, run) && CleanRun(limits, run) && limits.connections > 0
    ensures var w := After(limits, run);
            var c := Handed(w.routes);
            c !in w.routes.ids.active && c !in Serving(w.routes.servers)
            && (c !in w.routes.pending && s in w.peers && w.peers[s].Open() ==> w.peers[s].conn != c)
  {
    var w := After(limits, run);
    RunHeldIff(limits, run);
    ServingBelow(w.routes.servers, w.routes.ids.next);
    AcceptedIdIsFree(w.routes.ids, Serving(w.routes.servers));
    if s in w.peers {
      assert Holds(w.routes, s, w.peers[s]);
    }
  }

  /** The subscription reaches the candidate loop, which passes over exactly the first `k`. */
  ghost predicate Passes(r: Routes, limits: Limits, open: set<Sender>, task: Task, k: nat) {
    task.SubscribeTask? && task.rateAllows && CountOf(r.counts, NamespaceOf(task.key)) < limits.streams && task.key in r.servers
    && var cs := Candidates(r.servers[task.key], task.excluded);
       k <= |cs| && (forall j | 0 <= j < k :: !Reachable(r.ids, open, cs[j].conn)) && (k < |cs| ==> Reachable(r.ids, open, cs[k].conn))
  }

  ghost function PassedOver(r: Routes, task: Task, k: nat): seq<Info>
    requires task.SubscribeTask? && task.key in r.servers && k <= |Candidates(r.servers[task.key], task.excluded)|
  {
    Candidates(r.servers[task.key], task.excluded)[..k]
  }

  lemma SelectedServers(p: Routes, open: set<Sender>, key: string, client: ConnId, s: Sender, info: Info, d: ConnId)
    requires d != client && d !in p.ids.active
    ensures Selected(p, open, key, client, s, info).0.servers == p.servers && d !in Selected(p, open, key, client, s, info).0.ids.active
  {
  }

  lemma SubscribePurges(r: Routes, limits: Limits, open: set<Sender>, task: Task, k: nat, j: nat)
    requires GoodEntries(r.servers, r.ids.next) && Passes(r, limits, open, task, k) && j < k && task.conn !in Serving(r.servers)
    ensures var after := Step(r, limits, open, task).0;
            var info := PassedOver(r, task, k)[j];
            Gone(after.servers, task.key, info.conn) && info.conn !in after.ids.active
  {
    var cs := Candidates(r.servers[task.key], task.excluded);
    ChoosePurges(r, open, task.key, cs, j);
    CandidatesAre(r.servers[task.key], task.excluded, cs[j]);
    ListedServes(r.servers, task.key, cs[j]);
    var (p, choice) := Choose(r, open, task.key, cs);
    if choice.Some? {
      SelectedServers(p, open, task.key, task.conn, task.sender, choice.value, cs[j].conn);
    }
  }

  lemma SubscribeSpares(r: Routes, limits: Limits, open: set<Sender>, task: Task, k: nat, info: Info)
    requires GoodEntries(r.servers, r.ids.next) && Passes(r, limits, open, task, k)
    requires info in r.servers[task.key] && info !in PassedOver(r, task, k)
    ensures Listed(Step(r, limits, open, task).0.servers, task.key, info)
  {
    var cs := Candidates(r.servers[task.key], task.excluded);
    forall j | 0 <= j < k
      ensures cs[j].conn != info.conn
    {
      assert cs[j] in cs[..k];
      CandidatesAre(r.servers[task.key], task.excluded, cs[j]);
      SameConn(r.servers[task.key], r.ids.next, cs[j], info);
    }
    ChooseSpares(r, open, task.key, cs, k, info);
  }

  lemma SameConn(list: seq<Info>, next: ConnId, a: Info, b: Info)
    requires GoodConns(list, next) && a in list && b in list
    ensures a.conn == b.conn ==> a == b
  {
  }

  /**
  A subscription in a clean run purges exactly the connections it passes over: they leave the
  service and the active set, and every other connection of the service stays.
  */
  lemma PassedOverArePurged(limits: Limits, run: seq<Turn>, turn: Turn, k: nat, info: Info)
    requires ProperRun(limits, run) && CleanRun(limits, run) && limits.connections > 0 && Proper(After(limits, run), turn)
    requires Passes(After(limits, run).routes, limits, turn.open, turn.task, k)
    requires info in After(limits, run).routes.servers[turn.task.key]
    ensures var after := Step(After(limits, run).routes, limits, turn.open, turn.task).0;
            if info in PassedOver(After(limits, run).routes, turn.task, k)
            then Gone(after.servers, turn.task.key, info.conn) && info.conn !in after.ids.active
            else Listed(after.servers, turn.task.key, info)
  {
    var w := After(limits, run);
    RunHeldIff(limits, run);
    assert Held(w);
    assert Holds(w.routes, turn.from, w.peers[turn.from]);
    if info in PassedOver(w.routes, turn.task, k) {
      var j :| 0 <= j < k && PassedOver(w.routes, turn.task, k)[j] == info;
      SubscribePurges(w.routes, limits, turn.open, turn.task, k, j);
    } else {
      SubscribeSpares(w.routes, limits, turn.open, turn.task, k, info);
    }
  }

  // ---- a stream answers the subscription it was opened for ----

  /** On channel `s`, the connection under id `c` asked for `key`. */
  ghost predicate Asked(run: seq<Turn>, c: ConnId, s: Sender, key: string) {
    exists i :: 0 <= i < |run| && run[i].task.SubscribeTask? && run[i].task.conn == c && run[i].task.sender == s && run[i].task.key == key
  }

  lemma AskedLonger(run: seq<Turn>, n: nat, c: ConnId, s: Sender, key: string)
    requires n <= |run| && Asked(run[..n], c, s, key)
    ensures Asked(run, c, s, key)
  {
    var i :| 0 <= i < n && run[..n][i].task.SubscribeTask? && run[..n][i].task.conn == c && run[..n][i].task.sender == s && run[..n][i].task.key == key;
    assert run[i] == run[..n][i];
  }

  /** A connection known as subscribed did subscribe. */
  lemma {:induction false} PeerAsked(limits: Limits, run: seq<Turn>, s: Sender)
    requires ProperRun(limits, run) && s in After(limits, run).peers
    requires After(limits, run).peers[s].phase.Subscribed?
    ensures Asked(run, After(limits, run).peers[s].conn, s, After(limits, run).peers[s].phase.key)
  {
    if run != [] {
      var n := |run| - 1;
      var before, p := After(limits, run[..n]), After(limits, run).peers[s];
      if s in before.peers && before.peers[s] == p {
        PeerAsked(limits, run[..n], s);
        AskedLonger(run, n, p.conn, s, p.phase.key);
      } else {
        assert run[n].task.SubscribeTask? && run[n].task.conn == p.conn && run[n].task.sender == s && run[n].task.key == p.phase.key;
      }
    }
  }

  /**
  Namespace separation: in a clean run a stream goes to a channel only if that very channel
  subscribed, under the id the stream names, to the namespace and service the stream is of.
  */
  lemma StreamAnswersItsSubscription(limits: Limits, run: seq<Turn>, turn: Turn, m: Sent, ns: nat, name: string)
    requires ProperRun(limits, run) && CleanRun(limits, run) && limits.connections > 0
    requires m in Step(After(limits, run).routes, limits, turn.open, turn.task).1 && m.message.StreamResp? && turn.task.StreamTask?
    requires turn.task.key == ServiceKeys.Scope(ns, name) && ns < ServiceKeys.U64 && ServiceKeys.NUL !in name
    ensures m.message.stream == turn.task.socket
    ensures exists key :: Asked(run, turn.task.conn, m.to, key) && ServiceKeys.Split(key) == (ns, name)
  {
    var w, c := After(limits, run), turn.task.conn;
    RunHeldIff(limits, run);
    assert Held(w);
    OnlyStreams(w.routes, limits, turn.open, turn.task, m);
    assert Owned(w, c);
    var s :| s in w.peers && w.peers[s] == Peer(c, Subscribed(w.routes.pending[c].key));
    assert Holds(w.routes, s, w.peers[s]);
    PeerAsked(limits, run, s);
    ServiceKeys.SplitScope(ns, name);
    assert Asked(run, c, m.to, turn.task.key);
  }

  // ---- what the client checks, in any run at all ----

  /** The key each generation was given to. */
  ghost function GenerationKeys(limits: Limits, run: seq<Turn>): map<nat, string> {
    if run == [] then map[]
    else
      var n := |run| - 1;
      var before, r, task := GenerationKeys(limits, run[..n]), After(limits, run[..n]).routes, run[n].task;
      if task.RegisterTask? && RegisterRefusal(r, limits, task.key, task.isDatagram).None? then before[r.next := task.key] else before
  }

  ghost predicate EntryKeyed(keys: map<nat, string>, key: string, info: Info) {
    info.generation in keys && keys[info.generation] == key
  }

  ghost predicate Keyed(r: Routes, keys: map<nat, string>) {
    (forall g | g in keys :: g < r.next)
    && (forall key, info | Listed(r.servers, key, info) :: EntryKeyed(keys, key, info))
    && forall c | c in r.pending :: r.pending[c].generation in keys && keys[r.pending[c].generation] == r.pending[c].key
  }

  lemma SameListed(a: map<string, seq<Info>>, b: map<string, seq<Info>>, keys: map<nat, string>, key: string, info: Info)
    requires SameButHealth(a, b) && Listed(b, key, info) && forall k, i | Listed(a, k, i) :: EntryKeyed(keys, k, i)
    ensures EntryKeyed(keys, key, info)
  {
    var i :| 0 <= i < |b[key]| && b[key][i] == info;
    assert Listed(a, key, a[key][i]);
  }

  lemma {:induction false} ChooseListed(r: Routes, open: set<Sender>, key: string, candidates: seq<Info>, k: string, info: Info)
    ensures Listed(Choose(r, open, key, candidates).0.servers, k, info) ==> Listed(r.servers, k, info)
    decreases |candidates|
  {
    if candidates != [] && !Reachable(r.ids, open, candidates[0].conn) {
      RemoveLists(r.servers, key, candidates[0].conn, info);
      ChooseListed(DeregisterServer(r, key, candidates[0].conn), open, key, candidates[1..], k, info);
    }
  }

  /** An entry after a step: the one registered by it, or one there before but for its health. */
  lemma StepListed(r: Routes, limits: Limits, open: set<Sender>, task: Task, keys: map<nat, string>, key: string, info: Info)
    requires Keyed(r, keys) && Listed(Step(r, limits, open, task).0.servers, key, info)
    ensures EntryKeyed(keys, key, info)
            || (task.RegisterTask? && RegisterRefusal(r, limits, task.key, task.isDatagram).None? && task.key == key && info.generation == r.next)
  {
    match task
    case RegisterTask(_, _, _, _, _) => assert Listed(r.servers, key, info) ==> EntryKeyed(keys, key, info);
    case Activity(k, c) =>
      RefreshSame(r.servers, Some(k), c, 0);
      SameListed(r.servers, Refresh(r.servers, k, c), keys, key, info);
    case DeregisterServerTask(k, c) => RemoveLists(r.servers, k, c, info);
    case RetireTask(k, c) => RemoveLists(r.servers, k, c, info);
    case DeregisterClientTask(_, _) => assert Listed(r.servers, key, info);
    case SubscribeTask(k, _, _, excluded, _) =>
      if k in r.servers {
        ChooseListed(r, open, k, Candidates(r.servers[k], excluded), key, info);
      }
      assert Listed(r.servers, key, info);
    case StreamTask(_, _, _, c, _, entryAt) =>
      var generation, server := if c in r.pending then r.pending[c].generation else 0, if c in r.pending then r.pending[c].server else 0;
      RefreshSame(r.servers, entryAt, server, generation);
      if Listed(r.servers, key, info) {
      } else {
        SameListed(r.servers, RefreshEntry(r.servers, entryAt, server, generation), keys, key, info);
      }
    case AckTask(server, _, generation, at, entryAt) => AckListed(r, limits, open, task, keys, key, info);
    case Accept => assert Listed(r.servers, key, info);
  }

  lemma AckListed(r: Routes, limits: Limits, open: set<Sender>, task: Task, keys: map<nat, string>, key: string, info: Info)
    requires Keyed(r, keys) && task.AckTask? && Listed(Step(r, limits, open, task).0.servers, key, info)
    ensures EntryKeyed(keys, key, info)
  {
    var heard := RefreshAt(r.servers, task.at, task.server);
    var after := Step(r, limits, open, task).0.servers;
    RefreshSame(r.servers, task.at, task.server, task.generation);
    forall k, i | Listed(heard, k, i)
      ensures EntryKeyed(keys, k, i)
    {
      SameListed(r.servers, heard, keys, k, i);
    }
    RefreshSame(heard, task.entryAt, task.server, task.generation);
    if after != heard {
      SameListed(heard, after, keys, key, info);
    }
  }

  /** A pending subscription after a step is one from before, or names an entry of the service it is to. */
  lemma StepPendingKeyed(r: Routes, limits: Limits, open: set<Sender>, task: Task, keys: map<nat, string>, c: ConnId)
    requires Keyed(r, keys) && c in Step(r, limits, open, task).0.pending
    ensures var p := Step(r, limits, open, task).0.pending[c];
            p.generation in keys && keys[p.generation] == p.key
  {
    StepPending(r, limits, open, task, c);
    if task.SubscribeTask? && task.conn == c {
      AnswerListed(r, limits, open, task);
      if task.key in r.servers {
        ChooseQuiet(r, open, task.key, Candidates(r.servers[task.key], task.excluded), c);
      }
    }
  }

  /** A subscription picks an entry of the service it is to, and answers with that entry. */
  lemma AnswerListed(r: Routes, limits: Limits, open: set<Sender>, task: Task)
    requires task.SubscribeTask?
    ensures task.key in r.servers ==>
              (var choice := Choose(r, open, task.key, Candidates(r.servers[task.key], task.excluded)).1;
               choice.Some? ==> Listed(r.servers, task.key, choice.value))
  {
    if task.key in r.servers {
      var cs := Candidates(r.servers[task.key], task.excluded);
      var k := ChooseFirst(r, open, task.key, cs);
      if k < |cs| {
        CandidatesAre(r.servers[task.key], task.excluded, cs[k]);
      }
    }
  }

  lemma StepNext(r: Routes, limits: Limits, open: set<Sender>, task: Task)
    ensures Step(r, limits, open, task).0.next
            == r.next + if task.RegisterTask? && RegisterRefusal(r, limits, task.key, task.isDatagram).None? then 1 else 0
  {
    if task.SubscribeTask? && task.key in r.servers {
      ChooseKeeps(r, limits, open, task.key, Candidates(r.servers[task.key], task.excluded));
    }
  }

  lemma {:induction false} RunKeyed(limits: Limits, run: seq<Turn>)
    ensures Keyed(After(limits, run).routes, GenerationKeys(limits, run))
  {
    if run != [] {
      var n := |run| - 1;
      RunKeyed(limits, run[..n]);
      var r, keys := After(limits, run[..n]).routes, GenerationKeys(limits, run[..n]);
      var after, more := After(limits, run).routes, GenerationKeys(limits, run);
      StepNext(r, limits, run[n].open, run[n].task);
      forall key, info | Listed(after.servers, key, info)
        ensures EntryKeyed(more, key, info)
      {
        StepListed(r, limits, run[n].open, run[n].task, keys, key, info);
      }
      forall c | c in after.pending
        ensures after.pending[c].generation in more && more[after.pending[c].generation] == after.pending[c].key
      {
        StepPendingKeyed(r, limits, run[n].open, run[n].task, keys, c);
      }
    }
  }

  lemma GenerationStays(limits: Limits, run: seq<Turn>, g: nat)
    requires run != [] && g in GenerationKeys(limits, run[..|run| - 1])
    ensures g in GenerationKeys(limits, run) && GenerationKeys(limits, run)[g] == GenerationKeys(limits, run[..|run| - 1])[g]
  {
    RunKeyed(limits, run[..|run| - 1]);
  }

  /** A generation is given to one key for good. */
  lemma {:induction false} GenerationsStay(limits: Limits, run: seq<Turn>, i: nat, g: nat)
    requires i <= |run| && g in GenerationKeys(limits, run[..i])
    ensures g in GenerationKeys(limits, run) && GenerationKeys(limits, run)[g] == GenerationKeys(limits, run[..i])[g]
    decreases |run|
  {
    if i == |run| {
      assert run[..i] == run;
    } else {
      var shorter := run[..|run| - 1];
      assert shorter[..i] == run[..i];
      GenerationsStay(limits, shorter, i, g);
      GenerationStays(limits, run, g);
    }
  }

  /** The generation a subscription is answered with is one of the key subscribed to. */
  lemma AnswerGeneration(limits: Limits, run: seq<Turn>, turn: Turn, m: Sent)
    requires m in Step(After(limits, run).routes, limits, turn.open, turn.task).1 && m.message.SubscribeResp?
    ensures turn.task.SubscribeTask? && m.to == turn.task.sender
    ensures m.message.generation in GenerationKeys(limits, run) && GenerationKeys(limits, run)[m.message.generation] == turn.task.key
  {
    var r := After(limits, run).routes;
    RunKeyed(limits, run);
    if turn.task.key in r.servers {
      AnswerListed(r, limits, turn.open, turn.task);
      var choice := Choose(r, turn.open, turn.task.key, Candidates(r.servers[turn.task.key], turn.task.excluded)).1;
      assert choice.Some? ==> EntryKeyed(GenerationKeys(limits, run), turn.task.key, choice.value);
    }
  }

  lemma StreamGeneration(limits: Limits, run: seq<Turn>, turn: Turn, m: Sent)
    requires m in Step(After(limits, run).routes, limits, turn.open, turn.task).1 && m.message.StreamResp?
    ensures turn.task.StreamTask? && m.message.stream == turn.task.socket
    ensures m.message.generation in GenerationKeys(limits, run) && GenerationKeys(limits, run)[m.message.generation] == turn.task.key
  {
    RunKeyed(limits, run);
    OnlyStreams(After(limits, run).routes, limits, turn.open, turn.task, m);
  }

  /**
  What saves a client from a stream that is not its own: in any run whatsoever, a stream
  response carrying the generation of a subscription's answer is a stream of the key that
  was subscribed to. A client accepts no other.
  */
  lemma AcceptedStreamIsItsKey(limits: Limits, run: seq<Turn>, i: nat, j: nat, answer: Sent, m: Sent)
    requires i < |run| && j < |run| && answer in SentAt(limits, run, i) && answer.message.SubscribeResp?
    requires m in SentAt(limits, run, j) && m.message.StreamResp? && m.message.generation == answer.message.generation
    ensures run[i].task.SubscribeTask? && answer.to == run[i].task.sender
    ensures run[j].task.StreamTask? && run[j].task.key == run[i].task.key && m.message.stream == run[j].task.socket
  {
    AnswerGeneration(limits, run[..i], run[i], answer);
    StreamGeneration(limits, run[..j], run[j], m);
    GenerationsStay(limits, run, i, m.message.generation);
    GenerationsStay(limits, run, j, m.message.generation);
  }
}
