/**
What the relay manager answers, to whom, and what it records with each answer.
*/
module RelayAnswers {
  import opened Wrappers
  import opened Routing
  import opened RelayRuns

  // ---- subscribing ----

  /** An entry of the service a subscription may get: not excluded, on a channel that lives. */
  ghost predicate Usable(r: Routes, open: set<Sender>, key: string, excluded: seq<(ConnId, nat)>, info: Info) {
    Listed(r.servers, key, info) && info.healthy && (info.conn, info.generation) !in excluded
    && info.conn in r.ids.active && r.ids.active[info.conn] in open
  }

  ghost predicate Latest(r: Routes, open: set<Sender>, key: string, excluded: seq<(ConnId, nat)>, info: Info) {
    Usable(r, open, key, excluded, info)
    && forall other | Usable(r, open, key, excluded, other) :: other.generation <= info.generation
  }

  ghost predicate Admits(r: Routes, limits: Limits, task: Task) {
    task.SubscribeTask? && CountOf(r.counts, NamespaceOf(task.key)) < limits.streams && task.key in r.servers && task.rateAllows
  }

  lemma {:induction false} ChooseActive(r: Routes, open: set<Sender>, key: string, candidates: seq<Info>)
    ensures var (p, choice) := Choose(r, open, key, candidates);
            choice.Some? ==> choice.value.conn in p.ids.active && choice.value.conn in r.ids.active
                             && p.ids.active[choice.value.conn] == r.ids.active[choice.value.conn]
                             && r.ids.active[choice.value.conn] in open
    decreases |candidates|
  {
    if candidates != [] && !Reachable(r.ids, open, candidates[0].conn) {
      ChooseActive(DeregisterServer(r, key, candidates[0].conn), open, key, candidates[1..]);
    }
  }

  lemma LatestIsChosen(r: Routes, limits: Limits, open: set<Sender>, key: string, excluded: seq<(ConnId, nat)>)
    requires key in r.servers && GoodList(r.servers[key], limits, r.next)
    ensures var choice := Choose(r, open, key, Candidates(r.servers[key], excluded)).1;
            if choice.Some? then Latest(r, open, key, excluded, choice.value)
            else forall info :: !Usable(r, open, key, excluded, info)
  {
    SelectsLatest(r, limits, open, key, excluded);
  }

  /** What answering a client with `info` sends and records. */
  lemma SelectedSends(p: Routes, open: set<Sender>, key: string, client: ConnId, s: Sender, info: Info)
    requires info.conn in p.ids.active && p.ids.active[info.conn] in open
    ensures var (after, sent) := Selected(p, open, key, client, s, info);
            sent == [Sent(p.ids.active[info.conn], StreamReq(client, info.generation))]
                    + (if s in open then [Sent(s, SubscribeResp(info.conn, info.generation, info.needCodec, info.isDatagram))] else [])
            && after.pending == p.pending[client := Pending(info.conn, info.generation, key)]
            && (s in open && client < p.ids.next ==>
                  client in after.ids.active && after.ids.active[client] == if client in p.ids.active then p.ids.active[client] else s)
  {
  }

  /**
  A subscription that is let in and finds a usable connection: the latest such connection is
  asked for a stream for this very client, the client is told of that connection, and the
  pair is recorded under the client's id. Nothing else is sent.
  */
  lemma SubscribeAnswered(r: Routes, limits: Limits, open: set<Sender>, task: Task) returns (info: Info)
    requires GoodServers(r.servers, limits, r.next) && Admits(r, limits, task)
    requires exists other :: Usable(r, open, task.key, task.excluded, other)
    ensures Latest(r, open, task.key, task.excluded, info)
    ensures var (after, sent) := Step(r, limits, open, task);
            sent == [Sent(r.ids.active[info.conn], StreamReq(task.conn, info.generation))]
                    + (if task.sender in open
                       then [Sent(task.sender, SubscribeResp(info.conn, info.generation, info.needCodec, info.isDatagram))] else [])
            && after.pending == r.pending[task.conn := Pending(info.conn, info.generation, task.key)]
  {
    var cs := Candidates(r.servers[task.key], task.excluded);
    LatestIsChosen(r, limits, open, task.key, task.excluded);
    ChooseActive(r, open, task.key, cs);
    ChooseKeeps(r, limits, open, task.key, cs);
    var (p, choice) := Choose(r, open, task.key, cs);
    info := choice.value;
    SelectedSends(p, open, task.key, task.conn, task.sender, info);
  }

  /** Any other subscription is told why not, and is recorded nowhere. */
  lemma SubscribeRefused(r: Routes, limits: Limits, open: set<Sender>, task: Task)
    requires GoodServers(r.servers, limits, r.next) && task.SubscribeTask?
    requires !Admits(r, limits, task) || forall info :: !Usable(r, open, task.key, task.excluded, info)
    ensures var (after, sent) := Step(r, limits, open, task);
            after.pending == r.pending && after.counts == r.counts
            && sent == Deliver(open, task.sender,
                               if CountOf(r.counts, NamespaceOf(task.key)) >= limits.streams then SubscribeFailed(StreamLimit)
                               else if task.key in r.servers && !task.rateAllows then SubscribeFailed(RateLimit)
                               else if task.excluded == [] then SubscribeFailed(NotAvailable) else SubscribeRetry)
  {
    if Admits(r, limits, task) {
      LatestIsChosen(r, limits, open, task.key, task.excluded);
      ChooseKeeps(r, limits, open, task.key, Candidates(r.servers[task.key], task.excluded));
    }
  }

  // ---- the stream that was asked for ----

  /**
  A connection that waits under its id gets the stream: one opened under the pending key,
  echoing the client id and generation of the request, goes to its channel and no other.
  */
  lemma EchoReaches(w: World, limits: Limits, s: Sender, turn: Turn)
    requires Held(w) && s in w.peers && Pends(w.routes, s, w.peers[s]) && w.peers[s].conn in w.routes.ids.active
    requires turn.task.StreamTask? && turn.task.conn == w.peers[s].conn && turn.task.key == w.routes.pending[turn.task.conn].key
    requires turn.task.generation == 0 || turn.task.generation == w.routes.pending[turn.task.conn].generation
    ensures Step(w.routes, limits, turn.open, turn.task).1
            == if s in turn.open then [Sent(s, StreamResp(turn.task.server, w.routes.pending[turn.task.conn].generation, turn.task.socket))] else []
  {
  }

  /** From the answer to the stream: the request's echo reaches the channel that subscribed. */
  lemma AnsweredThenEchoed(w: World, limits: Limits, turn: Turn, echo: Turn) returns (info: Info)
    requires Sound(w.routes, limits) && Held(w) && Proper(w, turn) && limits.connections > 0
    requires Admits(w.routes, limits, turn.task) && turn.task.sender in turn.open
    requires exists other :: Usable(w.routes, turn.open, turn.task.key, turn.task.excluded, other)
    requires echo.task.StreamTask? && turn.task.sender in echo.open
    ensures Latest(w.routes, turn.open, turn.task.key, turn.task.excluded, info)
    ensures echo.task.conn == turn.task.conn && echo.task.generation == info.generation && echo.task.key == turn.task.key ==>
              Step(Next(w, limits, turn).routes, limits, echo.open, echo.task).1
              == [Sent(turn.task.sender, StreamResp(echo.task.server, info.generation, echo.task.socket))]
  {
    info := SubscribeAnswered(w.routes, limits, turn.open, turn.task);
    StepHeldIff(w, limits, turn);
    SubscriberActive(w, limits, turn);
    var after := Next(w, limits, turn);
    if echo.task.conn == turn.task.conn && echo.task.generation == info.generation && echo.task.key == turn.task.key {
      EchoReaches(after, limits, turn.task.sender, echo);
    }
  }

  lemma SubscriberActive(w: World, limits: Limits, turn: Turn)
    requires Sound(w.routes, limits) && Held(w) && Proper(w, turn)
    requires Admits(w.routes, limits, turn.task) && turn.task.sender in turn.open
    requires exists other :: Usable(w.routes, turn.open, turn.task.key, turn.task.excluded, other)
    ensures var after := Next(w, limits, turn);
            turn.task.conn in after.routes.ids.active && Pends(after.routes, turn.task.sender, after.peers[turn.task.sender])
  {
    var r, task := w.routes, turn.task;
    assert Holds(r, turn.from, w.peers[turn.from]);
    var cs := Candidates(r.servers[task.key], task.excluded);
    LatestIsChosen(r, limits, turn.open, task.key, task.excluded);
    ChooseActive(r, turn.open, task.key, cs);
    ChooseKeeps(r, limits, turn.open, task.key, cs);
    var (p, choice) := Choose(r, turn.open, task.key, cs);
    SelectedSends(p, turn.open, task.key, task.conn, task.sender, choice.value);
    SubscriberHolds(w, limits, turn);
  }

  // ---- acknowledgements ----

  /** An acknowledgement goes to the pending client's channel when it is of the pending attempt, and otherwise to no one. */
  lemma AckReaches(r: Routes, limits: Limits, open: set<Sender>, task: Task)
    requires task.AckTask?
    ensures var c := task.conn;
            Step(r, limits, open, task).1
            == if c in r.pending && r.pending[c].server == task.server && r.pending[c].generation == task.generation
                  && c in r.ids.active && r.ids.active[c] in open
               then [Sent(r.ids.active[c], StreamAck(task.server, task.generation))] else []
  {
  }

  // ---- registering, retiring, leaving ----

  /** The service has room for the connection, and its namespace for the service. */
  ghost predicate Room(r: Routes, limits: Limits, key: string, isDatagram: bool) {
    if key in r.servers
    then |r.servers[key]| < limits.connections && forall info | Listed(r.servers, key, info) :: info.isDatagram == isDatagram
    else |KeysOf(r.servers, NamespaceOf(key))| < limits.services
  }

  /**
  A registration is taken exactly when there is room: the connection is then the last of its
  service, under a generation above all others, its channel is the one under its id, and it
  is told that generation. Otherwise it is told what there was no room for, and nothing changes.
  */
  lemma RegisterAnswered(r: Routes, limits: Limits, open: set<Sender>, task: Task)
    requires GoodServers(r.servers, limits, r.next) && task.RegisterTask? && task.conn < r.ids.next
    ensures var (after, sent) := Step(r, limits, open, task);
            if Room(r, limits, task.key, task.isDatagram) then
              sent == Deliver(open, task.sender, RegisterResp(r.next)) && after.next == r.next + 1
              && task.key in after.servers
              && after.servers[task.key] == (if task.key in r.servers then r.servers[task.key] else [])
                                            + [Info(task.conn, r.next, true, task.needCodec, task.isDatagram)]
              && OthersSame(r.servers, after.servers, task.key)
              && after.ids == r.ids.(active := r.ids.active[task.conn := task.sender])
              && after.pending == r.pending && after.counts == r.counts
            else
              after == r
              && sent == Deliver(open, task.sender,
                                 RegisterFailed(if task.key !in r.servers then ServiceLimit
                                                else if exists info :: Listed(r.servers, task.key, info) && info.isDatagram != task.isDatagram then TransportMismatch
                                                else ConnectionLimit))
  {
    if task.key in r.servers {
      var list := r.servers[task.key];
      assert GoodList(list, limits, r.next);
      assert Listed(r.servers, task.key, list[0]);
      if list[0].isDatagram == task.isDatagram {
        forall info | Listed(r.servers, task.key, info)
          ensures info.isDatagram == task.isDatagram
        {
          var i :| 0 <= i < |list| && list[i] == info;
        }
      }
    }
  }

  /** Retiring or deregistering a connection takes it out of its service and off its channel, and only the former tells it. */
  lemma RetireTells(r: Routes, limits: Limits, open: set<Sender>, task: Task)
    requires GoodEntries(r.servers, r.ids.next) && (task.RetireTask? || task.DeregisterServerTask?)
    ensures var (after, sent) := Step(r, limits, open, task);
            var c := task.conn;
            Gone(after.servers, task.key, c) && c !in after.ids.active && OthersSame(r.servers, after.servers, task.key)
            && (forall info | Listed(r.servers, task.key, info) && info.conn != c :: Listed(after.servers, task.key, info))
            && (forall d | d != c && d in r.ids.active :: d in after.ids.active && after.ids.active[d] == r.ids.active[d])
            && (c in r.ids.active ==> c in after.ids.idle)
            && after.pending == r.pending && after.counts == r.counts
            && sent == if task.RetireTask? && c in r.ids.active && r.ids.active[c] in open
                       then [Sent(r.ids.active[c], Message.Retire)] else []
  {
    RemoveEntries(r.servers, r.ids.next, task.key, task.conn);
    RemoveLists(r.servers, task.key, task.conn, Info(0, 0, true, true, true));
    forall info | Listed(r.servers, task.key, info) && info.conn != task.conn
      ensures Listed(Step(r, limits, open, task).0.servers, task.key, info)
    {
      RemoveLists(r.servers, task.key, task.conn, info);
    }
  }

  /** A client that leaves takes its pending stream and both ids with it, and touches nothing else. */
  lemma ClientLeaves(r: Routes, limits: Limits, open: set<Sender>, task: Task)
    requires task.DeregisterClientTask?
    ensures var (after, sent) := Step(r, limits, open, task);
            var c := task.conn;
            sent == [] && after.pending == r.pending - {c} && after.servers == r.servers
            && (forall d :: d in after.ids.active <==> d in r.ids.active && d != c && task.stream != Some(d))
            && (forall d | d in after.ids.active :: after.ids.active[d] == r.ids.active[d])
            && (forall d | d in r.ids.active && (d == c || task.stream == Some(d)) :: d in after.ids.idle)
  {
  }

  // ---- health ----

  /** What comes in is word from the connection of this entry. */
  ghost predicate HearsFrom(r: Routes, task: Task, key: string, info: Info) {
    match task
    case Activity(k, c) => k == key && c == info.conn
    case AckTask(server, c, generation, at, entryAt) =>
      server == info.conn
      && (at == Some(key)
          || (entryAt == Some(key) && generation == info.generation && c in r.pending
              && r.pending[c].server == server && r.pending[c].generation == generation))
    case StreamTask(k, _, _, c, generation, entryAt) =>
      entryAt == Some(key) && StreamAccepted(r, k, c, generation)
      && r.pending[c].server == info.conn && r.pending[c].generation == info.generation
    case _ => false
  }

  lemma EntryAt(servers: map<string, seq<Info>>, next: ConnId, key: string, info: Info) returns (i: nat)
    requires GoodEntries(servers, next) && Listed(servers, key, info)
    ensures i < |servers[key]| && servers[key][i] == info
    ensures FindConn(servers[key], info.conn) == Some(i) && FindEntry(servers[key], info.conn, info.generation) == Some(i)
  {
    assert GoodConns(servers[key], next);
    var j :| 0 <= j < |servers[key]| && servers[key][j] == info;
    i := j;
  }

  lemma RefreshMarks(servers: map<string, seq<Info>>, next: ConnId, key: string, info: Info)
    requires GoodEntries(servers, next) && Listed(servers, key, info)
    ensures Listed(Refresh(servers, key, info.conn), key, info.(healthy := true))
    ensures Listed(RefreshEntry(servers, Some(key), info.conn, info.generation), key, info.(healthy := true))
  {
    var i := EntryAt(servers, next, key, info);
    assert servers[key][i := info.(healthy := true)][i] == info.(healthy := true);
  }

  /** A refresh of any entry marks this one healthy or leaves it. */
  lemma RefreshLeaves(servers: map<string, seq<Info>>, at: Option<string>, c: ConnId, generation: nat, key: string, info: Info)
    requires Listed(servers, key, info)
    ensures Listed(RefreshAt(servers, at, c), key, info) || Listed(RefreshAt(servers, at, c), key, info.(healthy := true))
    ensures Listed(RefreshEntry(servers, at, c, generation), key, info) || Listed(RefreshEntry(servers, at, c, generation), key, info.(healthy := true))
  {
    var list := servers[key];
    var i :| 0 <= i < |list| && list[i] == info;
    RefreshSame(servers, at, c, generation);
    var x, y := RefreshAt(servers, at, c)[key][i], RefreshEntry(servers, at, c, generation)[key][i];
    assert x.healthy || !info.healthy;
    assert y.healthy || !info.healthy;
  }

  lemma AckMarks(r: Routes, limits: Limits, open: set<Sender>, task: Task, key: string, info: Info)
    requires GoodEntries(r.servers, r.ids.next) && Listed(r.servers, key, info) && HearsFrom(r, task, key, info) && task.AckTask?
    ensures Listed(Step(r, limits, open, task).0.servers, key, info.(healthy := true))
  {
    var heard := RefreshAt(r.servers, task.at, task.server);
    RefreshSame(r.servers, task.at, task.server, task.generation);
    SameEntries(r.servers, heard, r.ids.next);
    RefreshMarks(r.servers, r.ids.next, key, info);
    RefreshLeaves(r.servers, task.at, task.server, task.generation, key, info);
    if task.at == Some(key) {
      RefreshLeaves(heard, task.entryAt, task.server, task.generation, key, info.(healthy := true));
    } else {
      RefreshMarks(heard, r.ids.next, key, if Listed(heard, key, info) then info else info.(healthy := true));
    }
  }

  /** Word from a connection marks its entry healthy. */
  lemma HeardIsHealthy(r: Routes, limits: Limits, open: set<Sender>, task: Task, key: string, info: Info)
    requires GoodEntries(r.servers, r.ids.next) && Listed(r.servers, key, info) && HearsFrom(r, task, key, info)
    ensures Listed(Step(r, limits, open, task).0.servers, key, info.(healthy := true))
  {
    if task.AckTask? {
      AckMarks(r, limits, open, task, key, info);
    } else {
      RefreshMarks(r.servers, r.ids.next, key, info);
    }
  }

  ghost predicate AllHealthy(servers: map<string, seq<Info>>) {
    forall key, i | key in servers && 0 <= i < |servers[key]| :: servers[key][i].healthy
  }

  lemma {:induction false} ChooseHealthy(r: Routes, open: set<Sender>, key: string, candidates: seq<Info>)
    requires AllHealthy(r.servers)
    ensures AllHealthy(Choose(r, open, key, candidates).0.servers)
    decreases |candidates|
  {
    if candidates != [] && !Reachable(r.ids, open, candidates[0].conn) {
      ChooseHealthy(DeregisterServer(r, key, candidates[0].conn), open, key, candidates[1..]);
    }
  }

  lemma StepHealthy(r: Routes, limits: Limits, open: set<Sender>, task: Task)
    requires AllHealthy(r.servers)
    ensures AllHealthy(Step(r, limits, open, task).0.servers)
  {
    if task.SubscribeTask? && Admits(r, limits, task) {
      ChooseHealthy(r, open, task.key, Candidates(r.servers[task.key], task.excluded));
    }
  }

  /** Nothing ever marks a connection otherwise: in every run those listed are healthy. */
  lemma {:induction false} EveryRunHealthy(limits: Limits, run: seq<Turn>)
    ensures AllHealthy(After(limits, run).routes.servers)
  {
    if run != [] {
      var n := |run| - 1;
      EveryRunHealthy(limits, run[..n]);
      StepHealthy(After(limits, run[..n]).routes, limits, run[n].open, run[n].task);
    }
  }
}
