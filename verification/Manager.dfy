/**
The relay manager, in place: the connection-id manager, the arms of the event loop, and a
client's subscribe-and-retry loop against it.
*/
module RelayManager {
  import opened Wrappers
  import opened Routing
  import Runs = RelayRuns
  import RelayAnswers

  // ---- connection ids ----

  class TaskManager {
    var next: ConnId
    var idle: seq<ConnId>
    var active: map<ConnId, Sender>

    constructor (next: ConnId)
      ensures State() == Ids(next, [], map[])
    {
      this.next, idle, active := next, [], map[];
    }

    function State(): Ids
      reads this
    {
      Ids(next, idle, active)
    }

    method DeregisterConn(c: ConnId) returns (removed: bool)
      modifies this`active, this`idle
      ensures State() == Deregister(old(State()), c) && removed == (c in old(active))
    {
      if c !in active {
        return false;
      }
      active := active - {c};
      if c !in idle {
        idle := idle + [c];
      }
      return true;
    }

    method SignUpConn(c: ConnId, s: Sender)
      modifies this`active
      ensures State() == SignUp(old(State()), c, s)
    {
      if c < next {
        active := active[c := s];
      }
    }

    /** Recycles the latest idle id that is neither active nor serving, else a fresh one. */
    method NewConnId(serving: set<ConnId>) returns (c: ConnId)
      modifies this`idle, this`next
      ensures (State(), c) == GetConnId(old(State()), serving)
    {
      while |idle| > 0
        invariant next == old(next) && GetConnId(State(), serving) == GetConnId(old(State()), serving)
        decreases |idle|
      {
        c := idle[|idle| - 1];
        idle := idle[..|idle| - 1];
        if c < next && c !in active && c !in serving {
          return c;
        }
      }
      c := next;
      next := next + 1;
    }
  }

  // ---- the event loop ----

  lemma StaysSound(r: Routes, limits: Limits, open: set<Sender>, task: Task)
    ensures Sound(r, limits) && Legal(r, task) && limits.connections > 0 ==> Sound(Step(r, limits, open, task).0, limits)
  {
    if Sound(r, limits) && Legal(r, task) && limits.connections > 0 {
      StepSound(r, limits, open, task);
    }
  }

  class Manager {
    const limits: Limits
    const tasks: TaskManager
    var servers: map<string, seq<Info>>
    var pending: map<ConnId, Pending>
    var counts: map<nat, nat>
    var next: nat

    constructor (limits: Limits)
      ensures State() == Runs.Start() && fresh(tasks) && this.limits == limits
    {
      this.limits := limits;
      servers, pending, counts, next := map[], map[], map[], 1;
      tasks := new TaskManager(0);
    }

    function State(): Routes
      reads this, tasks
    {
      Routes(servers, pending, counts, next, tasks.State())
    }

    /** `server_conn_map.keys().filter(..).count()`. */
    method ServiceCount(ns: nat) returns (n: nat)
      ensures n == |KeysOf(servers, ns)|
    {
      n := 0;
      var left := servers.Keys;
      ghost var seen: set<string> := {};
      while left != {}
        invariant left !! seen && left + seen == servers.Keys
        invariant n == |SeenOf(seen, ns)|
        decreases left
      {
        var key :| key in left;
        SeenMore(seen, key, ns);
        if NamespaceOf(key) == ns {
          n := n + 1;
        }
        left, seen := left - {key}, seen + {key};
      }
      assert SeenOf(seen, ns) == KeysOf(servers, ns);
    }

    method RegisterService(key: string, c: ConnId, s: Sender, needCodec: bool, isDatagram: bool, open: set<Sender>) returns (sent: seq<Sent>)
      modifies this`servers, this`next, tasks
      ensures (State(), sent) == Step(old(State()), limits, open, RegisterTask(key, c, s, needCodec, isDatagram))
      ensures old(Sound(State(), limits) && Legal(State(), RegisterTask(key, c, s, needCodec, isDatagram))) && limits.connections > 0 ==> Sound(State(), limits)
    {
      StaysSound(State(), limits, open, RegisterTask(key, c, s, needCodec, isDatagram));
      var services := ServiceCount(NamespaceOf(key));
      if key in servers && servers[key] != [] && servers[key][0].isDatagram != isDatagram {
        return Deliver(open, s, RegisterFailed(TransportMismatch));
      }
      if key in servers && |servers[key]| >= limits.connections {
        return Deliver(open, s, RegisterFailed(ConnectionLimit));
      }
      if key !in servers && services >= limits.services {
        return Deliver(open, s, RegisterFailed(ServiceLimit));
      }
      var generation := next;
      next := next + 1;
      tasks.SignUpConn(c, s);
      var info := Info(c, generation, true, needCodec, isDatagram);
      if key in servers {
        servers := servers[key := servers[key] + [info]];
      } else {
        servers := servers[key := [] + [info]];
      }
      return Deliver(open, s, RegisterResp(generation));
    }

    /** `remove_server_conn` and `deregister_conn` together, as retiring a connection does. */
    method Remove(key: string, c: ConnId)
      modifies this`servers, tasks
      ensures State() == DeregisterServer(old(State()), key, c)
      ensures old(Sound(State(), limits) && Legal(State(), DeregisterServerTask(key, c))) && limits.connections > 0 ==> Sound(State(), limits)
    {
      StaysSound(State(), limits, {}, DeregisterServerTask(key, c));
      if key in servers {
        var i := FindConn(servers[key], c);
        if i.Some? {
          var list := servers[key][..i.value] + servers[key][i.value + 1..];
          servers := if list == [] then servers - {key} else servers[key := list];
        }
      }
      var removed := tasks.DeregisterConn(c);
    }

    method DeregisterClientConn(server: Option<ConnId>, client: ConnId)
      modifies this`pending, this`counts, tasks
      ensures State() == DeregisterClient(old(State()), server, client)
      ensures old(Sound(State(), limits) && Legal(State(), DeregisterClientTask(server, client))) && limits.connections > 0 ==> Sound(State(), limits)
    {
      StaysSound(State(), limits, {}, DeregisterClientTask(server, client));
      if client in pending {
        var ns := NamespaceOf(pending[client].key);
        pending := pending - {client};
        counts := Decrement(counts, ns);
      } else {
        assert pending - {client} == pending;
      }
      if server.Some? {
        var removed := tasks.DeregisterConn(server.value);
      }
      var removed := tasks.DeregisterConn(client);
    }

    /** The candidate loop: purges dead connections until one can take the request. */
    method ChooseServer(key: string, candidates: seq<Info>, open: set<Sender>) returns (choice: Option<Info>)
      modifies this`servers, tasks
      ensures (State(), choice) == Choose(old(State()), open, key, candidates)
    {
      var i := 0;
      while i < |candidates|
        invariant i <= |candidates|
        invariant Choose(State(), open, key, candidates[i..]) == Choose(old(State()), open, key, candidates)
      {
        var info := candidates[i];
        if Reachable(tasks.State(), open, info.conn) {
          return Some(info);
        }
        assert candidates[i..][1..] == candidates[i + 1..];
        Remove(key, info.conn);
        i := i + 1;
      }
      assert candidates[i..] == [];
      return None;
    }

    method SubscribeClient(key: string, client: ConnId, s: Sender, excluded: seq<(ConnId, nat)>, rateAllows: bool, open: set<Sender>)
      returns (sent: seq<Sent>)
      modifies this`servers, this`pending, this`counts, tasks
      ensures (State(), sent) == Step(old(State()), limits, open, SubscribeTask(key, client, s, excluded, rateAllows))
      ensures old(Sound(State(), limits) && Legal(State(), SubscribeTask(key, client, s, excluded, rateAllows))) && limits.connections > 0 ==> Sound(State(), limits)
    {
      StaysSound(State(), limits, open, SubscribeTask(key, client, s, excluded, rateAllows));
      var ns := NamespaceOf(key);
      if CountOf(counts, ns) >= limits.streams {
        return Deliver(open, s, SubscribeFailed(StreamLimit));
      }
      if key !in servers {
        return Deliver(open, s, Unavailable(excluded));
      }
      if !rateAllows {
        return Deliver(open, s, SubscribeFailed(RateLimit));
      }
      var choice := ChooseServer(key, Candidates(servers[key], excluded), open);
      if choice.None? {
        return Deliver(open, s, Unavailable(excluded));
      }
      sent := RecordSelected(key, client, s, choice.value, open);
    }

    method RecordSelected(key: string, client: ConnId, s: Sender, info: Info, open: set<Sender>) returns (sent: seq<Sent>)
      modifies this`pending, this`counts, tasks
      ensures (State(), sent) == Selected(old(State()), open, key, client, s, info)
    {
      var ns := NamespaceOf(key);
      sent := if info.conn in tasks.active then Deliver(open, tasks.active[info.conn], StreamReq(client, info.generation)) else [];
      if client !in tasks.active {
        tasks.SignUpConn(client, s);
      }
      var isNew := client !in pending;
      pending := pending[client := Pending(info.conn, info.generation, key)];
      if isNew {
        counts := counts[ns := CountOf(counts, ns) + 1];
      }
      if s in open {
        sent := sent + [Sent(s, SubscribeResp(info.conn, info.generation, info.needCodec, info.isDatagram))];
      } else {
        var removed := tasks.DeregisterConn(client);
      }
    }

    /** Hands an opened stream to the client that is waiting for one of the same key. */
    method StreamOpened(key: string, stream: nat, server: ConnId, client: ConnId, generation: nat, entryAt: Option<string>, open: set<Sender>)
      returns (sent: seq<Sent>)
      modifies this`servers
      ensures (State(), sent) == Step(old(State()), limits, open, StreamTask(key, stream, server, client, generation, entryAt))
      ensures old(Sound(State(), limits) && Legal(State(), StreamTask(key, stream, server, client, generation, entryAt))) && limits.connections > 0 ==> Sound(State(), limits)
    {
      StaysSound(State(), limits, open, StreamTask(key, stream, server, client, generation, entryAt));
      if client !in pending {
        return [];
      }
      var expected := pending[client];
      if key != expected.key {
        return [];
      }
      if generation != 0 && expected.generation != generation {
        return [];
      }
      servers := RefreshEntry(servers, entryAt, expected.server, expected.generation);
      if client !in tasks.active {
        return [];
      }
      return Deliver(open, tasks.active[client], StreamResp(server, expected.generation, stream));
    }

    method StreamAcked(server: ConnId, client: ConnId, generation: nat, at: Option<string>, entryAt: Option<string>, open: set<Sender>)
      returns (sent: seq<Sent>)
      modifies this`servers
      ensures (State(), sent) == Step(old(State()), limits, open, AckTask(server, client, generation, at, entryAt))
      ensures old(Sound(State(), limits) && Legal(State(), AckTask(server, client, generation, at, entryAt))) && limits.connections > 0 ==> Sound(State(), limits)
    {
      StaysSound(State(), limits, open, AckTask(server, client, generation, at, entryAt));
      servers := RefreshAt(servers, at, server);
      if client !in pending {
        return [];
      }
      if pending[client].server != server || pending[client].generation != generation {
        return [];
      }
      servers := RefreshEntry(servers, entryAt, server, generation);
      if client !in tasks.active {
        return [];
      }
      return Deliver(open, tasks.active[client], StreamAck(server, generation));
    }
  }

  ghost function SeenOf(keys: set<string>, ns: nat): set<string> {
    set key | key in keys && NamespaceOf(key) == ns
  }

  lemma SeenMore(keys: set<string>, key: string, ns: nat)
    requires key !in keys
    ensures |SeenOf(keys + {key}, ns)| == |SeenOf(keys, ns)| + (if NamespaceOf(key) == ns then 1 else 0)
  {
    if NamespaceOf(key) == ns {
      assert SeenOf(keys + {key}, ns) == SeenOf(keys, ns) + {key};
    } else {
      assert SeenOf(keys + {key}, ns) == SeenOf(keys, ns);
    }
  }

  // ---- the client's retry loop ----

  /**
  One attempt as the client meets it: the manager's state when its subscription is handled, a
  message of an earlier attempt read in place of the answer, and what arrives in time after it.
  */
  datatype Attempt = Attempt(routes: Routes, open: set<Sender>, rateAllows: bool, early: Option<Message>, inbox: seq<Message>)

  datatype Outcome = Delivered(message: Message) | TryAnother | GiveUp

  /** The stream of this generation comes at once, or right after the acknowledgement of this attempt. */
  predicate BringsStream(inbox: seq<Message>, server: ConnId, generation: nat) {
    (|inbox| > 0 && inbox[0].StreamResp? && inbox[0].generation == generation)
    || (|inbox| > 1 && inbox[0] == StreamAck(server, generation) && inbox[1].StreamResp? && inbox[1].generation == generation)
  }

  /** Something other than a stream comes after the acknowledgement. */
  predicate BreaksOff(inbox: seq<Message>, server: ConnId, generation: nat) {
    |inbox| > 1 && inbox[0] == StreamAck(server, generation) && !inbox[1].StreamResp?
  }

  function Brought(inbox: seq<Message>): Message
    requires |inbox| > 0 && (inbox[0].StreamResp? || |inbox| > 1)
  {
    if inbox[0].StreamResp? then inbox[0] else inbox[1]
  }

  /** Waiting for the acknowledgement and then the stream, each of the generation that was answered. */
  function Await(inbox: seq<Message>, server: ConnId, generation: nat): (o: Outcome)
    ensures o.Delivered? <==> BringsStream(inbox, server, generation)
    ensures o.Delivered? ==> o.message == Brought(inbox) && o.message in inbox && o.message.StreamResp? && o.message.generation == generation
    ensures o.GiveUp? <==> BreaksOff(inbox, server, generation)
  {
    if inbox == [] then TryAnother
    else if inbox[0].StreamResp? && inbox[0].generation == generation then Delivered(inbox[0])
    else if inbox[0] != StreamAck(server, generation) || |inbox| == 1 then TryAnother
    else if !inbox[1].StreamResp? then GiveUp
    else if inbox[1].generation == generation then Delivered(inbox[1])
    else TryAnother
  }

  /** What the manager answers a subscription with. */
  ghost predicate Answers(a: Attempt, limits: Limits, key: string, client: ConnId, s: Sender, excluded: seq<(ConnId, nat)>, m: Message) {
    Sent(s, m) in Subscribe(a.routes, limits, a.open, key, client, s, excluded, a.rateAllows).1
  }

  /** A subscription is never answered with a connection it excluded. */
  lemma AnswerNotExcluded(a: Attempt, limits: Limits, key: string, client: ConnId, s: Sender, excluded: seq<(ConnId, nat)>, m: Message)
    requires Answers(a, limits, key, client, s, excluded, m) && m.SubscribeResp?
    ensures (m.server, m.generation) !in excluded
  {
    var cs := Candidates(a.routes.servers[key], excluded);
    var k := ChooseFirst(a.routes, a.open, key, cs);
    CandidatesEligible(a.routes.servers[key], excluded, k);
  }

  lemma {:induction false} CandidatesEligible(list: seq<Info>, excluded: seq<(ConnId, nat)>, k: nat)
    requires k < |Candidates(list, excluded)|
    ensures Eligible(Candidates(list, excluded)[k], excluded)
  {
    var n := |list| - 1;
    if !Eligible(list[n], excluded) {
      CandidatesEligible(list[..n], excluded, k);
    } else if k > 0 {
      CandidatesEligible(list[..n], excluded, k - 1);
    }
  }

  ghost predicate NoRepeats(pairs: seq<(ConnId, nat)>) {
    forall i, j | 0 <= i < j < |pairs| :: pairs[i] != pairs[j]
  }

  /** The answer an attempt gets on its channel: the last message sent, when it is to that channel. */
  function AnswerOf(a: Attempt, limits: Limits, key: string, client: ConnId, s: Sender, excluded: seq<(ConnId, nat)>): Option<Message> {
    var sent := Subscribe(a.routes, limits, a.open, key, client, s, excluded, a.rateAllows).1;
    if sent != [] && sent[|sent| - 1].to == s then Some(sent[|sent| - 1].message) else None
  }

  ghost predicate Servable(a: Attempt, limits: Limits, key: string, client: ConnId, s: Sender, excluded: seq<(ConnId, nat)>) {
    RelayAnswers.Admits(a.routes, limits, SubscribeTask(key, client, s, excluded, a.rateAllows))
    && exists other :: RelayAnswers.Usable(a.routes, a.open, key, excluded, other)
  }

  /** A client whose channel lives is answered with the latest usable connection, if it is let in and there is one. */
  lemma AnswerIsLatest(a: Attempt, limits: Limits, key: string, client: ConnId, s: Sender, excluded: seq<(ConnId, nat)>) returns (info: Info)
    requires GoodServers(a.routes.servers, limits, a.routes.next) && s in a.open && Servable(a, limits, key, client, s, excluded)
    ensures RelayAnswers.Latest(a.routes, a.open, key, excluded, info)
    ensures AnswerOf(a, limits, key, client, s, excluded) == Some(SubscribeResp(info.conn, info.generation, info.needCodec, info.isDatagram))
  {
    var task := SubscribeTask(key, client, s, excluded, a.rateAllows);
    info := RelayAnswers.SubscribeAnswered(a.routes, limits, a.open, task);
    assert Step(a.routes, limits, a.open, task) == Subscribe(a.routes, limits, a.open, key, client, s, excluded, a.rateAllows);
  }

  /** Otherwise it is told there is none, and to try again only when it excluded some. */
  lemma AnswerIsRefusal(a: Attempt, limits: Limits, key: string, client: ConnId, s: Sender, excluded: seq<(ConnId, nat)>)
    requires GoodServers(a.routes.servers, limits, a.routes.next) && s in a.open && !Servable(a, limits, key, client, s, excluded)
    ensures var answer := AnswerOf(a, limits, key, client, s, excluded);
            answer.Some? && (answer.value.SubscribeFailed? || (answer.value.SubscribeRetry? && excluded != []))
  {
    var task := SubscribeTask(key, client, s, excluded, a.rateAllows);
    RelayAnswers.SubscribeRefused(a.routes, limits, a.open, task);
    assert Step(a.routes, limits, a.open, task) == Subscribe(a.routes, limits, a.open, key, client, s, excluded, a.rateAllows);
  }

  method Ask(a: Attempt, limits: Limits, key: string, client: ConnId, s: Sender, excluded: seq<(ConnId, nat)>) returns (m: Option<Message>)
    ensures m == AnswerOf(a, limits, key, client, s, excluded)
    ensures m.Some? ==> Answers(a, limits, key, client, s, excluded, m.value)
  {
    var (after, sent) := Subscribe(a.routes, limits, a.open, key, client, s, excluded, a.rateAllows);
    m := None;
    if sent != [] && sent[|sent| - 1].to == s {
      m := Some(sent[|sent| - 1].message);
      assert sent[|sent| - 1] == Sent(s, m.value);
    }
  }

  // ---- which attempts are made, and which one ends the run ----

  /** What is excluded after an attempt that fails and is followed by another. */
  ghost function Then(a: Attempt, limits: Limits, key: string, client: ConnId, s: Sender, excluded: seq<(ConnId, nat)>): Option<seq<(ConnId, nat)>> {
    if a.early.Some? then None
    else
      match AnswerOf(a, limits, key, client, s, excluded)
      case Some(SubscribeResp(server, generation, _, _)) =>
        if BringsStream(a.inbox, server, generation) || BreaksOff(a.inbox, server, generation) then None
        else Some(excluded + [(server, generation)])
      case Some(SubscribeRetry) => Some(excluded)
      case _ => None
  }

  /** What attempt `i` excludes, if the run gets that far. */
  ghost function Reached(attempts: seq<Attempt>, limits: Limits, key: string, client: ConnId, s: Sender, i: nat): Option<seq<(ConnId, nat)>>
    requires i <= |attempts|
  {
    if i == 0 then Some([])
    else
      match Reached(attempts, limits, key, client, s, i - 1)
      case None => None
      case Some(excluded) => Then(attempts[i - 1], limits, key, client, s, excluded)
  }

  /** The attempt is answered, and brings the stream of the generation it was answered with. */
  ghost predicate Brings(a: Attempt, limits: Limits, key: string, client: ConnId, s: Sender, excluded: seq<(ConnId, nat)>) {
    a.early.None?
    && var answer := AnswerOf(a, limits, key, client, s, excluded);
       answer.Some? && answer.value.SubscribeResp? && BringsStream(a.inbox, answer.value.server, answer.value.generation)
  }

  /** Attempt `i` is made, and brings its stream. */
  ghost predicate DeliversAt(attempts: seq<Attempt>, limits: Limits, key: string, client: ConnId, s: Sender, i: nat) {
    i < |attempts|
    && match Reached(attempts, limits, key, client, s, i)
       case None => false
       case Some(excluded) => Brings(attempts[i], limits, key, client, s, excluded)
  }

  /** Past an attempt that ends the run no other is made. */
  lemma {:induction false} NoneFurther(attempts: seq<Attempt>, limits: Limits, key: string, client: ConnId, s: Sender, i: nat, j: nat)
    requires i < j <= |attempts| && Reached(attempts, limits, key, client, s, i + 1).None?
    ensures Reached(attempts, limits, key, client, s, j).None?
  {
    if j > i + 1 {
      NoneFurther(attempts, limits, key, client, s, i, j - 1);
    }
  }

  /** At most one attempt delivers. */
  lemma DeliversOnce(attempts: seq<Attempt>, limits: Limits, key: string, client: ConnId, s: Sender, i: nat, j: nat)
    requires DeliversAt(attempts, limits, key, client, s, i) && DeliversAt(attempts, limits, key, client, s, j)
    ensures i == j
  {
    if i < j {
      NoneFurther(attempts, limits, key, client, s, i, j);
    } else if j < i {
      NoneFurther(attempts, limits, key, client, s, j, i);
    }
  }

  /** The run gets to attempt `i`, and none before it delivered. */
  ghost predicate Tries(attempts: seq<Attempt>, limits: Limits, key: string, client: ConnId, s: Sender, i: nat, excluded: seq<(ConnId, nat)>) {
    i <= |attempts| && Reached(attempts, limits, key, client, s, i) == Some(excluded)
    && forall j | 0 <= j < i :: !DeliversAt(attempts, limits, key, client, s, j)
  }

  ghost predicate NoneDelivers(attempts: seq<Attempt>, limits: Limits, key: string, client: ConnId, s: Sender) {
    forall i: nat :: !DeliversAt(attempts, limits, key, client, s, i)
  }

  lemma EndsHere(attempts: seq<Attempt>, limits: Limits, key: string, client: ConnId, s: Sender, i: nat, excluded: seq<(ConnId, nat)>)
    requires i < |attempts| && Tries(attempts, limits, key, client, s, i, excluded)
    requires Then(attempts[i], limits, key, client, s, excluded).None? && !Brings(attempts[i], limits, key, client, s, excluded)
    ensures NoneDelivers(attempts, limits, key, client, s)
  {
    forall j: nat
      ensures !DeliversAt(attempts, limits, key, client, s, j)
    {
      if i < j < |attempts| {
        NoneFurther(attempts, limits, key, client, s, i, j);
      }
    }
  }

  lemma GoesOn(attempts: seq<Attempt>, limits: Limits, key: string, client: ConnId, s: Sender, i: nat, excluded: seq<(ConnId, nat)>, more: seq<(ConnId, nat)>)
    requires i < |attempts| && Tries(attempts, limits, key, client, s, i, excluded)
    requires Then(attempts[i], limits, key, client, s, excluded) == Some(more)
    ensures Tries(attempts, limits, key, client, s, i + 1, more)
  {
  }

  lemma RunOut(attempts: seq<Attempt>, limits: Limits, key: string, client: ConnId, s: Sender, excluded: seq<(ConnId, nat)>)
    requires Tries(attempts, limits, key, client, s, |attempts|, excluded)
    ensures NoneDelivers(attempts, limits, key, client, s)
  {
  }

  /** The attempt is part of a run: the manager was in one of its states, and what arrived was sent in it. */
  ghost predicate InRun(a: Attempt, limits: Limits, run: seq<Runs.Turn>, s: Sender) {
    (exists k: nat :: k <= |run| && a.routes == Runs.After(limits, run[..k]).routes)
    && forall m | m in a.inbox && m.StreamResp? :: exists j: nat :: j < |run| && Sent(s, m) in Runs.SentAt(limits, run, j)
  }

  /** The stream is one that was opened under this key. */
  ghost predicate StreamOf(limits: Limits, run: seq<Runs.Turn>, s: Sender, key: string, m: Message) {
    m.StreamResp? && exists j: nat :: j < |run| && Sent(s, m) in Runs.SentAt(limits, run, j)
                                      && run[j].task.StreamTask? && run[j].task.key == key && run[j].task.socket == m.stream
  }

  lemma AnswerAt(a: Attempt, limits: Limits, before: seq<Runs.Turn>, key: string, client: ConnId, s: Sender, excluded: seq<(ConnId, nat)>, answer: Message)
    requires a.routes == Runs.After(limits, before).routes
    requires Answers(a, limits, key, client, s, excluded, answer) && answer.SubscribeResp?
    ensures answer.generation in Runs.GenerationKeys(limits, before) && Runs.GenerationKeys(limits, before)[answer.generation] == key
  {
    var turn := Runs.Turn(SubscribeTask(key, client, s, excluded, a.rateAllows), a.open, s);
    Runs.AnswerGeneration(limits, before, turn, Sent(s, answer));
  }

  lemma AnswerIsOfKey(a: Attempt, limits: Limits, run: seq<Runs.Turn>, key: string, client: ConnId, s: Sender, excluded: seq<(ConnId, nat)>, answer: Message)
    requires InRun(a, limits, run, s) && Answers(a, limits, key, client, s, excluded, answer) && answer.SubscribeResp?
    ensures answer.generation in Runs.GenerationKeys(limits, run) && Runs.GenerationKeys(limits, run)[answer.generation] == key
  {
    var k: nat :| k <= |run| && a.routes == Runs.After(limits, run[..k]).routes;
    AnswerAt(a, limits, run[..k], key, client, s, excluded, answer);
    Runs.GenerationsStay(limits, run, k, answer.generation);
  }

  lemma DeliveredIsItsKey(a: Attempt, limits: Limits, run: seq<Runs.Turn>, key: string, s: Sender, m: Message)
    requires InRun(a, limits, run, s) && m in a.inbox && m.StreamResp?
    requires m.generation in Runs.GenerationKeys(limits, run) && Runs.GenerationKeys(limits, run)[m.generation] == key
    ensures StreamOf(limits, run, s, key, m)
  {
    var j: nat :| j < |run| && Sent(s, m) in Runs.SentAt(limits, run, j);
    Runs.StreamGeneration(limits, run[..j], run[j], Sent(s, m));
    Runs.GenerationsStay(limits, run, j, m.generation);
  }

  /**
  One subscription's whole retry run. It ends with a stream exactly when some attempt that is
  reached brings one, and then with that stream; every failed connection is excluded from
  then on, so none of one generation is ever tried twice; and in any run of the manager the
  stream is one opened under the key subscribed to.
  */
  method GetServerStream(attempts: seq<Attempt>, limits: Limits, key: string, client: ConnId, s: Sender, ghost run: seq<Runs.Turn>)
    returns (tried: seq<(ConnId, nat)>, stream: Option<Message>)
    ensures NoRepeats(tried)
    ensures stream.Some? ==> stream.value.StreamResp? && tried != [] && stream.value.generation == tried[|tried| - 1].1
    ensures stream.None? <==> NoneDelivers(attempts, limits, key, client, s)
    ensures stream.Some? ==> exists i: nat :: DeliversAt(attempts, limits, key, client, s, i) && stream.value == Brought(attempts[i].inbox)
    ensures stream.Some? && (forall a | a in attempts :: InRun(a, limits, run, s)) ==> StreamOf(limits, run, s, key, stream.value)
  {
    tried, stream := [], None;
    var excluded: seq<(ConnId, nat)> := [];
    var i := 0;
    while i < |attempts|
      invariant i <= |attempts| && stream.None?
      invariant tried == excluded && NoRepeats(tried)
      invariant Tries(attempts, limits, key, client, s, i, excluded)
    {
      var a := attempts[i];
      if a.early.Some? {
        EndsHere(attempts, limits, key, client, s, i, excluded);
        return;
      }
      var m := Ask(a, limits, key, client, s, excluded);
      if m.None? || !(m.value.SubscribeResp? || m.value.SubscribeRetry?) {
        EndsHere(attempts, limits, key, client, s, i, excluded);
        return;
      }
      if m.value.SubscribeResp? {
        AnswerNotExcluded(a, limits, key, client, s, excluded, m.value);
        var pair := (m.value.server, m.value.generation);
        tried := tried + [pair];
        var outcome := Await(a.inbox, pair.0, pair.1);
        if outcome.Delivered? {
          stream := Some(outcome.message);
          assert DeliversAt(attempts, limits, key, client, s, i);
          if forall b | b in attempts :: InRun(b, limits, run, s) {
            assert InRun(a, limits, run, s);
            AnswerIsOfKey(a, limits, run, key, client, s, excluded, m.value);
            DeliveredIsItsKey(a, limits, run, key, s, outcome.message);
          }
          return;
        }
        if outcome.GiveUp? {
          EndsHere(attempts, limits, key, client, s, i, excluded);
          return;
        }
        GoesOn(attempts, limits, key, client, s, i, excluded, excluded + [pair]);
        excluded := excluded + [pair];
      } else {
        GoesOn(attempts, limits, key, client, s, i, excluded, excluded);
      }
      i := i + 1;
    }
    RunOut(attempts, limits, key, client, s, excluded);
  }
}
