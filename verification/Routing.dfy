/**
The relay manager's routing state and every arm of its event loop, as functions.

`Sound` is what every legal step keeps: no service is empty, each has one transport, strictly
increasing generations within its limit and no connection twice, namespaces stay within
their service limit, ids are recycled once, and the stream count of a namespace is the
number of its pending streams, within its limit.
*/
module Routing {
  import opened Wrappers
  import ServiceKeys

  type ConnId = nat
  /** A channel to a connection task: which one, and in `open` whether its receiver still lives. */
  type Sender = nat

  datatype Info = Info(conn: ConnId, generation: nat, healthy: bool, needCodec: bool, isDatagram: bool)

  datatype Pending = Pending(server: ConnId, generation: nat, key: string)

  datatype Limits = Limits(services: nat, connections: nat, streams: nat)

  /** The connection ids of `TaskManager`: fresh, idle to be recycled, and active with a channel. */
  datatype Ids = Ids(next: ConnId, idle: seq<ConnId>, active: map<ConnId, Sender>)

  datatype Routes = Routes(servers: map<string, seq<Info>>, pending: map<ConnId, Pending>, counts: map<nat, nat>, next: nat, ids: Ids)

  datatype Code = TransportMismatch | ConnectionLimit | ServiceLimit | StreamLimit | RateLimit | NotAvailable

  datatype Message =
    | RegisterResp(generation: nat)
    | RegisterFailed(code: Code)
    | SubscribeResp(server: ConnId, generation: nat, needCodec: bool, isDatagram: bool)
    | SubscribeFailed(code: Code)
    | SubscribeRetry
    | StreamReq(client: ConnId, generation: nat)
    | StreamAck(server: ConnId, generation: nat)
    | StreamResp(server: ConnId, generation: nat, stream: nat)
    | Retire

  datatype Sent = Sent(to: Sender, message: Message)

  /** A message handed to a channel arrives when its receiver still lives. */
  function Deliver(open: set<Sender>, to: Sender, message: Message): seq<Sent> {
    if to in open then [Sent(to, message)] else []
  }

  function NamespaceOf(key: string): nat {
    ServiceKeys.Split(key).0
  }

  // ---- connection ids ----

  function Deregister(ids: Ids, c: ConnId): Ids {
    if c !in ids.active then ids
    else ids.(active := ids.active - {c}, idle := if c in ids.idle then ids.idle else ids.idle + [c])
  }

  function SignUp(ids: Ids, c: ConnId, s: Sender): Ids {
    if c < ids.next then ids.(active := ids.active[c := s]) else ids
  }

  /** Pops idle ids until one is neither active nor serving, else hands out a fresh one. */
  function GetConnId(ids: Ids, serving: set<ConnId>): (Ids, ConnId)
    decreases |ids.idle|
  {
    if ids.idle == [] then (ids.(next := ids.next + 1), ids.next)
    else
      var n := |ids.idle| - 1;
      var c, rest := ids.idle[n], ids.(idle := ids.idle[..n]);
      if c < ids.next && c !in ids.active && c !in serving then (rest, c) else GetConnId(rest, serving)
  }

  // ---- the service map ----

  /** `position`: the first entry of this connection. */
  function FindConn(list: seq<Info>, c: ConnId): (i: Option<nat>)
    ensures i.Some? ==> i.value < |list| && list[i.value].conn == c
    ensures i.None? ==> forall j | 0 <= j < |list| :: list[j].conn != c
  {
    if list == [] then None
    else if list[0].conn == c then Some(0)
    else
      match FindConn(list[1..], c)
      case Some(i) => Some(i + 1)
      case None => None
  }

  function FindEntry(list: seq<Info>, c: ConnId, generation: nat): (i: Option<nat>)
    ensures i.Some? ==> i.value < |list| && list[i.value].conn == c && list[i.value].generation == generation
    ensures i.None? ==> forall j | 0 <= j < |list| :: list[j].conn != c || list[j].generation != generation
  {
    if list == [] then None
    else if list[0].conn == c && list[0].generation == generation then Some(0)
    else
      match FindEntry(list[1..], c, generation)
      case Some(i) => Some(i + 1)
      case None => None
  }

  function RemoveConn(servers: map<string, seq<Info>>, key: string, c: ConnId): map<string, seq<Info>> {
    if key !in servers || FindConn(servers[key], c).None? then servers
    else
      var i := FindConn(servers[key], c).value;
      var list := servers[key][..i] + servers[key][i + 1..];
      if list == [] then servers - {key} else servers[key := list]
  }

  /** Activity on a connection marks it healthy. */
  function Refresh(servers: map<string, seq<Info>>, key: string, c: ConnId): map<string, seq<Info>> {
    if key !in servers || FindConn(servers[key], c).None? then servers
    else
      var i := FindConn(servers[key], c).value;
      servers[key := servers[key][i := servers[key][i].(healthy := true)]]
  }

  /** `find` over the whole map: `at` is the service in which an entry of the connection comes first, if any. */
  function RefreshAt(servers: map<string, seq<Info>>, at: Option<string>, c: ConnId): map<string, seq<Info>> {
    if at.Some? then Refresh(servers, at.value, c) else servers
  }

  /** The same for the entry of one connection in one generation. */
  function RefreshEntry(servers: map<string, seq<Info>>, at: Option<string>, c: ConnId, generation: nat): map<string, seq<Info>> {
    if at.None? || at.value !in servers || FindEntry(servers[at.value], c, generation).None? then servers
    else
      var i := FindEntry(servers[at.value], c, generation).value;
      servers[at.value := servers[at.value][i := servers[at.value][i].(healthy := true)]]
  }

  ghost function KeysOf(servers: map<string, seq<Info>>, ns: nat): set<string> {
    set key | key in servers && NamespaceOf(key) == ns
  }

  ghost function StreamsOf(pending: map<ConnId, Pending>, ns: nat): set<ConnId> {
    set c | c in pending && NamespaceOf(pending[c].key) == ns
  }

  /** The connections any service is registered on. */
  ghost function Serving(servers: map<string, seq<Info>>): set<ConnId> {
    set key, i | key in servers && 0 <= i < |servers[key]| :: servers[key][i].conn
  }

  function CountOf(counts: map<nat, nat>, ns: nat): nat {
    if ns in counts then counts[ns] else 0
  }

  /** `decrement_namespace_stream_count`. */
  function Decrement(counts: map<nat, nat>, ns: nat): map<nat, nat> {
    if ns !in counts then counts
    else if counts[ns] <= 1 then counts - {ns}
    else counts[ns := counts[ns] - 1]
  }

  // ---- the arms of the loop ----

  function DeregisterServer(r: Routes, key: string, c: ConnId): Routes {
    r.(servers := RemoveConn(r.servers, key, c), ids := Deregister(r.ids, c))
  }

  function DeregisterClient(r: Routes, server: Option<ConnId>, client: ConnId): Routes {
    var ids := if server.Some? then Deregister(r.ids, server.value) else r.ids;
    r.(pending := r.pending - {client},
       counts := if client in r.pending then Decrement(r.counts, NamespaceOf(r.pending[client].key)) else r.counts,
       ids := Deregister(ids, client))
  }

  ghost function RegisterRefusal(r: Routes, limits: Limits, key: string, isDatagram: bool): Option<Code> {
    if key in r.servers && r.servers[key] != [] && r.servers[key][0].isDatagram != isDatagram then Some(TransportMismatch)
    else if key in r.servers && |r.servers[key]| >= limits.connections then Some(ConnectionLimit)
    else if key !in r.servers && |KeysOf(r.servers, NamespaceOf(key))| >= limits.services then Some(ServiceLimit)
    else None
  }

  ghost function Register(r: Routes, limits: Limits, key: string, c: ConnId, s: Sender, needCodec: bool, isDatagram: bool): Routes {
    if RegisterRefusal(r, limits, key, isDatagram).Some? then r
    else
      var info := Info(c, r.next, true, needCodec, isDatagram);
      r.(servers := r.servers[key := (if key in r.servers then r.servers[key] else []) + [info]],
         next := r.next + 1, ids := SignUp(r.ids, c, s))
  }

  /** A stream is forwarded only for the pending subscription it names, of the same key. */
  predicate StreamAccepted(r: Routes, key: string, client: ConnId, generation: nat) {
    client in r.pending && r.pending[client].key == key
    && (generation == 0 || r.pending[client].generation == generation)
  }

  function Stream(r: Routes, open: set<Sender>, key: string, stream: nat, server: ConnId, client: ConnId, generation: nat, at: Option<string>): (Routes, seq<Sent>) {
    if !StreamAccepted(r, key, client, generation) then (r, [])
    else
      var refreshed := r.(servers := RefreshEntry(r.servers, at, r.pending[client].server, r.pending[client].generation));
      (refreshed, if client in r.ids.active
                  then Deliver(open, r.ids.active[client], StreamResp(server, r.pending[client].generation, stream)) else [])
  }

  /** Any word from a connection refreshes it; the answer to the attempt at hand refreshes its own generation. */
  function Ack(r: Routes, open: set<Sender>, server: ConnId, client: ConnId, generation: nat, at: Option<string>, entryAt: Option<string>): (Routes, seq<Sent>) {
    var heard := r.(servers := RefreshAt(r.servers, at, server));
    if client !in r.pending || r.pending[client].server != server || r.pending[client].generation != generation then (heard, [])
    else (heard.(servers := RefreshEntry(heard.servers, entryAt, server, generation)), if client in r.ids.active then Deliver(open, r.ids.active[client], StreamAck(server, generation)) else [])
  }

  // ---- subscribing ----

  predicate Eligible(info: Info, excluded: seq<(ConnId, nat)>) {
    info.healthy && (info.conn, info.generation) !in excluded
  }

  /** Healthy connections not excluded, the latest first. */
  function Candidates(list: seq<Info>, excluded: seq<(ConnId, nat)>): seq<Info> {
    if list == [] then []
    else
      var n := |list| - 1;
      (if Eligible(list[n], excluded) then [list[n]] else []) + Candidates(list[..n], excluded)
  }

  predicate Reachable(ids: Ids, open: set<Sender>, c: ConnId) {
    c in ids.active && ids.active[c] in open
  }

  /** The candidate loop: dead connections are purged until one takes the stream request. */
  function Choose(r: Routes, open: set<Sender>, key: string, candidates: seq<Info>): (Routes, Option<Info>)
    decreases |candidates|
  {
    if candidates == [] then (r, None)
    else if Reachable(r.ids, open, candidates[0].conn) then (r, Some(candidates[0]))
    else Choose(DeregisterServer(r, key, candidates[0].conn), open, key, candidates[1..])
  }

  /** Recording the chosen connection and answering the client. */
  function Selected(r: Routes, open: set<Sender>, key: string, client: ConnId, s: Sender, info: Info): (Routes, seq<Sent>) {
    var ns := NamespaceOf(key);
    var ids := if client in r.ids.active then r.ids else SignUp(r.ids, client, s);
    var counts := if client in r.pending then r.counts else r.counts[ns := CountOf(r.counts, ns) + 1];
    var recorded := r.(pending := r.pending[client := Pending(info.conn, info.generation, key)], counts := counts, ids := ids);
    var request := if info.conn in r.ids.active then Deliver(open, r.ids.active[info.conn], StreamReq(client, info.generation)) else [];
    if s in open then
      (recorded, request + [Sent(s, SubscribeResp(info.conn, info.generation, info.needCodec, info.isDatagram))])
    else (recorded.(ids := Deregister(ids, client)), request)
  }

  function Unavailable(excluded: seq<(ConnId, nat)>): Message {
    if excluded == [] then SubscribeFailed(NotAvailable) else SubscribeRetry
  }

  function Subscribe(r: Routes, limits: Limits, open: set<Sender>, key: string, client: ConnId, s: Sender,
                     excluded: seq<(ConnId, nat)>, rateAllows: bool): (Routes, seq<Sent>)
  {
    if CountOf(r.counts, NamespaceOf(key)) >= limits.streams then (r, Deliver(open, s, SubscribeFailed(StreamLimit)))
    else if key !in r.servers then (r, Deliver(open, s, Unavailable(excluded)))
    else if !rateAllows then (r, Deliver(open, s, SubscribeFailed(RateLimit)))
    else
      var (purged, choice) := Choose(r, open, key, Candidates(r.servers[key], excluded));
      if choice.Some? then Selected(purged, open, key, client, s, choice.value)
      else (purged, Deliver(open, s, Unavailable(excluded)))
  }

  // ---- what every arm keeps: the service map ----

  ghost predicate GoodList(list: seq<Info>, limits: Limits, next: nat) {
    0 < |list| <= limits.connections
    && (forall i | 0 <= i < |list| :: list[i].generation < next && list[i].isDatagram == list[0].isDatagram)
    && forall i, j | 0 <= i < j < |list| :: list[i].generation < list[j].generation
  }

  ghost predicate GoodServers(servers: map<string, seq<Info>>, limits: Limits, next: nat) {
    (forall key | key in servers :: GoodList(servers[key], limits, next))
    && forall ns: nat :: |KeysOf(servers, ns)| <= limits.services
  }

  /** The connections of one service: each listed once, each of them handed out. */
  ghost predicate GoodConns(list: seq<Info>, next: ConnId) {
    (forall i | 0 <= i < |list| :: list[i].conn < next)
    && forall i, j | 0 <= i < j < |list| :: list[i].conn != list[j].conn
  }

  ghost predicate GoodEntries(servers: map<string, seq<Info>>, next: ConnId) {
    forall key | key in servers :: GoodConns(servers[key], next)
  }

  /** The same connections, some of them marked healthy. */
  ghost predicate SameButHealth(a: map<string, seq<Info>>, b: map<string, seq<Info>>) {
    a.Keys == b.Keys
    && forall key | key in a :: |a[key]| == |b[key]| && forall i | 0 <= i < |a[key]| :: b[key][i] == a[key][i].(healthy := b[key][i].healthy)
  }

  lemma RefreshSame(servers: map<string, seq<Info>>, at: Option<string>, c: ConnId, generation: nat)
    ensures SameButHealth(servers, RefreshAt(servers, at, c)) && SameButHealth(servers, RefreshEntry(servers, at, c, generation))
  {
  }

  lemma KeysFewer(a: map<string, seq<Info>>, b: map<string, seq<Info>>, ns: nat)
    requires a.Keys <= b.Keys
    ensures |KeysOf(a, ns)| <= |KeysOf(b, ns)|
  {
    Subset(KeysOf(a, ns), KeysOf(b, ns));
  }

  lemma {:induction false} Subset<T>(a: set<T>, b: set<T>)
    requires a <= b
    ensures |a| <= |b|
  {
    if a != {} {
      var x :| x in a;
      Subset(a - {x}, b - {x});
    }
  }

  lemma RemoveGood(servers: map<string, seq<Info>>, limits: Limits, next: nat, key: string, c: ConnId)
    requires GoodServers(servers, limits, next)
    ensures GoodServers(RemoveConn(servers, key, c), limits, next)
  {
    var after := RemoveConn(servers, key, c);
    forall ns: nat
      ensures |KeysOf(after, ns)| <= limits.services
    {
      KeysFewer(after, servers, ns);
    }
    if key in servers && FindConn(servers[key], c).Some? {
      var i := FindConn(servers[key], c).value;
      RemoveAtGood(servers[key], i, limits, next);
    }
  }

  lemma RemoveAtGood(list: seq<Info>, i: nat, limits: Limits, next: nat)
    requires GoodList(list, limits, next) && i < |list|
    ensures list[..i] + list[i + 1..] == [] || GoodList(list[..i] + list[i + 1..], limits, next)
  {
  }

  ghost predicate OthersSame(a: map<string, seq<Info>>, b: map<string, seq<Info>>, key: string) {
    forall k | k != key :: (k in a <==> k in b) && (k in a ==> a[k] == b[k])
  }

  ghost predicate Listed(servers: map<string, seq<Info>>, key: string, info: Info) {
    key in servers && info in servers[key]
  }

  ghost predicate Gone(servers: map<string, seq<Info>>, key: string, c: ConnId) {
    key in servers ==> forall i | 0 <= i < |servers[key]| :: servers[key][i].conn != c
  }

  lemma ServingAt(servers: map<string, seq<Info>>, d: ConnId) returns (key: string, i: nat)
    requires d in Serving(servers)
    ensures key in servers && i < |servers[key]| && servers[key][i].conn == d
  {
    var k, j :| k in servers && 0 <= j < |servers[k]| && servers[k][j].conn == d;
    key, i := k, j;
  }

  lemma ListedServes(servers: map<string, seq<Info>>, key: string, info: Info)
    requires Listed(servers, key, info)
    ensures info.conn in Serving(servers)
  {
    var i :| 0 <= i < |servers[key]| && servers[key][i] == info;
  }

  lemma RemovedAt(list: seq<Info>, i: nat, info: Info)
    requires i < |list|
    ensures info in list[..i] + list[i + 1..] ==> info in list
    ensures info in list && info != list[i] ==> info in list[..i] + list[i + 1..]
  {
    var rest := list[..i] + list[i + 1..];
    if info in list && info != list[i] {
      var j :| 0 <= j < |list| && list[j] == info;
      assert rest[if j < i then j else j - 1] == info;
    }
  }

  /** Removing a connection leaves the other entries of its service and every other service. */
  lemma RemoveLists(servers: map<string, seq<Info>>, key: string, c: ConnId, info: Info)
    ensures Listed(RemoveConn(servers, key, c), key, info) ==> Listed(servers, key, info)
    ensures Listed(servers, key, info) && info.conn != c ==> Listed(RemoveConn(servers, key, c), key, info)
    ensures OthersSame(servers, RemoveConn(servers, key, c), key)
  {
    if key in servers && FindConn(servers[key], c).Some? {
      RemovedAt(servers[key], FindConn(servers[key], c).value, info);
    }
  }

  lemma RemoveServing(servers: map<string, seq<Info>>, key: string, c: ConnId)
    ensures Serving(RemoveConn(servers, key, c)) <= Serving(servers)
  {
    var after := RemoveConn(servers, key, c);
    forall d | d in Serving(after)
      ensures d in Serving(servers)
    {
      var k, j := ServingAt(after, d);
      RemoveLists(servers, key, c, after[k][j]);
      assert Listed(servers, k, after[k][j]);
      ListedServes(servers, k, after[k][j]);
    }
  }

  lemma RemoveEntries(servers: map<string, seq<Info>>, next: ConnId, key: string, c: ConnId)
    requires GoodEntries(servers, next)
    ensures GoodEntries(RemoveConn(servers, key, c), next) && Gone(RemoveConn(servers, key, c), key, c)
  {
    if key in servers && FindConn(servers[key], c).Some? {
      var i := FindConn(servers[key], c).value;
      var list := servers[key][..i] + servers[key][i + 1..];
      assert GoodConns(servers[key], next);
      assert forall j | 0 <= j < |list| :: list[j] == servers[key][if j < i then j else j + 1];
      assert GoodConns(list, next);
    }
  }

  lemma SameGood(a: map<string, seq<Info>>, b: map<string, seq<Info>>, limits: Limits, next: nat)
    requires GoodServers(a, limits, next) && SameButHealth(a, b)
    ensures GoodServers(b, limits, next)
  {
    forall ns: nat
      ensures |KeysOf(b, ns)| <= limits.services
    {
      KeysFewer(b, a, ns);
    }
  }

  lemma SameEntries(a: map<string, seq<Info>>, b: map<string, seq<Info>>, next: ConnId)
    requires SameButHealth(a, b)
    ensures GoodEntries(a, next) ==> GoodEntries(b, next)
    ensures Serving(b) == Serving(a)
  {
    forall d
      ensures d in Serving(a) <==> d in Serving(b)
    {
      if d in Serving(a) {
        var k, j := ServingAt(a, d);
        ListedServes(b, k, b[k][j]);
      }
      if d in Serving(b) {
        var k, j := ServingAt(b, d);
        ListedServes(a, k, a[k][j]);
      }
    }
  }

  lemma RefreshKeeps(servers: map<string, seq<Info>>, at: Option<string>, c: ConnId, generation: nat, limits: Limits, next: nat, ids: ConnId)
    ensures GoodServers(servers, limits, next) ==>
              GoodServers(RefreshAt(servers, at, c), limits, next) && GoodServers(RefreshEntry(servers, at, c, generation), limits, next)
    ensures GoodEntries(servers, ids) ==>
              GoodEntries(RefreshAt(servers, at, c), ids) && GoodEntries(RefreshEntry(servers, at, c, generation), ids)
    ensures Serving(RefreshAt(servers, at, c)) == Serving(RefreshEntry(servers, at, c, generation)) == Serving(servers)
  {
    RefreshSame(servers, at, c, generation);
    SameEntries(servers, RefreshAt(servers, at, c), ids);
    SameEntries(servers, RefreshEntry(servers, at, c, generation), ids);
    if GoodServers(servers, limits, next) {
      SameGood(servers, RefreshAt(servers, at, c), limits, next);
      SameGood(servers, RefreshEntry(servers, at, c, generation), limits, next);
    }
  }

  lemma RegisterGood(r: Routes, limits: Limits, key: string, c: ConnId, s: Sender, needCodec: bool, isDatagram: bool)
    requires GoodServers(r.servers, limits, r.next) && limits.connections > 0
    ensures var after := Register(r, limits, key, c, s, needCodec, isDatagram);
            GoodServers(after.servers, limits, after.next)
  {
    var after := Register(r, limits, key, c, s, needCodec, isDatagram);
    forall ns: nat
      ensures |KeysOf(after.servers, ns)| <= limits.services
    {
      if RegisterRefusal(r, limits, key, isDatagram).None? {
        RegisterKeys(r.servers, key, after.servers[key], ns);
      }
    }
    forall k | k in after.servers
      ensures GoodList(after.servers[k], limits, after.next)
    {
      if k in r.servers {
        assert GoodList(r.servers[k], limits, r.next);
      }
    }
  }

  lemma RegisterKeys(servers: map<string, seq<Info>>, key: string, list: seq<Info>, ns: nat)
    ensures |KeysOf(servers[key := list], ns)| == |KeysOf(servers, ns)| + (if key !in servers && NamespaceOf(key) == ns then 1 else 0)
  {
    if key !in servers && NamespaceOf(key) == ns {
      assert KeysOf(servers[key := list], ns) == KeysOf(servers, ns) + {key};
    } else {
      assert KeysOf(servers[key := list], ns) == KeysOf(servers, ns);
    }
  }

  lemma RegisterServing(servers: map<string, seq<Info>>, key: string, info: Info)
    ensures Serving(servers[key := (if key in servers then servers[key] else []) + [info]]) <= Serving(servers) + {info.conn}
  {
    var after := servers[key := (if key in servers then servers[key] else []) + [info]];
    forall d | d in Serving(after)
      ensures d in Serving(servers) + {info.conn}
    {
      var k, j := ServingAt(after, d);
      if after[k][j] != info {
        assert Listed(servers, k, after[k][j]);
        ListedServes(servers, k, after[k][j]);
      }
    }
  }

  lemma RegisterEntries(r: Routes, limits: Limits, key: string, c: ConnId, s: Sender, needCodec: bool, isDatagram: bool)
    requires GoodEntries(r.servers, r.ids.next) && c < r.ids.next && c !in Serving(r.servers)
    ensures var after := Register(r, limits, key, c, s, needCodec, isDatagram);
            GoodEntries(after.servers, after.ids.next) && Serving(after.servers) <= Serving(r.servers) + {c}
  {
    RegisterServing(r.servers, key, Info(c, r.next, true, needCodec, isDatagram));
    if key in r.servers {
      forall i | 0 <= i < |r.servers[key]|
        ensures r.servers[key][i].conn != c
      {
        ListedServes(r.servers, key, r.servers[key][i]);
      }
    }
  }

  // ---- what every arm keeps: the stream counts ----

  ghost predicate CountsAt(pending: map<ConnId, Pending>, counts: map<nat, nat>, limits: Limits, ns: nat) {
    CountOf(counts, ns) == |StreamsOf(pending, ns)| <= limits.streams && (ns in counts ==> counts[ns] > 0)
  }

  ghost predicate GoodCounts(r: Routes, limits: Limits) {
    forall ns: nat :: CountsAt(r.pending, r.counts, limits, ns)
  }

  lemma DropStream(r: Routes, limits: Limits, client: ConnId, ns: nat)
    requires GoodCounts(r, limits)
    ensures var after := DeregisterClient(r, None, client);
            CountsAt(after.pending, after.counts, limits, ns)
  {
    assert CountsAt(r.pending, r.counts, limits, ns);
    if client in r.pending && NamespaceOf(r.pending[client].key) == ns {
      assert StreamsOf(r.pending - {client}, ns) == StreamsOf(r.pending, ns) - {client};
    } else {
      assert StreamsOf(r.pending - {client}, ns) == StreamsOf(r.pending, ns);
    }
  }

  lemma AddStream(pending: map<ConnId, Pending>, counts: map<nat, nat>, limits: Limits, client: ConnId, p: Pending, ns: nat)
    requires CountsAt(pending, counts, limits, ns) && CountOf(counts, NamespaceOf(p.key)) < limits.streams
    requires client in pending ==> NamespaceOf(pending[client].key) == NamespaceOf(p.key)
    ensures var home := NamespaceOf(p.key);
            CountsAt(pending[client := p], if client in pending then counts else counts[home := CountOf(counts, home) + 1], limits, ns)
  {
    var after := pending[client := p];
    if client !in pending && NamespaceOf(p.key) == ns {
      assert StreamsOf(after, ns) == StreamsOf(pending, ns) + {client};
    } else {
      assert StreamsOf(after, ns) == StreamsOf(pending, ns);
    }
  }

  /** Recording a stream keeps the counts exactly when its client was not pending elsewhere. */
  lemma AddStreamIff(r: Routes, limits: Limits, client: ConnId, p: Pending)
    requires GoodCounts(r, limits) && CountOf(r.counts, NamespaceOf(p.key)) < limits.streams
    ensures var home := NamespaceOf(p.key);
            var counts := if client in r.pending then r.counts else r.counts[home := CountOf(r.counts, home) + 1];
            GoodCounts(r.(pending := r.pending[client := p], counts := counts), limits)
            <==> (client in r.pending ==> NamespaceOf(r.pending[client].key) == home)
  {
    var home := NamespaceOf(p.key);
    var counts := if client in r.pending then r.counts else r.counts[home := CountOf(r.counts, home) + 1];
    var after := r.(pending := r.pending[client := p], counts := counts);
    if client in r.pending && NamespaceOf(r.pending[client].key) != home {
      var left := NamespaceOf(r.pending[client].key);
      assert CountsAt(r.pending, r.counts, limits, left);
      assert StreamsOf(after.pending, left) == StreamsOf(r.pending, left) - {client};
      assert !CountsAt(after.pending, after.counts, limits, left);
    } else {
      forall ns: nat
        ensures CountsAt(after.pending, after.counts, limits, ns)
      {
        assert CountsAt(r.pending, r.counts, limits, ns);
        assert CountsAt(r.pending, r.counts, limits, home);
        AddStream(r.pending, r.counts, limits, client, p, ns);
      }
    }
  }

  // ---- what every arm keeps: the connection ids ----

  /** Idle ids are listed once, and every id in use was handed out. */
  ghost predicate GoodIds(ids: Ids) {
    (forall i, j | 0 <= i < j < |ids.idle| :: ids.idle[i] != ids.idle[j])
    && (forall i | 0 <= i < |ids.idle| :: ids.idle[i] < ids.next)
    && forall c | c in ids.active :: c < ids.next
  }

  lemma IdsKept(ids: Ids, c: ConnId, s: Sender)
    requires GoodIds(ids)
    ensures GoodIds(Deregister(ids, c)) && GoodIds(SignUp(ids, c, s))
  {
  }

  /** An id handed out is active nowhere, serves nothing and is idle no more; none but idle ids are recycled. */
  lemma {:induction false} AcceptedIdIsFree(ids: Ids, serving: set<ConnId>)
    requires GoodIds(ids) && forall c | c in serving :: c < ids.next
    ensures var (after, c) := GetConnId(ids, serving);
            GoodIds(after) && after.active == ids.active && ids.next <= after.next && c < after.next
            && c !in ids.active && c !in serving && c !in after.idle
            && (c in ids.idle || c == ids.next)
            && forall d | d in after.idle :: d in ids.idle
    decreases |ids.idle|
  {
    if ids.idle != [] {
      var n := |ids.idle| - 1;
      var c, rest := ids.idle[n], ids.(idle := ids.idle[..n]);
      if !(c < ids.next && c !in ids.active && c !in serving) {
        AcceptedIdIsFree(rest, serving);
      }
    }
  }

  lemma {:induction false} AcceptIds(ids: Ids, serving: set<ConnId>)
    requires GoodIds(ids)
    ensures var (after, _) := GetConnId(ids, serving);
            GoodIds(after) && ids.next <= after.next
    decreases |ids.idle|
  {
    if ids.idle != [] {
      AcceptIds(ids.(idle := ids.idle[..|ids.idle| - 1]), serving);
    }
  }

  // ---- whole steps ----

  datatype Task =
    | RegisterTask(key: string, conn: ConnId, sender: Sender, needCodec: bool, isDatagram: bool)
    | Activity(key: string, conn: ConnId)
    | DeregisterServerTask(key: string, conn: ConnId)
    | RetireTask(key: string, conn: ConnId)
    | DeregisterClientTask(stream: Option<ConnId>, conn: ConnId)
    | SubscribeTask(key: string, conn: ConnId, sender: Sender, excluded: seq<(ConnId, nat)>, rateAllows: bool)
    | StreamTask(key: string, socket: nat, server: ConnId, conn: ConnId, generation: nat, entryAt: Option<string>)
    | AckTask(server: ConnId, conn: ConnId, generation: nat, at: Option<string>, entryAt: Option<string>)
    | Accept

  ghost function Step(r: Routes, limits: Limits, open: set<Sender>, task: Task): (Routes, seq<Sent>) {
    match task
    case RegisterTask(key, c, s, needCodec, isDatagram) =>
      (Register(r, limits, key, c, s, needCodec, isDatagram),
       match RegisterRefusal(r, limits, key, isDatagram)
       case Some(code) => Deliver(open, s, RegisterFailed(code))
       case None => Deliver(open, s, RegisterResp(r.next)))
    case Activity(key, c) => (r.(servers := Refresh(r.servers, key, c)), [])
    case DeregisterServerTask(key, c) => (DeregisterServer(r, key, c), [])
    case RetireTask(key, c) =>
      (DeregisterServer(r, key, c), if c in r.ids.active then Deliver(open, r.ids.active[c], Retire) else [])
    case DeregisterClientTask(server, c) => (DeregisterClient(r, server, c), [])
    case SubscribeTask(key, c, s, excluded, rateAllows) => Subscribe(r, limits, open, key, c, s, excluded, rateAllows)
    case StreamTask(key, stream, server, c, generation, entryAt) => Stream(r, open, key, stream, server, c, generation, entryAt)
    case AckTask(server, c, generation, at, entryAt) => Ack(r, open, server, c, generation, at, entryAt)
    case Accept => (r.(ids := GetConnId(r.ids, Serving(r.servers)).0), [])
  }

  ghost predicate Sound(r: Routes, limits: Limits) {
    GoodServers(r.servers, limits, r.next) && GoodEntries(r.servers, r.ids.next) && GoodIds(r.ids) && GoodCounts(r, limits)
  }

  /**
  A registering id was handed out and serves nothing yet, and a client id that is still
  pending subscribes again only within its own namespace.
  */
  ghost predicate Legal(r: Routes, task: Task) {
    match task
    case RegisterTask(_, c, _, _, _) => c < r.ids.next && c !in Serving(r.servers)
    case SubscribeTask(key, c, _, _, _) => c in r.pending ==> NamespaceOf(r.pending[c].key) == NamespaceOf(key)
    case _ => true
  }

  lemma {:induction false} ChooseKeeps(r: Routes, limits: Limits, open: set<Sender>, key: string, candidates: seq<Info>)
    ensures var (p, choice) := Choose(r, open, key, candidates);
            (GoodServers(r.servers, limits, r.next) ==> GoodServers(p.servers, limits, p.next))
            && (GoodIds(r.ids) ==> GoodIds(p.ids))
            && p.pending == r.pending && p.counts == r.counts && p.next == r.next && p.ids.next == r.ids.next
    decreases |candidates|
  {
    if candidates != [] && !Reachable(r.ids, open, candidates[0].conn) {
      var next := DeregisterServer(r, key, candidates[0].conn);
      if GoodServers(r.servers, limits, r.next) {
        RemoveGood(r.servers, limits, r.next, key, candidates[0].conn);
      }
      ChooseKeeps(next, limits, open, key, candidates[1..]);
    }
  }

  lemma {:induction false} ChooseEntries(r: Routes, open: set<Sender>, key: string, candidates: seq<Info>)
    requires GoodEntries(r.servers, r.ids.next)
    ensures var p := Choose(r, open, key, candidates).0;
            GoodEntries(p.servers, r.ids.next) && Serving(p.servers) <= Serving(r.servers) && OthersSame(r.servers, p.servers, key)
    decreases |candidates|
  {
    if candidates != [] && !Reachable(r.ids, open, candidates[0].conn) {
      var next := DeregisterServer(r, key, candidates[0].conn);
      RemoveEntries(r.servers, r.ids.next, key, candidates[0].conn);
      RemoveServing(r.servers, key, candidates[0].conn);
      RemoveLists(r.servers, key, candidates[0].conn, candidates[0]);
      ChooseEntries(next, open, key, candidates[1..]);
    }
  }

  lemma StepServers(r: Routes, limits: Limits, open: set<Sender>, task: Task)
    requires GoodServers(r.servers, limits, r.next) && limits.connections > 0
    ensures var after := Step(r, limits, open, task).0;
            GoodServers(after.servers, limits, after.next)
  {
    match task
    case RegisterTask(key, c, s, needCodec, isDatagram) => RegisterGood(r, limits, key, c, s, needCodec, isDatagram);
    case Activity(key, c) => RefreshKeeps(r.servers, Some(key), c, 0, limits, r.next, r.ids.next);
    case DeregisterServerTask(key, c) => RemoveGood(r.servers, limits, r.next, key, c);
    case RetireTask(key, c) => RemoveGood(r.servers, limits, r.next, key, c);
    case DeregisterClientTask(_, _) =>
    case SubscribeTask(key, _, _, excluded, _) =>
      if key in r.servers {
        ChooseKeeps(r, limits, open, key, Candidates(r.servers[key], excluded));
      }
    case StreamTask(_, _, _, c, _, entryAt) =>
      if c in r.pending {
        RefreshKeeps(r.servers, entryAt, r.pending[c].server, r.pending[c].generation, limits, r.next, r.ids.next);
      }
    case AckTask(server, _, generation, at, entryAt) =>
      var heard := RefreshAt(r.servers, at, server);
      RefreshKeeps(r.servers, at, server, generation, limits, r.next, r.ids.next);
      RefreshKeeps(heard, entryAt, server, generation, limits, r.next, r.ids.next);
    case Accept =>
  }

  lemma SelectedIds(p: Routes, open: set<Sender>, key: string, client: ConnId, s: Sender, info: Info)
    requires GoodIds(p.ids)
    ensures GoodIds(Selected(p, open, key, client, s, info).0.ids) && Selected(p, open, key, client, s, info).0.ids.next == p.ids.next
  {
    IdsKept(p.ids, client, s);
    IdsKept(SignUp(p.ids, client, s), client, s);
  }

  lemma StepIds(r: Routes, limits: Limits, open: set<Sender>, task: Task)
    requires GoodIds(r.ids)
    ensures var after := Step(r, limits, open, task).0;
            GoodIds(after.ids) && r.ids.next <= after.ids.next
  {
    match task
    case RegisterTask(_, c, s, _, _) => IdsKept(r.ids, c, s);
    case Activity(_, _) =>
    case DeregisterServerTask(_, c) => IdsKept(r.ids, c, 0);
    case RetireTask(_, c) => IdsKept(r.ids, c, 0);
    case DeregisterClientTask(server, c) =>
      if server.Some? {
        IdsKept(r.ids, server.value, 0);
        IdsKept(Deregister(r.ids, server.value), c, 0);
      } else {
        IdsKept(r.ids, c, 0);
      }
    case SubscribeTask(key, c, s, excluded, _) =>
      if key in r.servers {
        var (p, choice) := Choose(r, open, key, Candidates(r.servers[key], excluded));
        ChooseKeeps(r, limits, open, key, Candidates(r.servers[key], excluded));
        if choice.Some? {
          SelectedIds(p, open, key, c, s, choice.value);
        }
      }
    case StreamTask(_, _, _, _, _, _) =>
    case AckTask(_, _, _, _, _) =>
    case Accept => AcceptIds(r.ids, Serving(r.servers));
  }

  lemma EntriesGrow(servers: map<string, seq<Info>>, next: ConnId, more: ConnId)
    requires GoodEntries(servers, next) && next <= more
    ensures GoodEntries(servers, more)
  {
  }

  lemma StepEntries(r: Routes, limits: Limits, open: set<Sender>, task: Task)
    requires GoodEntries(r.servers, r.ids.next) && GoodIds(r.ids) && Legal(r, task)
    ensures var after := Step(r, limits, open, task).0;
            GoodEntries(after.servers, after.ids.next)
            && Serving(after.servers) <= Serving(r.servers) + if task.RegisterTask? then {task.conn} else {}
  {
    StepIds(r, limits, open, task);
    match task
    case RegisterTask(key, c, s, needCodec, isDatagram) => RegisterEntries(r, limits, key, c, s, needCodec, isDatagram);
    case Activity(key, c) => RefreshKeeps(r.servers, Some(key), c, 0, limits, r.next, r.ids.next);
    case DeregisterServerTask(key, c) =>
      RemoveEntries(r.servers, r.ids.next, key, c);
      RemoveServing(r.servers, key, c);
    case RetireTask(key, c) =>
      RemoveEntries(r.servers, r.ids.next, key, c);
      RemoveServing(r.servers, key, c);
    case DeregisterClientTask(_, _) =>
    case SubscribeTask(key, _, _, excluded, _) =>
      if key in r.servers {
        ChooseKeeps(r, limits, open, key, Candidates(r.servers[key], excluded));
        ChooseEntries(r, open, key, Candidates(r.servers[key], excluded));
      }
    case StreamTask(_, _, _, c, _, entryAt) =>
      if c in r.pending {
        RefreshKeeps(r.servers, entryAt, r.pending[c].server, r.pending[c].generation, limits, r.next, r.ids.next);
      }
    case AckTask(server, _, generation, at, entryAt) =>
      var heard := RefreshAt(r.servers, at, server);
      RefreshKeeps(r.servers, at, server, generation, limits, r.next, r.ids.next);
      RefreshKeeps(heard, entryAt, server, generation, limits, r.next, r.ids.next);
    case Accept => EntriesGrow(r.servers, r.ids.next, Step(r, limits, open, task).0.ids.next);
  }

  lemma SelectedCounts(p: Routes, limits: Limits, open: set<Sender>, key: string, client: ConnId, s: Sender, info: Info)
    requires GoodCounts(p, limits) && CountOf(p.counts, NamespaceOf(key)) < limits.streams
    ensures GoodCounts(Selected(p, open, key, client, s, info).0, limits)
            <==> (client in p.pending ==> NamespaceOf(p.pending[client].key) == NamespaceOf(key))
  {
    var home := NamespaceOf(key);
    var counts := if client in p.pending then p.counts else p.counts[home := CountOf(p.counts, home) + 1];
    var pending := Pending(info.conn, info.generation, key);
    AddStreamIff(p, limits, client, pending);
    var recorded, after := p.(pending := p.pending[client := pending], counts := counts), Selected(p, open, key, client, s, info).0;
    if GoodCounts(recorded, limits) {
      SameCounts(recorded, after, limits);
    }
    if GoodCounts(after, limits) {
      SameCounts(after, recorded, limits);
    }
  }

  lemma SubscribeCounts(r: Routes, limits: Limits, open: set<Sender>, task: Task)
    requires GoodCounts(r, limits) && Legal(r, task) && task.SubscribeTask?
    ensures GoodCounts(Step(r, limits, open, task).0, limits)
  {
    if CountOf(r.counts, NamespaceOf(task.key)) < limits.streams && task.key in r.servers && task.rateAllows {
      var candidates := Candidates(r.servers[task.key], task.excluded);
      ChooseKeeps(r, limits, open, task.key, candidates);
      var (p, choice) := Choose(r, open, task.key, candidates);
      SameCounts(r, p, limits);
      if choice.Some? {
        SelectedCounts(p, limits, open, task.key, task.conn, task.sender, choice.value);
      }
    }
  }

  lemma SameCounts(r: Routes, after: Routes, limits: Limits)
    requires GoodCounts(r, limits) && after.pending == r.pending && after.counts == r.counts
    ensures GoodCounts(after, limits)
  {
    forall ns: nat
      ensures CountsAt(after.pending, after.counts, limits, ns)
    {
      assert CountsAt(r.pending, r.counts, limits, ns);
    }
  }

  lemma StepCounts(r: Routes, limits: Limits, open: set<Sender>, task: Task)
    requires GoodCounts(r, limits) && Legal(r, task)
    ensures GoodCounts(Step(r, limits, open, task).0, limits)
  {
    var after := Step(r, limits, open, task).0;
    if task.SubscribeTask? {
      SubscribeCounts(r, limits, open, task);
    } else if task.DeregisterClientTask? {
      forall ns: nat
        ensures CountsAt(after.pending, after.counts, limits, ns)
      {
        DropStream(r, limits, task.conn, ns);
      }
    } else {
      SameCounts(r, after, limits);
    }
  }

  /** Every arm of the loop keeps the routing state sound. */
  lemma StepSound(r: Routes, limits: Limits, open: set<Sender>, task: Task)
    requires Sound(r, limits) && Legal(r, task) && limits.connections > 0
    ensures Sound(Step(r, limits, open, task).0, limits)
  {
    StepServers(r, limits, open, task);
    StepIds(r, limits, open, task);
    StepEntries(r, limits, open, task);
    StepCounts(r, limits, open, task);
  }

  /** Only a stream task produces a stream response. */
  lemma OnlyStreams(r: Routes, limits: Limits, open: set<Sender>, task: Task, m: Sent)
    requires m in Step(r, limits, open, task).1 && m.message.StreamResp?
    ensures task.StreamTask? && StreamAccepted(r, task.key, task.conn, task.generation)
    ensures task.conn in r.ids.active && m == Sent(r.ids.active[task.conn], StreamResp(task.server, r.pending[task.conn].generation, task.socket))
  {
  }

  // ---- which connection a subscription gets ----

  lemma {:induction false} CandidatesAre(list: seq<Info>, excluded: seq<(ConnId, nat)>, info: Info)
    ensures info in Candidates(list, excluded) <==> info in list && Eligible(info, excluded)
  {
    if list != [] {
      var n := |list| - 1;
      CandidatesAre(list[..n], excluded, info);
      assert list == list[..n] + [list[n]];
    }
  }

  ghost predicate Rising(list: seq<Info>) {
    forall i, j | 0 <= i < j < |list| :: list[i].generation < list[j].generation
  }

  /** The latest comes first. */
  lemma {:induction false} CandidatesFall(list: seq<Info>, excluded: seq<(ConnId, nat)>)
    requires Rising(list)
    ensures var cs := Candidates(list, excluded);
            forall i, j | 0 <= i < j < |cs| :: cs[i].generation > cs[j].generation
  {
    if list != [] {
      var n := |list| - 1;
      CandidatesFall(list[..n], excluded);
      var rest := Candidates(list[..n], excluded);
      forall i | 0 <= i < |rest|
        ensures rest[i].generation < list[n].generation
      {
        CandidatesAre(list[..n], excluded, rest[i]);
        var j :| 0 <= j < n && list[..n][j] == rest[i];
      }
    }
  }

  lemma {:induction false} ChooseFirst(r: Routes, open: set<Sender>, key: string, candidates: seq<Info>) returns (k: nat)
    ensures var choice := Choose(r, open, key, candidates).1;
            k <= |candidates| && (forall j | 0 <= j < k :: !Reachable(r.ids, open, candidates[j].conn))
            && if choice.Some? then k < |candidates| && choice.value == candidates[k] && Reachable(r.ids, open, choice.value.conn)
               else k == |candidates|
    decreases |candidates|
  {
    k := 0;
    if candidates != [] && !Reachable(r.ids, open, candidates[0].conn) {
      var next := DeregisterServer(r, key, candidates[0].conn);
      k := ChooseFirst(next, open, key, candidates[1..]);
      k := k + 1;
    }
  }

  /**
  A subscription gets the greatest-generation connection that is healthy, not excluded and
  reachable; it gets none only when there is no such connection.
  */
  lemma SelectsLatest(r: Routes, limits: Limits, open: set<Sender>, key: string, excluded: seq<(ConnId, nat)>)
    requires key in r.servers && GoodList(r.servers[key], limits, r.next)
    ensures var list := r.servers[key];
            var choice := Choose(r, open, key, Candidates(list, excluded)).1;
            (choice.Some? ==> choice.value in list && Eligible(choice.value, excluded) && Reachable(r.ids, open, choice.value.conn))
            && forall info | info in list && Eligible(info, excluded) && Reachable(r.ids, open, info.conn) ::
                 choice.Some? && info.generation <= choice.value.generation
  {
    var list := r.servers[key];
    var cs := Candidates(list, excluded);
    CandidatesFall(list, excluded);
    var k := ChooseFirst(r, open, key, cs);
    if k < |cs| {
      CandidatesAre(list, excluded, cs[k]);
    }
    forall info | info in list && Eligible(info, excluded) && Reachable(r.ids, open, info.conn)
      ensures k < |cs| && info.generation <= cs[k].generation
    {
      CandidatesAre(list, excluded, info);
      var j :| 0 <= j < |cs| && cs[j] == info;
    }
  }

  // ---- dead connections are purged ----

  lemma RemoveKeepsGone(servers: map<string, seq<Info>>, key: string, c: ConnId, d: ConnId)
    requires Gone(servers, key, d)
    ensures Gone(RemoveConn(servers, key, c), key, d)
  {
    var after := RemoveConn(servers, key, c);
    if key in after {
      var list := after[key];
      forall i | 0 <= i < |list|
        ensures list[i].conn != d
      {
        RemoveLists(servers, key, c, list[i]);
        var j :| 0 <= j < |servers[key]| && servers[key][j] == list[i];
      }
    }
  }

  lemma {:induction false} ChooseKeepsGone(r: Routes, open: set<Sender>, key: string, candidates: seq<Info>, d: ConnId)
    ensures var p := Choose(r, open, key, candidates).0;
            (Gone(r.servers, key, d) ==> Gone(p.servers, key, d)) && (d !in r.ids.active ==> d !in p.ids.active)
    decreases |candidates|
  {
    if candidates != [] && !Reachable(r.ids, open, candidates[0].conn) {
      if Gone(r.servers, key, d) {
        RemoveKeepsGone(r.servers, key, candidates[0].conn, d);
      }
      ChooseKeepsGone(DeregisterServer(r, key, candidates[0].conn), open, key, candidates[1..], d);
    }
  }

  /** Every connection passed over is out of the service and out of the active set. */
  lemma {:induction false} ChoosePurges(r: Routes, open: set<Sender>, key: string, candidates: seq<Info>, j: nat)
    requires GoodEntries(r.servers, r.ids.next) && j < |candidates|
    requires forall i | 0 <= i <= j :: !Reachable(r.ids, open, candidates[i].conn)
    ensures var p := Choose(r, open, key, candidates).0;
            Gone(p.servers, key, candidates[j].conn) && candidates[j].conn !in p.ids.active
    decreases |candidates|
  {
    var next := DeregisterServer(r, key, candidates[0].conn);
    RemoveEntries(r.servers, r.ids.next, key, candidates[0].conn);
    if j > 0 {
      assert forall i | 0 <= i <= j - 1 :: candidates[1..][i] == candidates[i + 1];
      ChoosePurges(next, open, key, candidates[1..], j - 1);
    } else {
      ChooseKeepsGone(next, open, key, candidates[1..], candidates[0].conn);
    }
  }

  /** No other entry goes: up to the first candidate that can be reached, only those before it do. */
  lemma {:induction false} ChooseSpares(r: Routes, open: set<Sender>, key: string, candidates: seq<Info>, k: nat, info: Info)
    requires Listed(r.servers, key, info) && k <= |candidates|
    requires k < |candidates| ==> Reachable(r.ids, open, candidates[k].conn)
    requires forall j | 0 <= j < k :: candidates[j].conn != info.conn
    ensures Listed(Choose(r, open, key, candidates).0.servers, key, info)
    decreases |candidates|
  {
    if candidates != [] && !Reachable(r.ids, open, candidates[0].conn) {
      var next := DeregisterServer(r, key, candidates[0].conn);
      RemoveLists(r.servers, key, candidates[0].conn, info);
      assert forall j | 0 <= j < k - 1 :: candidates[1..][j] == candidates[j + 1];
      ChooseSpares(next, open, key, candidates[1..], k - 1, info);
    }
  }
}
