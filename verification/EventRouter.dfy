/** The in-memory SSE router: connections are found through a category index, never by
    scanning. The empty string stands for a missing tenant. */
module EventRouter {

  const ALL := "all"

  datatype Payload = Payload(eventType: string, data: string)

  datatype Message = Message(category: string, tenantId: string, payload: Payload)

  /** What the outside can tell about one connection. */
  datatype Subscriber = Subscriber(categories: seq<string>, tenantId: string, sent: seq<Payload>)

  type Registry = map<string, Subscriber>

  predicate Wants(s: Subscriber, m: Message) {
    && (m.category in s.categories || ALL in s.categories)
    && (m.tenantId == "" || s.tenantId == m.tenantId)
  }

  /** The reference: look at every connection, hand the message to those that want it. */
  function Scan(r: Registry, m: Message): Registry {
    map id | id in r :: if Wants(r[id], m) then r[id].(sent := r[id].sent + [m.payload]) else r[id]
  }

  function Listing(r: Registry, category: string): set<string> {
    set id | id in r && category in r[id].categories
  }

  /** The index holds exactly the categories somebody lists, each with exactly its listers. */
  ghost predicate Exact(index: map<string, set<string>>, r: Registry) {
    forall c :: (c in index <==> Listing(r, c) != {}) && (c in index ==> index[c] == Listing(r, c))
  }

  ghost predicate Added(index: map<string, set<string>>, index': map<string, set<string>>, id: string, categories: seq<string>) {
    forall c ::
      && (c in index' <==> c in index || c in categories)
      && (c in index' ==> index'[c] == (if c in index then index[c] else {}) + (if c in categories then {id} else {}))
  }

  ghost predicate Removed(index: map<string, set<string>>, index': map<string, set<string>>, id: string, categories: seq<string>) {
    forall c ::
      && (c in index' <==> c in index && (c in categories ==> index[c] - {id} != {}))
      && (c in index' ==> index'[c] == index[c] - (if c in categories then {id} else {}))
  }

  lemma ExactAfterAdding(index: map<string, set<string>>, index': map<string, set<string>>, r: Registry, r': Registry, id: string)
    requires id !in r && id in r' && r' == r[id := r'[id]]
    requires Exact(index, r) && Added(index, index', id, r'[id].categories)
    ensures Exact(index', r')
  {
    forall c
      ensures (c in index' <==> Listing(r', c) != {}) && (c in index' ==> index'[c] == Listing(r', c))
    {
      assert Listing(r', c) == Listing(r, c) + (if c in r'[id].categories then {id} else {});
    }
  }

  lemma ExactAfterRemoving(index: map<string, set<string>>, index': map<string, set<string>>, r: Registry, r': Registry, id: string)
    requires id in r && r' == r - {id}
    requires Exact(index, r) && Removed(index, index', id, r[id].categories)
    ensures Exact(index', r')
  {
    forall c ensures Listing(r', c) == Listing(r, c) - (if c in r[id].categories then {id} else {}) {}
  }

  /** One loop over `ids`: those of the right tenant and outside `except` get the payload. */
  ghost predicate Passed(r: Registry, r': Registry, ids: set<string>, except: set<string>, m: Message) {
    r'.Keys == r.Keys &&
    forall i :: i in r ==>
      r'[i] == if i in ids && i !in except && (m.tenantId == "" || r[i].tenantId == m.tenantId)
               then r[i].(sent := r[i].sent + [m.payload]) else r[i]
  }

  lemma PassedOneMore(r: Registry, r1: Registry, r2: Registry, ids: set<string>, id: string, except: set<string>, m: Message)
    requires Passed(r, r1, ids, except, m) && Passed(r1, r2, {id}, except, m) && id !in ids
    ensures Passed(r, r2, ids + {id}, except, m)
  {
  }

  lemma TwoPassesScan(r: Registry, r1: Registry, r2: Registry, subscribers: set<string>, all: set<string>, m: Message)
    requires subscribers == Listing(r, m.category) && all == Listing(r, ALL)
    requires Passed(r, r1, subscribers, {}, m) && Passed(r1, r2, all, subscribers, m)
    ensures r2 == Scan(r, m)
  {
  }

  lemma ExactAfterScan(index: map<string, set<string>>, r: Registry, m: Message)
    requires Exact(index, r)
    ensures Exact(index, Scan(r, m))
  {
    forall c ensures Listing(Scan(r, m), c) == Listing(r, c) {}
  }

  class SSEConnection {
    const clientId: string
    const categories: seq<string>
    const tenantId: string
    var queue: seq<Payload>
    var isActive: bool
    var eventsSentCount: nat

    constructor (clientId: string, categories: seq<string>, tenantId: string)
      ensures this.clientId == clientId && this.categories == categories && this.tenantId == tenantId
      ensures queue == [] && isActive && eventsSentCount == 0
    {
      this.clientId, this.categories, this.tenantId := clientId, categories, tenantId;
      queue, isActive, eventsSentCount := [], true, 0;
    }

    ghost function View(): Subscriber
      reads this
    {
      Subscriber(categories, tenantId, queue)
    }

    method SendEvent(payload: Payload)
      modifies this
      ensures queue == old(queue) + [payload] && eventsSentCount == old(eventsSentCount) + 1
      ensures isActive == old(isActive)
    {
      queue := queue + [payload];
      eventsSentCount := eventsSentCount + 1;
    }
  }

  class SSEEventRouter {
    var connections: map<string, SSEConnection>
    var subscriptions: map<string, set<string>>

    ghost function Objects(): set<SSEConnection>
      reads this`connections
    {
      set id | id in connections :: connections[id]
    }

    ghost function View(): Registry
      reads this`connections, Objects()
    {
      map id | id in connections :: connections[id].View()
    }

    ghost predicate Sound()
      reads this`connections, Objects()
    {
      forall i :: i in connections ==>
        && connections[i].clientId == i
        && connections[i].isActive
        && connections[i].eventsSentCount == |connections[i].queue|
    }

    ghost predicate Valid()
      reads this, Objects()
    {
      Sound() && Exact(subscriptions, View())
    }

    constructor ()
      ensures Valid() && View() == map[]
    {
      connections, subscriptions := map[], map[];
    }

    /** Callers draw client ids from uuid4, so the id is new. */
    method Register(clientId: string, categories: seq<string>, tenantId: string) returns (conn: SSEConnection)
      requires Valid() && clientId !in connections
      modifies this
      ensures Valid() && fresh(conn) && connections == old(connections)[clientId := conn]
      ensures View() == old(View())[clientId := Subscriber(categories, tenantId, [])]
    {
      ghost var view := View();
      conn := Enter(clientId, categories, tenantId);
      ghost var after := View();
      AddToIndex(clientId, categories);
      ExactAfterAdding(old(subscriptions), subscriptions, view, after, clientId);
      assert Sound() && View() == after;
    }

    method Enter(clientId: string, categories: seq<string>, tenantId: string) returns (conn: SSEConnection)
      requires Sound() && clientId !in connections
      modifies this`connections
      ensures Sound() && fresh(conn) && connections == old(connections)[clientId := conn]
      ensures View() == old(View())[clientId := Subscriber(categories, tenantId, [])]
    {
      conn := new SSEConnection(clientId, categories, tenantId);
      connections := connections[clientId := conn];
    }

    method AddToIndex(clientId: string, categories: seq<string>)
      modifies this`subscriptions
      ensures Added(old(subscriptions), subscriptions, clientId, categories)
    {
      for i := 0 to |categories|
        invariant Added(old(subscriptions), subscriptions, clientId, categories[..i])
      {
        var c := categories[i];
        var subscribers := if c in subscriptions then subscriptions[c] else {};
        subscriptions := subscriptions[c := subscribers + {clientId}];
        assert categories[..i + 1] == categories[..i] + [c];
      }
      assert categories[..|categories|] == categories;
    }

    method Unregister(clientId: string) returns (conn: SSEConnection?)
      requires Valid()
      modifies this, Objects()
      ensures Valid() && View() == old(View()) - {clientId}
      ensures conn == if clientId in old(connections) then old(connections)[clientId] else null
      ensures conn != null ==> !conn.isActive && conn.queue == old(conn.queue)
    {
      if clientId !in connections {
        conn := null;
        assert View() == old(View()) - {clientId};
      } else {
        conn := Discard(clientId);
      }
    }

    method Discard(clientId: string) returns (conn: SSEConnection)
      requires Valid() && clientId in connections
      modifies this, connections[clientId]
      ensures Valid() && View() == old(View()) - {clientId}
      ensures conn == old(connections)[clientId] && !conn.isActive && conn.queue == old(conn.queue)
    {
      ghost var view := View();
      conn := Drop(clientId);
      ghost var after := View();
      RemoveFromIndex(clientId, conn.categories);
      ExactAfterRemoving(old(subscriptions), subscriptions, view, after, clientId);
      assert Sound() && View() == after;
    }

    method Drop(clientId: string) returns (conn: SSEConnection)
      requires Sound() && clientId in connections
      modifies this`connections, connections[clientId]
      ensures Sound() && View() == old(View()) - {clientId}
      ensures conn == old(connections)[clientId] && !conn.isActive && conn.queue == old(conn.queue)
    {
      conn := connections[clientId];
      connections := connections - {clientId};
      conn.isActive := false;
      assert forall i :: i in connections ==> connections[i] == old(connections)[i] && connections[i] != conn;
    }

    method RemoveFromIndex(clientId: string, categories: seq<string>)
      requires forall c :: c in subscriptions ==> subscriptions[c] != {}
      modifies this`subscriptions
      ensures Removed(old(subscriptions), subscriptions, clientId, categories)
    {
      for i := 0 to |categories|
        invariant Removed(old(subscriptions), subscriptions, clientId, categories[..i])
      {
        var c := categories[i];
        if c in subscriptions {
          var subscribers := subscriptions[c] - {clientId};
          if subscribers == {} {
            subscriptions := subscriptions - {c};
          } else {
            subscriptions := subscriptions[c := subscribers];
          }
        }
        assert categories[..i + 1] == categories[..i] + [c];
      }
      assert categories[..|categories|] == categories;
    }

    /** The category's subscribers first, then those of the aggregate that are not among them. */
    method OnRedisMessage(m: Message)
      requires Valid()
      modifies Objects()
      ensures Valid() && View() == Scan(old(View()), m)
    {
      ghost var before := View();
      var subscribers := if m.category in subscriptions then subscriptions[m.category] else {};
      var allSubscribers := if ALL in subscriptions then subscriptions[ALL] else {};
      assert subscribers == Listing(before, m.category) && allSubscribers == Listing(before, ALL);
      SendTo(subscribers, {}, m);
      ghost var between := View();
      SendTo(allSubscribers, subscribers, m);
      TwoPassesScan(before, between, View(), subscribers, allSubscribers, m);
      ExactAfterScan(subscriptions, before, m);
    }

    method SendTo(ids: set<string>, except: set<string>, m: Message)
      requires Sound()
      modifies Objects()
      ensures Sound() && Passed(old(View()), View(), ids, except, m)
    {
      var todo := ids;
      ghost var done: set<string> := {};
      while todo != {}
        invariant done == ids - todo && todo <= ids
        invariant Sound() && Passed(old(View()), View(), done, except, m)
      {
        var id :| id in todo;
        todo := todo - {id};
        ghost var between := View();
        SendOne(id, except, m);
        PassedOneMore(old(View()), between, View(), done, id, except, m);
        done := done + {id};
      }
      assert done == ids;
    }

    /** The body of the loop over a subscriber set. */
    method SendOne(id: string, except: set<string>, m: Message)
      requires Sound()
      modifies Objects()
      ensures Sound() && Passed(old(View()), View(), {id}, except, m)
    {
      if id in connections && connections[id].isActive {
        var conn := connections[id];
        if m.tenantId != "" && conn.tenantId != m.tenantId {
          return;
        }
        if id !in except {
          conn.SendEvent(m.payload);
        }
      }
    }
  }

  // Runs of the router

  datatype Event =
    | Registered(clientId: string, categories: seq<string>, tenantId: string)
    | Unregistered(clientId: string)
    | Dispatched(message: Message)

  function Next(r: Registry, e: Event): Registry {
    match e
    case Registered(id, categories, tenantId) => r[id := Subscriber(categories, tenantId, [])]
    case Unregistered(id) => r - {id}
    case Dispatched(m) => Scan(r, m)
  }

  function After(run: seq<Event>): Registry {
    if run == [] then map[] else Next(After(run[..|run| - 1]), run[|run| - 1])
  }

  /** The messages dispatched since `id` registered. */
  function LogSince(run: seq<Event>, id: string): seq<Message> {
    if run == [] then []
    else
      var e, before := run[|run| - 1], LogSince(run[..|run| - 1], id);
      match e
      case Registered(i, _, _) => if i == id then [] else before
      case Dispatched(m) => before + [m]
      case Unregistered(_) => before
  }

  function Wanted(log: seq<Message>, s: Subscriber): seq<Payload> {
    if log == [] then []
    else
      var before, m := Wanted(log[..|log| - 1], s), log[|log| - 1];
      if Wants(s, m) then before + [m.payload] else before
  }

  /** What a connection has been sent is the log since its registration, filtered by its
      categories and tenant: in order, nothing twice, nothing missing. */
  lemma {:induction false} DeliveryRefinesScan(run: seq<Event>, id: string)
    requires id in After(run)
    ensures After(run)[id].sent == Wanted(LogSince(run, id), After(run)[id])
  {
    if run != [] {
      var e, before := run[|run| - 1], run[..|run| - 1];
      if !(e.Registered? && e.clientId == id) {
        DeliveryRefinesScan(before, id);
        WantedIgnoresTheQueue(LogSince(before, id), After(before)[id], After(run)[id]);
        if e.Dispatched? {
          var log := LogSince(run, id);
          assert log[..|log| - 1] == LogSince(before, id);
        }
      }
    }
  }

  lemma {:induction false} WantedIgnoresTheQueue(log: seq<Message>, s: Subscriber, t: Subscriber)
    requires s.categories == t.categories && s.tenantId == t.tenantId
    ensures Wanted(log, s) == Wanted(log, t)
  {
    if log != [] {
      WantedIgnoresTheQueue(log[..|log| - 1], s, t);
    }
  }

  /** Messages of one tenant never reach a connection of another one, and only listed
      categories do, unless the connection lists the aggregate. */
  lemma TenantsAreIsolated(run: seq<Event>, id: string, k: nat) returns (i: nat)
    requires id in After(run) && k < |After(run)[id].sent|
    ensures i < |LogSince(run, id)| && LogSince(run, id)[i].payload == After(run)[id].sent[k]
    ensures LogSince(run, id)[i].tenantId == "" || LogSince(run, id)[i].tenantId == After(run)[id].tenantId
    ensures LogSince(run, id)[i].category in After(run)[id].categories || "all" in After(run)[id].categories
  {
    DeliveryRefinesScan(run, id);
    i := WantedComesFromTheLog(LogSince(run, id), After(run)[id], k);
  }

  lemma {:induction false} WantedComesFromTheLog(log: seq<Message>, s: Subscriber, k: nat) returns (i: nat)
    requires k < |Wanted(log, s)|
    ensures i < |log| && log[i].payload == Wanted(log, s)[k] && Wants(s, log[i])
  {
    if k < |Wanted(log[..|log| - 1], s)| {
      i := WantedComesFromTheLog(log[..|log| - 1], s, k);
    } else {
      i := |log| - 1;
    }
  }

  lemma {:induction false} WantedKeepsTheLog(log: seq<Message>, s: Subscriber, i: nat)
    requires i < |log| && Wants(s, log[i])
    ensures log[i].payload in Wanted(log, s)
  {
    if i < |log| - 1 {
      WantedKeepsTheLog(log[..|log| - 1], s, i);
    }
  }

  /** What is dispatched while a connection is registered reaches it, if its category or the
      aggregate is listed and it carries no tenant or the connection's. */
  lemma NothingIsLost(run: seq<Event>, id: string, i: nat)
    requires id in After(run) && i < |LogSince(run, id)|
    requires LogSince(run, id)[i].category in After(run)[id].categories || "all" in After(run)[id].categories
    requires LogSince(run, id)[i].tenantId == "" || LogSince(run, id)[i].tenantId == After(run)[id].tenantId
    ensures LogSince(run, id)[i].payload in After(run)[id].sent
  {
    DeliveryRefinesScan(run, id);
    WantedKeepsTheLog(LogSince(run, id), After(run)[id], i);
  }
}
