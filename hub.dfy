/**
 * The websocket hub: the table from user id to the set of that user's open
 * clients, and delivery of a payload to every client of a user.
 *
 * A client's outgoing channel is a bounded queue (`SendBuffer` slots); the
 * socket behind it and the write pump that drains it are not modelled.
 */
module Hub {
  import opened Seqs

  type Payload = seq<bv8>

  /** The capacity of a client's send channel. */
  const SendBuffer: nat := 64

  class Client {
    const userId: string
    /** Payloads queued on the send channel and not yet written out. */
    var queue: seq<Payload>
    var closed: bool

    constructor(userId: string)
      ensures this.userId == userId && queue == [] && !closed
    {
      this.userId := userId;
      queue := [];
      closed := false;
    }

    predicate Full()
      reads this
    {
      |queue| >= SendBuffer
    }

    /** Close the channel; only the first call has an effect. */
    method Close()
      modifies this
      ensures closed && queue == old(queue)
      ensures old(closed) ==> unchanged(this)
    {
      if !closed {
        closed := true;
      }
    }
  }

  /** A client a send has not reached yet. */
  predicate Untouched(c: Client, queue: seq<Payload>, closed: bool)
    reads c
  {
    c.queue == queue && c.closed == closed
  }

  /**
   * A client a send has reached, from its queue and state before: it took
   * the payload, or its buffer was full and it was closed.
   */
  predicate Handled(c: Client, queue: seq<Payload>, closed: bool, payload: Payload)
    reads c
  {
    if |queue| < SendBuffer then c.queue == queue + [payload] && c.closed == closed
    else c.queue == queue && c.closed
  }

  /** The table shape the hub keeps: no empty set, every client filed under its own user. */
  predicate TableOk(m: map<string, set<Client>>)
  {
    forall u :: u in m ==> m[u] != {} && forall c :: c in m[u] ==> c.userId == u
  }

  /** The table after Register files `c` under `u`. */
  function AddClient(m: map<string, set<Client>>, u: string, c: Client): map<string, set<Client>>
  {
    m[u := (if u in m then m[u] else {}) + {c}]
  }

  /** The table after Unregister takes `c` out of `u`'s set, dropping the set once it is empty. */
  function RemoveClient(m: map<string, set<Client>>, u: string, c: Client): map<string, set<Client>>
  {
    if u !in m then m
    else if m[u] - {c} == {} then m - {u}
    else m[u := m[u] - {c}]
  }

  /** The table after every client of `gone` has been taken out of `u`'s set. */
  function Dropped(m: map<string, set<Client>>, u: string, gone: set<Client>): map<string, set<Client>>
  {
    if u !in m then m
    else if m[u] - gone == {} then m - {u}
    else m[u := m[u] - gone]
  }

  /** Registering and unregistering keep the table's shape. */
  lemma AddRemoveKeepShape(m: map<string, set<Client>>, c: Client)
    requires TableOk(m)
    ensures TableOk(AddClient(m, c.userId, c))
    ensures TableOk(RemoveClient(m, c.userId, c))
  {
  }

  /** After Unregister a client is filed nowhere; after Register it is filed under its user. */
  lemma RemoveForgets(m: map<string, set<Client>>, c: Client)
    requires TableOk(m)
    ensures forall u :: u in RemoveClient(m, c.userId, c) ==> c !in RemoveClient(m, c.userId, c)[u]
    ensures c.userId in AddClient(m, c.userId, c) && c in AddClient(m, c.userId, c)[c.userId]
  {
  }

  /** Registering a new client and unregistering it again gives back the table. */
  lemma AddThenRemove(m: map<string, set<Client>>, c: Client)
    requires TableOk(m)
    requires c.userId !in m || c !in m[c.userId]
    ensures RemoveClient(AddClient(m, c.userId, c), c.userId, c) == m
  {
    var u := c.userId;
    if u in m {
      assert (m[u] + {c}) - {c} == m[u];
    }
  }

  /** Unregistering one more client of `u` extends the set of dropped clients. */
  lemma DroppedStep(m: map<string, set<Client>>, u: string, gone: set<Client>, c: Client)
    ensures RemoveClient(Dropped(m, u, gone), u, c) == Dropped(m, u, gone + {c})
  {
    if u in m {
      assert m[u] - gone - {c} == m[u] - (gone + {c});
    }
  }

  /** Dropping clients from one user's set keeps the table's shape. */
  lemma DroppedKeepsShape(m: map<string, set<Client>>, u: string, gone: set<Client>)
    requires TableOk(m)
    ensures TableOk(Dropped(m, u, gone))
    ensures forall v :: v in Dropped(m, u, gone) ==> v in m && Dropped(m, u, gone)[v] <= m[v]
  {
  }

  lemma DroppedNone(m: map<string, set<Client>>, u: string)
    requires TableOk(m)
    ensures Dropped(m, u, {}) == m
  {
    if u in m {
      assert m[u] - {} == m[u];
    }
  }

  /** Go ranges over a map in an order of its own: some listing of `s` without repeats. */
  method Enumerate(s: set<Client>) returns (xs: seq<Client>)
    ensures Distinct(xs) && forall c :: c in xs <==> c in s
  {
    xs := [];
    var rest := s;
    while rest != {}
      invariant rest <= s && Distinct(xs)
      invariant forall c :: c in xs <==> c in s - rest
      decreases |rest|
    {
      var c :| c in rest;
      assert c !in xs;
      assert forall i :: 0 <= i < |xs| ==> (xs + [c])[i] == xs[i];
      xs := xs + [c];
      rest := rest - {c};
    }
  }

  /** The clients of `s` whose send buffer is full. */
  function FullOf(s: set<Client>): set<Client>
    reads s
  {
    set c | c in s && c.Full()
  }

  class Hub {
    var clients: map<string, set<Client>>

    constructor()
      ensures clients == map[]
    {
      clients := map[];
    }

    /** The clients a send to `u` reaches. */
    function Targets(u: string): set<Client>
      reads this
    {
      if u in clients then clients[u] else {}
    }

    /** A nil client or one without a user is ignored; otherwise it joins its user's set. */
    method Register(c: Client?)
      modifies this
      ensures c == null || c.userId == [] ==> clients == old(clients)
      ensures c != null && c.userId != [] ==> clients == AddClient(old(clients), c.userId, c)
    {
      if c == null || c.userId == [] {
        return;
      }
      var client: Client := c;
      var s := if client.userId in clients then clients[client.userId] else {};
      clients := clients[client.userId := s + {client}];
    }

    /** Take the client out of its user's set, drop an emptied set, and close the client. */
    method Unregister(c: Client?)
      modifies this, c
      ensures c == null || c.userId == [] ==> clients == old(clients) && (c != null ==> unchanged(c))
      ensures c != null && c.userId != [] ==>
        clients == RemoveClient(old(clients), c.userId, c) && c.closed && c.queue == old(c.queue)
    {
      if c == null || c.userId == [] {
        return;
      }
      if c.userId in clients {
        var s := clients[c.userId] - {c};
        if s == {} {
          clients := clients - {c.userId};
        } else {
          clients := clients[c.userId := s];
        }
      }
      c.Close();
    }

    /**
     * Queue `payload` on every client of `userId`. A client whose buffer is
     * full is unregistered instead. The answer is whether at least one
     * client took the payload; an empty user, an empty payload or a user
     * without clients gets false and changes nothing.
     */
    method Send(userId: string, payload: Payload) returns (ok: bool)
      requires TableOk(clients)
      modifies this, Targets(userId)
      ensures userId == [] || |payload| == 0 || userId !in old(clients) ==>
        !ok && clients == old(clients) && forall c :: c in old(Targets(userId)) ==> unchanged(c)
      ensures ok <==> (userId != [] && |payload| > 0 &&
                       exists c :: c in old(Targets(userId)) && !old(c.Full()))
      ensures userId != [] && |payload| > 0 ==>
        clients == Dropped(old(clients), userId, old(FullOf(Targets(userId))))
      ensures userId != [] && |payload| > 0 ==> forall c :: c in old(Targets(userId)) ==>
        Handled(c, old(c.queue), old(c.closed), payload)
    {
      if userId == [] || |payload| == 0 {
        return false;
      }
      var targets := Targets(userId);
      if targets == {} {
        DroppedNone(clients, userId);
        return false;
      }
      var order := Enumerate(targets);
      ok, clients := Deliver(order, targets, payload, userId, clients);
      forall c | c in targets
        ensures Handled(c, old(c.queue), old(c.closed), payload)
      {
        var j :| 0 <= j < |order| && order[j] == c;
      }
      if ok {
        ghost var j :| 0 <= j < |order| && old(|order[j].queue|) < SendBuffer;
        assert order[j] in targets;
      }
    }
  }

  /**
   * The loop of Send over the clients of `userId`, listed in `order`: each
   * takes the payload, or, when its buffer is full, is unregistered from
   * `table` and closed.
   */
  method Deliver(order: seq<Client>, ghost targets: set<Client>, payload: Payload, userId: string,
                 table: map<string, set<Client>>)
    returns (ok: bool, table': map<string, set<Client>>)
    requires Distinct(order) && TableOk(table)
    requires forall c :: c in order <==> c in targets
    requires forall c :: c in targets ==> c.userId == userId
    modifies targets
    ensures table' == Dropped(table, userId, old(FullOf(targets)))
    ensures forall j :: 0 <= j < |order| ==> Handled(order[j], old(order[j].queue), old(order[j].closed), payload)
    ensures ok <==> exists j :: 0 <= j < |order| && old(|order[j].queue|) < SendBuffer
  {
    ok := false;
    table' := table;
    ghost var gone: set<Client> := {};
    DroppedNone(table, userId);
    for i := 0 to |order|
      invariant forall j :: i <= j < |order| ==> Untouched(order[j], old(order[j].queue), old(order[j].closed))
      invariant forall j :: 0 <= j < i ==> Handled(order[j], old(order[j].queue), old(order[j].closed), payload)
      invariant ok <==> exists j :: 0 <= j < i && old(|order[j].queue|) < SendBuffer
      invariant forall c :: c in gone ==> c in order[..i]
      invariant forall j :: 0 <= j < |order| ==> (order[j] in gone <==> j < i && old(|order[j].queue|) >= SendBuffer)
      invariant table' == Dropped(table, userId, gone)
    {
      var c := order[i];
      assert forall j :: 0 <= j < |order| && j != i ==> order[j] != c;
      assert order[..i + 1] == order[..i] + [c];
      if |c.queue| < SendBuffer {
        c.queue := c.queue + [payload];
        ok := true;
      } else {
        // Unregister(c): out of the table, then closed
        DroppedStep(table, userId, gone, c);
        table' := RemoveClient(table', userId, c);
        gone := gone + {c};
        c.Close();
      }
    }
    assert order[..|order|] == order;
    assert gone == old(FullOf(targets));
  }
}
