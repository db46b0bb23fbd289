/** The hub's polled topics: which sockets want which keys, and whom a topic serves. */
module Topics {
  import opened Options

  datatype Topic = Topic(subscribers: set<nat>, last: Option<string>)

  type Table = map<string, Topic>

  /** The keys each connected socket has asked for and not given up. */
  type Wanted = map<nat, set<string>>

  function Join(topics: Table, key: string, k: nat): (topics': Table) {
    var topic := if key in topics then topics[key] else Topic({}, None);
    topics[key := topic.(subscribers := topic.subscribers + {k})]
  }

  /** A topic nobody is left on is dropped. */
  function Leave(topics: Table, key: string, k: nat): (topics': Table) {
    if key !in topics then topics
    else if topics[key].subscribers <= {k} then topics - {key}
    else topics[key := topics[key].(subscribers := topics[key].subscribers - {k})]
  }

  function LeaveAll(topics: Table, keys: set<string>, k: nat): (topics': Table) {
    map key | key in topics && !(key in keys && topics[key].subscribers <= {k}) ::
      if key in keys then topics[key].(subscribers := topics[key].subscribers - {k}) else topics[key]
  }

  predicate Serves(topics: Table, key: string, k: nat) {
    key in topics && k in topics[key].subscribers
  }

  predicate Wants(wanted: Wanted, key: string, k: nat) {
    k in wanted && key in wanted[k]
  }

  /** A topic serves exactly the sockets that want it, for the keys that may be polled; and no topic is idle. */
  ghost predicate Agree(topics: Table, wanted: Wanted, admissible: string -> bool) {
    && (forall key, k :: Serves(topics, key, k) <==> Wants(wanted, key, k) && admissible(key))
    && (forall key <- topics :: topics[key].subscribers != {})
  }

  lemma JoinAgrees(topics: Table, wanted: Wanted, admissible: string -> bool, key: string, k: nat)
    requires Agree(topics, wanted, admissible) && k in wanted
    ensures Agree(if admissible(key) then Join(topics, key, k) else topics, wanted[k := wanted[k] + {key}], admissible)
  {
    forall key', k': nat
      ensures Wants(wanted[k := wanted[k] + {key}], key', k') <==> Wants(wanted, key', k') || (key', k') == (key, k)
    {
    }
    forall key', k': nat
      ensures Serves(Join(topics, key, k), key', k') <==> Serves(topics, key', k') || (key', k') == (key, k)
    {
    }
    hide Serves, Wants;
  }

  lemma LeaveAgrees(topics: Table, wanted: Wanted, admissible: string -> bool, key: string, k: nat)
    requires Agree(topics, wanted, admissible) && k in wanted
    ensures Agree(Leave(topics, key, k), wanted[k := wanted[k] - {key}], admissible)
  {
    forall key', k': nat
      ensures Wants(wanted[k := wanted[k] - {key}], key', k') <==> Wants(wanted, key', k') && (key', k') != (key, k)
    {
    }
    forall key', k': nat
      ensures Serves(Leave(topics, key, k), key', k') <==> Serves(topics, key', k') && (key', k') != (key, k)
    {
    }
    hide Serves, Wants;
  }

  lemma LeaveNone(topics: Table, k: nat)
    ensures LeaveAll(topics, {}, k) == topics
  {
  }

  lemma LeaveOneMore(topics: Table, keys: set<string>, key: string, k: nat)
    requires key !in keys
    ensures Leave(LeaveAll(topics, keys, k), key, k) == LeaveAll(topics, keys + {key}, k)
  {
  }

  /** A socket that gives up all it wants is served by nothing. */
  lemma LeaveAllAgrees(topics: Table, wanted: Wanted, admissible: string -> bool, k: nat)
    requires Agree(topics, wanted, admissible) && k in wanted
    ensures Agree(LeaveAll(topics, wanted[k], k), wanted - {k}, admissible)
  {
    var topics' := LeaveAll(topics, wanted[k], k);
    forall key', k': nat
      ensures Serves(topics', key', k') <==> Wants(wanted - {k}, key', k') && admissible(key')
    {
      assert Serves(topics, key', k') <==> Wants(wanted, key', k') && admissible(key');
      assert Serves(topics, key', k) <==> Wants(wanted, key', k) && admissible(key');
    }
  }

  lemma NewSocketAgrees(topics: Table, wanted: Wanted, admissible: string -> bool, k: nat)
    requires Agree(topics, wanted, admissible) && k !in wanted
    ensures Agree(topics, wanted[k := {}], admissible)
  {
    forall key', k': nat ensures Wants(wanted[k := {}], key', k') <==> Wants(wanted, key', k') {
    }
    hide Serves, Wants;
  }

  lemma PolledAgrees(topics: Table, wanted: Wanted, admissible: string -> bool, key: string, value: string)
    requires Agree(topics, wanted, admissible) && key in topics
    ensures Agree(topics[key := topics[key].(last := Some(value))], wanted, admissible)
  {
    var topics' := topics[key := topics[key].(last := Some(value))];
    forall key', k': nat ensures Serves(topics', key', k') <==> Serves(topics, key', k') {
    }
    hide Serves, Wants;
  }
}
