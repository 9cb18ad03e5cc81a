/** The hub's tables and the critical sections over them (master/main.go). */
module Hub {
  import opened Options

  datatype Name = Name(text: string)
  type ConnId = nat

  /** `closed` are the connections whose Send channel is closed; `panicked` is set by an operation
      that Go turns into a panic: closing a closed channel, or sending on one. */
  datatype Tables = Tables(agents: map<Name, ConnId>, pending: map<Name, ConnId>, closed: set<ConnId>, panicked: bool)
  {
    function Register(n: Name, c: ConnId): Tables {
      this.(agents := agents[n := c])
    }

    /** Whatever connection the name stands for by now is dropped, but the channel that is closed is
        the one of the connection that unregisters. */
    function Unregister(n: Name, c: ConnId): Tables {
      if n in agents then this.(agents := agents - {n}, closed := closed + {c}, panicked := panicked || c in closed)
      else this
    }

    function AddPending(n: Name, c: ConnId): Tables {
      this.(pending := pending[n := c])
    }

    function RemovePending(n: Name): Tables {
      this.(pending := pending - {n})
    }
  }

  const EMPTY_TABLES := Tables(map[], map[], {}, false)

  class AgentConnection {
    const id: ConnId
    const agentName: Name
    var sendClosed: bool

    constructor (id: ConnId, agentName: Name)
      ensures this.id == id && this.agentName == agentName && !sendClosed
    {
      this.id, this.agentName, sendClosed := id, agentName, false;
    }
  }

  /** The methods are the sections that run under the write lock, and the lookup under the read lock. */
  class Hub {
    var agents: map<Name, AgentConnection>
    var pendingAgents: map<Name, ConnId>
    var panicked: bool
    var nextId: ConnId
    // the connections made so far
    ghost var known: set<AgentConnection>

    ghost predicate Valid()
      reads this
    {
      && (forall n :: n in agents ==> agents[n] in known)
      && (forall a :: a in known ==> a.id < nextId)
      && (forall a, b :: a in known && b in known && a.id == b.id ==> a == b)
    }

    ghost function Registry(): map<Name, ConnId>
      reads this
    {
      map n | n in agents :: agents[n].id
    }

    ghost function Closed(): set<ConnId>
      reads this, known
    {
      set a: AgentConnection | a in known && a.sendClosed :: a.id
    }

    ghost function State(): Tables
      reads this, known
    {
      Tables(Registry(), pendingAgents, Closed(), panicked)
    }

    constructor ()
      ensures Valid() && State() == EMPTY_TABLES && known == {}
    {
      agents, pendingAgents, panicked, nextId, known := map[], map[], false, 0, {};
    }

    /** A connection that passed the gate, with its own channel; the registry does not have it yet. */
    method MakeConnection(agentName: Name) returns (agent: AgentConnection)
      requires Valid()
      modifies this`nextId, this`known
      ensures Valid() && State() == old(State())
      ensures fresh(agent) && agent.agentName == agentName && !agent.sendClosed && known == old(known) + {agent}
      ensures forall a :: a in old(known) ==> a.id != agent.id
    {
      agent := new AgentConnection(nextId, agentName);
      nextId := nextId + 1;
      known := known + {agent};
    }

    method Register(agent: AgentConnection)
      requires Valid() && agent in known
      modifies this`agents
      ensures Valid() && known == old(known)
      ensures State() == old(State()).Register(agent.agentName, agent.id)
      ensures agents == old(agents)[agent.agentName := agent]
    {
      agents := agents[agent.agentName := agent];
    }

    method Unregister(agent: AgentConnection)
      requires Valid() && agent in known
      modifies this`agents, this`panicked, agent`sendClosed
      ensures Valid() && known == old(known)
      ensures State() == old(State()).Unregister(agent.agentName, agent.id)
    {
      if agent.agentName in agents {
        Drop(agent.agentName);
        Close(agent);
      }
    }

    method Drop(name: Name)
      requires Valid()
      modifies this`agents
      ensures Valid() && Registry() == old(Registry()) - {name} && Closed() == old(Closed())
    {
      agents := agents - {name};
    }

    /** close(agent.Send) panics on a closed channel. */
    method Close(agent: AgentConnection)
      requires Valid() && agent in known
      modifies agent`sendClosed, this`panicked
      ensures Valid() && Registry() == old(Registry())
      ensures Closed() == old(Closed()) + {agent.id} && panicked == (old(panicked) || agent.id in old(Closed()))
    {
      if agent.sendClosed {
        panicked := true;
      }
      agent.sendClosed := true;
    }

    method AddPending(name: Name, conn: ConnId)
      requires Valid()
      modifies this`pendingAgents
      ensures Valid() && known == old(known) && State() == old(State()).AddPending(name, conn)
      ensures pendingAgents == old(pendingAgents)[name := conn]
    {
      pendingAgents := pendingAgents[name := conn];
    }

    method RemovePending(name: Name)
      requires Valid()
      modifies this`pendingAgents
      ensures Valid() && known == old(known) && State() == old(State()).RemovePending(name)
      ensures pendingAgents == old(pendingAgents) - {name}
    {
      pendingAgents := pendingAgents - {name};
    }

    /** The first section of ApprovePendingAgent. */
    method TakePending(name: Name) returns (conn: Option<ConnId>)
      requires Valid()
      modifies this`pendingAgents
      ensures Valid() && known == old(known)
      ensures conn == Lookup(old(State()).pending, name) && State() == old(State()).RemovePending(name)
    {
      if name !in pendingAgents {
        assert pendingAgents - {name} == pendingAgents;
        return None;
      }
      conn := Some(pendingAgents[name]);
      pendingAgents := pendingAgents - {name};
    }

    method Find(name: Name) returns (agent: AgentConnection?)
      requires Valid()
      ensures (if agent == null then None else Some(agent.id)) == Lookup(State().agents, name)
      ensures agent != null ==> agent in known
    {
      agent := if name in agents then agents[name] else null;
    }
  }

  /** Two connections of one name through the methods: the first one's end takes the second one out and
      leaves its channel open. */
  method Replace(name: Name) returns (hub: Hub, first: AgentConnection, second: AgentConnection)
    ensures hub.Valid() && first.agentName == second.agentName == name && first != second
    ensures first.id != second.id && hub.State() ==
      EMPTY_TABLES.Register(name, first.id).Register(name, second.id).Unregister(name, first.id)
  {
    hub := new Hub();
    first := hub.MakeConnection(name);
    hub.Register(first);
    second := hub.MakeConnection(name);
    hub.Register(second);
    hub.Unregister(first);
  }
}
