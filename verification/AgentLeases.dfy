/** The lease state one agent keeps, and its handlers. */
module AgentLeases {
  import opened Basics
  import opened Jobs
  import opened Leases

  datatype AgentMessage = AcquireMessage(request: RequestId, ask: Ask) | ReleaseMessage(request: RequestId, run: RunId)

  /** `undecided`: the oneshot sender has not been used yet. */
  datatype RequestState = RequestState(granted: bool, undecided: bool)

  /**
   * `requests` is the shared table; `cancelled` the requests whose watch channel says so; `answers`
   * the oneshot values sent; `waiting` the calls of `acquire` that have not returned; `leases` the
   * leases handed out and not released; `asks` what each request asked for.
   */
  datatype Client = Client(
    agent: AgentId,
    requests: map<RequestId, RequestState>,
    cancelled: set<RequestId>,
    answers: map<RequestId, bool>,
    waiting: set<RequestId>,
    leases: set<RequestId>,
    asks: map<RequestId, Ask>,
    outbound: seq<AgentMessage>)

  function NewClient(agent: AgentId): Client {
    Client(agent, map[], {}, map[], {}, {}, map[], [])
  }

  function Without<V>(m: map<RequestId, V>, r: RequestId): map<RequestId, V> {
    m - {r}
  }

  /** `acquire` up to its wait. */
  function Begin(c: Client, r: RequestId, ask: Ask): Client {
    c.(requests := c.requests[r := RequestState(false, true)],
       asks := c.asks[r := ask],
       waiting := c.waiting + {r},
       outbound := c.outbound + [AcquireMessage(r, ask)])
  }

  function OnGranted(c: Client, r: RequestId): Client {
    if r !in c.requests then c
    else c.(requests := c.requests[r := RequestState(true, false)],
            answers := if c.requests[r].undecided then c.answers[r := true] else c.answers)
  }

  function OnCancelled(c: Client, r: RequestId): Client {
    if r in c.requests && c.requests[r].granted then c.(cancelled := c.cancelled + {r})
    else if r in c.requests then
      c.(requests := Without(c.requests, r),
         answers := if c.requests[r].undecided then c.answers[r := false] else c.answers)
    else c
  }

  /** The decisions sent so far, and a refusal for each of `ids` that had none. */
  function Told(answers: map<RequestId, bool>, requests: map<RequestId, RequestState>, ids: set<RequestId>): map<RequestId, bool> {
    answers + (map r | r in requests && r in ids && requests[r].undecided :: false)
  }

  /** `cancel_all`, when the connection is gone. */
  function CancelAll(c: Client): Client {
    c.(requests := map[],
       cancelled := c.cancelled + c.requests.Keys,
       answers := Told(c.answers, c.requests, c.requests.Keys))
  }

  /** `acquire` returns with the decision it was sent. */
  function Resolve(c: Client, r: RequestId): Client {
    if r in c.waiting && r in c.answers
    then c.(waiting := c.waiting - {r}, leases := if c.answers[r] then c.leases + {r} else c.leases)
    else c
  }

  /** `acquire` gives up because its parent run was cancelled. */
  function Abandon(c: Client, r: RequestId): Client {
    if r in c.waiting && r in c.asks
    then c.(waiting := c.waiting - {r}, requests := Without(c.requests, r),
            outbound := c.outbound + [ReleaseMessage(r, c.asks[r].run)])
    else c
  }

  function ReleaseLease(c: Client, r: RequestId): Client {
    if r in c.leases && r in c.asks
    then c.(leases := c.leases - {r}, requests := Without(c.requests, r),
            outbound := c.outbound + [ReleaseMessage(r, c.asks[r].run)])
    else c
  }

  /** Dropping a lease: the table entry stays if the lock is taken, the message is lost if the channel is full. */
  function DropLease(c: Client, r: RequestId, lockFree: bool, room: bool): Client {
    if r in c.leases && r in c.asks
    then c.(leases := c.leases - {r},
            requests := if lockFree then Without(c.requests, r) else c.requests,
            outbound := if room then c.outbound + [ReleaseMessage(r, c.asks[r].run)] else c.outbound)
    else c
  }

  /** Nothing of the request has been given back. */
  predicate Unreleased(c: Client, r: RequestId) {
    r in c.waiting || r in c.leases
  }

  /** The agent runs work under this lease. */
  predicate Holding(c: Client, r: RequestId) {
    r in c.leases && r !in c.cancelled
  }

  /** Granted, unreleased and uncancelled. */
  predicate GrantedTo(c: Client, r: RequestId) {
    r in c.requests && c.requests[r].granted && Unreleased(c, r) && r !in c.cancelled
  }

  ghost predicate ClientOk(c: Client) {
    && c.waiting <= c.asks.Keys && c.leases <= c.asks.Keys && c.requests.Keys <= c.asks.Keys && c.answers.Keys <= c.asks.Keys
    && c.waiting !! c.leases
    && (forall r | Holding(c, r) :: r in c.requests && c.requests[r].granted)
    && (forall r | r in c.waiting && r in c.answers && c.answers[r] && r !in c.cancelled ::
          r in c.requests && c.requests[r].granted)
    && (forall m | m in c.outbound ::
          m.request in c.asks
          && match m
             case AcquireMessage(r, ask) => c.asks[r] == ask
             case ReleaseMessage(r, run) => !Unreleased(c, r))
  }

  /** A lease in use is one the server granted and nobody cancelled. */
  lemma HoldingIsGranted(c: Client, r: RequestId)
    requires ClientOk(c) && Holding(c, r)
    ensures GrantedTo(c, r)
  {
  }

  function Received(c: Client, m: ServerMessage): Client {
    match m
    case Granted(r) => OnGranted(c, r)
    case Cancelled(r) => OnCancelled(c, r)
  }

  lemma ClientStepsOk(c: Client, r: RequestId, ask: Ask, lockFree: bool, room: bool)
    requires ClientOk(c)
    ensures r !in c.asks ==> ClientOk(Begin(c, r, ask))
    ensures ClientOk(Resolve(c, r)) && ClientOk(Abandon(c, r)) && ClientOk(ReleaseLease(c, r))
    ensures ClientOk(DropLease(c, r, lockFree, room))
  {
    hide *;
    BeginOk(c, r, ask);
    EndsOk(c, r, lockFree, room);
  }

  lemma BeginOk(c: Client, r: RequestId, ask: Ask)
    requires ClientOk(c)
    ensures r !in c.asks ==> ClientOk(Begin(c, r, ask))
    ensures ClientOk(Resolve(c, r))
  {
  }

  lemma EndsOk(c: Client, r: RequestId, lockFree: bool, room: bool)
    requires ClientOk(c)
    ensures ClientOk(Abandon(c, r)) && ClientOk(ReleaseLease(c, r)) && ClientOk(DropLease(c, r, lockFree, room))
  {
  }

  lemma ClientReceivesOk(c: Client, m: ServerMessage)
    requires ClientOk(c)
    ensures ClientOk(Received(c, m)) && ClientOk(CancelAll(c))
  {
  }

  lemma ToldNobody(answers: map<RequestId, bool>, requests: map<RequestId, RequestState>)
    ensures Told(answers, requests, {}) == answers
  {
  }

  lemma ToldOne(answers: map<RequestId, bool>, requests: map<RequestId, RequestState>, ids: set<RequestId>, r: RequestId)
    requires r in requests && r in ids
    ensures Told(if requests[r].undecided then answers[r := false] else answers, requests, ids - {r}) == Told(answers, requests, ids)
  {
  }

  /** The client object: each handler changes the shared fields as its meaning says. */
  class ConcurrencyClient {
    const agent: AgentId
    var requests: map<RequestId, RequestState>
    var cancelled: set<RequestId>
    var answers: map<RequestId, bool>
    var waiting: set<RequestId>
    var leases: set<RequestId>
    var asks: map<RequestId, Ask>
    var outbound: seq<AgentMessage>

    ghost function State(): Client
      reads this
    {
      Client(agent, requests, cancelled, answers, waiting, leases, asks, outbound)
    }

    ghost predicate Valid()
      reads this
    {
      ClientOk(State())
    }

    constructor (agent: AgentId)
      ensures Valid() && State() == NewClient(agent)
    {
      this.agent := agent;
      requests, cancelled, answers, waiting, leases, asks, outbound := map[], {}, map[], {}, {}, map[], [];
    }

    method StartAcquire(r: RequestId, ask: Ask)
      requires Valid() && r !in asks
      modifies this
      ensures Valid() && State() == Begin(old(State()), r, ask)
    {
      ClientStepsOk(State(), r, ask, true, true);
      requests := requests[r := RequestState(false, true)];
      asks, waiting := asks[r := ask], waiting + {r};
      outbound := outbound + [AcquireMessage(r, ask)];
    }

    method HandleGranted(r: RequestId)
      requires Valid()
      modifies this`requests, this`answers
      ensures Valid() && State() == OnGranted(old(State()), r)
    {
      ClientReceivesOk(State(), Granted(r));
      if r !in requests { return; }
      var undecided := requests[r].undecided;
      requests := requests[r := RequestState(true, false)];
      if undecided {
        answers := answers[r := true];
      }
    }

    method HandleCancelled(r: RequestId)
      requires Valid()
      modifies this`requests, this`answers, this`cancelled
      ensures Valid() && State() == OnCancelled(old(State()), r)
    {
      ClientReceivesOk(State(), Cancelled(r));
      if r in requests && requests[r].granted {
        cancelled := cancelled + {r};
        return;
      }
      if r in requests {
        var undecided := requests[r].undecided;
        requests := requests - {r};
        if undecided {
          answers := answers[r := false];
        }
      }
    }

    /** The table is drained first; then every drained request is told, in any order. */
    method CancelEverything()
      requires Valid()
      modifies this`requests, this`answers, this`cancelled
      ensures Valid() && State() == CancelAll(old(State()))
    {
      ClientReceivesOk(State(), Cancelled(0));
      hide ClientOk;
      var drained := requests;
      requests := map[];
      TellAll(drained);
    }

    method TellAll(drained: map<RequestId, RequestState>)
      modifies this`answers, this`cancelled
      ensures cancelled == old(cancelled) + drained.Keys && answers == Told(old(answers), drained, drained.Keys)
    {
      hide Told;
      var rest := drained.Keys;
      while rest != {}
        invariant rest <= drained.Keys
        invariant cancelled + rest == old(cancelled) + drained.Keys
        invariant Told(answers, drained, rest) == Told(old(answers), drained, drained.Keys)
        decreases |rest|
      {
        var r :| r in rest;
        ToldOne(answers, drained, rest, r);
        cancelled := cancelled + {r};
        if drained[r].undecided {
          answers := answers[r := false];
        }
        rest := rest - {r};
      }
      ToldNobody(answers, drained);
    }

    /** `acquire` returns what it was sent: a lease, or that the request was cancelled. */
    method FinishAcquire(r: RequestId) returns (lease: bool)
      requires Valid() && r in waiting && r in answers
      modifies this`waiting, this`leases
      ensures Valid() && State() == Resolve(old(State()), r) && lease == (r in leases)
    {
      ClientStepsOk(State(), r, asks[r], true, true);
      waiting := waiting - {r};
      lease := answers[r];
      if lease {
        leases := leases + {r};
      }
    }

    method AbandonRequest(r: RequestId)
      requires Valid() && r in waiting
      modifies this`waiting, this`requests, this`outbound
      ensures Valid() && State() == Abandon(old(State()), r)
    {
      ClientStepsOk(State(), r, asks[r], true, true);
      waiting, requests := waiting - {r}, requests - {r};
      outbound := outbound + [ReleaseMessage(r, asks[r].run)];
    }

    method ReleaseInner(r: RequestId)
      requires Valid()
      modifies this`leases, this`requests, this`outbound
      ensures Valid() && State() == ReleaseLease(old(State()), r)
    {
      if r !in leases { return; }
      ClientStepsOk(State(), r, asks[r], true, true);
      leases, requests := leases - {r}, requests - {r};
      outbound := outbound + [ReleaseMessage(r, asks[r].run)];
    }

    /** Dropping a lease cannot wait: the table is cleaned if its lock is free, the message sent if there is room. */
    method Drop(r: RequestId, lockFree: bool, room: bool)
      requires Valid()
      modifies this`leases, this`requests, this`outbound
      ensures Valid() && State() == DropLease(old(State()), r, lockFree, room)
    {
      if r !in leases { return; }
      ClientStepsOk(State(), r, asks[r], lockFree, room);
      leases := leases - {r};
      if lockFree {
        requests := requests - {r};
      }
      if room {
        outbound := outbound + [ReleaseMessage(r, asks[r].run)];
      }
    }
  }
}
