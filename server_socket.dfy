/**
 * The listening side of the server: Open starts the accept loop once, and the
 * loop registers and starts one connection handler per accepted client,
 * surviving every exception raised while doing so.
 *
 * Sockets and greenlets are not modelled: accept attempts arrive as a finite
 * sequence of outcomes, and listening and starting are recorded as effects.
 */
module ServerSocket {

  import opened Wrappers
  import opened Messages

  /** A peer address as returned by accept(). */
  type Address(==)

  /** A connected client socket as returned by accept(). */
  type ClientSocket(==)

  /** How one iteration of the accept loop went. */
  datatype AcceptAttempt =
    | AcceptRaised                                // socket.accept() raised
    | SetupRaised(addr: Address)                  // wrapping the socket or building its handler raised
    | Accepted(addr: Address, socket: ClientSocket)

  /** A _ClientConnectionHandler: the client it serves. */
  datatype ClientConnection = ClientConnection(addr: Address, socket: ClientSocket)

  /** The observable effects of the listener, in order. */
  datatype Effect =
    | Listen(backlog: int)
    | StartAcceptLoop(name: string)
    | StartClient(addr: Address)

  /**
   * The accept-loop greenlet: its name and whether it was started. A greenlet
   * is true as a condition only while it runs, and the accept loop never ends,
   * so a started one stays true.
   */
  datatype Greenlet = Greenlet(name: string, started: bool)

  /** How a call of Open ended: it returned a result, or socket.listen() raised out of it. */
  datatype OpenOutcome = Returned(result: AsyncResult) | ListenRaised

  /** The listen backlog Open asks for. */
  const ListenBacklog: int := 1000

  /**
   * One iteration of the accept loop, on the registry: it removes no address
   * and adds at most the accepted one.
   */
  function AcceptStep(clients: map<Address, ClientConnection>, a: AcceptAttempt): (r: map<Address, ClientConnection>)
    ensures clients.Keys <= r.Keys
    ensures r.Keys - clients.Keys <= (if a.Accepted? then {a.addr} else {})
  {
    if a.Accepted? then clients[a.addr := ClientConnection(a.addr, a.socket)] else clients
  }

  /** The effects of one iteration: starting the client it registered, if any. */
  function StepEffects(a: AcceptAttempt): seq<Effect>
  {
    if a.Accepted? then [StartClient(a.addr)] else []
  }

  /**
   * The registry after a run of iterations, in order. Nothing ever removes a
   * client, so the registry only grows, by at most one address per iteration.
   */
  function AcceptAll(clients: map<Address, ClientConnection>, attempts: seq<AcceptAttempt>): (r: map<Address, ClientConnection>)
    ensures clients.Keys <= r.Keys
    ensures |r.Keys| <= |clients.Keys| + |attempts|
    decreases |attempts|
  {
    if attempts == [] then clients
    else AcceptStep(AcceptAll(clients, attempts[..|attempts| - 1]), attempts[|attempts| - 1])
  }

  /** The effects of a run of iterations, in order. */
  function AllEffects(attempts: seq<AcceptAttempt>): seq<Effect>
    decreases |attempts|
  {
    if attempts == [] then []
    else AllEffects(attempts[..|attempts| - 1]) + StepEffects(attempts[|attempts| - 1])
  }

  /** Whether iteration i registered a client under addr. */
  predicate RegistersAt(attempts: seq<AcceptAttempt>, i: int, addr: Address)
  {
    0 <= i < |attempts| && attempts[i].Accepted? && attempts[i].addr == addr
  }

  /** Running two stretches of the loop one after the other is running them together. */
  lemma {:induction false} AcceptAllAppend(clients: map<Address, ClientConnection>, s: seq<AcceptAttempt>, t: seq<AcceptAttempt>)
    ensures AcceptAll(clients, s + t) == AcceptAll(AcceptAll(clients, s), t)
    ensures AllEffects(s + t) == AllEffects(s) + AllEffects(t)
    decreases |t|
  {
    if t == [] {
      assert s + t == s;
    } else {
      var t' := t[..|t| - 1];
      assert (s + t)[..|s + t| - 1] == s + t';
      assert (s + t)[|s + t| - 1] == t[|t| - 1];
      AcceptAllAppend(clients, s, t');
    }
  }

  /** An iteration that raised changes nothing: the loop carries on from the same registry. */
  lemma FailedAttemptChangesNothing(clients: map<Address, ClientConnection>, s: seq<AcceptAttempt>,
                                    a: AcceptAttempt, t: seq<AcceptAttempt>)
    requires !a.Accepted?
    ensures AcceptAll(clients, s + [a] + t) == AcceptAll(clients, s + t)
    ensures AllEffects(s + [a] + t) == AllEffects(s + t)
  {
    AcceptAllAppend(clients, s + [a], t);
    AcceptAllAppend(clients, s, t);
    assert (s + [a])[..|s + [a]| - 1] == s;
  }

  /** An address is registered afterwards exactly when it was before or some iteration registered it. */
  lemma {:induction false} AcceptAllKeys(clients: map<Address, ClientConnection>, attempts: seq<AcceptAttempt>, addr: Address)
    ensures addr in AcceptAll(clients, attempts) <==>
      addr in clients || exists i :: RegistersAt(attempts, i, addr)
    decreases |attempts|
  {
    if attempts != [] {
      var n := |attempts| - 1;
      var s := attempts[..n];
      AcceptAllKeys(clients, s, addr);
      if exists i :: RegistersAt(s, i, addr) {
        var i :| RegistersAt(s, i, addr);
        assert RegistersAt(attempts, i, addr);
      }
      if exists i :: RegistersAt(attempts, i, addr) {
        var i :| RegistersAt(attempts, i, addr);
        if i < n {
          assert RegistersAt(s, i, addr);
        }
      }
      if RegistersAt(attempts, n, addr) {
        assert exists i :: RegistersAt(attempts, i, addr);
      }
    }
  }

  /** The entry under an address is the client of the last iteration that registered it. */
  lemma {:induction false} AcceptAllLatest(clients: map<Address, ClientConnection>, attempts: seq<AcceptAttempt>, i: int)
    requires 0 <= i < |attempts| && attempts[i].Accepted?
    requires forall j :: i < j < |attempts| ==> !RegistersAt(attempts, j, attempts[i].addr)
    ensures attempts[i].addr in AcceptAll(clients, attempts)
    ensures AcceptAll(clients, attempts)[attempts[i].addr] == ClientConnection(attempts[i].addr, attempts[i].socket)
    decreases |attempts|
  {
    var n := |attempts| - 1;
    if i < n {
      var s := attempts[..n];
      forall j | i < j < |s| ensures !RegistersAt(s, j, attempts[i].addr) {
        assert !RegistersAt(attempts, j, attempts[i].addr);
      }
      AcceptAllLatest(clients, s, i);
      assert !RegistersAt(attempts, n, attempts[i].addr);
    }
  }

  /** An address no iteration registered keeps whatever entry it had. */
  lemma {:induction false} AcceptAllUntouched(clients: map<Address, ClientConnection>, attempts: seq<AcceptAttempt>, addr: Address)
    requires addr in clients
    requires forall j :: 0 <= j < |attempts| ==> !RegistersAt(attempts, j, addr)
    ensures addr in AcceptAll(clients, attempts) && AcceptAll(clients, attempts)[addr] == clients[addr]
    decreases |attempts|
  {
    if attempts != [] {
      var n := |attempts| - 1;
      var s := attempts[..n];
      forall j | 0 <= j < |s| ensures !RegistersAt(s, j, addr) {
        assert !RegistersAt(attempts, j, addr);
      }
      AcceptAllUntouched(clients, s, addr);
      assert !RegistersAt(attempts, n, addr);
    }
  }

  /**
   * The loop starts one client per registering iteration and nothing else, and
   * it starts a client for an address exactly when some iteration registered it.
   */
  lemma {:induction false} AllEffectsStartsRegistered(attempts: seq<AcceptAttempt>, addr: Address)
    ensures |AllEffects(attempts)| == |set i | 0 <= i < |attempts| && attempts[i].Accepted?|
    ensures forall e <- AllEffects(attempts) :: e.StartClient?
    ensures StartClient(addr) in AllEffects(attempts) <==> exists i :: RegistersAt(attempts, i, addr)
    decreases |attempts|
  {
    if attempts != [] {
      var n := |attempts| - 1;
      var s := attempts[..n];
      AllEffectsStartsRegistered(s, addr);
      if exists i :: RegistersAt(s, i, addr) {
        var i :| RegistersAt(s, i, addr);
        assert RegistersAt(attempts, i, addr);
      }
      if exists i :: RegistersAt(attempts, i, addr) {
        var i :| RegistersAt(attempts, i, addr);
        if i < n {
          assert RegistersAt(s, i, addr);
        }
      }
      if RegistersAt(attempts, n, addr) {
        assert exists i :: RegistersAt(attempts, i, addr);
      }
      var before := set i | 0 <= i < |s| && s[i].Accepted?;
      var after := set i | 0 <= i < |attempts| && attempts[i].Accepted?;
      assert before == set i | 0 <= i < n && attempts[i].Accepted?;
      if attempts[n].Accepted? {
        assert after == before + {n};
      } else {
        assert after == before;
      }
    }
  }

  /** The decimal digits of a natural number, as str() writes them. */
  function DecimalString(n: nat): (s: string)
    ensures |s| >= 1
    ensures forall c <- s :: '0' <= c <= '9'
    decreases n
  {
    if n < 10 then [Digit(n)] else DecimalString(n / 10) + [Digit(n % 10)]
  }

  function Digit(d: nat): (c: char)
    requires d < 10
    ensures '0' <= c <= '9'
  {
    (48 + d) as char
  }

  class ThriftMuxServerSocketSink {
    const service: string
    const host: string
    const port: nat
    /** The accept-loop greenlet, once Open has created it. */
    var acceptor: Option<Greenlet>
    /** The registry of client handlers, by peer address. */
    var clients: map<Address, ClientConnection>
    /** What the listener has done, in order. */
    var effects: seq<Effect>

    constructor (service: string, host: string, port: nat)
      ensures this.service == service && this.host == host && this.port == port
      ensures acceptor == None && clients == map[] && effects == []
    {
      this.service := service;
      this.host := host;
      this.port := port;
      acceptor := None;
      clients := map[];
      effects := [];
    }

    /** "host:port", the socket source used in names and logs. */
    function SocketSource(): string
      reads this
    {
      host + ":" + DecimalString(port)
    }

    /** The name Open gives the accept-loop greenlet. */
    function AcceptLoopName(): string
      reads this
    {
      "Scales AcceptLoop for " + service + " [" + SocketSource() + "]"
    }

    /** `if not self._acceptor`: no accept loop has been created, or the one created was never started. */
    predicate NeedsAcceptor()
      reads this
    {
      acceptor.None? || !acceptor.value.started
    }

    /**
     * Open, with `listenOk` saying whether socket.listen() returns. While no
     * accept loop runs, a call creates and names a new one, listens with a
     * backlog of 1000 and starts the loop, returning a completed result. If
     * listen raises, the unstarted loop stays assigned, the exception leaves
     * Open, and a later call tries again. Once the loop runs, a call changes
     * nothing and returns a completed result.
     */
    method Open(listenOk: bool) returns (r: OpenOutcome)
      modifies this`acceptor, this`effects
      ensures old(NeedsAcceptor()) && listenOk ==>
        && r == Returned(CompleteResult())
        && acceptor == Some(Greenlet(AcceptLoopName(), true))
        && effects == old(effects) + [Listen(ListenBacklog), StartAcceptLoop(AcceptLoopName())]
      ensures old(NeedsAcceptor()) && !listenOk ==>
        && r == ListenRaised
        && acceptor == Some(Greenlet(AcceptLoopName(), false))
        && effects == old(effects)
      ensures !old(NeedsAcceptor()) ==>
        r == Returned(CompleteResult()) && acceptor == old(acceptor) && effects == old(effects)
    {
      if NeedsAcceptor() {
        var loop := Greenlet("", false);
        loop := loop.(name := AcceptLoopName());
        acceptor := Some(loop);
        if !listenOk {
          return ListenRaised;
        }
        effects := effects + [Listen(ListenBacklog)];
        loop := loop.(started := true);
        acceptor := Some(loop);
        effects := effects + [StartAcceptLoop(loop.name)];
      }
      r := Returned(CompleteResult());
    }

    /**
     * _AcceptLoop over a finite run of iterations: each accepted client is
     * registered under its address, replacing any earlier entry, and started;
     * an iteration that raised leaves the registry alone and the loop goes on.
     */
    method AcceptLoop(attempts: seq<AcceptAttempt>)
      modifies this`clients, this`effects
      ensures clients == AcceptAll(old(clients), attempts)
      ensures effects == old(effects) + AllEffects(attempts)
    {
      var i := 0;
      while i < |attempts|
        invariant 0 <= i <= |attempts|
        invariant clients == AcceptAll(old(clients), attempts[..i])
        invariant effects == old(effects) + AllEffects(attempts[..i])
      {
        var attempt := attempts[i];
        match attempt {
          case AcceptRaised =>
          case SetupRaised(_) =>
          case Accepted(addr, socket) =>
            var client := ClientConnection(addr, socket);
            clients := clients[addr := client];
            effects := effects + [StartClient(addr)];
        }
        assert attempts[..i + 1][..i] == attempts[..i];
        i := i + 1;
      }
      assert attempts[..i] == attempts;
    }
  }
}
