/** Agreement of the local IPC over an untrusted byte channel: any number of client calls
    and server connections of one listener, any interleaving, and a channel that may drop,
    reorder, duplicate, redirect and invent frames, but cannot build MACs. */
module IpcAgreement {
  import opened Wrappers
  import opened Ipc

  /** `sent` holds every MAC that was ever put on the wire, `used` every nonce. */
  datatype System = System(clients: seq<Client>, servers: seq<Server>, sent: set<Mac>, used: set<Nonce>)

  const START := System([], [], {}, {})

  datatype Event =
    | Call(nonce: Nonce, payload: Text)
    | Connect
    | ToServer(server: nat, frame: Option<Frame>, nonce: Nonce)
    | ToClient(client: nat, frame: Option<Frame>)
    | HandlerDone(server: nat, ok: bool, data: int, fits: bool)
    | GiveUp(client: nat)

  /** A frame can be delivered if its MAC was sent before, is forged or is absent. */
  predicate Deliverable(s: System, frame: Option<Frame>) {
    frame.Some? && frame.value.mac.Some? ==> frame.value.mac.value in s.sent || frame.value.mac.value.Forged?
  }

  function MacOf(frame: Option<Frame>): set<Mac> {
    if frame.Some? && frame.value.mac.Some? then {frame.value.mac.value} else {}
  }

  function NonceOf(frame: Option<Frame>): set<Nonce> {
    if frame.Some? && frame.value.nonce.Some? then {frame.value.nonce.value} else {}
  }

  /** Nonces are 32 random bytes: a new one differs from every nonce seen before. */
  function Step(s: System, e: Event): System {
    match e
    case Call(nonce, payload) =>
      if nonce in s.used then s
      else s.(clients := s.clients + [Client("", AwaitingServer, nonce, payload, 0, Unfinished)], used := s.used + {nonce})
    case Connect => s.(servers := s.servers + [FRESH_SERVER])
    case ToServer(k, frame, nonce) =>
      if k >= |s.servers| || s.servers[k].destroyed || !Deliverable(s, frame) || nonce in s.used + NonceOf(frame) then s
      else
        var (server, reply) := s.servers[k].OnFrame(frame, nonce);
        System(s.clients, s.servers[k := server], s.sent + MacOf(reply), s.used + NonceOf(frame) + {nonce})
    case ToClient(c, frame) =>
      if c >= |s.clients| || !Deliverable(s, frame) then s
      else
        var (client, request) := s.clients[c].OnFrame(frame);
        System(s.clients[c := client], s.servers, s.sent + MacOf(request), s.used + NonceOf(frame))
    case HandlerDone(k, ok, data, fits) =>
      if k >= |s.servers| then s
      else
        var (server, response) := s.servers[k].OnHandler(ok, data, fits);
        s.(servers := s.servers[k := server], sent := s.sent + MacOf(response))
    case GiveUp(c) =>
      if c >= |s.clients| then s else s.(clients := s.clients[c := s.clients[c].Finish(Failed)])
  }

  function Run(s: System, events: seq<Event>): System
    decreases |events|
  {
    if events == [] then s else Run(Step(s, events[0]), events[1..])
  }

  // ------------------------------------------------------------- the invariant

  /** Server connection `k` belongs to the pair of nonces. */
  predicate Bound(s: System, k: nat, client: Nonce, server: Nonce) {
    k < |s.servers| && s.servers[k].phase != AwaitingHello && s.servers[k].clientNonce == client && s.servers[k].serverNonce == server
  }

  ghost predicate NoncesDiffer(s: System) {
    && (forall c :: 0 <= c < |s.clients| ==> s.clients[c].nonce in s.used)
    && (forall k :: 0 <= k < |s.servers| && s.servers[k].phase != AwaitingHello ==> s.servers[k].serverNonce in s.used)
    && (forall c, d :: 0 <= c < d < |s.clients| ==> s.clients[c].nonce != s.clients[d].nonce)
    && (forall k, l :: 0 <= k < l < |s.servers| && s.servers[k].phase != AwaitingHello && s.servers[l].phase != AwaitingHello ==>
          s.servers[k].serverNonce != s.servers[l].serverNonce)
  }

  /** Every MAC on the wire was built by the party its parts speak of. */
  ghost predicate MacOrigin(s: System, m: Mac) {
    match m
    case HelloMac(cn, sn) => exists k: nat :: Bound(s, k, cn, sn)
    case RequestMac(cn, sn, p) =>
      exists c: nat :: c < |s.clients| && s.clients[c].phase == AwaitingResponse
        && s.clients[c].nonce == cn && s.clients[c].serverNonce == sn && s.clients[c].payload == p
    case ResponseMac(cn, sn, t) => exists k: nat :: Bound(s, k, cn, sn) && s.servers[k].answer == Some(t)
    case Forged(_) => false
  }

  ghost predicate MacsGenuine(s: System) {
    forall m :: m in s.sent ==> MacOrigin(s, m)
  }

  predicate ServerKept(s: System, server: Server) {
    && (server.phase != Done ==> server.handled.None?)
    && (server.handled.Some? ==> RequestMac(server.clientNonce, server.serverNonce, server.handled.value) in s.sent)
    && (server.calls == if server.handled.Some? then 1 else 0)
    && (server.answer.Some? ==> server.handled.Some? && server.handled.value.RequestText? && server.answer.value.ReplyText?
                                && server.answer.value.id == server.handled.value.id)
  }

  predicate ClientKept(s: System, client: Client) {
    && (client.phase == AwaitingResponse ==> HelloMac(client.nonce, client.serverNonce) in s.sent)
    && (client.outcome.Resolved? ==>
          client.phase == AwaitingResponse
          && ResponseMac(client.nonce, client.serverNonce, ReplyText(1, true, client.outcome.data)) in s.sent)
  }

  ghost predicate PartiesKept(s: System) {
    && (forall k :: 0 <= k < |s.servers| ==> ServerKept(s, s.servers[k]))
    && (forall c :: 0 <= c < |s.clients| ==> ClientKept(s, s.clients[c]))
  }

  ghost predicate Inv(s: System) {
    NoncesDiffer(s) && MacsGenuine(s) && PartiesKept(s)
  }

  // ----------------------------------------------------------------- the proof

  /** What a party once said about itself stays true of it. */
  ghost predicate Grows(s: System, s': System) {
    && |s.clients| <= |s'.clients| && |s.servers| <= |s'.servers| && s.sent <= s'.sent
    && (forall c :: 0 <= c < |s.clients| && s.clients[c].phase == AwaitingResponse ==>
          s'.clients[c].phase == AwaitingResponse && s'.clients[c].nonce == s.clients[c].nonce
          && s'.clients[c].serverNonce == s.clients[c].serverNonce && s'.clients[c].payload == s.clients[c].payload)
    && (forall k :: 0 <= k < |s.servers| && s.servers[k].phase != AwaitingHello ==>
          s'.servers[k].phase != AwaitingHello && s'.servers[k].clientNonce == s.servers[k].clientNonce
          && s'.servers[k].serverNonce == s.servers[k].serverNonce
          && (s.servers[k].answer.Some? ==> s'.servers[k].answer == s.servers[k].answer))
  }

  lemma OriginsStay(s: System, s': System, m: Mac)
    requires Grows(s, s') && MacOrigin(s, m)
    ensures MacOrigin(s', m)
  {
    match m
    case HelloMac(cn, sn) =>
      var k: nat :| Bound(s, k, cn, sn);
      assert Bound(s', k, cn, sn);
    case RequestMac(cn, sn, p) =>
      var c: nat :| c < |s.clients| && s.clients[c].phase == AwaitingResponse
        && s.clients[c].nonce == cn && s.clients[c].serverNonce == sn && s.clients[c].payload == p;
      assert s'.clients[c].phase == AwaitingResponse;
    case ResponseMac(cn, sn, t) =>
      var k: nat :| Bound(s, k, cn, sn) && s.servers[k].answer == Some(t);
      assert Bound(s', k, cn, sn) && s'.servers[k].answer == Some(t);
  }

  lemma MacsStayGenuine(s: System, s': System)
    requires MacsGenuine(s) && Grows(s, s')
    requires forall m :: m in s'.sent && m !in s.sent ==> MacOrigin(s', m)
    ensures MacsGenuine(s')
  {
    forall m | m in s'.sent
      ensures MacOrigin(s', m)
    {
      if m in s.sent {
        OriginsStay(s, s', m);
      }
    }
  }

  lemma ToServerKeeps(s: System, k: nat, frame: Option<Frame>, nonce: Nonce)
    requires Inv(s)
    ensures Inv(Step(s, ToServer(k, frame, nonce)))
  {
    var s' := Step(s, ToServer(k, frame, nonce));
    if s' != s {
      var (server, reply) := s.servers[k].OnFrame(frame, nonce);
      if reply.Some? {
        assert Bound(s', k, server.clientNonce, server.serverNonce);
      }
      MacsStayGenuine(s, s');
    }
  }

  lemma ToClientKeeps(s: System, c: nat, frame: Option<Frame>)
    requires Inv(s)
    ensures Inv(Step(s, ToClient(c, frame)))
  {
    var s' := Step(s, ToClient(c, frame));
    if s' != s {
      var (client, request) := s.clients[c].OnFrame(frame);
      if request.Some? {
        assert s'.clients[c] == client && client.phase == AwaitingResponse;
      }
      MacsStayGenuine(s, s');
    }
  }

  lemma HandlerDoneKeeps(s: System, k: nat, ok: bool, data: int, fits: bool)
    requires Inv(s)
    ensures Inv(Step(s, HandlerDone(k, ok, data, fits)))
  {
    var s' := Step(s, HandlerDone(k, ok, data, fits));
    if k < |s.servers| {
      var (server, response) := s.servers[k].OnHandler(ok, data, fits);
      if response.Some? {
        assert Bound(s', k, server.clientNonce, server.serverNonce);
      }
      MacsStayGenuine(s, s');
    }
  }

  lemma StepKeepsInv(s: System, e: Event)
    requires Inv(s)
    ensures Inv(Step(s, e))
  {
    match e
    case ToServer(k, frame, nonce) => ToServerKeeps(s, k, frame, nonce);
    case ToClient(c, frame) => ToClientKeeps(s, c, frame);
    case HandlerDone(k, ok, data, fits) => HandlerDoneKeeps(s, k, ok, data, fits);
    case Call(_, _) => MacsStayGenuine(s, Step(s, e));
    case Connect => MacsStayGenuine(s, Step(s, e));
    case GiveUp(_) => MacsStayGenuine(s, Step(s, e));
  }

  lemma {:induction false} RunKeepsInv(s: System, events: seq<Event>)
    requires Inv(s)
    ensures Inv(Run(s, events))
    decreases |events|
  {
    if events != [] {
      StepKeepsInv(s, events[0]);
      RunKeepsInv(Step(s, events[0]), events[1..]);
    }
  }

  // --------------------------------------------------------------- the theorems

  /** Connection `k` ran the handler for exactly the exchange that call `c` made. */
  predicate Matches(s: System, c: nat, k: nat) {
    && c < |s.clients| && k < |s.servers|
    && s.servers[k].clientNonce == s.clients[c].nonce && s.servers[k].serverNonce == s.clients[c].serverNonce
    && s.servers[k].handled == Some(s.clients[c].payload)
  }

  /** A call that resolves got the handler's own answer to the payload it sent: there is a
      connection that was called with that payload and answered with that data. */
  lemma ResolvedCallsAgree(events: seq<Event>, c: nat)
    ensures var s := Run(START, events);
            c < |s.clients| && s.clients[c].outcome.Resolved? ==>
              exists k: nat :: Matches(s, c, k) && s.servers[k].answer == Some(ReplyText(1, true, s.clients[c].outcome.data))
  {
    RunKeepsInv(START, events);
    var s := Run(START, events);
    if c < |s.clients| && s.clients[c].outcome.Resolved? {
      var cn, sn := s.clients[c].nonce, s.clients[c].serverNonce;
      assert MacOrigin(s, ResponseMac(cn, sn, ReplyText(1, true, s.clients[c].outcome.data)));
      var k: nat :| Bound(s, k, cn, sn) && s.servers[k].answer == Some(ReplyText(1, true, s.clients[c].outcome.data));
      RequestComesFrom(s, k, c);
    }
  }

  lemma RequestComesFrom(s: System, k: nat, c: nat)
    requires Inv(s) && k < |s.servers| && s.servers[k].handled.Some? && c < |s.clients|
    requires s.servers[k].clientNonce == s.clients[c].nonce
    ensures s.servers[k].handled == Some(s.clients[c].payload)
  {
    var server := s.servers[k];
    assert ServerKept(s, server);
    assert MacOrigin(s, RequestMac(server.clientNonce, server.serverNonce, server.handled.value));
  }

  /** Every handler call was asked for by a call of this run, with exactly its payload, and
      a connection runs its handler at most once. */
  lemma HandlersRunForCallers(events: seq<Event>, k: nat)
    ensures var s := Run(START, events);
            k < |s.servers| ==>
              && s.servers[k].calls <= 1
              && (s.servers[k].calls == 1 ==> exists c: nat :: Matches(s, c, k))
  {
    RunKeepsInv(START, events);
    var s := Run(START, events);
    if k < |s.servers| {
      assert ServerKept(s, s.servers[k]);
      if s.servers[k].handled.Some? {
        var server := s.servers[k];
        assert MacOrigin(s, RequestMac(server.clientNonce, server.serverNonce, server.handled.value));
        var c: nat :| c < |s.clients| && s.clients[c].phase == AwaitingResponse
          && s.clients[c].nonce == server.clientNonce && s.clients[c].serverNonce == server.serverNonce
          && s.clients[c].payload == server.handled.value;
        assert Matches(s, c, k);
      }
    }
  }

  /** The matching is one to one: replaying a request to other connections never makes a
      second handler call for the same call, nor one handler call serve two calls. */
  lemma MatchingIsOneToOne(events: seq<Event>, c: nat, d: nat, k: nat, l: nat)
    ensures var s := Run(START, events);
            Matches(s, c, k) && Matches(s, d, l) ==> (c == d <==> k == l)
  {
    RunKeepsInv(START, events);
    var s := Run(START, events);
    if Matches(s, c, k) && Matches(s, d, l) {
      assert ServerKept(s, s.servers[k]) && ServerKept(s, s.servers[l]);
      assert s.servers[k].phase == Done && s.servers[l].phase == Done;
    }
  }

  lemma SettledStep(s: System, e: Event, c: nat)
    requires c < |s.clients| && s.clients[c].outcome != Unfinished
    ensures c < |Step(s, e).clients| && Step(s, e).clients[c].outcome == s.clients[c].outcome
  {
  }

  /** A call settles once: whatever arrives or fails later, its outcome stays. */
  lemma {:induction false} SettledStaysSettled(s: System, events: seq<Event>, c: nat)
    requires c < |s.clients| && s.clients[c].outcome != Unfinished
    ensures c < |Run(s, events).clients| && Run(s, events).clients[c].outcome == s.clients[c].outcome
    decreases |events|
  {
    if events != [] {
      SettledStep(s, events[0], c);
      SettledStaysSettled(Step(s, events[0]), events[1..], c);
    }
  }

  lemma HandledStep(s: System, e: Event, k: nat)
    requires k < |s.servers| && s.servers[k].phase == Done
    ensures var s' := Step(s, e);
      && k < |s'.servers| && s'.servers[k].phase == Done
      && s'.servers[k].calls == s.servers[k].calls && s'.servers[k].handled == s.servers[k].handled
      && (s.servers[k].answer.Some? ==> s'.servers[k].answer == s.servers[k].answer)
  {
  }

  /** A connection is used up by its first request, accepted or not: it never calls the
      handler again, and an answer that it gave stays its answer. */
  lemma {:induction false} ConnectionsAreOneUse(s: System, events: seq<Event>, k: nat)
    requires k < |s.servers| && s.servers[k].phase == Done
    ensures var t := Run(s, events);
      && k < |t.servers| && t.servers[k].calls == s.servers[k].calls && t.servers[k].handled == s.servers[k].handled
      && (s.servers[k].answer.Some? ==> t.servers[k].answer == s.servers[k].answer)
    decreases |events|
  {
    if events != [] {
      HandledStep(s, events[0], k);
      ConnectionsAreOneUse(Step(s, events[0]), events[1..], k);
    }
  }
}
