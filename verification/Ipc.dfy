/** Both ends of one authenticated IPC exchange (src/ipc/server.ts, src/ipc/client.ts).

    A MAC is a term: it can be compared, copied and replayed, but only built by someone who
    holds the token. `ipcMac` hashes the JSON array of its domain and parts, which is
    injective, so the terms of different domains or parts differ. */
module Ipc {
  import opened Wrappers
  import opened IpcFrames

  type Nonce = nat

  /** The JSON texts that travel as payloads. */
  datatype Text =
    | RequestText(id: int, cmd: string, args: int)
    | ReplyText(id: int, ok: bool, data: int)
    | OtherText(content: int)

  datatype Mac =
    | HelloMac(client: Nonce, server: Nonce)
    | RequestMac(client: Nonce, server: Nonce, payload: Text)
    | ResponseMac(client: Nonce, server: Nonce, payload: Text)
    | Forged(content: int)

  /** A parsed line: the fields the handlers look at, where absent or ill-typed is `None`. */
  datatype Frame = Frame(version: int, nonce: Option<Nonce>, payload: Option<Text>, mac: Option<Mac>)

  // ---------------------------------------------------------------- the server

  datatype ServerPhase = AwaitingHello | AwaitingRequest | Done

  /** `handled` is the payload the handler was called with and `calls` how often it was
      called; `answer` is the response text that was put on the wire. */
  datatype Server = Server(
    buffer: string,
    phase: ServerPhase,
    clientNonce: Nonce,
    serverNonce: Nonce,
    destroyed: bool,
    calls: nat,
    handled: Option<Text>,
    answer: Option<Text>) {

    function Destroy(): Server {
      this.(destroyed := true)
    }

    /** One parsed line; `None` when it is not JSON. `nonce` is the fresh random nonce. */
    function OnFrame(frame: Option<Frame>, nonce: Nonce): (Server, Option<Frame>) {
      if phase == Done || frame.None? then (Destroy(), None)
      else
        var f := frame.value;
        if phase == AwaitingHello then
          if f.version != 1 || f.nonce.None? then (Destroy(), None)
          else
            (this.(clientNonce := f.nonce.value, serverNonce := nonce, phase := AwaitingRequest),
             Some(Frame(1, Some(nonce), None, Some(HelloMac(f.nonce.value, nonce)))))
        else
          var s := this.(phase := Done);
          if f.payload.None? || f.mac != Some(RequestMac(clientNonce, serverNonce, f.payload.value)) || !f.payload.value.RequestText?
          then (s.Destroy(), None)
          else (s.(handled := f.payload, calls := calls + 1), None)
    }

    /** The handler's promise settled with a reply; a reply over the bound is not sent. */
    function OnHandler(ok: bool, data: int, fits: bool): (Server, Option<Frame>) {
      if destroyed || handled.None? || !handled.value.RequestText? || answer.Some? then (this, None)
      else if !fits then (Destroy(), None)
      else
        var text := ReplyText(handled.value.id, ok, data);
        (this.(answer := Some(text)),
         Some(Frame(0, None, Some(text), Some(ResponseMac(clientNonce, serverNonce, text)))))
    }

    function OnData(chunk: string, parse: string -> Option<Frame>, nonce: Nonce): (Server, Option<Frame>) {
      if destroyed then (this, None)
      else
        match Feed(buffer, chunk)
        case Pending(b) => (this.(buffer := b), None)
        case Overflow => (Destroy(), None)
        case Line(line, rest) =>
          if rest != "" then (Destroy(), None)
          else this.(buffer := rest).OnFrame(parse(line), nonce)
    }

    function OnChunks(chunks: seq<string>, parse: string -> Option<Frame>, nonce: Nonce): (Server, Option<Frame>)
      decreases |chunks|
    {
      if chunks == [] then (this, None)
      else
        var (s, out) := OnData(chunks[0], parse, nonce);
        if |chunks| == 1 || out.Some? then (s, out) else s.OnChunks(chunks[1..], parse, nonce)
    }
  }

  class ServerConnection {
    var buffer: string
    var phase: ServerPhase
    var clientNonce: Nonce
    var serverNonce: Nonce
    var destroyed: bool
    var calls: nat
    var handled: Option<Text>
    var answer: Option<Text>

    ghost function View(): Server
      reads this
    {
      Server(buffer, phase, clientNonce, serverNonce, destroyed, calls, handled, answer)
    }

    constructor ()
      ensures View() == FRESH_SERVER
    {
      buffer, phase, clientNonce, serverNonce, destroyed, calls, handled, answer := "", AwaitingHello, 0, 0, false, 0, None, None;
    }

    method OnFrame(frame: Option<Frame>, nonce: Nonce) returns (reply: Option<Frame>)
      modifies this
      ensures (View(), reply) == old(View()).OnFrame(frame, nonce)
    {
      reply := None;
      if phase == Done || frame.None? {
        destroyed := true;
        return;
      }
      var f := frame.value;
      if phase == AwaitingHello {
        if f.version != 1 || f.nonce.None? {
          destroyed := true;
          return;
        }
        clientNonce, serverNonce, phase := f.nonce.value, nonce, AwaitingRequest;
        return Some(Frame(1, Some(serverNonce), None, Some(HelloMac(clientNonce, serverNonce))));
      }
      phase := Done;
      if f.payload.None? || f.mac != Some(RequestMac(clientNonce, serverNonce, f.payload.value)) || !f.payload.value.RequestText? {
        destroyed := true;
        return;
      }
      handled, calls := f.payload, calls + 1;
    }

    method OnData(chunk: string, parse: string -> Option<Frame>, nonce: Nonce) returns (reply: Option<Frame>)
      modifies this
      ensures (View(), reply) == old(View()).OnData(chunk, parse, nonce)
    {
      reply := None;
      if destroyed {
        return;
      }
      match Feed(buffer, chunk) {
        case Pending(b) => buffer := b;
        case Overflow => destroyed := true;
        case Line(line, rest) =>
          if rest != "" {
            destroyed := true;
          } else {
            buffer := rest;
            reply := OnFrame(parse(line), nonce);
          }
      }
    }
  }

  const FRESH_SERVER := Server("", AwaitingHello, 0, 0, false, 0, None, None)

  // ---------------------------------------------------------------- the client

  datatype ClientPhase = AwaitingServer | AwaitingResponse

  datatype Outcome = Unfinished | Resolved(data: int) | Failed

  datatype Client = Client(
    buffer: string,
    phase: ClientPhase,
    nonce: Nonce,
    payload: Text,
    serverNonce: Nonce,
    outcome: Outcome) {

    function Finish(o: Outcome): Client {
      if outcome.Unfinished? then this.(outcome := o) else this
    }

    /** One parsed line, with nothing behind it; only its first outcome counts. */
    function OnFrame(frame: Option<Frame>): (Client, Option<Frame>) {
      if !outcome.Unfinished? then (this, None)
      else if frame.None? then (Finish(Failed), None)
      else
        var f := frame.value;
        if phase == AwaitingServer then
          if f.version != 1 || f.nonce.None? || f.mac != Some(HelloMac(nonce, f.nonce.value)) then (Finish(Failed), None)
          else
            (this.(serverNonce := f.nonce.value, phase := AwaitingResponse),
             Some(Frame(0, None, Some(payload), Some(RequestMac(nonce, f.nonce.value, payload)))))
        else if f.payload.None? || f.mac != Some(ResponseMac(nonce, serverNonce, f.payload.value)) then (Finish(Failed), None)
        else
          match f.payload.value
          case ReplyText(id, ok, data) => (Finish(if id == 1 && ok then Resolved(data) else Failed), None)
          case _ => (Finish(Failed), None)
    }

    function OnData(chunk: string, parse: string -> Option<Frame>): (Client, Option<Frame>) {
      if !outcome.Unfinished? then (this, None)
      else
        match Feed(buffer, chunk)
        case Pending(b) => (this.(buffer := b), None)
        case Overflow => (Finish(Failed), None)
        case Line(line, rest) =>
          if rest != "" then (this.(buffer := rest).Finish(Failed), None)
          else this.(buffer := rest).OnFrame(parse(line))
    }

    function OnChunks(chunks: seq<string>, parse: string -> Option<Frame>): (Client, Option<Frame>)
      decreases |chunks|
    {
      if chunks == [] then (this, None)
      else
        var (c, out) := OnData(chunks[0], parse);
        if |chunks| == 1 || out.Some? then (c, out) else c.OnChunks(chunks[1..], parse)
    }
  }

  class ClientCall {
    var buffer: string
    var phase: ClientPhase
    const nonce: Nonce
    const payload: Text
    var serverNonce: Nonce
    var outcome: Outcome

    ghost function View(): Client
      reads this
    {
      Client(buffer, phase, nonce, payload, serverNonce, outcome)
    }

    constructor (nonce: Nonce, payload: Text)
      ensures View() == Client("", AwaitingServer, nonce, payload, 0, Unfinished)
    {
      this.nonce, this.payload := nonce, payload;
      buffer, phase, serverNonce, outcome := "", AwaitingServer, 0, Unfinished;
    }

    method Finish(o: Outcome)
      modifies this`outcome
      ensures View() == old(View()).Finish(o)
    {
      if outcome.Unfinished? {
        outcome := o;
      }
    }

    method OnFrame(frame: Option<Frame>) returns (request: Option<Frame>)
      modifies this
      ensures (View(), request) == old(View()).OnFrame(frame)
    {
      request := None;
      if !outcome.Unfinished? {
        return;
      }
      if frame.None? {
        Finish(Failed);
        return;
      }
      var f := frame.value;
      if phase == AwaitingServer {
        if f.version != 1 || f.nonce.None? || f.mac != Some(HelloMac(nonce, f.nonce.value)) {
          Finish(Failed);
          return;
        }
        serverNonce, phase := f.nonce.value, AwaitingResponse;
        return Some(Frame(0, None, Some(payload), Some(RequestMac(nonce, serverNonce, payload))));
      }
      if f.payload.None? || f.mac != Some(ResponseMac(nonce, serverNonce, f.payload.value)) {
        Finish(Failed);
        return;
      }
      match f.payload.value {
        case ReplyText(id, ok, data) => Finish(if id == 1 && ok then Resolved(data) else Failed);
        case _ => Finish(Failed);
      }
    }

    method OnData(chunk: string, parse: string -> Option<Frame>) returns (request: Option<Frame>)
      modifies this
      ensures (View(), request) == old(View()).OnData(chunk, parse)
    {
      request := None;
      if !outcome.Unfinished? {
        return;
      }
      match Feed(buffer, chunk) {
        case Pending(b) => buffer := b;
        case Overflow => Finish(Failed);
        case Line(line, rest) =>
          buffer := rest;
          if rest != "" {
            Finish(Failed);
          } else {
            request := OnFrame(parse(line));
          }
      }
    }
  }

  // ------------------------------------------------------- chunks do not matter

  /** However the bytes of one bounded line are cut into chunks, the server does what it
      does on that line in one piece. */
  lemma {:induction false} ServerChunking(s: Server, chunks: seq<string>, parse: string -> Option<Frame>, nonce: Nonce, line: string)
    requires !s.destroyed && '\n' !in line && Bytes(line) + 1 <= FRAME_BYTES
    requires chunks != [] && (forall k :: 0 <= k < |chunks| ==> chunks[k] != "")
    requires s.buffer + Concat(chunks) == line + "\n"
    ensures s.OnChunks(chunks, parse, nonce) == s.(buffer := "").OnFrame(parse(line), nonce)
    decreases |chunks|
  {
    var rest := Concat(chunks[1..]);
    assert s.buffer + chunks[0] + rest == line + "\n";
    FeedPrefix(s.buffer, chunks[0], line, rest);
    if |chunks| > 1 {
      assert rest != "" by {
        assert chunks[1..][0] == chunks[1];
      }
      ServerChunking(s.(buffer := s.buffer + chunks[0]), chunks[1..], parse, nonce, line);
    }
  }

  lemma {:induction false} ClientChunking(c: Client, chunks: seq<string>, parse: string -> Option<Frame>, line: string)
    requires c.outcome.Unfinished? && '\n' !in line && Bytes(line) + 1 <= FRAME_BYTES
    requires chunks != [] && (forall k :: 0 <= k < |chunks| ==> chunks[k] != "")
    requires c.buffer + Concat(chunks) == line + "\n"
    ensures c.OnChunks(chunks, parse) == c.(buffer := "").OnFrame(parse(line))
    decreases |chunks|
  {
    var rest := Concat(chunks[1..]);
    assert c.buffer + chunks[0] + rest == line + "\n";
    FeedPrefix(c.buffer, chunks[0], line, rest);
    if |chunks| > 1 {
      assert rest != "" by {
        assert chunks[1..][0] == chunks[1];
      }
      ClientChunking(c.(buffer := c.buffer + chunks[0]), chunks[1..], parse, line);
    }
  }
}
