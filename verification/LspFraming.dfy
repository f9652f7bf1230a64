/** The language server probe (src/setup/componentProbes.ts): frames of the Base Protocol,
    Header Part, of the Language Server Protocol 3.17, cut out of a chunked byte stream. */
module LspFraming {
  import opened Wrappers
  import opened Decimal

  type Bytes = seq<int>

  const CR := 13
  const LF := 10
  const CRLFCRLF: Bytes := [13, 10, 13, 10]

  const MIN_SIZE := 2
  const MAX_SIZE := 1048576
  const BUDGET := 2097152

  /** What `JSON.parse` and the tests on id, method, error and result tell of a content. */
  datatype Kind =
    | Broken
    | InitializeReply(capable: bool)
    | ShutdownReply(ok: bool)
    | Request(id: int, configuration: bool)
    | Notification

  type Json = Bytes -> Kind

  datatype Sent = Initialize | Initialized | ShutdownRequest | Exit | Answer(id: int, configuration: bool)

  // ------------------------------------------------------------------ the header

  /** `toString('ascii')` drops the eighth bit. */
  function Ascii(b: int): int {
    b % 128
  }

  predicate IsSpace(u: int) {
    9 <= u <= 13 || u == 32
  }

  predicate IsNewline(u: int) {
    u == CR || u == LF
  }

  function Lower(u: int): int {
    if 65 <= u <= 90 then u + 32 else u
  }

  /** `content-length:` */
  const NAME: Text := [99, 111, 110, 116, 101, 110, 116, 45, 108, 101, 110, 103, 116, 104, 58]

  /** Does `h` start with `name` but for case? */
  predicate StartsWith(h: Text, name: Text) {
    name == [] || (h != [] && Lower(h[0]) == name[0] && StartsWith(h[1..], name[1..]))
  }

  function SkipSpaces(h: Text): (r: Text)
    ensures |r| <= |h| && r == h[|h| - |r|..]
  {
    if h != [] && IsSpace(h[0]) then SkipSpaces(h[1..]) else h
  }

  function Digits(h: Text): (r: Text)
    ensures |r| <= |h| && r == h[..|r|] && AllDigits(r)
  {
    if h != [] && IsDigit(h[0]) then
      assert forall k :: 0 <= k < |Digits(h[1..])| + 1 ==> ([h[0]] + Digits(h[1..]))[k] == h[k];
      [h[0]] + Digits(h[1..])
    else []
  }

  /** `\s*$` of a multiline pattern: the blanks reach the end, or contain a line end. */
  predicate EndsLine(h: Text) {
    h == [] || (IsSpace(h[0]) && (IsNewline(h[0]) || EndsLine(h[1..])))
  }

  /** The rest of the pattern behind a line start; no other split of it can match. */
  function MatchLine(h: Text): Option<Text> {
    if |h| < |NAME| || !StartsWith(h, NAME) then None
    else
      var value := SkipSpaces(h[|NAME|..]);
      var digits := Digits(value);
      if digits != [] && EndsLine(value[|digits|..]) then Some(digits) else None
  }

  /** The first match of the pattern `^Content-Length:\s*(\d+)\s*$` with flags i and m. */
  function MatchHeader(h: Text, atLineStart: bool): (digits: Option<Text>)
    ensures digits.Some? ==> digits.value != [] && AllDigits(digits.value)
    decreases |h|
  {
    if atLineStart && MatchLine(h).Some? then MatchLine(h)
    else if h == [] then None
    else MatchHeader(h[1..], IsNewline(h[0]))
  }

  function Decoded(b: Bytes): (t: Text)
    ensures |t| == |b| && forall k :: 0 <= k < |b| ==> t[k] == Ascii(b[k])
  {
    if b == [] then [] else [Ascii(b[0])] + Decoded(b[1..])
  }

  // ------------------------------------------------------------------- one frame

  /** `buffer.indexOf('\r\n\r\n')`. */
  function HeaderEnd(b: Bytes): (end: Option<nat>)
    ensures end.Some? ==> end.value + 4 <= |b| && b[end.value..end.value + 4] == CRLFCRLF
  {
    if |b| < 4 then None
    else if b[..4] == CRLFCRLF then Some(0)
    else
      var rest := HeaderEnd(b[1..]);
      if rest.None? then None else Some(rest.value + 1)
  }

  datatype Cut = Incomplete | Malformed | Complete(content: Bytes, rest: Bytes)

  function CutFrame(b: Bytes): (cut: Cut)
    ensures cut.Complete? ==> |cut.rest| + 4 + MIN_SIZE <= |b|
  {
    var end := HeaderEnd(b);
    if end.None? then Incomplete
    else
      var digits := MatchHeader(Decoded(b[..end.value]), true);
      if digits.None? then Malformed
      else
        var size := Value(digits.value);
        if size < MIN_SIZE || size > MAX_SIZE then Malformed
        else
          var body := b[end.value + 4..];
          if |body| < size then Incomplete else Complete(body[..size], body[size..])
  }

  // ------------------------------------------------------------------ the probe

  /** `received` is bookkeeping of the model: the contents handled so far. */
  datatype Probe = Probe(
    buffer: Bytes,
    total: nat,
    failed: bool,
    initialized: bool,
    shutdown: bool,
    received: seq<Bytes>,
    sent: seq<Sent>)

  const START := Probe([], 0, false, false, false, [], [Initialize])

  function Handle(p: Probe, content: Bytes, json: Json): (r: Probe)
    ensures r.buffer == p.buffer && r.total == p.total
  {
    var p := p.(received := p.received + [content]);
    match json(content)
    case Broken => p.(failed := true)
    case InitializeReply(capable) =>
      if capable then p.(initialized := true, sent := p.sent + [Initialized, ShutdownRequest]) else p.(failed := true)
    case ShutdownReply(ok) =>
      if p.initialized && ok then p.(shutdown := true, sent := p.sent + [Exit]) else p.(failed := true)
    case Request(id, configuration) => p.(sent := p.sent + [Answer(id, configuration)])
    case Notification => p
  }

  /** The read loop: handle complete frames until none is left or one fails. */
  function Drain(p: Probe, json: Json): Probe
    decreases |p.buffer|
  {
    if p.failed then p
    else
      match CutFrame(p.buffer)
      case Incomplete => p
      case Malformed => p.(failed := true)
      case Complete(content, rest) => Drain(Handle(p.(buffer := rest), content, json), json)
  }

  lemma DrainStep(p: Probe, cut: Cut, json: Json)
    requires !p.failed && cut == CutFrame(p.buffer)
    ensures cut.Incomplete? ==> Drain(p, json) == p
    ensures cut.Malformed? ==> Drain(p, json) == p.(failed := true) == Drain(p.(failed := true), json)
    ensures cut.Complete? ==> |cut.rest| < |p.buffer| && Drain(p, json) == Drain(Handle(p.(buffer := cut.rest), cut.content, json), json)
  {
  }

  lemma DrainOfFailed(p: Probe, json: Json)
    ensures p.failed ==> Drain(p, json) == p
  {
  }

  function Received(p: Probe, chunk: Bytes): Probe {
    p.(total := p.total + |chunk|, buffer := p.buffer + chunk)
  }

  function OnData(p: Probe, chunk: Bytes, json: Json): Probe {
    if p.total + |chunk| > BUDGET then p.(total := p.total + |chunk|, failed := true)
    else Drain(Received(p, chunk), json)
  }

  function Feed(p: Probe, chunks: seq<Bytes>, json: Json): Probe
    decreases |chunks|
  {
    if chunks == [] then p else Feed(OnData(p, chunks[0], json), chunks[1..], json)
  }

  /** How the probe ends when the server exits. */
  predicate Passes(p: Probe, exitCode: int) {
    !p.failed && p.initialized && p.shutdown && exitCode == 0
  }

  class LanguageServerProbe {
    const json: Json
    var buffer: Bytes
    var total: nat
    var failed: bool
    var initialized: bool
    var shutdown: bool
    var sent: seq<Sent>
    ghost var received: seq<Bytes>

    ghost function State(): Probe
      reads this
    {
      Probe(buffer, total, failed, initialized, shutdown, received, sent)
    }

    constructor (json: Json)
      ensures State() == START && this.json == json
    {
      this.json := json;
      buffer, total, failed, initialized, shutdown, sent, received := [], 0, false, false, false, [Initialize], [];
    }

    method Data(chunk: Bytes)
      modifies this
      ensures State() == OnData(old(State()), chunk, json)
    {
      total := total + |chunk|;
      if total > BUDGET {
        failed := true;
        assert State() == old(State()).(total := old(total) + |chunk|, failed := true);
        return;
      }
      buffer := buffer + chunk;
      assert State() == Received(old(State()), chunk);
      ReadFrames();
    }

    method ReadFrames()
      modifies this
      ensures State() == Drain(old(State()), json)
    {
      ghost var goal := Drain(State(), json);
      var more := true;
      while !failed && more
        invariant Drain(State(), json) == goal
        invariant !more ==> State() == goal
        decreases more, |buffer|
      {
        more := ReadFrame();
      }
      DrainOfFailed(State(), json);
    }

    /** One round of the read loop; `more` says whether there may be another. */
    method ReadFrame() returns (more: bool)
      requires !failed
      modifies this
      ensures Drain(State(), json) == Drain(old(State()), json)
      ensures if more then |buffer| < old(|buffer|) else State() == Drain(State(), json)
    {
      var cut := CutFrame(buffer);
      DrainStep(State(), cut, json);
      if cut.Incomplete? {
        return false;
      }
      if cut.Malformed? {
        failed := true;
        return false;
      }
      buffer := cut.rest;
      HandleMessage(cut.content);
      more := true;
    }

    method HandleMessage(content: Bytes)
      modifies this
      ensures State() == Handle(old(State()), content, json)
    {
      received := received + [content];
      match json(content)
      case Broken =>
        failed := true;
      case InitializeReply(capable) =>
        if !capable {
          failed := true;
          return;
        }
        initialized := true;
        sent := sent + [Initialized, ShutdownRequest];
      case ShutdownReply(ok) =>
        if !initialized || !ok {
          failed := true;
          return;
        }
        shutdown := true;
        sent := sent + [Exit];
      case Request(id, configuration) =>
        sent := sent + [Answer(id, configuration)];
      case Notification =>
    }

    method Close(exitCode: int) returns (passed: bool)
      ensures passed == Passes(State(), exitCode)
    {
      passed := !failed && initialized && shutdown && exitCode == 0;
    }
  }
}
