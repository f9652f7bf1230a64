/** Messages framed as the probe's own `send` frames them come out one by one, in order. */
module LspMessages {
  import opened Wrappers
  import opened Decimal
  import opened LspFraming
  import opened LspChunking

  /** `Content-Length: ` */
  const TITLE: Text := [67, 111, 110, 116, 101, 110, 116, 45, 76, 101, 110, 103, 116, 104, 58, 32]

  function Frame(content: Bytes): Bytes {
    TITLE + Print(|content|) + CRLFCRLF + content
  }

  predicate Fits(content: Bytes) {
    MIN_SIZE <= |content| <= MAX_SIZE
  }

  predicate AllFit(ms: seq<Bytes>) {
    forall i :: 0 <= i < |ms| ==> Fits(ms[i])
  }

  function Stream(ms: seq<Bytes>): Bytes {
    if ms == [] then [] else Frame(ms[0]) + Stream(ms[1..])
  }

  // ------------------------------------------------------------------ the header

  lemma {:induction false} StartsWithWhen(h: Text, name: Text)
    requires |h| >= |name| && forall k :: 0 <= k < |name| ==> Lower(h[k]) == name[k]
    ensures StartsWith(h, name)
  {
    if name != [] {
      assert Lower(h[0]) == name[0];
      forall k | 0 <= k < |name| - 1 ensures Lower(h[1..][k]) == name[1..][k] {
        assert Lower(h[k + 1]) == name[k + 1];
      }
      StartsWithWhen(h[1..], name[1..]);
    }
  }

  lemma {:induction false} DigitsOfNumeral(s: Text)
    requires AllDigits(s)
    ensures Digits(s) == s
  {
    if s != [] {
      assert IsDigit(s[0]);
      DigitsOfNumeral(s[1..]);
    }
  }

  lemma TitleIsName(h: Text)
    requires |h| >= 16 && h[..16] == TITLE
    ensures StartsWith(h, NAME)
  {
    TitleLower();
    forall k | 0 <= k < |NAME| ensures Lower(h[k]) == NAME[k] {
      assert h[k] == h[..16][k];
    }
    StartsWithWhen(h, NAME);
  }

  lemma TitleLower()
    ensures |NAME| == 15 && |TITLE| == 16 && forall k :: 0 <= k < 15 ==> Lower(TITLE[k]) == NAME[k]
  {
  }

  lemma HeaderMatches(n: nat)
    ensures MatchLine(TITLE + Print(n)) == Some(Print(n))
  {
    var h := TITLE + Print(n);
    assert h[..16] == TITLE;
    TitleIsName(h);
    ValueBehindTitle(Print(n));
    DigitsOfNumeral(Print(n));
    assert Print(n)[|Print(n)|..] == [];
  }

  lemma ValueBehindTitle(value: Text)
    requires value != [] && IsDigit(value[0])
    ensures SkipSpaces((TITLE + value)[|NAME|..]) == value
  {
    assert (TITLE + value)[|NAME|..] == [32] + value;
    assert ([32] + value)[1..] == value;
  }

  lemma {:induction false} DecodedAscii(b: Bytes)
    requires forall k :: 0 <= k < |b| ==> 0 <= b[k] < 128
    ensures Decoded(b) == b
  {
  }

  /** A text without CR followed by the blank line: the header ends right there. */
  lemma {:induction false} HeaderEndsThere(h: Bytes, rest: Bytes)
    requires forall k :: 0 <= k < |h| ==> h[k] != CR
    ensures HeaderEnd(h + CRLFCRLF + rest) == Some(|h|)
  {
    var b := h + CRLFCRLF + rest;
    if h == [] {
      assert b[..4] == CRLFCRLF;
    } else {
      assert b[..4][0] != CRLFCRLF[0];
      assert b[1..] == h[1..] + CRLFCRLF + rest;
      HeaderEndsThere(h[1..], rest);
    }
  }

  lemma TitleIsPlain(n: nat)
    ensures forall k :: 0 <= k < |TITLE + Print(n)| ==> 0 <= (TITLE + Print(n))[k] < 128 && (TITLE + Print(n))[k] != CR
  {
    forall k | 0 <= k < |Print(n)| ensures IsDigit(Print(n)[k]) {
    }
  }

  lemma HeaderOfFrame(content: Bytes, rest: Bytes)
    ensures HeaderEnd(Frame(content) + rest) == Some(|TITLE| + |Print(|content|)|)
  {
    var h := TITLE + Print(|content|);
    TitleIsPlain(|content|);
    HeaderEndsThere(h, content + rest);
    assert Frame(content) + rest == h + CRLFCRLF + (content + rest);
  }

  /** A whole frame is cut off, and nothing else. */
  lemma FrameIsCut(content: Bytes, rest: Bytes)
    requires Fits(content)
    ensures CutFrame(Frame(content) + rest) == Complete(content, rest)
  {
    var h := TITLE + Print(|content|);
    var b := Frame(content) + rest;
    HeaderOfFrame(content, rest);
    SplitFrame(content, rest);
    TitleIsPlain(|content|);
    DecodedAscii(h);
    HeaderMatches(|content|);
    ValueOfPrint(|content|);
  }

  lemma SplitFrame(content: Bytes, rest: Bytes)
    ensures var h, b := TITLE + Print(|content|), Frame(content) + rest;
      && b[..|h|] == h && b[|h| + 4..] == content + rest
      && (content + rest)[..|content|] == content && (content + rest)[|content|..] == rest
  {
    var h := TITLE + Print(|content|);
    assert Frame(content) + rest == h + CRLFCRLF + (content + rest);
    Parts(h, CRLFCRLF, content + rest);
    Parts([], content, rest);
    assert [] + content + rest == content + rest;
  }

  lemma Parts(a: Bytes, b: Bytes, c: Bytes)
    ensures (a + b + c)[..|a|] == a && (a + b + c)[|a| + |b|..] == c && (a + b + c)[|a|..|a| + |b|] == b
  {
  }

  predicate IsProperPrefix(b: Bytes, content: Bytes) {
    |b| < |Frame(content)| && b == Frame(content)[..|b|]
  }

  /** Of a frame that is not complete, nothing is cut off and nothing is refused. */
  lemma PartialFrameWaits(b: Bytes, content: Bytes)
    requires Fits(content) && IsProperPrefix(b, content)
    ensures CutFrame(b) == Incomplete
  {
    var missing := Frame(content)[|b|..];
    assert |missing| > 0 && b + missing == Frame(content) + [];
    CutGrows(b, missing);
    FrameIsCut(content, []);
    if CutFrame(b).Complete? {
      assert false;
    }
  }

  // ------------------------------------------------------------- streams of frames

  /** The messages one after the other, without any bytes in between; a failure stops. */
  function HandleAll(p: Probe, ms: seq<Bytes>, json: Json): Probe
    decreases |ms|
  {
    if ms == [] || p.failed then p else HandleAll(Handle(p, ms[0], json), ms[1..], json)
  }

  /** What may be left in the buffer: less than a frame of a message that fits. */
  ghost predicate IsLeftover(b: Bytes) {
    exists content :: Fits(content) && IsProperPrefix(b, content)
  }

  lemma {:induction false} DrainStream(p: Probe, ms: seq<Bytes>, leftover: Bytes, json: Json)
    requires AllFit(ms) && IsLeftover(leftover) && p.buffer == Stream(ms) + leftover
    ensures Same(Drain(p, json), HandleAll(p.(buffer := leftover), ms, json))
    decreases |ms|
  {
    if p.failed {
      DrainOfFailed(p, json);
    } else if ms == [] {
      assert p.buffer == leftover;
      LeftoverWaits(p, json);
    } else {
      var rest := Stream(ms[1..]) + leftover;
      assert p.buffer == Frame(ms[0]) + rest;
      DrainFirst(p, ms[0], rest, json);
      HandleWithBuffer(p, ms[0], rest, leftover, json);
      DrainStream(Handle(p.(buffer := rest), ms[0], json), ms[1..], leftover, json);
    }
  }

  lemma DrainFirst(p: Probe, m: Bytes, rest: Bytes, json: Json)
    requires !p.failed && Fits(m) && p.buffer == Frame(m) + rest
    ensures Drain(p, json) == Drain(Handle(p.(buffer := rest), m, json), json)
  {
    FrameIsCut(m, rest);
    DrainStep(p, Complete(m, rest), json);
  }

  lemma LeftoverWaits(p: Probe, json: Json)
    requires !p.failed && IsLeftover(p.buffer)
    ensures Drain(p, json) == p
  {
    var content :| Fits(content) && IsProperPrefix(p.buffer, content);
    PartialFrameWaits(p.buffer, content);
    DrainStep(p, Incomplete, json);
  }

  lemma HandleWithBuffer(p: Probe, content: Bytes, b: Bytes, c: Bytes, json: Json)
    ensures Handle(p.(buffer := c), content, json) == Handle(p.(buffer := b), content, json).(buffer := c)
  {
  }

  /** Where a prefix of a stream of frames ends. */
  lemma {:induction false} PrefixOfStream(ms: seq<Bytes>, n: nat) returns (k: nat, leftover: Bytes)
    requires AllFit(ms) && n <= |Stream(ms)|
    ensures k <= |ms| && Stream(ms)[..n] == Stream(ms[..k]) + leftover
    ensures if k < |ms| then IsProperPrefix(leftover, ms[k]) else leftover == []
    decreases |ms|
  {
    if ms == [] {
      k, leftover := 0, [];
    } else if n < |Frame(ms[0])| {
      k, leftover := 0, Stream(ms)[..n];
      assert ms[..0] == [];
      assert Stream(ms)[..n] == Frame(ms[0])[..n];
    } else {
      var m := n - |Frame(ms[0])|;
      k, leftover := PrefixOfStream(ms[1..], m);
      k := k + 1;
      assert ms[..k][1..] == ms[1..][..k - 1];
      assert Stream(ms)[..n] == Frame(ms[0]) + Stream(ms[1..])[..m];
    }
  }

  lemma EmptyIsLeftover()
    ensures IsLeftover([])
  {
    assert Fits([0, 0]) && IsProperPrefix([], [0, 0]);
  }

  /** For every list of messages that fit and every way to cut the stream, or any beginning
      of it, into chunks: the probe is where handling the complete messages in order takes
      it, and the buffer holds a proper prefix of the next frame. */
  lemma EverySplitYieldsTheMessages(ms: seq<Bytes>, chunks: seq<Bytes>, json: Json) returns (k: nat, leftover: Bytes)
    requires AllFit(ms) && |Stream(ms)| <= BUDGET
    requires |Flatten(chunks)| <= |Stream(ms)| && Flatten(chunks) == Stream(ms)[..|Flatten(chunks)|]
    ensures k <= |ms| && Flatten(chunks) == Stream(ms[..k]) + leftover
    ensures if k < |ms| then IsProperPrefix(leftover, ms[k]) else leftover == []
    ensures Same(Feed(START, chunks, json), HandleAll(START.(buffer := leftover, total := |Flatten(chunks)|), ms[..k], json))
  {
    k, leftover := PrefixOfStream(ms, |Flatten(chunks)|);
    EmptyIsLeftover();
    if k < |ms| {
      assert Fits(ms[k]);
    }
    ReadsBeginning(ms[..k], leftover, chunks, json);
  }

  lemma ReadsBeginning(ms: seq<Bytes>, leftover: Bytes, chunks: seq<Bytes>, json: Json)
    requires AllFit(ms) && IsLeftover(leftover) && Flatten(chunks) == Stream(ms) + leftover && |Flatten(chunks)| <= BUDGET
    ensures Same(Feed(START, chunks, json), HandleAll(START.(buffer := leftover, total := |Flatten(chunks)|), ms, json))
  {
    var bytes := Flatten(chunks);
    DrainOfStart(json);
    ChunksDoNotMatter(START, chunks, json);
    OnDataFits(START, bytes, json);
    assert Received(START, bytes) == START.(buffer := bytes, total := |bytes|);
    DrainStream(Received(START, bytes), ms, leftover, json);
  }

  lemma {:induction false} ReceivedWhenHandled(p: Probe, ms: seq<Bytes>, json: Json)
    ensures var r := HandleAll(p, ms, json);
      && r.buffer == p.buffer
      && (!r.failed ==> r.received == p.received + ms)
    decreases |ms|
  {
    if ms != [] && !p.failed {
      var next := Handle(p, ms[0], json);
      ReceivedWhenHandled(next, ms[1..], json);
      assert p.received + [ms[0]] + ms[1..] == p.received + ms;
    }
  }

  /** Read to the end without a failure, the contents are exactly the messages in order,
      and the buffer is empty. */
  lemma WholeStream(ms: seq<Bytes>, chunks: seq<Bytes>, json: Json)
    requires AllFit(ms) && |Stream(ms)| <= BUDGET && Flatten(chunks) == Stream(ms)
    ensures var p := Feed(START, chunks, json);
      && (!p.failed ==> p.received == ms && p.buffer == [])
      && (p.failed <==> HandleAll(START, ms, json).failed)
  {
    assert Stream(ms)[..|Stream(ms)|] == Stream(ms);
    var total := |Stream(ms)|;
    EmptyIsLeftover();
    assert Stream(ms) + [] == Stream(ms);
    ReadsBeginning(ms, [], chunks, json);
    ReceivedWhenHandled(START.(total := total), ms, json);
    HandleAllIgnoresTotal(START, total, ms, json);
  }

  lemma HandleIgnoresTotal(p: Probe, total: nat, content: Bytes, json: Json)
    ensures Handle(p.(total := total), content, json) == Handle(p, content, json).(total := total)
  {
  }

  lemma {:induction false} HandleAllIgnoresTotal(p: Probe, total: nat, ms: seq<Bytes>, json: Json)
    ensures HandleAll(p.(total := total), ms, json) == HandleAll(p, ms, json).(total := total)
    decreases |ms|
  {
    if ms != [] && !p.failed {
      HandleIgnoresTotal(p, total, ms[0], json);
      HandleAllIgnoresTotal(Handle(p, ms[0], json), total, ms[1..], json);
    }
  }

  // ---------------------------------------------------------------- the handshake

  predicate Initializes(json: Json, ms: seq<Bytes>, i: int) {
    0 <= i < |ms| && json(ms[i]) == InitializeReply(true)
  }

  /** No message breaks the protocol: none is malformed or refuses, and no reply to the
      shutdown request comes before the reply to the initialize request. */
  ghost predicate InOrder(json: Json, ms: seq<Bytes>) {
    forall i :: 0 <= i < |ms| ==>
      && json(ms[i]) != Broken && json(ms[i]) != InitializeReply(false)
      && (json(ms[i]).ShutdownReply? ==> json(ms[i]).ok && exists j :: j < i && Initializes(json, ms, j))
  }

  ghost predicate ShutsDown(json: Json, ms: seq<Bytes>) {
    exists i :: 0 <= i < |ms| && json(ms[i]).ShutdownReply?
  }

  lemma {:induction false} HandleAllSnoc(p: Probe, ms: seq<Bytes>, m: Bytes, json: Json)
    ensures HandleAll(p, ms + [m], json) ==
      var q := HandleAll(p, ms, json); if q.failed then q else Handle(q, m, json)
    decreases |ms|
  {
    if p.failed {
    } else if ms == [] {
      assert ms + [m] == [m] && [m][1..] == [];
      assert HandleAll(p, [m], json) == HandleAll(Handle(p, m, json), [], json);
    } else {
      assert (ms + [m])[1..] == ms[1..] + [m];
      HandleAllSnoc(Handle(p, ms[0], json), ms[1..], m, json);
    }
  }

  /** What the two flags of the probe mean. */
  lemma {:induction false} FlagsTellTheHandshake(ms: seq<Bytes>, json: Json)
    ensures var p := HandleAll(START, ms, json);
      && (!p.failed <==> InOrder(json, ms))
      && (!p.failed ==> (p.initialized <==> exists i :: Initializes(json, ms, i)))
      && (!p.failed ==> (p.shutdown <==> ShutsDown(json, ms)))
    decreases |ms|
  {
    if ms != [] {
      var front, m := ms[..|ms| - 1], ms[|ms| - 1];
      assert ms == front + [m];
      FlagsTellTheHandshake(front, json);
      HandleAllSnoc(START, front, m, json);
      InOrderSnoc(json, front, m);
      RepliesSnoc(json, front, m);
    }
  }

  ghost predicate MayFollow(json: Json, front: seq<Bytes>, m: Bytes) {
    && json(m) != Broken && json(m) != InitializeReply(false)
    && (json(m).ShutdownReply? ==> json(m).ok && exists j :: Initializes(json, front, j))
  }

  lemma InOrderSnoc(json: Json, front: seq<Bytes>, m: Bytes)
    ensures InOrder(json, front + [m]) <==> InOrder(json, front) && MayFollow(json, front, m)
  {
    if InOrder(json, front + [m]) {
      InOrderShrinks(json, front, m);
    }
    if InOrder(json, front) && MayFollow(json, front, m) {
      InOrderExtends(json, front, m);
    }
  }

  lemma InOrderShrinks(json: Json, front: seq<Bytes>, m: Bytes)
    requires InOrder(json, front + [m])
    ensures InOrder(json, front) && MayFollow(json, front, m)
  {
    var ms := front + [m];
    forall i | 0 <= i < |front|
      ensures json(front[i]) != Broken && json(front[i]) != InitializeReply(false)
      ensures json(front[i]).ShutdownReply? ==> json(front[i]).ok && exists j :: j < i && Initializes(json, front, j)
    {
      assert ms[i] == front[i];
      if json(ms[i]).ShutdownReply? {
        var j :| j < i && Initializes(json, ms, j);
        InitializesSnoc(json, front, m, j);
      }
    }
    assert ms[|front|] == m;
    if json(m).ShutdownReply? {
      var j :| j < |front| && Initializes(json, ms, j);
      InitializesSnoc(json, front, m, j);
    }
  }

  lemma InOrderExtends(json: Json, front: seq<Bytes>, m: Bytes)
    requires InOrder(json, front) && MayFollow(json, front, m)
    ensures InOrder(json, front + [m])
  {
    var ms := front + [m];
    forall i | 0 <= i < |ms|
      ensures json(ms[i]) != Broken && json(ms[i]) != InitializeReply(false)
      ensures json(ms[i]).ShutdownReply? ==> json(ms[i]).ok && exists j :: j < i && Initializes(json, ms, j)
    {
      if json(ms[i]).ShutdownReply? {
        if i < |front| {
          assert ms[i] == front[i];
        }
        var j :| j < i && Initializes(json, front, j);
        InitializesSnoc(json, front, m, j);
      }
    }
  }

  lemma InitializesSnoc(json: Json, front: seq<Bytes>, m: Bytes, i: int)
    ensures Initializes(json, front + [m], i) <==> Initializes(json, front, i) || (i == |front| && json(m) == InitializeReply(true))
  {
  }

  lemma RepliesSnoc(json: Json, front: seq<Bytes>, m: Bytes)
    ensures (exists j :: Initializes(json, front + [m], j)) <==> (exists j :: Initializes(json, front, j)) || json(m) == InitializeReply(true)
    ensures ShutsDown(json, front + [m]) <==> ShutsDown(json, front) || json(m).ShutdownReply?
  {
    var ms := front + [m];
    forall i ensures Initializes(json, ms, i) <==> Initializes(json, front, i) || (i == |front| && json(m) == InitializeReply(true)) {
      InitializesSnoc(json, front, m, i);
    }
    assert ms[|front|] == m;
    if ShutsDown(json, front) {
      var i :| 0 <= i < |front| && json(front[i]).ShutdownReply?;
      assert json(ms[i]).ShutdownReply?;
    }
    if ShutsDown(json, ms) {
      var i :| 0 <= i < |ms| && json(ms[i]).ShutdownReply?;
      assert i < |front| ==> ms[i] == front[i];
    }
    assert Initializes(json, ms, |front|) <==> json(m) == InitializeReply(true);
  }

  /** The probe resolves exactly if the server answered both requests, in order and without
      an error, and exited with 0; however its output was cut into chunks. */
  lemma ProbePassesExactlyWhen(ms: seq<Bytes>, chunks: seq<Bytes>, exitCode: int, json: Json)
    requires AllFit(ms) && |Stream(ms)| <= BUDGET && Flatten(chunks) == Stream(ms)
    ensures Passes(Feed(START, chunks, json), exitCode) <==> InOrder(json, ms) && ShutsDown(json, ms) && exitCode == 0
  {
    FlagsTellTheHandshake(ms, json);
    var p := HandleAll(START, ms, json);
    EmptyIsLeftover();
    assert Stream(ms) + [] == Stream(ms);
    ReadsBeginning(ms, [], chunks, json);
    HandleAllIgnoresTotal(START, |Stream(ms)|, ms, json);
    if ShutsDown(json, ms) && InOrder(json, ms) {
      var i :| 0 <= i < |ms| && json(ms[i]).ShutdownReply?;
      assert exists j :: j < i && Initializes(json, ms, j);
    }
  }
}
