/** The read loop of the probe yields the framed messages whatever the chunks are. */
module LspChunking {
  import opened Wrappers
  import opened LspFraming

  // ------------------------------------------------------- chunks do not matter

  lemma {:induction false} HeaderEndGrows(b: Bytes, c: Bytes)
    requires HeaderEnd(b).Some?
    ensures HeaderEnd(b + c) == HeaderEnd(b)
  {
    assert (b + c)[..4] == b[..4];
    if b[..4] != CRLFCRLF {
      assert (b + c)[1..] == b[1..] + c;
      HeaderEndGrows(b[1..], c);
    }
  }

  /** More bytes never change a frame that was cut or refused. */
  lemma CutGrows(b: Bytes, c: Bytes)
    ensures CutFrame(b).Malformed? ==> CutFrame(b + c) == Malformed
    ensures CutFrame(b).Complete? ==> CutFrame(b + c) == Complete(CutFrame(b).content, CutFrame(b).rest + c)
  {
    if HeaderEnd(b).Some? {
      var end := HeaderEnd(b).value;
      HeaderEndGrows(b, c);
      PartsGrow(b, c, end);
      PartsGrow(b, c, end + 4);
      if CutFrame(b).Complete? {
        PartsGrow(b[end + 4..], c, |CutFrame(b).content|);
      }
    }
  }

  lemma PartsGrow(b: Bytes, c: Bytes, k: nat)
    requires k <= |b|
    ensures (b + c)[..k] == b[..k] && (b + c)[k..] == b[k..] + c
  {
  }

  /** Equal but for the bytes that a failed probe ignores. */
  predicate Same(p: Probe, q: Probe) {
    p == q.(buffer := p.buffer) && (!p.failed ==> p.buffer == q.buffer)
  }

  /** Handling a message and receiving more bytes commute. */
  lemma HandleReceived(p: Probe, content: Bytes, rest: Bytes, c: Bytes, json: Json)
    ensures Handle(Received(p, c).(buffer := rest + c), content, json) == Received(Handle(p.(buffer := rest), content, json), c)
  {
  }

  /** Draining what came first and then the rest is draining all at once. */
  lemma {:induction false} DrainAppend(p: Probe, c: Bytes, json: Json)
    ensures Same(Drain(Received(p, c), json), Drain(Received(Drain(p, json), c), json))
    decreases |p.buffer|
  {
    if p.failed {
      DrainOfFailed(p, json);
      DrainOfFailed(Received(p, c), json);
    } else {
      var cut := CutFrame(p.buffer);
      CutGrows(p.buffer, c);
      DrainStep(p, cut, json);
      if cut.Malformed? {
        DrainStep(Received(p, c), Malformed, json);
        DrainOfFailed(Received(p.(failed := true), c), json);
      } else if cut.Complete? {
        DrainStep(Received(p, c), Complete(cut.content, cut.rest + c), json);
        HandleReceived(p, cut.content, cut.rest, c, json);
        DrainAppend(Handle(p.(buffer := cut.rest), cut.content, json), c, json);
      }
    }
  }

  lemma {:induction false} DrainTwice(p: Probe, json: Json)
    ensures Drain(Drain(p, json), json) == Drain(p, json)
    decreases |p.buffer|
  {
    if !p.failed {
      var cut := CutFrame(p.buffer);
      DrainStep(p, cut, json);
      if cut.Complete? {
        DrainTwice(Handle(p.(buffer := cut.rest), cut.content, json), json);
      }
    }
  }

  lemma {:induction false} DrainKeepsTotal(p: Probe, json: Json)
    ensures Drain(p, json).total == p.total
    decreases |p.buffer|
  {
    if !p.failed {
      var cut := CutFrame(p.buffer);
      DrainStep(p, cut, json);
      if cut.Complete? {
        DrainKeepsTotal(Handle(p.(buffer := cut.rest), cut.content, json), json);
      }
    }
  }

  lemma OnDataFits(p: Probe, a: Bytes, json: Json)
    requires p.total + |a| <= BUDGET
    ensures OnData(p, a, json) == Drain(Received(p, a), json)
    ensures OnData(p, a, json).total == p.total + |a|
  {
    DrainKeepsTotal(Received(p, a), json);
  }

  lemma ReceiveBoth(p: Probe, a: Bytes, b: Bytes)
    ensures Received(Received(p, a), b) == Received(p, a + b)
  {
    assert p.buffer + a + b == p.buffer + (a + b);
  }

  lemma OnDataSplit(p: Probe, a: Bytes, b: Bytes, json: Json)
    requires p.total + |a| + |b| <= BUDGET
    ensures Same(OnData(p, a + b, json), OnData(OnData(p, a, json), b, json))
  {
    OnDataFits(p, a, json);
    OnDataFits(p, a + b, json);
    OnDataFits(OnData(p, a, json), b, json);
    ReceiveBoth(p, a, b);
    DrainAppend(Received(p, a), b, json);
  }

  function Flatten(chunks: seq<Bytes>): Bytes {
    if chunks == [] then [] else chunks[0] + Flatten(chunks[1..])
  }

  /** Within the budget, feeding chunks to a probe whose loop has stopped is feeding their
      concatenation. */
  lemma {:induction false} ChunksDoNotMatter(p: Probe, chunks: seq<Bytes>, json: Json)
    requires p.total + |Flatten(chunks)| <= BUDGET && Drain(p, json) == p
    ensures Same(Feed(p, chunks, json), OnData(p, Flatten(chunks), json))
    decreases |chunks|
  {
    if chunks == [] {
      NothingReceived(p, json);
    } else {
      FirstChunk(p, chunks[0], Flatten(chunks[1..]), json);
      ChunksDoNotMatter(OnData(p, chunks[0], json), chunks[1..], json);
    }
  }

  lemma NothingReceived(p: Probe, json: Json)
    requires p.total <= BUDGET && Drain(p, json) == p
    ensures OnData(p, [], json) == p
  {
    assert Received(p, []) == p;
  }

  lemma FirstChunk(p: Probe, c: Bytes, rest: Bytes, json: Json)
    requires p.total + |c| + |rest| <= BUDGET
    ensures var next := OnData(p, c, json);
      && Drain(next, json) == next && next.total == p.total + |c|
      && Same(OnData(p, c + rest, json), OnData(next, rest, json))
  {
    DrainTwice(Received(p, c), json);
    OnDataFits(p, c, json);
    OnDataSplit(p, c, rest, json);
  }

  lemma DrainOfStart(json: Json)
    ensures Drain(START, json) == START
  {
    assert HeaderEnd([]) == None;
    DrainStep(START, Incomplete, json);
  }

  /** However a stream within the budget is cut into chunks, the probe ends as if it had
      come in one piece. */
  lemma EveryCutIsAsGood(chunks: seq<Bytes>, others: seq<Bytes>, json: Json)
    requires |Flatten(chunks)| <= BUDGET && Flatten(chunks) == Flatten(others)
    ensures Same(Feed(START, chunks, json), Feed(START, others, json))
  {
    DrainOfStart(json);
    ChunksDoNotMatter(START, chunks, json);
    ChunksDoNotMatter(START, others, json);
  }

  lemma {:induction false} FailedStaysFailed(p: Probe, chunks: seq<Bytes>, json: Json)
    requires p.failed
    ensures Feed(p, chunks, json).failed
    decreases |chunks|
  {
    if chunks != [] {
      DrainOfFailed(Received(p, chunks[0]), json);
      FailedStaysFailed(OnData(p, chunks[0], json), chunks[1..], json);
    }
  }

  /** A stream over the budget fails the probe, however it is chunked. */
  lemma {:induction false} OverBudgetFails(p: Probe, chunks: seq<Bytes>, json: Json)
    requires p.total <= BUDGET < p.total + |Flatten(chunks)|
    ensures Feed(p, chunks, json).failed
    decreases |chunks|
  {
    var next := OnData(p, chunks[0], json);
    if p.total + |chunks[0]| > BUDGET {
      FailedStaysFailed(next, chunks[1..], json);
    } else {
      DrainKeepsTotal(Received(p, chunks[0]), json);
      OverBudgetFails(next, chunks[1..], json);
    }
  }
}
