/**
 The log shipper's bounded buffer with one batch in flight. The class holds the lines; its
 ghost history numbers them in the order they came, so that order and loss can be stated.
 */
module LogShipper {
  import opened Common

  type Line = string

  datatype Config = Config(batchSize: nat, maxBuffer: nat, shipEnabled: bool)

  predicate ConfigOk(c: Config) {
    c.batchSize >= 1 && c.maxBuffer >= 1
  }

  /** Lines by number: `sent` reached the collector, `flying` is the batch out, `held` waits in the buffer. */
  datatype History = History(lines: seq<Line>, sent: seq<nat>, flying: seq<nat>, held: seq<nat>, dropped: nat, inFlight: bool)

  datatype Event = Enqueue(line: Line) | Flush | SendSucceeds | SendFails | Finish

  // ---------- the steps ----------

  function Flushed(h: History, c: Config): History {
    if h.inFlight || h.held == [] || !c.shipEnabled then h
    else
      var n := Min(c.batchSize, |h.held|);
      h.(flying := h.held[..n], held := h.held[n..], inFlight := true)
  }

  function Enqueued(h: History, c: Config, line: Line): History {
    var h' := AppendedTo(h, c, line);
    if |h'.held| >= c.batchSize then Flushed(h', c) else h'
  }

  /** The oldest line makes room when the buffer is full. */
  function AppendedTo(h: History, c: Config, line: Line): History {
    var full := |h.held| >= c.maxBuffer && h.held != [];
    h.(lines := h.lines + [line], held := (if full then h.held[1..] else h.held) + [|h.lines|],
       dropped := h.dropped + if full then 1 else 0)
  }

  /** A failed batch goes back to the front, its oldest lines dropped where there is no room. */
  function Requeued(h: History, c: Config): History {
    var room := Max(0, c.maxBuffer - |h.held|);
    var cut := Max(0, |h.flying| - room);
    h.(flying := [], held := h.flying[cut..] + h.held, dropped := h.dropped + cut)
  }

  function Step(h: History, c: Config, e: Event): History {
    match e
    case Enqueue(line) => Enqueued(h, c, line)
    case Flush => Flushed(h, c)
    case SendSucceeds => if h.inFlight then h.(sent := h.sent + h.flying, flying := []) else h
    case SendFails => if h.inFlight then Requeued(h, c) else h
    case Finish => if h.inFlight && h.flying == [] then h.(inFlight := false) else h
  }

  function Run(c: Config, events: seq<Event>): History {
    if events == [] then History([], [], [], [], 0, false)
    else Step(Run(c, events[..|events| - 1]), c, events[|events| - 1])
  }

  // ---------- conservation and order ----------

  predicate Ascending(s: seq<nat>) {
    forall i, j | 0 <= i < j < |s| :: s[i] < s[j]
  }

  predicate Below(s: seq<nat>, n: nat) {
    forall i | 0 <= i < |s| :: s[i] < n
  }

  predicate Good(h: History, c: Config) {
    && Ascending(h.sent + h.flying + h.held) && Below(h.sent + h.flying + h.held, |h.lines|)
    && |h.lines| == |h.sent| + h.dropped + |h.flying| + |h.held|
    && |h.held| <= c.maxBuffer
    && (!h.inFlight ==> h.flying == [])
  }

  /** Cutting a stretch out of an ascending list leaves it ascending. */
  lemma AscendingCut(a: seq<nat>, cut: seq<nat>, b: seq<nat>)
    requires Ascending(a + cut + b)
    ensures Ascending(a + b)
  {
    var all, rest := a + cut + b, a + b;
    assert forall i | 0 <= i < |rest| :: rest[i] == all[if i < |a| then i else i + |cut|];
  }

  lemma AscendingAppend(a: seq<nat>, n: nat)
    requires Ascending(a) && Below(a, n)
    ensures Ascending(a + [n]) && Below(a + [n], n + 1)
  {
  }

  lemma FlushGood(h: History, c: Config)
    requires ConfigOk(c) && Good(h, c)
    ensures Good(Flushed(h, c), c)
  {
    var h' := Flushed(h, c);
    assert h'.sent + h'.flying + h'.held == h.sent + h.flying + h.held;
  }

  lemma EnqueueGood(h: History, c: Config, line: Line)
    requires ConfigOk(c) && Good(h, c)
    ensures Good(Enqueued(h, c, line), c)
  {
    AppendGood(h, c, line);
    hide Good;
    FlushGood(AppendedTo(h, c, line), c);
  }

  lemma AppendGood(h: History, c: Config, line: Line)
    requires ConfigOk(c) && Good(h, c)
    ensures Good(AppendedTo(h, c, line), c)
  {
    hide Ascending; hide Below;
    var full := |h.held| >= c.maxBuffer;
    var held := if full then h.held[1..] else h.held;
    var n := |h.lines|;
    var before := h.sent + h.flying;
    if full {
      assert before + h.held == before + h.held[..1] + held;
      CutBounded(before, h.held[..1], held, n);
    }
    AscendingAppend(before + held, n);
    assert before + held + [n] == before + (held + [n]);
  }

  /** What is left of a numbered list when a stretch is cut out: still ascending, still below the bound. */
  lemma CutBounded(a: seq<nat>, cut: seq<nat>, b: seq<nat>, n: nat)
    requires Ascending(a + cut + b) && Below(a + cut + b, n)
    ensures Ascending(a + b) && Below(a + b, n)
  {
    AscendingCut(a, cut, b);
    var all, rest := a + cut + b, a + b;
    assert forall i | 0 <= i < |rest| :: rest[i] == all[if i < |a| then i else i + |cut|];
  }

  lemma Regroup(a: seq<nat>, b: seq<nat>, c: seq<nat>, k: nat)
    requires k <= |b|
    ensures a + b + c == a + b[..k] + (b[k..] + c)
  {
  }

  lemma RequeueGood(h: History, c: Config)
    requires ConfigOk(c) && Good(h, c)
    ensures Good(Requeued(h, c), c)
  {
    hide Ascending; hide Below;
    var h' := Requeued(h, c);
    var cut := |h.flying| - (|h'.held| - |h.held|);
    Regroup(h.sent, h.flying, h.held, cut);
    CutBounded(h.sent, h.flying[..cut], h'.held, |h.lines|);
    assert h.sent + [] == h.sent;
  }

  /**
   Over any interleaving of enqueues with one batch that succeeds or fails: every line is
   shipped, dropped, buffered or in flight and no two of these, the buffer never exceeds its
   cap, and what shipped, what flies and what waits follow one another in enqueue order.
   */
  lemma {:induction false} NothingLostOrReordered(c: Config, events: seq<Event>)
    requires ConfigOk(c)
    ensures Good(Run(c, events), c)
  {
    if events != [] {
      var h := Run(c, events[..|events| - 1]);
      NothingLostOrReordered(c, events[..|events| - 1]);
      match events[|events| - 1]
      case Enqueue(line) => EnqueueGood(h, c, line);
      case Flush => FlushGood(h, c);
      case SendSucceeds => assert h.sent + h.flying + [] + h.held == h.sent + h.flying + h.held;
      case SendFails => RequeueGood(h, c);
      case Finish =>
    }
  }

  // ---------- what each step keeps ----------

  /** The newest `n` of some lines, or all there are. */
  function Newest(lines: seq<nat>, n: nat): seq<nat> {
    lines[Max(0, |lines| - n)..]
  }

  lemma AppendKeepsTheNewest(h: History, c: Config, line: Line)
    requires ConfigOk(c) && Good(h, c)
    ensures var a := AppendedTo(h, c, line);
            && a.held == Newest(h.held + [|h.lines|], c.maxBuffer) && a.flying == h.flying && a.sent == h.sent
            && a.lines == h.lines + [line] && a.inFlight == h.inFlight
  {
    hide Ascending; hide Below;
  }

  /** A flush takes the oldest waiting lines, a batch at most, when none is out; nothing else moves. */
  lemma FlushTakesTheOldest(h: History, c: Config)
    requires ConfigOk(c) && Good(h, c)
    ensures var h' := Step(h, c, Flush);
            if h.inFlight || h.held == [] || !c.shipEnabled then h' == h
            else && h'.inFlight && h'.flying + h'.held == h.held && |h'.flying| == Min(c.batchSize, |h.held|)
                 && h'.lines == h.lines && h'.sent == h.sent && h'.dropped == h.dropped
  {
  }

  /** A new line joins at the end, the oldest one leaves only where the cap leaves no room, and a full batch does not wait. */
  lemma EnqueueKeepsTheNewest(h: History, c: Config, line: Line)
    requires ConfigOk(c) && Good(h, c)
    ensures var h' := Step(h, c, Enqueue(line));
            && h'.lines == h.lines + [line] && h'.sent == h.sent
            && h'.flying + h'.held == h.flying + Newest(h.held + [|h.lines|], c.maxBuffer)
            && (h.inFlight ==> h'.flying == h.flying && h'.inFlight)
            && (c.shipEnabled && !h'.inFlight ==> |h'.held| < c.batchSize)
            && (h'.inFlight && !h.inFlight ==> |h'.flying| == c.batchSize)
  {
    AppendKeepsTheNewest(h, c, line);
    AppendGood(h, c, line);
    FlushTakesTheOldest(AppendedTo(h, c, line), c);
    hide AppendedTo; hide Flushed; hide Newest; hide Ascending; hide Below;
  }

  /** A failed batch comes back in front of what waits, and of them all the newest stay that there is room for. */
  lemma FailureKeepsTheNewest(h: History, c: Config)
    requires ConfigOk(c) && Good(h, c) && h.inFlight
    ensures var h' := Step(h, c, SendFails);
            && h'.held == Newest(h.flying + h.held, c.maxBuffer) && h'.flying == []
            && h'.lines == h.lines && h'.sent == h.sent && h'.inFlight
  {
  }

  /** A batch that arrives is all the collector gets, after what it had. */
  lemma SuccessSendsTheBatch(h: History, c: Config)
    requires h.inFlight
    ensures var h' := Step(h, c, SendSucceeds);
            h'.sent == h.sent + h.flying && h'.flying == [] && h'.held == h.held && h'.dropped == h.dropped && h'.lines == h.lines
  {
  }

  /** The lines of the enqueues, in order. */
  function Lines(events: seq<Event>): seq<Line> {
    if events == [] then []
    else
      var e := events[|events| - 1];
      Lines(events[..|events| - 1]) + if e.Enqueue? then [e.line] else []
  }

  /** The numbers stand for the lines as they were enqueued. */
  lemma {:induction false} RunNumbersItsLines(c: Config, events: seq<Event>)
    ensures Run(c, events).lines == Lines(events)
  {
    if events != [] { RunNumbersItsLines(c, events[..|events| - 1]); }
  }

  /** In an ascending list no entry is under its place, nor so high that what follows it finds no room. */
  lemma {:induction false} AscendingAt(s: seq<nat>, n: nat, i: nat)
    requires Ascending(s) && Below(s, n) && i < |s|
    ensures i <= s[i] <= n - (|s| - i)
  {
    AscendingFrom(s, i);
    AscendingTo(s, n, i);
  }

  lemma {:induction false} AscendingFrom(s: seq<nat>, i: nat)
    requires Ascending(s) && i < |s|
    ensures i <= s[i]
  {
    if i > 0 { AscendingFrom(s, i - 1); }
  }

  lemma {:induction false} AscendingTo(s: seq<nat>, n: nat, i: nat)
    requires Ascending(s) && Below(s, n) && i < |s|
    ensures s[i] <= n - (|s| - i)
    decreases |s| - i
  {
    if i + 1 < |s| { AscendingTo(s, n, i + 1); }
  }

  /** Where nothing was dropped nothing is missing: what shipped, flies and waits is every line there was, in order. */
  lemma NothingDroppedNothingMissing(c: Config, events: seq<Event>)
    requires ConfigOk(c) && Run(c, events).dropped == 0
    ensures var h := Run(c, events); h.sent + h.flying + h.held == seq(|Lines(events)|, i => i)
  {
    NothingLostOrReordered(c, events);
    RunNumbersItsLines(c, events);
    var h := Run(c, events);
    var all := h.sent + h.flying + h.held;
    hide Ascending; hide Below; hide Run; hide Lines;
    forall i | 0 <= i < |all| ensures all[i] == i { AscendingAt(all, |h.lines|, i); }
  }

  // ---------- the shipper, in place ----------

  function Pick(lines: seq<Line>, numbers: seq<nat>): (r: seq<Line>)
    requires forall i | 0 <= i < |numbers| :: numbers[i] < |lines|
    ensures |r| == |numbers|
  {
    seq(|numbers|, i requires 0 <= i < |numbers| => lines[numbers[i]])
  }

  /** What a failed batch leaves waiting, as lines. */
  lemma RequeuedLines(h: History, c: Config)
    requires forall i | 0 <= i < |h.held| :: h.held[i] < |h.lines|
    requires forall i | 0 <= i < |h.flying| :: h.flying[i] < |h.lines|
    ensures var h' := Requeued(h, c);
            && (forall i | 0 <= i < |h'.held| :: h'.held[i] < |h'.lines|)
            && Pick(h'.lines, h'.held)
               == Pick(h.lines, h.flying)[Max(0, |h.flying| - Max(0, c.maxBuffer - |h.held|))..] + Pick(h.lines, h.held)
            && Pick(h'.lines, h'.flying) == []
  {
  }

  class Shipper {
    const config: Config
    var buffer: seq<Line>
    var batch: seq<Line>
    var inFlight: bool
    var shipped: nat
    var dropped: nat
    var failures: nat
    ghost var history: History

    ghost predicate Valid()
      reads this
    {
      && ConfigOk(config) && Good(history, config)
      && (forall i | 0 <= i < |history.held| :: history.held[i] < |history.lines|)
      && (forall i | 0 <= i < |history.flying| :: history.flying[i] < |history.lines|)
      && buffer == Pick(history.lines, history.held) && batch == Pick(history.lines, history.flying)
      && inFlight == history.inFlight && dropped == history.dropped && shipped == |history.sent|
    }

    constructor (config: Config)
      requires ConfigOk(config)
      ensures Valid() && this.config == config && history == Run(config, [])
    {
      this.config := config;
      buffer, batch, inFlight, shipped, dropped, failures := [], [], false, 0, 0, 0;
      history := Run(config, []);
    }

    method Enqueue(line: Line)
      requires Valid()
      modifies this
      ensures Valid() && history == Step(old(history), config, Event.Enqueue(line))
    {
      Append(line);
      if |buffer| >= config.batchSize { Flush(); }
    }

    /** Makes room by dropping the oldest, then appends. */
    method Append(line: Line)
      requires Valid()
      modifies this`buffer, this`dropped, this`history
      ensures Valid() && |buffer| == |history.held|
      ensures history == AppendedTo(old(history), config, line)
    {
      ghost var h := history;
      var full := |buffer| >= config.maxBuffer;
      if full {
        buffer := buffer[1..];
        dropped := dropped + 1;
      }
      buffer := buffer + [line];
      history := AppendedTo(h, config, line);
      AppendGood(h, config, line);
      assert buffer == Pick(history.lines, history.held);
      assert batch == Pick(history.lines, history.flying);
    }

    method Flush()
      requires Valid()
      modifies this
      ensures Valid() && history == Step(old(history), config, Event.Flush)
    {
      FlushGood(history, config);
      if inFlight { return; }
      if |buffer| == 0 || !config.shipEnabled { return; }
      var n := Min(config.batchSize, |buffer|);
      batch, buffer := buffer[..n], buffer[n..];
      inFlight := true;
      history := Flushed(history, config);
    }

    /** The send resolved. */
    method SendSucceeded()
      requires Valid() && inFlight
      modifies this
      ensures Valid() && history == Step(old(history), config, SendSucceeds)
    {
      ghost var h := history;
      shipped := shipped + |batch|;
      batch := [];
      history := Step(history, config, SendSucceeds);
      assert h.sent + h.flying + [] + h.held == h.sent + h.flying + h.held;
    }

    /** The send failed: what fits goes back to the front. */
    method SendFailed()
      requires Valid() && inFlight
      modifies this
      ensures Valid() && history == Step(old(history), config, SendFails) && failures == old(failures) + 1
    {
      ghost var h := history;
      RequeueGood(h, config);
      RequeuedLines(h, config);
      hide Good; hide Pick;
      failures := failures + 1;
      var room := Max(0, config.maxBuffer - |buffer|);
      var keep := batch[Max(0, |batch| - room)..];
      dropped := dropped + |batch| - |keep|;
      buffer := keep + buffer;
      batch := [];
      history := Requeued(h, config);
    }

    /** The send settled either way. */
    method Settle()
      requires Valid() && inFlight && batch == []
      modifies this`inFlight, this`history
      ensures Valid() && history == Step(old(history), config, Finish)
    {
      inFlight := false;
      history := history.(inFlight := false);
    }
  }
}
