/**
 * The bike-side controller (rider.py): the debounced crank pulse counter and
 * one iteration of `main`'s polling loop, which halves the crank count and
 * sends a LoRa packet `{"id","c","w"}` once the random start delay has passed,
 * at most every 3000 ms. The redraw test compares the stored halved count with
 * the raw counter, so once the counter is non-zero the display is redrawn on
 * every iteration (`StepHalves`); `IntendedStep` is the evidently intended test.
 *
 * The clock is an input: every call receives the `ticks_ms()` value it reads.
 * The interrupt handler and one loop iteration are each one atomic call.
 */
module Rider {
  import opened Wrappers
  import CharLcd

  const LoraSendPeriodMs: int := 3000
  /** The debounce window `main` gives the crank counter. */
  const CrankDebounceMs: int := 250
  const LcdColumns: int := 16
  const LcdRows: int := 1

  // ---------------------------------------------------------------------------
  // The pulse counter

  /** The fields `_handler` updates. */
  datatype Debounce = Debounce(counter: nat, lastCountMs: int)

  /** `_handler` at time `timeMs`: count the pulse only when more than `debounceMs` passed since the last one counted. */
  function Handle(d: Debounce, debounceMs: int, timeMs: int): (r: Debounce)
    ensures r.counter == d.counter + 1 <==> timeMs - d.lastCountMs > debounceMs
    ensures r.counter == d.counter + 1 ==> r.lastCountMs == timeMs
    ensures r.counter != d.counter + 1 ==> r == d
  {
    if timeMs - d.lastCountMs > debounceMs then Debounce(d.counter + 1, timeMs) else d
  }

  /** `_handler` fired at each of `times` in turn. */
  function HandleAll(d: Debounce, debounceMs: int, times: seq<int>): Debounce
    decreases |times|
  {
    if times == [] then d else HandleAll(Handle(d, debounceMs, times[0]), debounceMs, times[1..])
  }

  /** The times among `times` at which `_handler` counts a pulse. */
  function Accepted(d: Debounce, debounceMs: int, times: seq<int>): seq<int>
    decreases |times|
  {
    if times == [] then []
    else
      var d' := Handle(d, debounceMs, times[0]);
      (if d'.counter != d.counter then [times[0]] else []) + Accepted(d', debounceMs, times[1..])
  }

  /** Every element of `ts` is more than `gap` after the one before it, the first more than `gap` after `from`. */
  ghost predicate Spaced(from: int, gap: int, ts: seq<int>)
  {
    (|ts| > 0 ==> ts[0] > from + gap) &&
    forall i :: 0 < i < |ts| ==> ts[i] > ts[i - 1] + gap
  }

  lemma SpacedCons(from: int, gap: int, t: int, ts: seq<int>)
    requires t > from + gap && Spaced(t, gap, ts)
    ensures Spaced(from, gap, [t] + ts)
  {
    var s := [t] + ts;
    forall i | 0 < i < |s|
      ensures s[i] > s[i - 1] + gap
    {
      assert s[i] == ts[i - 1] && s[i - 1] == if i == 1 then t else ts[i - 2];
    }
  }

  /** The counter grows by exactly the number of pulses counted: never down, at most one per call. */
  lemma {:induction false} HandleAllCounts(d: Debounce, debounceMs: int, times: seq<int>)
    ensures HandleAll(d, debounceMs, times).counter == d.counter + |Accepted(d, debounceMs, times)|
    ensures |Accepted(d, debounceMs, times)| <= |times|
    decreases |times|
  {
    if times != [] {
      HandleAllCounts(Handle(d, debounceMs, times[0]), debounceMs, times[1..]);
    }
  }

  /**
   * Counted pulses are more than `debounceMs` apart, the first one more than
   * `debounceMs` after the state's `lastCountMs` (for a fresh counter, its
   * construction time), and `lastCountMs` ends at the last pulse counted.
   */
  lemma {:induction false} AcceptedSpaced(d: Debounce, debounceMs: int, times: seq<int>)
    ensures var acc := Accepted(d, debounceMs, times);
      Spaced(d.lastCountMs, debounceMs, acc) &&
      HandleAll(d, debounceMs, times).lastCountMs == (if acc == [] then d.lastCountMs else acc[|acc| - 1])
    decreases |times|
  {
    if times != [] {
      var d' := Handle(d, debounceMs, times[0]);
      AcceptedSpaced(d', debounceMs, times[1..]);
      var rest := Accepted(d', debounceMs, times[1..]);
      if d'.counter != d.counter {
        SpacedCons(d.lastCountMs, debounceMs, times[0], rest);
        assert Accepted(d, debounceMs, times) == [times[0]] + rest;
      } else {
        assert Accepted(d, debounceMs, times) == rest;
      }
    }
  }

  class PulseCounter {
    const debounceMs: int
    var counter: nat
    var lastCountMs: int

    function State(): Debounce
      reads this
    {
      Debounce(counter, lastCountMs)
    }

    /** A counter created at time `nowMs`: `_last_count_ms` is seeded with the creation time. */
    constructor (debounceMs: int, nowMs: int)
      ensures this.debounceMs == debounceMs && State() == Debounce(0, nowMs)
    {
      this.debounceMs := debounceMs;
      lastCountMs := nowMs;
      counter := 0;
    }

    /** The interrupt handler, at time `timeMs`. */
    method Handler(timeMs: int)
      modifies this
      ensures State() == Handle(old(State()), debounceMs, timeMs)
      ensures counter == old(counter) + 1 <==> timeMs - old(lastCountMs) > debounceMs
    {
      if timeMs - lastCountMs > debounceMs {
        counter := counter + 1;
        lastCountMs := timeMs;
      }
    }
  }

  // ---------------------------------------------------------------------------
  // The display text `'C={:4d}'.format(crank) + '\nW={:4d}'.format(wheel)`

  function DigitChar(d: nat): char
    requires d < 10
  {
    ('0' as int + d) as char
  }

  /** The decimal digits of `n`, without leading zeros. */
  function Decimal(n: nat): (s: string)
    ensures |s| >= 1
    ensures forall i :: 0 <= i < |s| ==> '0' <= s[i] <= '9'
    decreases n
  {
    if n < 10 then [DigitChar(n)] else Decimal(n / 10) + [DigitChar(n % 10)]
  }

  /** The number a string of decimal digits denotes. */
  function DecimalValue(s: string): int
  {
    if s == [] then 0 else 10 * DecimalValue(s[..|s| - 1]) + (s[|s| - 1] as int - '0' as int)
  }

  lemma {:induction false} DecimalRoundTrip(n: nat)
    ensures DecimalValue(Decimal(n)) == n
  {
    if n >= 10 {
      DecimalRoundTrip(n / 10);
      var s := Decimal(n);
      assert s[..|s| - 1] == Decimal(n / 10);
    }
  }

  function Spaces(k: nat): (sp: string)
    ensures |sp| == k && forall i :: 0 <= i < k ==> sp[i] == ' '
  {
    if k == 0 then [] else Spaces(k - 1) + [' ']
  }

  /** `s` right-aligned in a field of `width` spaces. */
  function PadLeft(s: string, width: nat): (r: string)
    ensures |r| == if |s| < width then width else |s|
    ensures forall i :: 0 <= i < |r| - |s| ==> r[i] == ' '
    ensures forall i :: 0 <= i < |s| ==> r[|r| - |s| + i] == s[i]
  {
    if |s| < width then Spaces(width - |s|) + s else s
  }

  /** The digits `{:4d}` prints, with a minus sign for a negative number. */
  function Signed(n: int): (s: string)
    ensures CharLcd.NoNewline(s)
  {
    if n < 0 then "-" + Decimal(-n) else Decimal(n)
  }

  lemma PadLeftNoNewline(s: string, width: nat)
    requires CharLcd.NoNewline(s)
    ensures CharLcd.NoNewline(PadLeft(s, width))
  {
    var r := PadLeft(s, width);
    forall i | |r| - |s| <= i < |r|
      ensures r[i] != '\n'
    {
      assert r[i] == s[i - (|r| - |s|)];
    }
  }

  /** Python's `'{:4d}'.format(n)`. */
  function Format4d(n: int): (s: string)
    ensures |s| >= 4
    ensures CharLcd.NoNewline(s)
  {
    PadLeftNoNewline(Signed(n), 4);
    PadLeft(Signed(n), 4)
  }

  function DisplayText(crank: int, wheel: int): string
  {
    "C=" + Format4d(crank) + "\nW=" + Format4d(wheel)
  }

  /** What `message(DisplayText(..))` writes on the rider's 16x1 display in left-to-right mode. */
  function DisplayWrites(crank: int, wheel: int): seq<CharLcd.Write>
  {
    CharLcd.CharWrites("C=" + Format4d(crank)) + [CharLcd.Write(0xC0, false)] + CharLcd.CharWrites("W=" + Format4d(wheel))
  }

  lemma NoNewlineCount(s: string)
    requires CharLcd.NoNewline(s)
    ensures CharLcd.Newlines(s) == 0
  {
    if s != [] {
      NoNewlineCount(s[1..]);
    }
  }

  /** Row 1 of the rider's display is not clamped (it equals `lines`) and starts at address 0x40. */
  lemma RiderSecondRow()
    ensures CharLcd.NewlineCursor(CharLcd.EntryLeft, LcdColumns, LcdRows)(1) == Some(0xC0)
  {
    assert CharLcd.EntryColumn(CharLcd.EntryLeft, LcdColumns) == 0;
    assert CharLcd.ClampRow(1, LcdRows) == 1;
    assert CharLcd.RowOffset(1) == Some(0x40);
    assert CharLcd.SetBit7(0x40) == 0xC0;
  }

  /** From line 0, a newline moving to a row that has a cursor command, followed by plain text. */
  lemma NewlineThen(b: string, cursor: int -> Option<int>)
    requires cursor(1).Some? && CharLcd.NoNewline(b)
    ensures CharLcd.MessageFrom("\n" + b, 0, cursor) == CharLcd.Emitted([CharLcd.Write(cursor(1).value, false)] + CharLcd.CharWrites(b), false)
  {
    var t := "\n" + b;
    assert t[0] == '\n' && t[1..] == b;
    assert CharLcd.FirstWrite(t, 0, cursor) == Some(CharLcd.Write(cursor(1).value, false));
    CharLcd.MessagePlain(b, 1, cursor);
  }

  /** A label followed by a formatted count holds no newline. */
  lemma LabelledNoNewline(prefix: string, n: int)
    requires CharLcd.NoNewline(prefix)
    ensures CharLcd.NoNewline(prefix + Format4d(n))
  {
    var f := Format4d(n);
    forall i | |prefix| <= i < |prefix + f|
      ensures (prefix + f)[i] != '\n'
    {
      assert (prefix + f)[i] == f[i - |prefix|];
    }
  }

  lemma DisplayTextSplit(crank: int, wheel: int)
    ensures DisplayText(crank, wheel) == ("C=" + Format4d(crank)) + ("\n" + ("W=" + Format4d(wheel)))
  {
  }

  /** Two newline-free rows separated by a newline whose row command is 0xC0. */
  lemma TwoRows(a: string, b: string, cursor: int -> Option<int>)
    requires CharLcd.NoNewline(a) && CharLcd.NoNewline(b) && cursor(1) == Some(0xC0)
    ensures CharLcd.MessageFrom(a + ("\n" + b), 0, cursor)
      == CharLcd.Emitted(CharLcd.CharWrites(a) + [CharLcd.Write(0xC0, false)] + CharLcd.CharWrites(b), false)
  {
    CharLcd.MessagePlain(a, 0, cursor);
    NoNewlineCount(a);
    CharLcd.MessageConcat(a, "\n" + b, 0, cursor);
    NewlineThen(b, cursor);
    assert CharLcd.CharWrites(a) + ([CharLcd.Write(0xC0, false)] + CharLcd.CharWrites(b))
      == CharLcd.CharWrites(a) + [CharLcd.Write(0xC0, false)] + CharLcd.CharWrites(b);
  }

  /**
   * On the rider's display the text's newline moves the cursor to row 1 (not
   * clamped, since the row equals `lines`), address 0x40: command 0xC0; the
   * call never raises.
   */
  lemma DisplayMessage(crank: int, wheel: int)
    ensures CharLcd.MessageFrom(DisplayText(crank, wheel), 0, CharLcd.NewlineCursor(CharLcd.EntryLeft, LcdColumns, LcdRows))
      == CharLcd.Emitted(DisplayWrites(crank, wheel), false)
  {
    assert CharLcd.NoNewline("C=") && CharLcd.NoNewline("W=");
    LabelledNoNewline("C=", crank);
    LabelledNoNewline("W=", wheel);
    DisplayTextSplit(crank, wheel);
    RiderSecondRow();
    TwoRows("C=" + Format4d(crank), "W=" + Format4d(wheel), CharLcd.NewlineCursor(CharLcd.EntryLeft, LcdColumns, LcdRows));
  }

  // ---------------------------------------------------------------------------
  // One iteration of `main`'s loop

  /** The LoRa packet `{"id": config.id, "c": _prev_crank, "w": _prev_wheel}`. */
  datatype Packet = Packet(id: string, c: int, w: int)

  /** `main`'s loop variables. */
  datatype LoopState = LoopState(prevCrank: int, prevWheel: int, lastSentMs: int, startDelayMs: int)

  /** The outcome of one iteration: the new locals, whether the display was redrawn, the packet sent. */
  datatype Iteration = Iteration(next: LoopState, redraw: bool, packet: Option<Packet>)

  /** The random part of the start delay, `(machine.rng() % 30) * 100`. */
  function StartOffset(rng: nat): (r: nat)
    ensures r % 100 == 0 && r <= 2900
    ensures r / 100 == rng % 30
  {
    (rng % 30) * 100
  }

  /** The locals when the loop is entered: `_time_ms` read at `bootMs`, the start delay drawn from `rng` at time `delayBaseMs`. */
  function Initial(bootMs: int, rng: nat, delayBaseMs: int): LoopState
  {
    LoopState(0, 0, bootMs, StartOffset(rng) + delayBaseMs)
  }

  /** One iteration with crank counter value `counter`, at time `nowMs`. */
  function Step(s: LoopState, id: string, counter: nat, nowMs: int): (r: Iteration)
    ensures r.redraw <==> s.prevCrank != counter
    ensures r.next.prevCrank == if r.redraw then counter / 2 else s.prevCrank
    ensures r.packet.Some? <==> s.startDelayMs <= nowMs && nowMs > s.lastSentMs + LoraSendPeriodMs
    ensures r.next.lastSentMs == if r.packet.Some? then nowMs else s.lastSentMs
    ensures r.packet.Some? ==> r.packet.value == Packet(id, r.next.prevCrank, s.prevWheel)
    ensures r.next.prevWheel == s.prevWheel && r.next.startDelayMs == s.startDelayMs
  {
    var redraw := s.prevCrank != counter;
    var s' := if redraw then s.(prevCrank := counter / 2) else s;
    if nowMs < s.startDelayMs then Iteration(s', redraw, None)
    else if nowMs > s.lastSentMs + LoraSendPeriodMs then
      Iteration(s'.(lastSentMs := nowMs), redraw, Some(Packet(id, s'.prevCrank, s'.prevWheel)))
    else Iteration(s', redraw, None)
  }

  /**
   * When `prevCrank` is the halved previous reading and the counter has not
   * gone down, an iteration leaves `prevCrank == counter // 2` and sends that
   * value. Because the test compares the halved value with the raw counter,
   * the display is redrawn on every iteration once the counter is non-zero.
   */
  lemma StepHalves(s: LoopState, id: string, prev: nat, counter: nat, nowMs: int)
    requires s.prevCrank == prev / 2 && prev <= counter
    ensures var r := Step(s, id, counter, nowMs);
      r.next.prevCrank == counter / 2 &&
      (r.packet.Some? ==> r.packet.value.c == counter / 2) &&
      (r.redraw <==> counter > 0)
  {
  }

  /** The same non-zero reading twice: both iterations redraw, and the value shown stays the same. */
  lemma RedrawsUnchanged(s: LoopState, id: string, counter: nat, t1: int, t2: int)
    requires s.prevCrank != counter && counter > 0
    ensures var r1 := Step(s, id, counter, t1);
      var r2 := Step(r1.next, id, counter, t2);
      r1.redraw && r2.redraw && r2.next.prevCrank == r1.next.prevCrank
  {
  }

  /**
   * The iteration with the evidently intended test `_prev_crank != counter // 2`:
   * the display is redrawn exactly when the value it shows changes.
   */
  function IntendedStep(s: LoopState, id: string, counter: nat, nowMs: int): (r: Iteration)
    ensures r.next.prevCrank == counter / 2
    ensures r.redraw <==> r.next.prevCrank != s.prevCrank
    ensures r.packet.Some? <==> s.startDelayMs <= nowMs && nowMs > s.lastSentMs + LoraSendPeriodMs
    ensures r.next.lastSentMs == if r.packet.Some? then nowMs else s.lastSentMs
    ensures r.packet.Some? ==> r.packet.value == Packet(id, counter / 2, s.prevWheel)
    ensures r.next.prevWheel == s.prevWheel && r.next.startDelayMs == s.startDelayMs
  {
    var redraw := s.prevCrank != counter / 2;
    var s' := if redraw then s.(prevCrank := counter / 2) else s;
    if nowMs < s.startDelayMs then Iteration(s', redraw, None)
    else if nowMs > s.lastSentMs + LoraSendPeriodMs then
      Iteration(s'.(lastSentMs := nowMs), redraw, Some(Packet(id, s'.prevCrank, s'.prevWheel)))
    else Iteration(s', redraw, None)
  }

  /** With the intended test, the same reading twice redraws at most once. */
  lemma IntendedSteady(s: LoopState, id: string, counter: nat, t1: int, t2: int)
    ensures !IntendedStep(IntendedStep(s, id, counter, t1).next, id, counter, t2).redraw
  {
  }

  /**
   * From a state the loop reaches (`prevCrank` the halved earlier reading, the
   * counter not gone down), the intended test changes nothing but the redraws:
   * the new locals and the packet are those of the code as written.
   */
  lemma IntendedSameSends(s: LoopState, id: string, prev: nat, counter: nat, nowMs: int)
    requires s.prevCrank == prev / 2 && prev <= counter
    ensures IntendedStep(s, id, counter, nowMs).next == Step(s, id, counter, nowMs).next
    ensures IntendedStep(s, id, counter, nowMs).packet == Step(s, id, counter, nowMs).packet
  {
    StepHalves(s, id, prev, counter, nowMs);
  }

  /** The counter value read and the clock at one iteration. */
  datatype Reading = Reading(counter: nat, nowMs: int)

  /** A packet sent at time `atMs`. */
  datatype Sent = Sent(atMs: int, packet: Packet)

  datatype Trace = Trace(last: LoopState, sent: seq<Sent>)

  /** The loop run over `readings`. */
  function Run(s: LoopState, id: string, readings: seq<Reading>): Trace
    decreases |readings|
  {
    if readings == [] then Trace(s, [])
    else
      var r := Step(s, id, readings[0].counter, readings[0].nowMs);
      var rest := Run(r.next, id, readings[1..]);
      Trace(rest.last, (if r.packet.Some? then [Sent(readings[0].nowMs, r.packet.value)] else []) + rest.sent)
  }

  function SentTimes(sent: seq<Sent>): (ts: seq<int>)
    ensures |ts| == |sent| && forall k :: 0 <= k < |sent| ==> ts[k] == sent[k].atMs
  {
    seq(|sent|, k requires 0 <= k < |sent| => sent[k].atMs)
  }

  ghost predicate NonDecreasing(from: nat, readings: seq<Reading>)
  {
    (|readings| > 0 ==> readings[0].counter >= from) &&
    forall i :: 0 < i < |readings| ==> readings[i].counter >= readings[i - 1].counter
  }

  /**
   * Over any run, consecutive sends are more than 3000 ms apart, the first
   * more than 3000 ms after the entry `lastSentMs`, and `lastSentMs` ends as
   * the time of the last send.
   */
  lemma {:induction false} RunSpacing(s: LoopState, id: string, readings: seq<Reading>)
    ensures var t := Run(s, id, readings);
      Spaced(s.lastSentMs, LoraSendPeriodMs, SentTimes(t.sent)) &&
      t.last.lastSentMs == (if t.sent == [] then s.lastSentMs else t.sent[|t.sent| - 1].atMs)
    decreases |readings|
  {
    if readings != [] {
      var r := Step(s, id, readings[0].counter, readings[0].nowMs);
      RunSpacing(r.next, id, readings[1..]);
      var rest := Run(r.next, id, readings[1..]).sent;
      var t := Run(s, id, readings);
      if r.packet.Some? {
        assert t.sent == [Sent(readings[0].nowMs, r.packet.value)] + rest;
        assert SentTimes(t.sent) == [readings[0].nowMs] + SentTimes(rest);
        SpacedCons(s.lastSentMs, LoraSendPeriodMs, readings[0].nowMs, SentTimes(rest));
      } else {
        assert t.sent == rest;
      }
    }
  }

  /**
   * Over any run, no packet goes out before the start delay, at most one goes
   * out per iteration, and every packet carries the rider's id and the
   * unchanged `prevWheel`.
   */
  lemma {:induction false} RunPackets(s: LoopState, id: string, readings: seq<Reading>)
    ensures var t := Run(s, id, readings);
      |t.sent| <= |readings| &&
      (forall k :: 0 <= k < |t.sent| ==>
         t.sent[k].atMs >= s.startDelayMs && t.sent[k].packet.id == id && t.sent[k].packet.w == s.prevWheel) &&
      t.last.prevWheel == s.prevWheel && t.last.startDelayMs == s.startDelayMs
    decreases |readings|
  {
    if readings != [] {
      var r := Step(s, id, readings[0].counter, readings[0].nowMs);
      RunPackets(r.next, id, readings[1..]);
      var rest := Run(r.next, id, readings[1..]).sent;
      var t := Run(s, id, readings);
      if r.packet.Some? {
        assert t.sent == [Sent(readings[0].nowMs, r.packet.value)] + rest;
      } else {
        assert t.sent == rest;
      }
    }
  }

  /** From the loop's entry state every packet reports `w == 0`: the wheel counter is never read. */
  lemma RunWheelZero(bootMs: int, rng: nat, delayBaseMs: int, id: string, readings: seq<Reading>)
    ensures var t := Run(Initial(bootMs, rng, delayBaseMs), id, readings);
      forall k :: 0 <= k < |t.sent| ==> t.sent[k].packet.w == 0 && t.sent[k].atMs >= delayBaseMs
  {
    RunPackets(Initial(bootMs, rng, delayBaseMs), id, readings);
  }

  /** With non-decreasing counter readings, `prevCrank` ends as the last reading halved. */
  lemma {:induction false} RunHalves(s: LoopState, id: string, prev: nat, readings: seq<Reading>)
    requires s.prevCrank == prev / 2 && NonDecreasing(prev, readings)
    ensures Run(s, id, readings).last.prevCrank == (if readings == [] then prev else readings[|readings| - 1].counter) / 2
    decreases |readings|
  {
    if readings != [] {
      var c := readings[0].counter;
      assert c >= prev;
      StepHalves(s, id, prev, c, readings[0].nowMs);
      var rest := readings[1..];
      assert NonDecreasing(c, rest) by {
        forall i | 0 < i < |rest|
          ensures rest[i].counter >= rest[i - 1].counter
        {
          assert rest[i] == readings[i + 1] && rest[i - 1] == readings[i];
        }
        if |rest| > 0 {
          assert rest[0] == readings[1];
        }
      }
      RunHalves(Step(s, id, c, readings[0].nowMs).next, id, c, rest);
    }
  }

  // ---------------------------------------------------------------------------
  // `main`

  class RiderMain {
    const id: string
    const lcd: CharLcd.CharLCD
    /** The crank pulse counter; its interrupt handler runs as separate calls to `crank.Handler`. */
    const crank: PulseCounter
    var prevCrank: int
    var prevWheel: int
    var lastSentMs: int
    var startDelayMs: int

    function State(): LoopState
      reads this
    {
      LoopState(prevCrank, prevWheel, lastSentMs, startDelayMs)
    }

    /** The display is the 16x1 one `main` built, still in left-to-right entry mode. */
    ghost predicate Valid()
      reads this, lcd
    {
      lcd.Valid() && lcd.cols == LcdColumns && lcd.lines == LcdRows && lcd.displaymode == CharLcd.EntryLeft
    }

    /**
     * `main` up to its loop: `_time_ms` is read at `bootMs`, the crank counter
     * is created with the 250 ms window when the clock reads `crankMs`, the
     * display is initialised and shows the zero counts, and the start delay is
     * drawn from `rng` when the clock reads `delayBaseMs`.
     */
    constructor (id: string, bootMs: int, crankMs: int, rng: nat, delayBaseMs: int)
      ensures Valid() && fresh(lcd) && this.id == id
      ensures State() == Initial(bootMs, rng, delayBaseMs)
      ensures fresh(crank) && crank.debounceMs == CrankDebounceMs && crank.State() == Debounce(0, crankMs)
      ensures lcd.writes == CharLcd.InitWrites + DisplayWrites(0, 0) && lcd.delays == [10]
      ensures lcd.displaycontrol == 0x04
    {
      this.id := id;
      prevCrank, prevWheel := 0, 0;
      lastSentMs := bootMs;
      crank := new PulseCounter(CrankDebounceMs, crankMs);
      var display := new CharLcd.CharLCD(LcdColumns, LcdRows);
      DisplayMessage(0, 0);
      var raised := display.Message(DisplayText(0, 0));
      assert !raised;
      lcd := display;
      startDelayMs := StartOffset(rng) + delayBaseMs;
    }

    /** `lcd.home()` followed by the message showing `crank` and `wheel`. */
    method Redraw(crank: int, wheel: int)
      requires Valid()
      modifies lcd
      ensures Valid()
      ensures lcd.writes == old(lcd.writes) + [CharLcd.Write(0x02, false)] + DisplayWrites(crank, wheel)
      ensures lcd.delays == old(lcd.delays) + [10]
      ensures lcd.displaycontrol == old(lcd.displaycontrol)
    {
      lcd.Home();
      DisplayMessage(crank, wheel);
      var raised := lcd.Message(DisplayText(crank, wheel));
      assert !raised;
    }

    /** The refresh test: redraw with the halved count when `_prev_crank` differs from the counter. */
    method RefreshDisplay(counter: nat)
      requires Valid()
      modifies this`prevCrank, lcd
      ensures Valid()
      ensures old(prevCrank) != counter ==>
        prevCrank == counter / 2 &&
        lcd.writes == old(lcd.writes) + [CharLcd.Write(0x02, false)] + DisplayWrites(prevCrank, prevWheel) &&
        lcd.delays == old(lcd.delays) + [10]
      ensures old(prevCrank) == counter ==>
        prevCrank == old(prevCrank) && lcd.writes == old(lcd.writes) && lcd.delays == old(lcd.delays)
      ensures lcd.displaycontrol == old(lcd.displaycontrol)
    {
      if prevCrank != counter {
        prevCrank := counter / 2;
        Redraw(prevCrank, prevWheel);
      }
    }

    /** The send decision: nothing before the start delay, then a packet once more than 3000 ms passed since the last. */
    method SendDue(nowMs: int) returns (packet: Option<Packet>)
      modifies this`lastSentMs
      ensures packet.Some? <==> startDelayMs <= nowMs && nowMs > old(lastSentMs) + LoraSendPeriodMs
      ensures lastSentMs == if packet.Some? then nowMs else old(lastSentMs)
      ensures packet.Some? ==> packet.value == Packet(id, prevCrank, prevWheel)
    {
      if nowMs < startDelayMs {
        packet := None;
      } else if nowMs > lastSentMs + LoraSendPeriodMs {
        lastSentMs := nowMs;
        packet := Some(Packet(id, prevCrank, prevWheel));
      } else {
        packet := None;
      }
    }

    /** One iteration of the loop, reading `counter` from the crank counter and `nowMs` from the clock. */
    method Iterate(counter: nat, nowMs: int) returns (packet: Option<Packet>)
      requires Valid()
      modifies this, lcd
      ensures Valid()
      ensures var r := Step(old(State()), id, counter, nowMs);
        State() == r.next && packet == r.packet
      ensures old(prevCrank) != counter ==>
        lcd.writes == old(lcd.writes) + [CharLcd.Write(0x02, false)] + DisplayWrites(prevCrank, prevWheel) &&
        lcd.delays == old(lcd.delays) + [10]
      ensures old(prevCrank) == counter ==> lcd.writes == old(lcd.writes) && lcd.delays == old(lcd.delays)
      ensures lcd.displaycontrol == old(lcd.displaycontrol)
    {
      ghost var before := State();
      RefreshDisplay(counter);
      packet := SendDue(nowMs);
      assert State() == Step(before, id, counter, nowMs).next;
    }
  }
}
