/**
 * The HD44780 character-LCD driver in 4-bit mode (Adafruit_LCD.py).
 *
 * The GPIO pins are replaced by a log: every enable pulse appends the levels of
 * RS and d4..d7 at that moment to `bus`. Each `write8` call is also recorded, as
 * a `Write`, in the ghost log `writes`, and the object invariant ties the two
 * logs together through `Encode`. The long-command waits of
 * `_delay_microseconds` are logged, in milliseconds, in `delays`.
 */
module CharLcd {
  import opened Wrappers

  // Commands
  const ClearDisplay: bv8 := 0x01
  const ReturnHome: bv8 := 0x02
  const EntryModeSet: bv8 := 0x04
  const DisplayControl: bv8 := 0x08
  const CursorShift: bv8 := 0x10
  const FunctionSet: bv8 := 0x20
  const SetCgramAddr: bv8 := 0x40
  const SetDdramAddr: bv8 := 0x80

  // Entry flags
  const EntryRight: bv8 := 0x00
  const EntryLeft: bv8 := 0x02
  const EntryShiftIncrement: bv8 := 0x01
  const EntryShiftDecrement: bv8 := 0x00

  // Control flags
  const DisplayOn: bv8 := 0x04
  const DisplayOff: bv8 := 0x00
  const CursorOn: bv8 := 0x02
  const CursorOff: bv8 := 0x00
  const BlinkOn: bv8 := 0x01
  const BlinkOff: bv8 := 0x00

  // Move flags
  const DisplayMove: bv8 := 0x08
  const CursorMove: bv8 := 0x00
  const MoveRightFlag: bv8 := 0x04
  const MoveLeftFlag: bv8 := 0x00

  // Function set flags
  const Mode8Bit: bv8 := 0x10
  const Mode4Bit: bv8 := 0x00
  const TwoLine: bv8 := 0x08
  const OneLine: bv8 := 0x00
  const Dots5x10: bv8 := 0x04
  const Dots5x8: bv8 := 0x00

  /** DDRAM address of column 0 of each of up to four rows. */
  const RowOffsets: seq<int> := [0x00, 0x40, 0x14, 0x54]

  // ---------------------------------------------------------------------------
  // Registers

  /** `reg |= flag` when `on`, `reg &= ~flag` otherwise: only the bits of `flag` change. */
  function SetFlag(reg: bv8, flag: bv8, on: bool): (r: bv8)
    ensures r & flag == (if on then flag else 0)
    ensures r & !flag == reg & !flag
  {
    if on then reg | flag else reg & !flag
  }

  // ---------------------------------------------------------------------------
  // The bus: nibbles and enable pulses

  type Bit = b: int | 0 <= b <= 1

  /** The levels of RS and of the data lines d4..d7 latched by one enable pulse. */
  datatype Pulse = Pulse(rs: bool, d4: Bit, d5: Bit, d6: Bit, d7: Bit)

  /** One `write8(value, char_mode)` call. */
  datatype Write = Write(value: int, charMode: bool)

  /**
   * The pulse that puts bits 0..3 of `n` on d4..d7. Python's `(n >> k) & 1` is
   * `(n / 2^k) % 2` here: Dafny's `/` and `%` floor for a positive divisor, as
   * Python's shift does on negative numbers too.
   */
  function NibblePulse(rs: bool, n: int): Pulse
  {
    Pulse(rs, n % 2, (n / 2) % 2, (n / 4) % 2, (n / 8) % 2)
  }

  /** The value a pulse carries on d4..d7, d4 being the least significant line. */
  function Nibble(p: Pulse): (n: int)
    ensures 0 <= n < 16
  {
    p.d4 + 2 * p.d5 + 4 * p.d6 + 8 * p.d7
  }

  /** `write8`: bits 4..7 of `value` with one enable pulse, then bits 0..3 with a second one. */
  function Write8Pulses(value: int, charMode: bool): seq<Pulse>
  {
    [NibblePulse(charMode, value / 16), NibblePulse(charMode, value)]
  }

  // Division by a constant, one quotient at a time.
  lemma Quot2(n: int, q: int, r: int)
    requires n == 2 * q + r && 0 <= r < 2
    ensures n / 2 == q && n % 2 == r
  {
  }

  lemma Quot4(n: int, q: int, r: int)
    requires n == 4 * q + r && 0 <= r < 4
    ensures n / 4 == q
  {
  }

  lemma Quot8(n: int, q: int, r: int)
    requires n == 8 * q + r && 0 <= r < 8
    ensures n / 8 == q
  {
  }

  lemma Quot16(n: int, q: int, r: int)
    requires n == 16 * q + r && 0 <= r < 16
    ensures n / 16 == q && n % 16 == r
  {
  }

  /** Bits 0..3 of `n` are those of `n mod 16`. */
  lemma LowBits(n: int)
    ensures n % 2 == (n % 16) % 2
    ensures (n / 2) % 2 == ((n % 16) / 2) % 2
    ensures (n / 4) % 2 == ((n % 16) / 4) % 2
    ensures (n / 8) % 2 == ((n % 16) / 8) % 2
  {
    var q, r := n / 16, n % 16;
    var r1, r2, r3 := r / 2, r / 4, r / 8;
    Quot2(n, 8 * q + r1, r % 2);
    Quot2(8 * q + r1, 4 * q + r1 / 2, r1 % 2);
    Quot4(n, 4 * q + r2, r % 4);
    Quot2(4 * q + r2, 2 * q + r2 / 2, r2 % 2);
    Quot8(n, 2 * q + r3, r % 8);
    Quot2(2 * q + r3, q + r3 / 2, r3 % 2);
  }

  /** A number below 16 is the sum of its four bits. */
  lemma FourBits(r: int)
    requires 0 <= r < 16
    ensures r % 2 + 2 * ((r / 2) % 2) + 4 * ((r / 4) % 2) + 8 * ((r / 8) % 2) == r
  {
    var r1 := r / 2;
    var r2 := r1 / 2;
    var r3 := r2 / 2;
    var b0, b1, b2 := r % 2, r1 % 2, r2 % 2;
    Quot4(r, r2, 2 * b1 + b0);
    Quot8(r, r3, 4 * b2 + 2 * b1 + b0);
    Quot2(r3, 0, r3);
  }

  lemma NibbleOfPulse(rs: bool, n: int)
    ensures Nibble(NibblePulse(rs, n)) == n % 16
  {
    LowBits(n);
    FourBits(n % 16);
  }

  /** Bits 4..7 of `value` are bits 4..7 of `value mod 256`, and the byte is its two nibbles. */
  lemma HighNibble(value: int)
    ensures (value / 16) % 16 == (value % 256) / 16
    ensures 16 * ((value % 256) / 16) + value % 16 == value % 256
  {
    var q, r := value / 256, value % 256;
    var hi, lo := r / 16, r % 16;
    Quot16(value, 16 * q + hi, lo);
    Quot16(16 * q + hi, q, hi);
  }

  /** Both pulses of `write8` carry RS = `charMode`, and recombining their nibbles gives `value mod 256`. */
  lemma Write8Recombines(value: int, charMode: bool)
    ensures var ps := Write8Pulses(value, charMode);
      |ps| == 2 && ps[0].rs == charMode && ps[1].rs == charMode &&
      Nibble(ps[0]) == (value % 256) / 16 && Nibble(ps[1]) == value % 16 &&
      16 * Nibble(ps[0]) + Nibble(ps[1]) == value % 256
  {
    NibbleOfPulse(charMode, value / 16);
    NibbleOfPulse(charMode, value);
    HighNibble(value);
  }

  /** The pulses a sequence of `write8` calls puts on the bus. */
  function Encode(ws: seq<Write>): (ps: seq<Pulse>)
    ensures |ps| == 2 * |ws|
  {
    if ws == [] then [] else Write8Pulses(ws[0].value, ws[0].charMode) + Encode(ws[1..])
  }

  /** What the display controller reads off the bus: bytes, two pulses each. */
  function Decode(ps: seq<Pulse>): (ws: seq<Write>)
    ensures |ws| == |ps| / 2
    ensures forall i :: 0 <= i < |ws| ==> 0 <= ws[i].value < 256
  {
    if |ps| < 2 then [] else [Write(16 * Nibble(ps[0]) + Nibble(ps[1]), ps[0].rs)] + Decode(ps[2..])
  }

  lemma {:induction false} EncodeAppend(a: seq<Write>, b: seq<Write>)
    ensures Encode(a + b) == Encode(a) + Encode(b)
  {
    if a == [] {
      assert a + b == b;
    } else {
      assert (a + b)[0] == a[0];
      assert (a + b)[1..] == a[1..] + b;
      EncodeAppend(a[1..], b);
    }
  }

  /** The controller reads back every byte written, reduced to its low 8 bits, with its RS level. */
  lemma {:induction false} DecodeEncode(ws: seq<Write>)
    ensures |Decode(Encode(ws))| == |ws|
    ensures forall i :: 0 <= i < |ws| ==>
      Decode(Encode(ws))[i] == Write(ws[i].value % 256, ws[i].charMode)
  {
    if ws != [] {
      Write8Recombines(ws[0].value, ws[0].charMode);
      var ps := Encode(ws);
      assert ps[2..] == Encode(ws[1..]);
      DecodeEncode(ws[1..]);
    }
  }

  // ---------------------------------------------------------------------------
  // Command values

  /** The ms `_delay_microseconds(us)` sleeps: `us // 1000`, Python's floor division. */
  function DelayMs(us: int): (ms: int)
    ensures 1000 * ms <= us < 1000 * ms + 1000
  {
    us / 1000
  }

  /** `set_cursor`'s clamp: a row greater than `lines` (not equal to it) becomes `lines - 1`. */
  function ClampRow(row: int, lines: int): int
  {
    if row > lines then lines - 1 else row
  }

  /** `LCD_ROW_OFFSETS[row]` on a Python tuple: negative indices count from the end, others raise IndexError (None). */
  function RowOffset(row: int): (r: Option<int>)
    ensures r.Some? <==> -4 <= row < 4
  {
    if 0 <= row < 4 then Some(RowOffsets[row])
    else if -4 <= row < 0 then Some(RowOffsets[row + 4])
    else None
  }

  /** `0x80 | x` on a Python int of any sign: bit 7 set, every other bit of the two's complement kept. */
  function SetBit7(x: int): (r: int)
    ensures r / 256 == x / 256
    ensures r % 256 == 0x80 + x % 128
  {
    if (x / 128) % 2 == 1 then x else x + 128
  }

  /** The command `set_cursor(col, row)` writes, or None when indexing the row offsets raises IndexError. */
  function CursorCommand(col: int, row: int, lines: int): (r: Option<int>)
    ensures r.Some? <==> -4 <= ClampRow(row, lines) < 4
  {
    match RowOffset(ClampRow(row, lines))
    case None => None
    case Some(offset) => Some(SetBit7(col + offset))
  }

  /**
   * A row in 0..3 that is at most `lines` is not clamped, and for a column that
   * keeps the address below 0x80 the command is `0x80 + col + offset`.
   */
  lemma CursorAddress(col: int, row: int, lines: int)
    requires 0 <= row < 4 && row <= lines
    requires 0 <= col && col + RowOffsets[row] < 0x80
    ensures CursorCommand(col, row, lines) == Some(0x80 + col + RowOffsets[row])
  {
  }

  /** A row beyond `lines` is sent to row `lines - 1`; one out of Python's index range raises. */
  lemma CursorClamp(col: int, row: int, lines: int)
    requires row > lines
    ensures CursorCommand(col, row, lines).Some? <==> -3 <= lines <= 4
    ensures CursorCommand(col, row, lines).Some? ==>
      CursorCommand(col, row, lines) == CursorCommand(col, lines - 1, lines)
  {
  }

  /** `0x40 | (location << 3)` after `location &= 0x7`. */
  function CgramCommand(location: int): (r: int)
    ensures r == 0x40 + 8 * (location % 8)
  {
    var loc := (location % 8) as bv8;
    assert loc < 8;
    (SetCgramAddr | (loc << 3)) as int
  }

  // ---------------------------------------------------------------------------
  // Text

  /** One character-mode write of `ord(c)` per character. */
  function CharWrites(text: string): (ws: seq<Write>)
    ensures |ws| == |text|
    ensures forall i :: 0 <= i < |text| ==> ws[i] == Write(text[i] as int, true)
  {
    seq(|text|, i requires 0 <= i < |text| => Write(text[i] as int, true))
  }

  lemma DataWritesSnoc(pattern: seq<int>, i: nat)
    requires i < |pattern|
    ensures DataWrites(pattern[..i + 1]) == DataWrites(pattern[..i]) + [Write(pattern[i], true)]
  {
  }

  /** The character-mode writes of a glyph pattern. */
  function DataWrites(pattern: seq<int>): (ws: seq<Write>)
    ensures |ws| == |pattern|
    ensures forall i :: 0 <= i < |pattern| ==> ws[i] == Write(pattern[i], true)
  {
    seq(|pattern|, i requires 0 <= i < |pattern| => Write(pattern[i], true))
  }

  ghost predicate NoNewline(text: string)
  {
    forall i :: 0 <= i < |text| ==> text[i] != '\n'
  }

  function Newlines(text: string): nat
  {
    if text == [] then 0 else (if text[0] == '\n' then 1 else 0) + Newlines(text[1..])
  }

  /** The column `message` moves to on a newline: 0 when ENTRYLEFT is set, else `cols - 1`. */
  function EntryColumn(mode: bv8, cols: int): int
  {
    if (mode & EntryLeft) > 0 then 0 else cols - 1
  }

  /** What a call emitted, and whether it ended by raising IndexError. */
  datatype Emitted = Emitted(writes: seq<Write>, raised: bool)

  function Prepend(ws: seq<Write>, e: Emitted): Emitted
  {
    Emitted(ws + e.writes, e.raised)
  }

  lemma PrependTwice(a: seq<Write>, b: seq<Write>, e: Emitted)
    ensures Prepend(a, Prepend(b, e)) == Prepend(a + b, e)
  {
    assert a + (b + e.writes) == (a + b) + e.writes;
  }

  /** One iteration of `message`'s loop, at position `i` with `done` already emitted. */
  lemma MessageStep(text: string, i: nat, line: int, cursor: int -> Option<int>, done: seq<Write>)
    requires i < |text|
    requires MessageFrom(text, 0, cursor) == Prepend(done, MessageFrom(text[i..], line, cursor))
    ensures FirstWrite(text[i..], line, cursor) == FirstWrite([text[i]], line, cursor)
    ensures FirstWrite(text[i..], line, cursor) ==
      if text[i] != '\n' then Some(Write(text[i] as int, true))
      else if cursor(line + 1).None? then None
      else Some(Write(cursor(line + 1).value, false))
    ensures FirstWrite(text[i..], line, cursor).None? ==> MessageFrom(text, 0, cursor) == Emitted(done, true)
    ensures FirstWrite(text[i..], line, cursor).Some? ==>
      MessageFrom(text, 0, cursor) ==
      Prepend(done + [FirstWrite(text[i..], line, cursor).value], MessageFrom(text[i + 1..], LineAfter(text[i], line), cursor))
  {
    var rest := text[i..];
    assert rest[0] == text[i] && rest[1..] == text[i + 1..];
    var first := FirstWrite(rest, line, cursor);
    if first.Some? {
      PrependTwice(done, [first.value], MessageFrom(text[i + 1..], LineAfter(text[i], line), cursor));
    }
  }

  /** The cursor command `message` sends on reaching line `row`, or None when `set_cursor` raises. */
  function NewlineCursor(mode: bv8, cols: int, lines: int): int -> Option<int>
  {
    row => CursorCommand(EntryColumn(mode, cols), row, lines)
  }

  /**
   * The write `message` makes for the first character of `text` when its line
   * counter is `line`: the character in character mode, or for a newline the
   * cursor command for the next line; None when `set_cursor` raises.
   */
  function FirstWrite(text: string, line: int, cursor: int -> Option<int>): Option<Write>
    requires text != []
  {
    if text[0] != '\n' then Some(Write(text[0] as int, true))
    else match cursor(line + 1)
      case None => None
      case Some(v) => Some(Write(v, false))
  }

  /** The line counter after character `c`. */
  function LineAfter(c: char, line: int): int
  {
    if c == '\n' then line + 1 else line
  }

  /**
   * `message(text)` from a point where the line counter is `line`; `cursor`
   * gives the command for each new line (`NewlineCursor` of the display).
   */
  function MessageFrom(text: string, line: int, cursor: int -> Option<int>): (e: Emitted)
    ensures |e.writes| <= |text|
    ensures !e.raised ==> |e.writes| == |text|
    decreases |text|
  {
    if text == [] then Emitted([], false)
    else match FirstWrite(text, line, cursor)
      case None => Emitted([], true)
      case Some(w) => Prepend([w], MessageFrom(text[1..], LineAfter(text[0], line), cursor))
  }

  /** The line counter after the character at position `i`, counting from the front of `text`. */
  lemma LineShift(text: string, line: int, i: nat)
    requires 0 < i < |text|
    ensures line + Newlines(text[..i + 1]) == LineAfter(text[0], line) + Newlines(text[1..][..i])
  {
    assert text[..i + 1][1..] == text[1..][..i];
  }

  lemma LineFirst(text: string, line: int)
    requires text != []
    ensures line + Newlines(text[..1]) == LineAfter(text[0], line)
  {
    assert text[..1] == [text[0]];
  }

  /** Position `i` of `text` is a newline whose `set_cursor` raises. */
  ghost predicate RaisingNewline(text: string, line: int, cursor: int -> Option<int>, i: int)
  {
    0 <= i < |text| && text[i] == '\n' && cursor(line + Newlines(text[..i + 1])).None?
  }

  /** `message` raises exactly when the cursor command of some newline raises. */
  lemma {:induction false} MessageRaises(text: string, line: int, cursor: int -> Option<int>)
    ensures MessageFrom(text, line, cursor).raised <==> exists i :: RaisingNewline(text, line, cursor, i)
  {
    if text != [] {
      LineFirst(text, line);
      var line' := LineAfter(text[0], line);
      if RaisingNewline(text, line, cursor, 0) {
      } else {
        assert FirstWrite(text, line, cursor).Some?;
        MessageRaises(text[1..], line', cursor);
        if MessageFrom(text, line, cursor).raised {
          var j :| RaisingNewline(text[1..], line', cursor, j);
          LineShift(text, line, j + 1);
          assert RaisingNewline(text, line, cursor, j + 1);
        } else {
          forall i | 0 < i < |text|
            ensures !RaisingNewline(text, line, cursor, i)
          {
            LineShift(text, line, i);
            assert !RaisingNewline(text[1..], line', cursor, i - 1);
          }
        }
      }
    }
  }

  /**
   * A `message` that does not raise emits one write per character: the
   * character itself in character mode, or, for the newline that brings the
   * line counter to n, the cursor command for line n in command mode.
   */
  lemma {:induction false} MessageWritesAt(text: string, line: int, cursor: int -> Option<int>)
    requires !MessageFrom(text, line, cursor).raised
    ensures var ws := MessageFrom(text, line, cursor).writes;
      |ws| == |text| &&
      (forall i :: 0 <= i < |text| && text[i] != '\n' ==> ws[i] == Write(text[i] as int, true)) &&
      (forall i :: 0 <= i < |text| && text[i] == '\n' ==>
         !ws[i].charMode && cursor(line + Newlines(text[..i + 1])) == Some(ws[i].value))
  {
    if text != [] {
      LineFirst(text, line);
      var line' := LineAfter(text[0], line);
      MessageWritesAt(text[1..], line', cursor);
      var ws := MessageFrom(text, line, cursor).writes;
      var rest := MessageFrom(text[1..], line', cursor).writes;
      assert ws == [FirstWrite(text, line, cursor).value] + rest;
      forall i | 0 < i < |text|
        ensures line + Newlines(text[..i + 1]) == line' + Newlines(text[1..][..i])
        ensures ws[i] == rest[i - 1] && text[i] == text[1..][i - 1]
      {
        LineShift(text, line, i);
      }
    }
  }

  /** Text without a newline is written character by character and never raises. */
  lemma {:induction false} MessagePlain(text: string, line: int, cursor: int -> Option<int>)
    requires NoNewline(text)
    ensures MessageFrom(text, line, cursor) == Emitted(CharWrites(text), false)
  {
    if text != [] {
      MessagePlain(text[1..], line, cursor);
      assert CharWrites(text) == [Write(text[0] as int, true)] + CharWrites(text[1..]);
    }
  }

  /** `message(a + b)` is `message(a)` followed by `b` from the line `a` ended on, unless `a` raised. */
  lemma {:induction false} MessageConcat(a: string, b: string, line: int, cursor: int -> Option<int>)
    requires !MessageFrom(a, line, cursor).raised
    ensures MessageFrom(a + b, line, cursor) ==
      Prepend(MessageFrom(a, line, cursor).writes, MessageFrom(b, line + Newlines(a), cursor))
  {
    if a == [] {
      assert a + b == b;
    } else {
      assert (a + b)[0] == a[0];
      assert (a + b)[1..] == a[1..] + b;
      assert FirstWrite(a, line, cursor) == FirstWrite(a + b, line, cursor);
      MessageConcat(a[1..], b, LineAfter(a[0], line), cursor);
    }
  }

  /** The six commands the constructor sends: 0x33, 0x32 (4-bit init), display on, function set, entry mode, clear. */
  const InitWrites: seq<Write> := [
    Write(0x33, false), Write(0x32, false), Write(0x0C, false),
    Write(0x28, false), Write(0x06, false), Write(0x01, false)]

  // ---------------------------------------------------------------------------
  // The driver object

  class CharLCD {
    const cols: int
    const lines: int
    var displaycontrol: bv8
    var displayfunction: bv8
    var displaymode: bv8
    var bus: seq<Pulse>
    var delays: seq<int>
    /** Every `write8` call made so far. */
    ghost var writes: seq<Write>

    /** displaycontrol stays within 0..7 and displaymode within 0..3; the bus carries `writes`. */
    ghost predicate Valid()
      reads this
    {
      displaycontrol <= 0x07 && displaymode <= 0x03 &&
      displayfunction == Mode4Bit | OneLine | TwoLine | Dots5x8 &&
      bus == Encode(writes)
    }

    constructor (cols: int, lines: int)
      ensures Valid() && this.cols == cols && this.lines == lines
      ensures displaycontrol == 0x04 && displaymode == 0x02
      ensures writes == InitWrites && delays == [10]
    {
      this.cols := cols;
      this.lines := lines;
      displaycontrol, displayfunction := 0, Mode4Bit | OneLine | TwoLine | Dots5x8;
      displaymode := 0;
      bus, delays := [], [];
      writes := [];
      new;
      Write8(0x33, false);
      Write8(0x32, false);
      displaycontrol := DisplayOn | CursorOff | BlinkOff;
      displayfunction := Mode4Bit | OneLine | TwoLine | Dots5x8;
      displaymode := EntryLeft | EntryShiftDecrement;
      Write8((DisplayControl | displaycontrol) as int, false);
      Write8((FunctionSet | displayfunction) as int, false);
      Write8((EntryModeSet | displaymode) as int, false);
      Clear();
    }

    /** `write8`: RS := charMode, then the high nibble and the low nibble, each with one enable pulse. */
    method Write8(value: int, charMode: bool)
      requires Valid()
      modifies this
      ensures Valid()
      ensures writes == old(writes) + [Write(value, charMode)]
      ensures bus == old(bus) + Write8Pulses(value, charMode)
      ensures displaycontrol == old(displaycontrol) && displaymode == old(displaymode)
      ensures displayfunction == old(displayfunction) && delays == old(delays)
    {
      bus := bus + [NibblePulse(charMode, value / 16)];
      bus := bus + [NibblePulse(charMode, value)];
      EncodeAppend(writes, [Write(value, charMode)]);
      writes := writes + [Write(value, charMode)];
    }

    method DelayMicroseconds(us: int)
      modifies this`delays
      ensures delays == old(delays) + [DelayMs(us)]
    {
      delays := delays + [us / 1000];
    }

    method Home()
      requires Valid()
      modifies this
      ensures Valid()
      ensures writes == old(writes) + [Write(0x02, false)] && delays == old(delays) + [10]
      ensures displaycontrol == old(displaycontrol) && displaymode == old(displaymode)
    {
      Write8(ReturnHome as int, false);
      DelayMicroseconds(10000);
    }

    method Clear()
      requires Valid()
      modifies this
      ensures Valid()
      ensures writes == old(writes) + [Write(0x01, false)] && delays == old(delays) + [10]
      ensures displaycontrol == old(displaycontrol) && displaymode == old(displaymode)
    {
      Write8(ClearDisplay as int, false);
      DelayMicroseconds(10000);
    }

    /** Returns true when `LCD_ROW_OFFSETS[row]` raises IndexError; nothing is written then. */
    method SetCursor(col: int, row: int) returns (raised: bool)
      requires Valid()
      modifies this
      ensures Valid()
      ensures raised <==> CursorCommand(col, row, lines).None?
      ensures writes == old(writes) + (if raised then [] else [Write(CursorCommand(col, row, lines).value, false)])
      ensures displaycontrol == old(displaycontrol) && displaymode == old(displaymode) && delays == old(delays)
    {
      var r := row;
      if r > lines {
        r := lines - 1;
      }
      var offset := RowOffset(r);
      if offset.None? {
        return true;
      }
      Write8(SetBit7(col + offset.value), false);
      raised := false;
    }

    method EnableDisplay(enable: bool)
      requires Valid()
      modifies this
      ensures Valid()
      ensures displaycontrol == SetFlag(old(displaycontrol), DisplayOn, enable)
      ensures writes == old(writes) + [Write((DisplayControl | displaycontrol) as int, false)]
      ensures displaymode == old(displaymode) && delays == old(delays)
    {
      if enable {
        displaycontrol := displaycontrol | DisplayOn;
      } else {
        displaycontrol := displaycontrol & !DisplayOn;
      }
      Write8((DisplayControl | displaycontrol) as int, false);
    }

    method ShowCursor(show: bool)
      requires Valid()
      modifies this
      ensures Valid()
      ensures displaycontrol == SetFlag(old(displaycontrol), CursorOn, show)
      ensures writes == old(writes) + [Write((DisplayControl | displaycontrol) as int, false)]
      ensures displaymode == old(displaymode) && delays == old(delays)
    {
      if show {
        displaycontrol := displaycontrol | CursorOn;
      } else {
        displaycontrol := displaycontrol & !CursorOn;
      }
      Write8((DisplayControl | displaycontrol) as int, false);
    }

    method Blink(blink: bool)
      requires Valid()
      modifies this
      ensures Valid()
      ensures displaycontrol == SetFlag(old(displaycontrol), BlinkOn, blink)
      ensures writes == old(writes) + [Write((DisplayControl | displaycontrol) as int, false)]
      ensures displaymode == old(displaymode) && delays == old(delays)
    {
      if blink {
        displaycontrol := displaycontrol | BlinkOn;
      } else {
        displaycontrol := displaycontrol & !BlinkOn;
      }
      Write8((DisplayControl | displaycontrol) as int, false);
    }

    method MoveLeft()
      requires Valid()
      modifies this
      ensures Valid()
      ensures writes == old(writes) + [Write(0x18, false)]
      ensures displaycontrol == old(displaycontrol) && displaymode == old(displaymode) && delays == old(delays)
    {
      Write8((CursorShift | DisplayMove | MoveLeftFlag) as int, false);
    }

    method MoveRight()
      requires Valid()
      modifies this
      ensures Valid()
      ensures writes == old(writes) + [Write(0x1C, false)]
      ensures displaycontrol == old(displaycontrol) && displaymode == old(displaymode) && delays == old(delays)
    {
      Write8((CursorShift | DisplayMove | MoveRightFlag) as int, false);
    }

    method SetLeftToRight()
      requires Valid()
      modifies this
      ensures Valid()
      ensures displaymode == SetFlag(old(displaymode), EntryLeft, true)
      ensures writes == old(writes) + [Write((EntryModeSet | displaymode) as int, false)]
      ensures displaycontrol == old(displaycontrol) && delays == old(delays)
    {
      displaymode := displaymode | EntryLeft;
      Write8((EntryModeSet | displaymode) as int, false);
    }

    method SetRightToLeft()
      requires Valid()
      modifies this
      ensures Valid()
      ensures displaymode == SetFlag(old(displaymode), EntryLeft, false)
      ensures writes == old(writes) + [Write((EntryModeSet | displaymode) as int, false)]
      ensures displaycontrol == old(displaycontrol) && delays == old(delays)
    {
      displaymode := displaymode & !EntryLeft;
      Write8((EntryModeSet | displaymode) as int, false);
    }

    method Autoscroll(autoscroll: bool)
      requires Valid()
      modifies this
      ensures Valid()
      ensures displaymode == SetFlag(old(displaymode), EntryShiftIncrement, autoscroll)
      ensures writes == old(writes) + [Write((EntryModeSet | displaymode) as int, false)]
      ensures displaycontrol == old(displaycontrol) && delays == old(delays)
    {
      if autoscroll {
        displaymode := displaymode | EntryShiftIncrement;
      } else {
        displaymode := displaymode & !EntryShiftIncrement;
      }
      Write8((EntryModeSet | displaymode) as int, false);
    }

    /**
     * The body of `message`'s loop for character `c` with line counter `line`:
     * a newline advances the line and moves the cursor, any other character
     * is written in character mode.
     */
    method PutChar(c: char, line: int) returns (line': int, raised: bool)
      requires Valid()
      modifies this
      ensures Valid()
      ensures line' == LineAfter(c, line)
      ensures var w := FirstWrite([c], line, NewlineCursor(displaymode, cols, lines));
        (raised <==> w.None?) && writes == old(writes) + (if raised then [] else [w.value])
      ensures displaycontrol == old(displaycontrol) && displaymode == old(displaymode) && delays == old(delays)
    {
      if c == '\n' {
        line' := line + 1;
        var col := if (displaymode & EntryLeft) > 0 then 0 else cols - 1;
        assert col == EntryColumn(displaymode, cols);
        raised := SetCursor(col, line');
      } else {
        line' := line;
        Write8(c as int, true);
        raised := false;
      }
    }

    /** Returns true when a newline's `set_cursor` raised IndexError, which ends the call. */
    method Message(text: string) returns (raised: bool)
      requires Valid()
      modifies this
      ensures Valid()
      ensures var e := MessageFrom(text, 0, NewlineCursor(displaymode, cols, lines));
        writes == old(writes) + e.writes && raised == e.raised
      ensures displaycontrol == old(displaycontrol) && displaymode == old(displaymode) && delays == old(delays)
    {
      var line := 0;
      var i := 0;
      ghost var cursor := NewlineCursor(displaymode, cols, lines);
      ghost var done: seq<Write> := [];
      assert text[0..] == text;
      while i < |text|
        invariant 0 <= i <= |text|
        invariant Valid()
        invariant displaycontrol == old(displaycontrol) && displaymode == old(displaymode) && delays == old(delays)
        invariant writes == old(writes) + done
        invariant MessageFrom(text, 0, cursor) == Prepend(done, MessageFrom(text[i..], line, cursor))
      {
        MessageStep(text, i, line, cursor, done);
        ghost var first := FirstWrite(text[i..], line, cursor);
        ghost var before := writes;
        line, raised := PutChar(text[i], line);
        if raised {
          return;
        }
        assert writes == old(writes) + (done + [first.value]) by {
          assert writes == before + [first.value];
        }
        done := done + [first.value];
        i := i + 1;
      }
      raised := false;
    }

    /** Returns true when `pattern` has fewer than 8 rows, so that `pattern[i]` raises IndexError. */
    method CreateChar(location: int, pattern: seq<int>) returns (raised: bool)
      requires Valid()
      modifies this
      ensures Valid()
      ensures raised <==> |pattern| < 8
      ensures writes == old(writes) + [Write(CgramCommand(location), false)] +
        DataWrites(pattern[..if raised then |pattern| else 8])
      ensures displaycontrol == old(displaycontrol) && displaymode == old(displaymode) && delays == old(delays)
    {
      Write8(CgramCommand(location), false);
      var i := 0;
      while i < 8
        invariant 0 <= i <= 8 && i <= |pattern|
        invariant Valid()
        invariant displaycontrol == old(displaycontrol) && displaymode == old(displaymode) && delays == old(delays)
        invariant writes == old(writes) + [Write(CgramCommand(location), false)] + DataWrites(pattern[..i])
      {
        if i >= |pattern| {
          return true;
        }
        Write8(pattern[i], true);
        DataWritesSnoc(pattern, i);
        i := i + 1;
      }
      raised := false;
    }
  }
}
