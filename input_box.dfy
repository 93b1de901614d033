/**
 * The numeric text-entry box of the settings and simulation screens
 * (`InputBox`). It keeps a character buffer that only grows by characters a
 * number can contain, a flag saying whether it has the keyboard focus, and a
 * blinking-cursor flag driven by a clock.
 */
module InputField {
  import opened Wrappers
  import opened NumberText

  /** The buffer never grows past this many characters by typing. */
  const MAX_LENGTH: nat := 10
  const BACKSPACE: nat := 8
  const LINE_FEED: nat := 10
  const CARRIAGE_RETURN: nat := 13
  /** Code points from here on are not ASCII and are never typed into the box. */
  const ASCII_LIMIT: nat := 128
  /** The cursor flag flips when more than this many seconds passed since the last flip. */
  const CURSOR_BLINK_SECONDS: real := 0.5

  /** The part of a window event the box looks at: a typed code point, or anything else. */
  datatype Event = TextEntered(unicode: nat) | OtherEvent

  /** Whether the character c may be appended to the buffer b (before the length cap). */
  predicate Accepts(b: string, c: char)
  {
    IsDigit(c) || (c == '.' && '.' !in b) || (c == '-' && b == [])
  }

  /** The buffer after the box received ev, given whether it had the focus. */
  function NextText(b: string, active: bool, ev: Event): (r: string)
    ensures !active || ev.OtherEvent? ==> r == b
    ensures |r| <= if |b| < MAX_LENGTH then MAX_LENGTH else |b|
    ensures r == b || (b != [] && r == b[..|b| - 1]) || (|r| == |b| + 1 && r[..|b|] == b && Accepts(b, r[|b|]))
  {
    if !active then b
    else match ev
      case OtherEvent => b
      case TextEntered(u) =>
        if u == BACKSPACE then
          if b == [] then b else b[..|b| - 1]
        else if u < ASCII_LIMIT && u != CARRIAGE_RETURN && u != LINE_FEED then
          var c := u as char;
          if Accepts(b, c) && |b| < MAX_LENGTH then b + [c] else b
        else b
  }

  /** Backspace drops exactly the last character, and does nothing to an empty buffer. */
  lemma BackspaceDropsLast(b: string)
    ensures NextText(b, true, TextEntered(BACKSPACE)) == if b == [] then [] else b[..|b| - 1]
  {
  }

  /**
   * A typed code point is appended exactly when it is ASCII, not a line
   * break, accepted by the filter and the buffer is shorter than the cap;
   * every other code point (other than backspace) leaves the buffer alone.
   */
  lemma AppendExactly(b: string, u: nat)
    requires u != BACKSPACE
    ensures NextText(b, true, TextEntered(u)) != b <==>
      (u < ASCII_LIMIT && u != CARRIAGE_RETURN && u != LINE_FEED && Accepts(b, u as char) && |b| < MAX_LENGTH)
    ensures NextText(b, true, TextEntered(u)) != b ==> NextText(b, true, TextEntered(u)) == b + [u as char]
  {
  }

  /** What every buffer built by typing looks like: a signed decimal of at most ten characters. */
  predicate WellFormedBuffer(b: string)
  {
    && |b| <= MAX_LENGTH
    && (forall i :: 0 <= i < |b| ==> IsDigit(b[i]) || b[i] == '.' || b[i] == '-')
    && (forall i, j :: 0 <= i < j < |b| ==> !(b[i] == '.' && b[j] == '.'))
    && (forall i :: 0 < i < |b| ==> b[i] != '-')
  }

  predicate HasDigit(b: string)
  {
    exists i :: 0 <= i < |b| && IsDigit(b[i])
  }

  /** Every event keeps the buffer well formed: at most one point, a minus sign only in front, at most ten characters. */
  lemma NextTextWellFormed(b: string, active: bool, ev: Event)
    requires WellFormedBuffer(b)
    ensures WellFormedBuffer(NextText(b, active, ev))
  {
    var r := NextText(b, active, ev);
    if r != b && b != [] && r == b[..|b| - 1] {
      assert forall i :: 0 <= i < |r| ==> r[i] == b[i];
    } else if r != b {
      assert |r| == |b| + 1 && r[..|b|] == b;
      assert forall i :: 0 <= i < |b| ==> r[i] == b[i];
      var c := r[|b|];
      assert c == '.' ==> forall i :: 0 <= i < |b| ==> b[i] != '.';
    }
  }

  /** Feeding a sequence of events to the box, one after another. */
  function TypeAll(b: string, active: bool, events: seq<Event>): string
    decreases |events|
  {
    if events == [] then b else TypeAll(NextText(b, active, events[0]), active, events[1..])
  }

  /** Whatever is typed into an empty box, its buffer stays well formed. */
  lemma {:induction false} TypedBufferWellFormed(b: string, active: bool, events: seq<Event>)
    requires WellFormedBuffer(b)
    ensures WellFormedBuffer(TypeAll(b, active, events))
    decreases |events|
  {
    if events != [] {
      NextTextWellFormed(b, active, events[0]);
      TypedBufferWellFormed(NextText(b, active, events[0]), active, events[1..]);
    }
  }

  /**
   * `getFloatValue`: 0 for the four digitless entries, the converted value, or
   * 0 when the conversion throws. The special cases agree with the handler:
   * the value is the conversion when it succeeds and 0 when it throws.
   */
  function FloatValueOf(text: string): (r: real)
    ensures ParseFloat(text).Some? ==> r == ParseFloat(text).value
    ensures ParseFloat(text).None? ==> r == 0.0
  {
    if text == "-" || text == "." || text == "-." then
      NoDigitNoNumber(text);
      0.0
    else if text == "" then 0.0
    else match ParseFloat(text)
      case Some(v) => v
      case None => 0.0
  }

  lemma QuotientBelowOne(x: real, p: real)
    requires 0.0 <= x < p
    ensures x / p < 1.0
  {
  }

  lemma Pow10Of10()
    ensures Pow10(10) == 10_000_000_000
  {
    assert Pow10(1) == 10;
    assert Pow10(2) == 100;
    assert Pow10(3) == 1_000;
    assert Pow10(4) == 10_000;
    assert Pow10(5) == 100_000;
    assert Pow10(6) == 1_000_000;
    assert Pow10(7) == 10_000_000;
    assert Pow10(8) == 100_000_000;
    assert Pow10(9) == 1_000_000_000;
  }

  /** At most ten integer digits, any fraction and no exponent: far below FLT_MAX. */
  lemma SmallDecimal(d: Decimal)
    requires |d.intDigits| <= MAX_LENGTH && d.exponent == 0
    ensures Magnitude(d) < 10_000_000_001.0
  {
    DigitsValueBound(d.intDigits);
    Pow10Monotone(|d.intDigits|, MAX_LENGTH);
    Pow10Of10();
    DigitsValueBound(d.fracDigits);
    QuotientBelowOne(DigitsValue(d.fracDigits) as real, Pow10(|d.fracDigits|) as real);
  }

  /** Where the scan of a non-empty well-formed buffer stops: the fraction digits run to the end. */
  lemma WellFormedScanEnds(b: string)
    requires WellFormedBuffer(b) && b != []
    ensures SpaceRunEnd(b, 0) == 0
    ensures SignEnd(b, 0) == if b[0] == '-' then 1 else 0
    ensures var j := SignEnd(b, 0);
            var intEnd := DigitRunEnd(b, j);
            var fracStart := if intEnd < |b| && b[intEnd] == '.' then intEnd + 1 else intEnd;
            (intEnd < |b| ==> b[intEnd] == '.') && DigitRunEnd(b, fracStart) == |b|
  {
    assert !IsSpace(b[0]);
    var j := SignEnd(b, 0);
    var intEnd := DigitRunEnd(b, j);
    var fracStart := if intEnd < |b| && b[intEnd] == '.' then intEnd + 1 else intEnd;
    var fracEnd := DigitRunEnd(b, fracStart);
    assert intEnd < |b| ==> b[intEnd] != '-';
  }

  /** Every digit of a non-empty well-formed buffer lies in the integer run or the fraction run. */
  lemma WellFormedScanDigits(b: string)
    requires WellFormedBuffer(b) && b != []
    ensures var j := SignEnd(b, 0);
            var intEnd := DigitRunEnd(b, j);
            var fracStart := if intEnd < |b| && b[intEnd] == '.' then intEnd + 1 else intEnd;
            HasDigit(b) <==> (DigitsAt(b, j) != [] || DigitsAt(b, fracStart) != [])
  {
    WellFormedScanEnds(b);
    var j := SignEnd(b, 0);
    var intEnd := DigitRunEnd(b, j);
    var fracStart := if intEnd < |b| && b[intEnd] == '.' then intEnd + 1 else intEnd;
    if DigitsAt(b, j) != [] {
      assert IsDigit(b[j]);
    }
    if DigitsAt(b, fracStart) != [] {
      assert IsDigit(b[fracStart]);
    }
    if HasDigit(b) {
      var d :| 0 <= d < |b| && IsDigit(b[d]);
      assert j <= d;
      if d >= intEnd {
        assert d != intEnd;
        assert fracStart <= d < DigitRunEnd(b, fracStart);
      }
    }
  }

  /** A well-formed buffer holding a digit converts: the scan reads all of it and the value is far below FLT_MAX. */
  lemma DigitBufferConverts(b: string)
    requires WellFormedBuffer(b) && HasDigit(b)
    ensures ParseFloat(b).Some?
  {
    WellFormedScanEnds(b);
    WellFormedScanDigits(b);
    var j := SignEnd(b, 0);
    var intDigits := DigitsAt(b, j);
    var intEnd := j + |intDigits|;
    var fracStart := if intEnd < |b| && b[intEnd] == '.' then intEnd + 1 else intEnd;
    var fracDigits := DigitsAt(b, fracStart);
    assert ExponentAt(b, fracStart + |fracDigits|) == 0;
    var dec := Decimal(j > 0 && b[0] == '-', intDigits, fracDigits, 0);
    assert ScanDecimal(b) == Some(dec);
    SmallDecimal(dec);
  }

  /** A well-formed buffer without a digit does not convert. */
  lemma DigitlessBufferFails(b: string)
    requires WellFormedBuffer(b) && !HasDigit(b)
    ensures ParseFloat(b).None?
  {
    if b != [] {
      WellFormedScanDigits(b);
      assert ScanDecimal(b) == None;
    }
  }

  /** A well-formed buffer converts without an exception exactly when it holds a digit. */
  lemma WellFormedBufferConverts(b: string)
    requires WellFormedBuffer(b)
    ensures ParseFloat(b).Some? <==> HasDigit(b)
  {
    if HasDigit(b) {
      DigitBufferConverts(b);
    } else {
      DigitlessBufferFails(b);
    }
  }

  lemma PointsApart(b: string)
    requires WellFormedBuffer(b)
    ensures |b| >= 3 ==> !(b[1] == '.' && b[2] == '.')
  {
  }

  /** The four entries `getFloatValue` special-cases are exactly the well-formed buffers without a digit. */
  lemma {:induction false} DigitlessBuffers(b: string)
    requires WellFormedBuffer(b)
    ensures !HasDigit(b) <==> (b == "" || b == "-" || b == "." || b == "-.")
  {
    if !HasDigit(b) {
      PointsApart(b);
      if |b| >= 3 {
        assert false;
      }
      if |b| == 2 {
        assert b[1] == '.';
        assert b[0] == '-';
        assert b == [b[0], b[1]];
      }
      if |b| == 1 {
        assert b == [b[0]];
      }
    } else {
      var d :| 0 <= d < |b| && IsDigit(b[d]);
    }
  }

  /**
   * On a buffer built by typing, `getFloatValue` never reaches its exception
   * handler: with a digit it yields the converted value, without one it is 0
   * through the special cases.
   */
  lemma WellFormedFloatValue(b: string)
    requires WellFormedBuffer(b)
    ensures HasDigit(b) ==> ParseFloat(b).Some? && FloatValueOf(b) == ParseFloat(b).value
    ensures !HasDigit(b) ==> FloatValueOf(b) == 0.0
  {
    WellFormedBufferConverts(b);
    DigitlessBuffers(b);
  }

  /** "100.0" scans as the integer digits 100, the fraction digit 0 and no exponent. */
  lemma ScanDefaultC0Text()
    ensures ScanDecimal("100.0") == Some(Decimal(false, "100", "0", 0))
  {
    var s := "100.0";
    assert DigitRunEnd(s, 3) == 3;
    assert DigitRunEnd(s, 0) == 3;
    assert DigitRunEnd(s, 5) == 5;
    assert DigitRunEnd(s, 4) == 5;
    assert SpaceRunEnd(s, 0) == 0;
    assert DigitsAt(s, 0) == "100";
    assert DigitsAt(s, 4) == "0";
  }

  /** The text the screens write into the initial-concentration box reads back as 100. */
  lemma DefaultC0TextValue()
    ensures FloatValueOf("100.0") == 100.0
  {
    ScanDefaultC0Text();
    assert DigitsValue("1") == 1;
    assert "10"[..1] == "1";
    assert DigitsValue("10") == 10;
    assert "100"[..2] == "10";
    assert DigitsValue("100") == 100;
    assert DigitsValue("0") == 0;
  }

  class InputBox {
    /** `m_inputString` */
    var text: string
    /** `m_isActive`: the box has the keyboard focus. */
    var active: bool
    /** `m_showCursor` */
    var showCursor: bool
    /** The time at which `m_cursorClock` was last restarted. */
    var clockStart: real

    /** The cursor is only ever shown in a focused box. */
    ghost predicate Valid()
      reads this
    {
      showCursor ==> active
    }

    constructor (now: real)
      ensures Valid()
      ensures text == "" && !active && !showCursor && clockStart == now
    {
      text := "";
      active := false;
      showCursor := false;
      clockStart := now;
    }

    method HandleEvent(ev: Event)
      requires Valid()
      modifies this`text
      ensures Valid()
      ensures text == NextText(old(text), active, ev)
      ensures WellFormedBuffer(old(text)) ==> WellFormedBuffer(text)
    {
      if WellFormedBuffer(text) {
        NextTextWellFormed(text, active, ev);
      }
      if !active {
        return;
      }
      if ev.TextEntered? {
        var u := ev.unicode;
        if u == BACKSPACE {
          if text != [] {
            text := text[..|text| - 1];
          }
        } else if u < ASCII_LIMIT && u != CARRIAGE_RETURN && u != LINE_FEED {
          var c := u as char;
          if IsDigit(c) || (c == '.' && '.' !in text) || (c == '-' && text == []) {
            if |text| < MAX_LENGTH {
              text := text + [c];
            }
          }
        }
      }
    }

    /** Cursor blinking: flips the cursor flag every half second while focused, hides it otherwise. */
    method Update(now: real)
      requires Valid()
      modifies this`showCursor, this`clockStart
      ensures Valid()
      ensures !active ==> !showCursor && clockStart == old(clockStart)
      ensures active && now - old(clockStart) > CURSOR_BLINK_SECONDS ==> showCursor == !old(showCursor) && clockStart == now
      ensures active && now - old(clockStart) <= CURSOR_BLINK_SECONDS ==> showCursor == old(showCursor) && clockStart == old(clockStart)
    {
      if active {
        if now - clockStart > CURSOR_BLINK_SECONDS {
          showCursor := !showCursor;
          clockStart := now;
        }
      } else {
        showCursor := false;
      }
    }

    method SetActive(b: bool, now: real)
      modifies this`active, this`showCursor, this`clockStart
      ensures Valid()
      ensures IsActive() == b && showCursor == b
      ensures clockStart == if b then now else old(clockStart)
    {
      active := b;
      if active {
        clockStart := now;
        showCursor := true;
      } else {
        showCursor := false;
      }
    }

    function IsActive(): bool
      reads this
    {
      active
    }

    function GetText(): string
      reads this
    {
      text
    }

    method SetText(s: string)
      modifies this`text
      ensures GetText() == s
    {
      text := s;
    }

    function GetFloatValue(): (r: real)
      reads this
      ensures ParseFloat(text).Some? ==> r == ParseFloat(text).value
      ensures ParseFloat(text).None? ==> r == 0.0
      ensures WellFormedBuffer(text) && !HasDigit(text) ==> r == 0.0
    {
      if WellFormedBuffer(text) && !HasDigit(text) then
        DigitlessBufferFails(text);
        FloatValueOf(text)
      else
        FloatValueOf(text)
    }
  }
}
