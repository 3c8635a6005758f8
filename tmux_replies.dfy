/** The two reply parsers of `TmuxServerManager`: the `$id name` lines of the
    `ls` reply read by `updateSessions`, and the `W,H` value of the
    `@konsole_size` option read by the callback `receiveSessionChanged` installs.
    Each is specified as a fold of one step per code unit; the loops in module
    `TmuxServer` are proved to compute these folds. */
module TmuxReplies {
  import opened Codepoints
  import opened Decimal

  // ---------------------------------------------------------------- `ls` lines

  /** The loop variables of `updateSessions` for one line: `counter` (0 before
      `$`, 1 in the id, 2 after the space), `i` (code units consumed) and `session`. */
  datatype SessionLineScan = SessionLineScan(counter: int, consumed: nat, session: int)

  const SESSION_LINE_START := SessionLineScan(0, 0, 0)

  function SessionLineStep(s: SessionLineScan, cc: Codepoint): SessionLineScan {
    if s.counter == 0 && cc == DOLLAR then s.(counter := 1, consumed := s.consumed + 1)
    else if s.counter == 1 && IsDigit(cc) then s.(session := s.session * 10 + (cc - ZERO), consumed := s.consumed + 1)
    else if s.counter == 1 && cc == SPACE then s.(counter := 2, consumed := s.consumed + 1)
    else s
  }

  /** A line never has more code units consumed than it holds. */
  lemma {:induction false} SessionLineConsumed(s: SessionLineScan, line: seq<Codepoint>)
    ensures s.consumed <= Scan(SessionLineStep, s, line).consumed <= s.consumed + |line|
    decreases |line|
  {
    if line != [] {
      SessionLineConsumed(SessionLineStep(s, line[0]), line[1..]);
    }
  }

  /** The `(session, name)` pair `updateSessions` builds from one line: the
      accumulated id and the line from the first unconsumed code unit on. */
  function SessionEntry(line: seq<Codepoint>): (int, seq<Codepoint>) {
    var s := Scan(SessionLineStep, SESSION_LINE_START, line);
    SessionLineConsumed(SESSION_LINE_START, line);
    (s.session, line[s.consumed..])
  }

  /** The line tmux writes for `ls -F '#{session_id} #{q:session_name}'`. */
  function SessionLine(id: nat, name: seq<Codepoint>): seq<Codepoint> {
    [DOLLAR] + FormatDecimal(id) + [SPACE] + name
  }

  lemma {:induction false} ScanSessionDigits(consumed: nat, ds: seq<Codepoint>)
    requires AllDigits(ds)
    ensures Scan(SessionLineStep, SessionLineScan(1, consumed, 0), ds) == SessionLineScan(1, consumed + |ds|, Value(ds))
    decreases |ds|
  {
    if ds != [] {
      var init := ds[..|ds| - 1];
      assert init + [ds[|ds| - 1]] == ds;
      ScanSessionDigits(consumed, init);
      ScanSnoc(SessionLineStep, SessionLineScan(1, consumed, 0), init, ds[|ds| - 1]);
    }
  }

  /** Once the separating space is seen, the rest of the line is not looked at. */
  lemma {:induction false} ScanSessionName(s: SessionLineScan, name: seq<Codepoint>)
    requires s.counter == 2
    ensures Scan(SessionLineStep, s, name) == s
    decreases |name|
  {
    if name != [] {
      ScanSessionName(s, name[1..]);
    }
  }

  /** `updateSessions` reads back every line tmux writes: the id and the
      whole name, spaces included. */
  lemma SessionEntryOfLine(id: nat, name: seq<Codepoint>)
    ensures SessionEntry(SessionLine(id, name)) == (id, name)
  {
    var ds := FormatDecimal(id);
    var line := SessionLine(id, name);
    var s3 := SessionLineScan(2, 2 + |ds|, id);
    ScanSessionLine(ds, name);
    assert Scan(SessionLineStep, SESSION_LINE_START, line) == s3;
    assert line[2 + |ds|..] == name;
  }

  lemma ScanSessionLine(ds: seq<Codepoint>, name: seq<Codepoint>)
    requires AllDigits(ds)
    ensures Scan(SessionLineStep, SESSION_LINE_START, [DOLLAR] + ds + [SPACE] + name) == SessionLineScan(2, 2 + |ds|, Value(ds))
  {
    var s1 := SessionLineScan(1, 1, 0);
    var s2 := SessionLineScan(1, 1 + |ds|, Value(ds));
    var s3 := SessionLineScan(2, 2 + |ds|, Value(ds));
    calc {
      Scan(SessionLineStep, SESSION_LINE_START, [DOLLAR] + ds + [SPACE] + name);
      { ScanAppend(SessionLineStep, SESSION_LINE_START, [DOLLAR] + ds + [SPACE], name); }
      Scan(SessionLineStep, Scan(SessionLineStep, SESSION_LINE_START, [DOLLAR] + ds + [SPACE]), name);
      { ScanSnoc(SessionLineStep, SESSION_LINE_START, [DOLLAR] + ds, SPACE);
        ScanAppend(SessionLineStep, SESSION_LINE_START, [DOLLAR], ds);
        assert Scan(SessionLineStep, SESSION_LINE_START, [DOLLAR]) == s1;
        ScanSessionDigits(1, ds); }
      Scan(SessionLineStep, s3, name);
      { ScanSessionName(s3, name); }
      s3;
    }
  }

  /** Code units that come before the `$` are skipped without being counted,
      so the name is taken from the wrong position: `x$1 ab` yields the name ` ab`. */
  lemma StrayPrefixShiftsName()
    ensures SessionEntry([0x78, DOLLAR, ONE, SPACE, 0x61, 0x62]) == (1, [SPACE, 0x61, 0x62])
  {
    var line := [0x78, DOLLAR, ONE, SPACE, 0x61, 0x62];
    assert line == [0x78] + [DOLLAR] + [ONE] + [SPACE] + [0x61, 0x62];
    ScanAppend(SessionLineStep, SESSION_LINE_START, [0x78] + [DOLLAR] + [ONE] + [SPACE], [0x61, 0x62]);
    ScanSnoc(SessionLineStep, SESSION_LINE_START, [0x78] + [DOLLAR] + [ONE], SPACE);
    ScanSnoc(SessionLineStep, SESSION_LINE_START, [0x78] + [DOLLAR], ONE);
    ScanSnoc(SessionLineStep, SESSION_LINE_START, [0x78], DOLLAR);
    var s := SessionLineScan(2, 3, 1);
    assert Scan(SessionLineStep, SESSION_LINE_START, [0x78] + [DOLLAR] + [ONE] + [SPACE]) == s;
    ScanSessionName(s, [0x61, 0x62]);
  }

  // ---------------------------------------------------------- `@konsole_size`

  /** The loop variables of the `@konsole_size` callback; `failed` records the
      early `return` on an unexpected code unit. */
  datatype SizeScan = SizeScan(arg: int, width: int, height: int, failed: bool)

  const SIZE_START := SizeScan(0, 0, 0, false)

  function SizeStep(s: SizeScan, cc: Codepoint): SizeScan {
    if s.failed then s
    else if IsDigit(cc) then
      if s.arg == 0 then s.(width := s.width * 10 + (cc - ZERO)) else s.(height := s.height * 10 + (cc - ZERO))
    else if s.arg == 0 && cc == COMMA then s.(arg := s.arg + 1)
    else s.(failed := true)
  }

  /** Whether the size is applied, and the width and height it is applied with. */
  datatype KonsoleSize = KonsoleSize(ok: bool, width: int, height: int)

  function KonsoleSizeOf(line: seq<Codepoint>): KonsoleSize {
    var s := Scan(SizeStep, SIZE_START, line);
    KonsoleSize(!s.failed, s.width, s.height)
  }

  /** After the early `return` nothing changes any more. */
  lemma {:induction false} SizeFailedSticks(s: SizeScan, line: seq<Codepoint>)
    requires s.failed
    ensures Scan(SizeStep, s, line) == s
    decreases |line|
  {
    if line != [] {
      SizeFailedSticks(s, line[1..]);
    }
  }

  lemma {:induction false} ScanWidth(ds: seq<Codepoint>)
    requires AllDigits(ds)
    ensures Scan(SizeStep, SIZE_START, ds) == SizeScan(0, Value(ds), 0, false)
    decreases |ds|
  {
    if ds != [] {
      var init := ds[..|ds| - 1];
      assert init + [ds[|ds| - 1]] == ds;
      ScanWidth(init);
      ScanSnoc(SizeStep, SIZE_START, init, ds[|ds| - 1]);
    }
  }

  lemma {:induction false} ScanHeight(width: int, ds: seq<Codepoint>)
    requires AllDigits(ds)
    ensures Scan(SizeStep, SizeScan(1, width, 0, false), ds) == SizeScan(1, width, Value(ds), false)
    decreases |ds|
  {
    if ds != [] {
      var init := ds[..|ds| - 1];
      assert init + [ds[|ds| - 1]] == ds;
      ScanHeight(width, init);
      ScanSnoc(SizeStep, SizeScan(1, width, 0, false), init, ds[|ds| - 1]);
    }
  }

  /** `W,H` as written by the client (`set @konsole_size W,H`) is read back as itself. */
  lemma KonsoleSizeOfFormatted(width: nat, height: nat)
    ensures KonsoleSizeOf(FormatDecimal(width) + [COMMA] + FormatDecimal(height)) == KonsoleSize(true, width, height)
  {
    var w := FormatDecimal(width);
    var h := FormatDecimal(height);
    ScanAppend(SizeStep, SIZE_START, w + [COMMA], h);
    ScanSnoc(SizeStep, SIZE_START, w, COMMA);
    ScanWidth(w);
    ScanHeight(width, h);
  }

  /** A code unit that is neither a digit nor the first comma abandons the
      value: nothing is applied whatever follows. */
  lemma KonsoleSizeRejects(ds: seq<Codepoint>, cc: Codepoint, rest: seq<Codepoint>)
    requires AllDigits(ds) && !IsDigit(cc) && cc != COMMA
    ensures !KonsoleSizeOf(ds + [cc] + rest).ok
  {
    ScanAppend(SizeStep, SIZE_START, ds + [cc], rest);
    ScanSnoc(SizeStep, SIZE_START, ds, cc);
    ScanWidth(ds);
    SizeFailedSticks(SizeScan(0, Value(ds), 0, true), rest);
  }

  /** A second comma abandons the value as well. */
  lemma KonsoleSizeRejectsSecondComma(ds: seq<Codepoint>, es: seq<Codepoint>, rest: seq<Codepoint>)
    requires AllDigits(ds) && AllDigits(es)
    ensures !KonsoleSizeOf(ds + [COMMA] + es + [COMMA] + rest).ok
  {
    ScanAppend(SizeStep, SIZE_START, ds + [COMMA] + es + [COMMA], rest);
    ScanSnoc(SizeStep, SIZE_START, ds + [COMMA] + es, COMMA);
    ScanAppend(SizeStep, SIZE_START, ds + [COMMA], es);
    ScanSnoc(SizeStep, SIZE_START, ds, COMMA);
    ScanWidth(ds);
    ScanHeight(Value(ds), es);
    SizeFailedSticks(SizeScan(1, Value(ds), Value(es), true), rest);
  }
}
