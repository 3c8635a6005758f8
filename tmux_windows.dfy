/** The notifications that carry only window (and pane) ids and read them with
    a digit accumulator of their own instead of `parseTmuxId`:
    `%window-add`, `%window-close`, `%unlinked-window-add`,
    `%unlinked-window-close`, `%unlinked-window-renamed` and
    `%window-pane-changed`. */
module TmuxWindows {
  import opened Codepoints
  import opened Decimal
  import opened TmuxServer

  // ----------------------------------------------------------- `@<window>`

  /** `arg` is 0 before the `@`, 1 in the digits and 2 after an error;
      `window` is the accumulated id, -2 after an error. */
  datatype WindowIdLexer = WindowIdLexer(arg: int, window: int)

  const WINDOW_ID_START := WindowIdLexer(0, 0)
  const WINDOW_ID_ERROR := WindowIdLexer(2, -2)

  /** The `push_char` shared by `%window-add`, `%window-close`,
      `%unlinked-window-close` and `%unlinked-window-renamed`: an `@` first,
      then the digits `1`-`9`; anything else, `0` included, is an error. */
  function WindowIdStep(s: WindowIdLexer, cc: Codepoint): WindowIdLexer {
    if s.arg == 0 && cc == AT then s.(arg := 1)
    else if s.arg == 1 && IsNonZeroDigit(cc) then s.(window := s.window * 10 + (cc - ZERO))
    else WINDOW_ID_ERROR
  }

  /** What the lexer holds after a whole line: nothing read for the empty
      line, the value of the digits for `@` followed by digits `1`-`9` only,
      and the error otherwise. */
  function WindowIdOf(line: seq<Codepoint>): WindowIdLexer {
    if line == [] then WINDOW_ID_START
    else if line[0] == AT && AllNonZeroDigits(line[1..]) then WindowIdLexer(1, Value(line[1..]))
    else WINDOW_ID_ERROR
  }

  lemma {:induction false} ScanWindowId(line: seq<Codepoint>)
    ensures Scan(WindowIdStep, WINDOW_ID_START, line) == WindowIdOf(line)
    decreases |line|
  {
    if line != [] {
      var init, c := line[..|line| - 1], line[|line| - 1];
      assert line == init + [c];
      ScanWindowId(init);
      ScanSnoc(WindowIdStep, WINDOW_ID_START, init, c);
      if init == [] {
        assert line[1..] == [];
      } else {
        assert line[0] == init[0];
        assert line[1..] == init[1..] + [c];
        if init[0] == AT && AllNonZeroDigits(init[1..]) {
          if IsNonZeroDigit(c) {
            ValueSnoc(init[1..], c);
          } else {
            assert !IsNonZeroDigit(line[1..][|line| - 2]);
          }
        } else if init[0] == AT {
          var k :| 0 <= k < |init[1..]| && !IsNonZeroDigit(init[1..][k]);
          assert line[1..][k] == init[1..][k];
        }
      }
    }
  }

  /** An error is never recovered from. */
  lemma {:induction false} WindowIdErrorSticks(x: seq<Codepoint>)
    ensures Scan(WindowIdStep, WINDOW_ID_ERROR, x) == WINDOW_ID_ERROR
    decreases |x|
  {
    if x != [] {
      WindowIdErrorSticks(x[1..]);
    }
  }

  /** A window id with a `0` digit is rejected: `@10` gives the error, not 10. */
  lemma WindowIdRejectsZero()
    ensures Scan(WindowIdStep, WINDOW_ID_START, Str("@10")) == WINDOW_ID_ERROR
  {
    var line := Str("@10");
    assert line == [AT, ONE, ZERO];
    ScanWindowId(line);
    assert !IsNonZeroDigit(line[1..][1]);
  }

  /** The accumulator evidently intended: every decimal digit is accepted. */
  function CorrectedWindowIdStep(s: WindowIdLexer, cc: Codepoint): WindowIdLexer {
    if s.arg == 0 && cc == AT then s.(arg := 1)
    else if s.arg == 1 && IsDigit(cc) then s.(window := s.window * 10 + (cc - ZERO))
    else WINDOW_ID_ERROR
  }

  lemma {:induction false} ScanCorrectedWindowDigits(ds: seq<Codepoint>)
    requires AllDigits(ds)
    ensures Scan(CorrectedWindowIdStep, WINDOW_ID_START, [AT] + ds) == WindowIdLexer(1, Value(ds))
    decreases |ds|
  {
    if ds == [] {
      assert [AT] + ds == [AT];
      assert [AT][1..] == [];
    } else {
      var init, c := ds[..|ds| - 1], ds[|ds| - 1];
      assert [AT] + ds == [AT] + init + [c];
      ScanCorrectedWindowDigits(init);
      ScanSnoc(CorrectedWindowIdStep, WINDOW_ID_START, [AT] + init, c);
      ValueSnoc(init, c);
      assert init + [c] == ds;
    }
  }

  /** With every digit accepted, each window id tmux writes is read back. */
  lemma CorrectedWindowIdRoundTrip(window: nat)
    ensures Scan(CorrectedWindowIdStep, WINDOW_ID_START, [AT] + FormatDecimal(window)) == WindowIdLexer(1, window)
  {
    ScanCorrectedWindowDigits(FormatDecimal(window));
  }

  /** `%unlinked-window-add`, whose second test is not an `else if`: the `@`
      that opens the id is itself taken for an unexpected code unit. */
  function UnlinkedWindowAddStep(s: WindowIdLexer, cc: Codepoint): WindowIdLexer {
    var t := if s.arg == 0 && cc == AT then s.(arg := 1) else s;
    if t.arg == 1 && IsNonZeroDigit(cc) then t.(window := t.window * 10 + (cc - ZERO))
    else WINDOW_ID_ERROR
  }

  /** Every non-empty line ends in the error: the window is always -2. */
  lemma {:induction false} UnlinkedWindowAddAlwaysFails(line: seq<Codepoint>)
    requires line != []
    ensures Scan(UnlinkedWindowAddStep, WINDOW_ID_START, line) == WINDOW_ID_ERROR
    decreases |line|
  {
    assert UnlinkedWindowAddStep(WINDOW_ID_START, line[0]) == WINDOW_ID_ERROR;
    UnlinkedWindowAddErrorSticks(line[1..]);
  }

  lemma {:induction false} UnlinkedWindowAddErrorSticks(x: seq<Codepoint>)
    ensures Scan(UnlinkedWindowAddStep, WINDOW_ID_ERROR, x) == WINDOW_ID_ERROR
    decreases |x|
  {
    if x != [] {
      UnlinkedWindowAddErrorSticks(x[1..]);
    }
  }

  // --------------------------------------------------- `@<window> %<pane>`

  /** `arg`: 0 before `@`, 1 in the window digits, 2 after the space, 3 in the
      pane digits, 4 after an error. */
  datatype WindowPaneLexer = WindowPaneLexer(arg: int, window: int, pane: int)

  const WINDOW_PANE_START := WindowPaneLexer(0, 0, 0)

  /** On an error the window becomes -2; the pane keeps its digits so far. */
  function WindowPaneStep(s: WindowPaneLexer, cc: Codepoint): WindowPaneLexer {
    if s.arg == 0 && cc == AT then s.(arg := 1)
    else if s.arg == 1 && IsNonZeroDigit(cc) then s.(window := s.window * 10 + (cc - ZERO))
    else if s.arg == 1 && cc == SPACE then s.(arg := 2)
    else if s.arg == 2 && cc == PERCENT then s.(arg := 3)
    else if s.arg == 3 && IsNonZeroDigit(cc) then s.(pane := s.pane * 10 + (cc - ZERO))
    else s.(arg := 4, window := -2)
  }

  lemma {:induction false} ScanWindowDigits(s: WindowPaneLexer, ds: seq<Codepoint>)
    requires s.arg == 1 && s.window == 0 && AllNonZeroDigits(ds)
    ensures Scan(WindowPaneStep, s, ds) == s.(window := Value(ds))
    decreases |ds|
  {
    if ds != [] {
      var init, c := ds[..|ds| - 1], ds[|ds| - 1];
      assert init + [c] == ds;
      ScanWindowDigits(s, init);
      ScanSnoc(WindowPaneStep, s, init, c);
      ValueSnoc(init, c);
    }
  }

  lemma {:induction false} ScanPaneDigits(s: WindowPaneLexer, ds: seq<Codepoint>)
    requires s.arg == 3 && s.pane == 0 && AllNonZeroDigits(ds)
    ensures Scan(WindowPaneStep, s, ds) == s.(pane := Value(ds))
    decreases |ds|
  {
    if ds != [] {
      var init, c := ds[..|ds| - 1], ds[|ds| - 1];
      assert init + [c] == ds;
      ScanPaneDigits(s, init);
      ScanSnoc(WindowPaneStep, s, init, c);
      ValueSnoc(init, c);
    }
  }

  /** `@<w> %<p>` with digits `1`-`9` only is read as window w and pane p. */
  lemma WindowPaneLine(ws: seq<Codepoint>, ps: seq<Codepoint>)
    requires AllNonZeroDigits(ws) && AllNonZeroDigits(ps)
    ensures Scan(WindowPaneStep, WINDOW_PANE_START, [AT] + ws + [SPACE, PERCENT] + ps)
         == WindowPaneLexer(3, Value(ws), Value(ps))
  {
    var s1 := WindowPaneLexer(1, 0, 0);
    var s2 := WindowPaneLexer(1, Value(ws), 0);
    var s3 := WindowPaneLexer(3, Value(ws), 0);
    ScanAppend(WindowPaneStep, WINDOW_PANE_START, [AT] + ws + [SPACE, PERCENT], ps);
    ScanAppend(WindowPaneStep, WINDOW_PANE_START, [AT] + ws, [SPACE, PERCENT]);
    ScanAppend(WindowPaneStep, WINDOW_PANE_START, [AT], ws);
    assert [AT][1..] == [];
    ScanWindowDigits(s1, ws);
    assert [SPACE] + [PERCENT] == [SPACE, PERCENT];
    ScanSnoc(WindowPaneStep, s2, [SPACE], PERCENT);
    assert [SPACE][1..] == [];
    assert Scan(WindowPaneStep, s2, [SPACE]) == WindowPaneLexer(2, Value(ws), 0);
    assert Scan(WindowPaneStep, s2, [SPACE, PERCENT]) == s3;
    ScanPaneDigits(s3, ps);
  }

  /** After an error every code unit keeps the lexer where it is. */
  lemma {:induction false} WindowPaneErrorSticks(s: WindowPaneLexer, x: seq<Codepoint>)
    requires s.arg == 4 && s.window == -2
    ensures Scan(WindowPaneStep, s, x) == s
    decreases |x|
  {
    if x != [] {
      WindowPaneErrorSticks(s, x[1..]);
    }
  }

  /** A `0` digit in the window id fails the whole line: `@10 %1` gives window -2. */
  lemma WindowPaneRejectsZero()
    ensures Scan(WindowPaneStep, WINDOW_PANE_START, Str("@10 %1")) == WindowPaneLexer(4, -2, 0)
  {
    var line := Str("@10 %1");
    assert line == [AT, ONE, ZERO] + [SPACE, PERCENT, ONE];
    ScanAppend(WindowPaneStep, WINDOW_PANE_START, [AT, ONE, ZERO], [SPACE, PERCENT, ONE]);
    ScanSnoc(WindowPaneStep, WINDOW_PANE_START, [AT, ONE], ZERO);
    ScanSnoc(WindowPaneStep, WINDOW_PANE_START, [AT], ONE);
    assert [AT] + [ONE] == [AT, ONE];
    assert [AT, ONE] + [ZERO] == [AT, ONE, ZERO];
    assert [AT][1..] == [];
    WindowPaneErrorSticks(WindowPaneLexer(4, -2, 0), [SPACE, PERCENT, ONE]);
  }

  /** The step evidently intended: both accumulators accept every decimal digit. */
  function CorrectedWindowPaneStep(s: WindowPaneLexer, cc: Codepoint): WindowPaneLexer {
    if s.arg == 0 && cc == AT then s.(arg := 1)
    else if s.arg == 1 && IsDigit(cc) then s.(window := s.window * 10 + (cc - ZERO))
    else if s.arg == 1 && cc == SPACE then s.(arg := 2)
    else if s.arg == 2 && cc == PERCENT then s.(arg := 3)
    else if s.arg == 3 && IsDigit(cc) then s.(pane := s.pane * 10 + (cc - ZERO))
    else s.(arg := 4, window := -2)
  }

  lemma {:induction false} ScanCorrectedPaneWindowDigits(s: WindowPaneLexer, ds: seq<Codepoint>)
    requires s.arg == 1 && s.window == 0 && AllDigits(ds)
    ensures Scan(CorrectedWindowPaneStep, s, ds) == s.(window := Value(ds))
    decreases |ds|
  {
    if ds != [] {
      var init, c := ds[..|ds| - 1], ds[|ds| - 1];
      assert init + [c] == ds;
      ScanCorrectedPaneWindowDigits(s, init);
      ScanSnoc(CorrectedWindowPaneStep, s, init, c);
      ValueSnoc(init, c);
    }
  }

  lemma {:induction false} ScanCorrectedPaneDigits(s: WindowPaneLexer, ds: seq<Codepoint>)
    requires s.arg == 3 && s.pane == 0 && AllDigits(ds)
    ensures Scan(CorrectedWindowPaneStep, s, ds) == s.(pane := Value(ds))
    decreases |ds|
  {
    if ds != [] {
      var init, c := ds[..|ds| - 1], ds[|ds| - 1];
      assert init + [c] == ds;
      ScanCorrectedPaneDigits(s, init);
      ScanSnoc(CorrectedWindowPaneStep, s, init, c);
      ValueSnoc(init, c);
    }
  }

  /** With every digit accepted, each `@<w> %<p>` tmux writes is read back. */
  lemma CorrectedWindowPaneRoundTrip(window: nat, pane: nat)
    ensures Scan(CorrectedWindowPaneStep, WINDOW_PANE_START, [AT] + FormatDecimal(window) + [SPACE, PERCENT] + FormatDecimal(pane))
         == WindowPaneLexer(3, window, pane)
  {
    var ws, ps := FormatDecimal(window), FormatDecimal(pane);
    var s1 := WindowPaneLexer(1, 0, 0);
    var s2 := WindowPaneLexer(1, window, 0);
    var s3 := WindowPaneLexer(3, window, 0);
    ScanAppend(CorrectedWindowPaneStep, WINDOW_PANE_START, [AT] + ws + [SPACE, PERCENT], ps);
    ScanAppend(CorrectedWindowPaneStep, WINDOW_PANE_START, [AT] + ws, [SPACE, PERCENT]);
    ScanAppend(CorrectedWindowPaneStep, WINDOW_PANE_START, [AT], ws);
    assert [AT][1..] == [];
    ScanCorrectedPaneWindowDigits(s1, ws);
    assert [SPACE] + [PERCENT] == [SPACE, PERCENT];
    ScanSnoc(CorrectedWindowPaneStep, s2, [SPACE], PERCENT);
    assert [SPACE][1..] == [];
    assert Scan(CorrectedWindowPaneStep, s2, [SPACE]) == WindowPaneLexer(2, window, 0);
    assert Scan(CorrectedWindowPaneStep, s2, [SPACE, PERCENT]) == s3;
    ScanCorrectedPaneDigits(s3, ps);
  }

  // ------------------------------------------------------------------ classes

  class TmuxWindowAddNotification {
    var arg: int
    var window: int

    function State(): WindowIdLexer
      reads this
    {
      WindowIdLexer(arg, window)
    }

    constructor()
      ensures State() == WINDOW_ID_START
    {
      arg, window := 0, 0;
    }

    method PushChar(cc: Codepoint)
      modifies this
      ensures State() == WindowIdStep(old(State()), cc)
    {
      if arg == 0 && cc == AT {
        arg := 1;
      } else if arg == 1 && ZERO < cc <= NINE {
        window := window * 10 + (cc - ZERO);
      } else {
        arg := 2;
        window := -2;
      }
    }

    method Execute(m: TmuxServerManager)
      modifies m`received
      ensures m.received == old(m.received) + [WindowAdd(window)]
    {
      m.Receive(WindowAdd(window));
    }
  }

  class TmuxWindowCloseNotification {
    var arg: int
    var window: int

    function State(): WindowIdLexer
      reads this
    {
      WindowIdLexer(arg, window)
    }

    constructor()
      ensures State() == WINDOW_ID_START
    {
      arg, window := 0, 0;
    }

    method PushChar(cc: Codepoint)
      modifies this
      ensures State() == WindowIdStep(old(State()), cc)
    {
      if arg == 0 && cc == AT {
        arg := 1;
      } else if arg == 1 && ZERO < cc <= NINE {
        window := window * 10 + (cc - ZERO);
      } else {
        arg := 2;
        window := -2;
      }
    }

    method Execute(m: TmuxServerManager)
      modifies m`received
      ensures m.received == old(m.received) + [WindowClose(window)]
    {
      m.Receive(WindowClose(window));
    }
  }

  class TmuxUnlinkedWindowCloseNotification {
    var arg: int
    var window: int

    function State(): WindowIdLexer
      reads this
    {
      WindowIdLexer(arg, window)
    }

    constructor()
      ensures State() == WINDOW_ID_START
    {
      arg, window := 0, 0;
    }

    method PushChar(cc: Codepoint)
      modifies this
      ensures State() == WindowIdStep(old(State()), cc)
    {
      if arg == 0 && cc == AT {
        arg := 1;
      } else if arg == 1 && ZERO < cc <= NINE {
        window := window * 10 + (cc - ZERO);
      } else {
        arg := 2;
        window := -2;
      }
    }

    method Execute(m: TmuxServerManager)
      modifies m`received
      ensures m.received == old(m.received) + [UnlinkedWindowClose(window)]
    {
      m.Receive(UnlinkedWindowClose(window));
    }
  }

  class TmuxUnlinkedWindowRenamedNotification {
    var arg: int
    var window: int

    function State(): WindowIdLexer
      reads this
    {
      WindowIdLexer(arg, window)
    }

    constructor()
      ensures State() == WINDOW_ID_START
    {
      arg, window := 0, 0;
    }

    method PushChar(cc: Codepoint)
      modifies this
      ensures State() == WindowIdStep(old(State()), cc)
    {
      if arg == 0 && cc == AT {
        arg := 1;
      } else if arg == 1 && ZERO < cc <= NINE {
        window := window * 10 + (cc - ZERO);
      } else {
        arg := 2;
        window := -2;
      }
    }

    method Execute(m: TmuxServerManager)
      modifies m`received
      ensures m.received == old(m.received) + [UnlinkedWindowRenamed(window)]
    {
      m.Receive(UnlinkedWindowRenamed(window));
    }
  }

  class TmuxUnlinkedWindowAddNotification {
    var arg: int
    var window: int

    function State(): WindowIdLexer
      reads this
    {
      WindowIdLexer(arg, window)
    }

    constructor()
      ensures State() == WINDOW_ID_START
    {
      arg, window := 0, 0;
    }

    method PushChar(cc: Codepoint)
      modifies this
      ensures State() == UnlinkedWindowAddStep(old(State()), cc)
    {
      if arg == 0 && cc == AT {
        arg := 1;
      }
      if arg == 1 && ZERO < cc <= NINE {
        window := window * 10 + (cc - ZERO);
      } else {
        arg := 2;
        window := -2;
      }
    }

    method Execute(m: TmuxServerManager)
      modifies m`received
      ensures m.received == old(m.received) + [UnlinkedWindowAdd(window)]
    {
      m.Receive(UnlinkedWindowAdd(window));
    }
  }

  class TmuxWindowPaneChangedNotification {
    var arg: int
    var window: int
    var pane: int

    function State(): WindowPaneLexer
      reads this
    {
      WindowPaneLexer(arg, window, pane)
    }

    constructor()
      ensures State() == WINDOW_PANE_START
    {
      arg, window, pane := 0, 0, 0;
    }

    method PushChar(cc: Codepoint)
      modifies this
      ensures State() == WindowPaneStep(old(State()), cc)
    {
      if arg == 0 && cc == AT {
        arg := 1;
      } else if arg == 1 && ZERO < cc <= NINE {
        window := window * 10 + (cc - ZERO);
      } else if arg == 1 && cc == SPACE {
        arg := 2;
      } else if arg == 2 && cc == PERCENT {
        arg := 3;
      } else if arg == 3 && ZERO < cc <= NINE {
        pane := pane * 10 + (cc - ZERO);
      } else {
        arg := 4;
        window := -2;
      }
    }

    method Execute(m: TmuxServerManager)
      modifies m`received
      ensures m.received == old(m.received) + [WindowPaneChanged(window, pane)]
    {
      m.Receive(WindowPaneChanged(window, pane));
    }
  }
}
