/** `%output %<pane> <data>` and `%extended-output %<pane> <age> : <data>`:
    the two notifications whose payload is octal-escaped. tmux writes a code
    unit it must protect as a backslash and three octal digits; the client
    decodes the escapes while it collects the payload. */
module TmuxOutput {
  import opened Codepoints
  import opened Decimal
  import opened TmuxIds
  import opened TmuxServer

  // ------------------------------------------------------------ octal escapes

  /** `octParse` (0 outside an escape, 1-3 inside it), `octParseChar` (the value
      accumulated so far) and the payload collected in `lexBuffer`. */
  datatype OctalDecoder = OctalDecoder(octParse: int, octParseChar: Codepoint, lexBuffer: seq<Codepoint>)

  /** Outside any escape, with `buf` collected. */
  function Idle(buf: seq<Codepoint>): OctalDecoder {
    OctalDecoder(0, 0, buf)
  }

  /** One payload code unit. A backslash (re)starts an escape without clearing
      the value; a digit inside an escape (`8` and `9` included) is accumulated
      with `uint` wrap-around and the third one pushes the value; any other code
      unit inside an escape pushes the value so far and then itself. */
  function OctalStep(d: OctalDecoder, cc: Codepoint): OctalDecoder {
    if cc == BACKSLASH then d.(octParse := 1)
    else if 0 < d.octParse < 4 then
      if IsDigit(cc) then
        var v := (d.octParseChar * 8 + (cc - ZERO)) % UINT_MODULUS;
        if d.octParse + 1 == 4 then Idle(d.lexBuffer + [v])
        else d.(octParse := d.octParse + 1, octParseChar := v)
      else Idle(d.lexBuffer + [d.octParseChar, cc])
    else d.(lexBuffer := d.lexBuffer + [cc])
  }

  /** How tmux protects one code unit: control characters and the backslash
      become a backslash and three octal digits, the rest stays as it is. */
  function EscapeChar(c: Codepoint): seq<Codepoint> {
    if c < 0x20 || c == BACKSLASH then [BACKSLASH, ZERO + c / 64, ZERO + (c / 8) % 8, ZERO + c % 8]
    else [c]
  }

  function EscapeOctal(s: seq<Codepoint>): seq<Codepoint>
    decreases |s|
  {
    if s == [] then [] else EscapeChar(s[0]) + EscapeOctal(s[1..])
  }

  lemma ScanFour<S>(step: (S, Codepoint) -> S, st: S, a: Codepoint, b: Codepoint, c: Codepoint, d: Codepoint)
    ensures Scan(step, st, [a, b, c, d]) == step(step(step(step(st, a), b), c), d)
  {
    var s1, s2, s3 := step(st, a), step(step(st, a), b), step(step(step(st, a), b), c);
    assert [a, b, c, d][1..] == [b, c, d];
    assert [b, c, d][1..] == [c, d];
    assert [c, d][1..] == [d];
    assert [d][1..] == [];
    assert Scan(step, s3, [d]) == step(s3, d);
    assert Scan(step, s2, [c, d]) == Scan(step, s3, [d]);
    assert Scan(step, s1, [b, c, d]) == Scan(step, s2, [c, d]);
  }

  lemma DecodeEscapedChar(buf: seq<Codepoint>, c: Codepoint)
    ensures Scan(OctalStep, Idle(buf), EscapeChar(c)) == Idle(buf + [c])
  {
    if c < 0x20 || c == BACKSLASH {
      var d1, d2, d3 := c / 64, (c / 8) % 8, c % 8;
      assert d1 * 64 + d2 * 8 + d3 == c by {
        if c == BACKSLASH { assert d1 == 1 && d2 == 3 && d3 == 4; }
        else { assert d1 == 0 && d2 == c / 8; }
      }
      ScanFour(OctalStep, Idle(buf), BACKSLASH, ZERO + d1, ZERO + d2, ZERO + d3);
      assert OctalStep(Idle(buf), BACKSLASH) == OctalDecoder(1, 0, buf);
      assert OctalStep(OctalDecoder(1, 0, buf), ZERO + d1) == OctalDecoder(2, d1, buf);
      assert OctalStep(OctalDecoder(2, d1, buf), ZERO + d2) == OctalDecoder(3, d1 * 8 + d2, buf);
    } else {
      assert [c][1..] == [];
    }
  }

  /** Decoding undoes tmux's escaping: the payload comes out exactly as it went in. */
  lemma {:induction false} DecodeEscaped(buf: seq<Codepoint>, s: seq<Codepoint>)
    ensures Scan(OctalStep, Idle(buf), EscapeOctal(s)) == Idle(buf + s)
    decreases |s|
  {
    if s == [] {
      assert buf + s == buf;
    } else {
      ScanAppend(OctalStep, Idle(buf), EscapeChar(s[0]), EscapeOctal(s[1..]));
      DecodeEscapedChar(buf, s[0]);
      DecodeEscaped(buf + [s[0]], s[1..]);
      assert buf + [s[0]] + s[1..] == buf + s;
    }
  }

  /** `\134\061` decodes to a backslash and `1`. */
  lemma DecodeBackslashAndOne()
    ensures Scan(OctalStep, Idle([]), Str("\\134\\061")) == Idle([BACKSLASH, ONE])
  {
    assert Str("\\134\\061") == EscapeChar(BACKSLASH) + [BACKSLASH, ZERO, 0x36, ONE];
    ScanAppend(OctalStep, Idle([]), EscapeChar(BACKSLASH), [BACKSLASH, ZERO, 0x36, ONE]);
    DecodeEscapedChar([], BACKSLASH);
    ScanFour(OctalStep, Idle([BACKSLASH]), BACKSLASH, ZERO, 0x36, ONE);
  }

  /** A code unit that is neither a digit nor a backslash ends an escape early:
      the value accumulated so far is pushed, then the code unit itself
      (`\12X` decodes to 10 and `X`). */
  lemma EscapeFlushedByNonDigit(d: OctalDecoder, cc: Codepoint)
    requires 0 < d.octParse < 4 && !IsDigit(cc) && cc != BACKSLASH
    ensures OctalStep(d, cc) == Idle(d.lexBuffer + [d.octParseChar, cc])
  {
  }

  lemma DecodeShortEscape()
    ensures Scan(OctalStep, Idle([]), Str("\\12X")) == Idle([10, 0x58])
  {
    assert Str("\\12X") == [BACKSLASH, ONE, 0x32, 0x58];
    ScanFour(OctalStep, Idle([]), BACKSLASH, ONE, 0x32, 0x58);
  }

  /** `8` and `9` are accepted as escape digits: `\089` decodes to 8 * 8 + 9. */
  lemma DecodeNonOctalDigits()
    ensures Scan(OctalStep, Idle([]), Str("\\089")) == Idle([73])
  {
    assert Str("\\089") == [BACKSLASH, ZERO, 0x38, NINE];
    ScanFour(OctalStep, Idle([]), BACKSLASH, ZERO, 0x38, NINE);
  }

  /** A backslash inside an escape restarts the digit count but keeps the value:
      `\1\234` decodes to the single value ((1 * 8 + 2) * 8 + 3) * 8 + 4. */
  lemma BackslashRestartsEscape(d: OctalDecoder)
    ensures OctalStep(d, BACKSLASH) == d.(octParse := 1)
  {
  }

  lemma DecodeRestartedEscape()
    ensures Scan(OctalStep, Idle([]), Str("\\1\\234")) == Idle([668])
  {
    assert Str("\\1\\234") == [BACKSLASH, ONE] + [BACKSLASH, 0x32, 0x33, 0x34];
    ScanAppend(OctalStep, Idle([]), [BACKSLASH, ONE], [BACKSLASH, 0x32, 0x33, 0x34]);
    ScanSnoc(OctalStep, Idle([]), [BACKSLASH], ONE);
    assert [BACKSLASH] + [ONE] == [BACKSLASH, ONE];
    assert [BACKSLASH][1..] == [];
    assert Scan(OctalStep, Idle([]), [BACKSLASH]) == OctalDecoder(1, 0, []);
    assert Scan(OctalStep, Idle([]), [BACKSLASH, ONE]) == OctalDecoder(2, 1, []);
    ScanFour(OctalStep, OctalDecoder(2, 1, []), BACKSLASH, 0x32, 0x33, 0x34);
  }

  /** An escape still open when the line ends is never pushed. */
  lemma {:induction false} OpenEscapeNotPushed(d: OctalDecoder, ds: seq<Codepoint>)
    requires 0 < d.octParse && d.octParse + |ds| < 4 && AllDigits(ds)
    ensures Scan(OctalStep, d, ds).lexBuffer == d.lexBuffer
    ensures Scan(OctalStep, d, ds).octParse == d.octParse + |ds|
    decreases |ds|
  {
    if ds != [] {
      assert IsDigit(ds[0]);
      OpenEscapeNotPushed(OctalStep(d, ds[0]), ds[1..]);
    }
  }

  // ------------------------------------------------------------------ %output

  /** The fields of `TmuxOutputNotification`: the argument index, the decoder
      state (whose buffer holds the pane token while `arg == 0`) and the pane. */
  datatype OutputLexer = OutputLexer(arg: int, decoder: OctalDecoder, pane: int)

  const OUTPUT_START := OutputLexer(0, Idle([]), 0)

  function OutputStep(s: OutputLexer, cc: Codepoint): OutputLexer {
    if s.arg == 0 then
      if cc == SPACE then OutputLexer(1, s.decoder.(lexBuffer := []), ParseTmuxPaneId(s.decoder.lexBuffer).value)
      else s.(decoder := s.decoder.(lexBuffer := s.decoder.lexBuffer + [cc]))
    else s.(decoder := OctalStep(s.decoder, cc))
  }

  lemma {:induction false} OutputToken(s: OutputLexer, t: seq<Codepoint>)
    requires s.arg == 0 && NoSpace(t)
    ensures Scan(OutputStep, s, t) == s.(decoder := s.decoder.(lexBuffer := s.decoder.lexBuffer + t))
    decreases |t|
  {
    if t == [] {
      assert s.decoder.lexBuffer + t == s.decoder.lexBuffer;
    } else {
      assert t[0] != SPACE;
      assert NoSpace(t[1..]) by {
        forall i | 0 <= i < |t[1..]| ensures t[1..][i] != SPACE { assert t[1..][i] == t[i + 1]; }
      }
      OutputToken(OutputStep(s, t[0]), t[1..]);
      assert s.decoder.lexBuffer + [t[0]] + t[1..] == s.decoder.lexBuffer + t;
    }
  }

  lemma {:induction false} OutputPayload(s: OutputLexer, x: seq<Codepoint>)
    requires s.arg == 1
    ensures Scan(OutputStep, s, x) == s.(decoder := Scan(OctalStep, s.decoder, x))
    decreases |x|
  {
    if x != [] {
      OutputPayload(OutputStep(s, x[0]), x[1..]);
    }
  }

  /** A whole `%output` line as tmux writes it is read as the pane it names and
      the payload before escaping. */
  lemma OutputLineDecoded(pane: int, data: seq<Codepoint>)
    requires -1 <= pane <= INT_MAX
    ensures Scan(OutputStep, OUTPUT_START, FormatTmuxId(PERCENT, pane) + [SPACE] + EscapeOctal(data))
         == OutputLexer(1, Idle(data), pane)
  {
    var t := FormatTmuxId(PERCENT, pane);
    FormattedIdNoSpace(PERCENT, pane);
    ScanAppend(OutputStep, OUTPUT_START, t + [SPACE], EscapeOctal(data));
    ScanSnoc(OutputStep, OUTPUT_START, t, SPACE);
    OutputToken(OUTPUT_START, t);
    assert [] + t == t;
    ParseFormatTmuxId(PERCENT, pane);
    OutputPayload(OutputLexer(1, Idle([]), pane), EscapeOctal(data));
    DecodeEscaped([], data);
    assert [] + data == data;
  }

  // --------------------------------------------------------- %extended-output

  /** The fields of `TmuxExtendedOutputNotification`. */
  datatype ExtendedOutputLexer = ExtendedOutputLexer(arg: int, decoder: OctalDecoder, pane: int, age: nat)

  const EXTENDED_OUTPUT_START := ExtendedOutputLexer(0, Idle([]), 0, 0)

  function ExtendedOutputStep(s: ExtendedOutputLexer, cc: Codepoint): ExtendedOutputLexer {
    var buf := s.decoder.lexBuffer;
    if s.arg == 0 && cc == SPACE then
      s.(arg := s.arg + 1, decoder := s.decoder.(lexBuffer := []), pane := ParseTmuxPaneId(buf).value)
    else if s.arg == 1 && cc == SPACE then
      s.(arg := s.arg + 1, decoder := s.decoder.(lexBuffer := []), age := ToULongLong(buf).value)
    else if s.arg == 2 && cc == SPACE then
      if |buf| == 1 && buf[0] == COLON then s.(arg := s.arg + 1, decoder := s.decoder.(lexBuffer := []))
      else s.(decoder := s.decoder.(lexBuffer := []))
    else if s.arg < 2 then s.(decoder := s.decoder.(lexBuffer := buf + [cc]))
    else if s.arg == 3 then s.(decoder := OctalStep(s.decoder, cc))
    else s
  }

  /** The states the lexer can be in: the argument index never passes 2, no
      escape is ever open, and once the third argument is reached the buffer
      is empty. */
  ghost predicate ExtendedOutputReachable(s: ExtendedOutputLexer) {
    && 0 <= s.arg <= 2
    && s.decoder.octParse == 0 && s.decoder.octParseChar == 0
    && (s.arg == 2 ==> s.decoder.lexBuffer == [])
  }

  lemma {:induction false} ExtendedOutputScanStuck(s: ExtendedOutputLexer, line: seq<Codepoint>)
    requires ExtendedOutputReachable(s)
    ensures ExtendedOutputReachable(Scan(ExtendedOutputStep, s, line))
    ensures Scan(ExtendedOutputStep, s, line).arg == Min(2, s.arg + SpaceCount(line))
    decreases |line|
  {
    if line != [] {
      ExtendedOutputScanStuck(ExtendedOutputStep(s, line[0]), line[1..]);
    }
  }

  /** Non-space code units are dropped while `arg == 2`, so the `:` separator
      is never seen: the argument index stops at 2 (it is 2 exactly when the
      line holds two spaces or more), the octal branch is never taken, and the
      payload handed on by `execute` is empty whenever the header is complete. */
  lemma ExtendedOutputPayloadLost(line: seq<Codepoint>)
    ensures var s := Scan(ExtendedOutputStep, EXTENDED_OUTPUT_START, line);
            && s.arg == Min(2, SpaceCount(line))
            && s.decoder.octParse == 0
            && (SpaceCount(line) >= 2 ==> s.decoder.lexBuffer == [])
  {
    ExtendedOutputScanStuck(EXTENDED_OUTPUT_START, line);
  }

  /** At argument 2 with an empty buffer and no escape open, the lexer no
      longer changes. */
  lemma {:induction false} ExtendedOutputStopsAtTwo(s: ExtendedOutputLexer, x: seq<Codepoint>)
    requires ExtendedOutputReachable(s) && s.arg == 2
    ensures Scan(ExtendedOutputStep, s, x) == s
    decreases |x|
  {
    if x != [] {
      ExtendedOutputStopsAtTwo(ExtendedOutputStep(s, x[0]), x[1..]);
    }
  }

  lemma {:induction false} ExtendedOutputToken(s: ExtendedOutputLexer, t: seq<Codepoint>)
    requires s.arg < 2 && NoSpace(t)
    ensures Scan(ExtendedOutputStep, s, t) == s.(decoder := s.decoder.(lexBuffer := s.decoder.lexBuffer + t))
    decreases |t|
  {
    if t == [] {
      assert s.decoder.lexBuffer + t == s.decoder.lexBuffer;
    } else {
      assert t[0] != SPACE;
      assert NoSpace(t[1..]) by {
        forall i | 0 <= i < |t[1..]| ensures t[1..][i] != SPACE { assert t[1..][i] == t[i + 1]; }
      }
      ExtendedOutputToken(ExtendedOutputStep(s, t[0]), t[1..]);
      assert s.decoder.lexBuffer + [t[0]] + t[1..] == s.decoder.lexBuffer + t;
    }
  }

  /** The `%<pane> <age> ` header tmux writes. */
  function ExtendedOutputHeader(pane: int, age: nat): seq<Codepoint>
    requires pane >= -1
  {
    FormatTmuxId(PERCENT, pane) + [SPACE] + FormatDecimal(age) + [SPACE]
  }

  /** A whole `%extended-output` line as tmux writes it. */
  function ExtendedOutputLine(pane: int, age: nat, data: seq<Codepoint>): seq<Codepoint>
    requires pane >= -1
  {
    ExtendedOutputHeader(pane, age) + [COLON, SPACE] + EscapeOctal(data)
  }

  lemma ExtendedOutputHeaderRead(pane: int, age: nat)
    requires -1 <= pane <= INT_MAX && age <= ULLONG_MAX
    ensures Scan(ExtendedOutputStep, EXTENDED_OUTPUT_START, ExtendedOutputHeader(pane, age))
         == ExtendedOutputLexer(2, Idle([]), pane, age)
  {
    var t := FormatTmuxId(PERCENT, pane);
    var a := FormatDecimal(age);
    var s1 := ExtendedOutputLexer(1, Idle([]), pane, 0);
    FormattedIdNoSpace(PERCENT, pane);
    ParseFormatTmuxId(PERCENT, pane);
    ScanSnoc(ExtendedOutputStep, EXTENDED_OUTPUT_START, t + [SPACE] + a, SPACE);
    ScanAppend(ExtendedOutputStep, EXTENDED_OUTPUT_START, t + [SPACE], a);
    ScanSnoc(ExtendedOutputStep, EXTENDED_OUTPUT_START, t, SPACE);
    ExtendedOutputToken(EXTENDED_OUTPUT_START, t);
    assert [] + t == t;
    assert Scan(ExtendedOutputStep, EXTENDED_OUTPUT_START, t + [SPACE]) == s1;
    assert NoSpace(a);
    ExtendedOutputToken(s1, a);
    assert [] + a == a;
    ToULongLongFormat(age);
  }

  /** The header of a well-formed line is read correctly, but the payload
      after `: ` is lost: the lexer ends at argument 2 with an empty buffer. */
  lemma ExtendedOutputLineLosesPayload(pane: int, age: nat, data: seq<Codepoint>)
    requires -1 <= pane <= INT_MAX && age <= ULLONG_MAX
    ensures Scan(ExtendedOutputStep, EXTENDED_OUTPUT_START, ExtendedOutputLine(pane, age, data))
         == ExtendedOutputLexer(2, Idle([]), pane, age)
  {
    var h := ExtendedOutputHeader(pane, age);
    ExtendedOutputHeaderRead(pane, age);
    ScanAppend(ExtendedOutputStep, EXTENDED_OUTPUT_START, h, [COLON, SPACE] + EscapeOctal(data));
    assert h + ([COLON, SPACE] + EscapeOctal(data)) == ExtendedOutputLine(pane, age, data);
    ExtendedOutputStopsAtTwo(ExtendedOutputLexer(2, Idle([]), pane, age), [COLON, SPACE] + EscapeOctal(data));
  }

  /** The step the `:` test evidently intends: the code units of the third
      argument are collected like those of the first two, so a lone `:` moves
      the lexer on to the escaped payload. */
  function CorrectedExtendedOutputStep(s: ExtendedOutputLexer, cc: Codepoint): ExtendedOutputLexer {
    var buf := s.decoder.lexBuffer;
    if s.arg == 0 && cc == SPACE then
      s.(arg := s.arg + 1, decoder := s.decoder.(lexBuffer := []), pane := ParseTmuxPaneId(buf).value)
    else if s.arg == 1 && cc == SPACE then
      s.(arg := s.arg + 1, decoder := s.decoder.(lexBuffer := []), age := ToULongLong(buf).value)
    else if s.arg == 2 && cc == SPACE then
      if |buf| == 1 && buf[0] == COLON then s.(arg := s.arg + 1, decoder := s.decoder.(lexBuffer := []))
      else s.(decoder := s.decoder.(lexBuffer := []))
    else if s.arg <= 2 then s.(decoder := s.decoder.(lexBuffer := buf + [cc]))
    else if s.arg == 3 then s.(decoder := OctalStep(s.decoder, cc))
    else s
  }

  lemma {:induction false} CorrectedExtendedOutputToken(s: ExtendedOutputLexer, t: seq<Codepoint>)
    requires s.arg <= 2 && NoSpace(t)
    ensures Scan(CorrectedExtendedOutputStep, s, t) == s.(decoder := s.decoder.(lexBuffer := s.decoder.lexBuffer + t))
    decreases |t|
  {
    if t == [] {
      assert s.decoder.lexBuffer + t == s.decoder.lexBuffer;
    } else {
      assert t[0] != SPACE;
      assert NoSpace(t[1..]) by {
        forall i | 0 <= i < |t[1..]| ensures t[1..][i] != SPACE { assert t[1..][i] == t[i + 1]; }
      }
      CorrectedExtendedOutputToken(CorrectedExtendedOutputStep(s, t[0]), t[1..]);
      assert s.decoder.lexBuffer + [t[0]] + t[1..] == s.decoder.lexBuffer + t;
    }
  }

  lemma {:induction false} CorrectedExtendedOutputPayload(s: ExtendedOutputLexer, x: seq<Codepoint>)
    requires s.arg == 3
    ensures Scan(CorrectedExtendedOutputStep, s, x) == s.(decoder := Scan(OctalStep, s.decoder, x))
    decreases |x|
  {
    if x != [] {
      CorrectedExtendedOutputPayload(CorrectedExtendedOutputStep(s, x[0]), x[1..]);
    }
  }

  lemma CorrectedExtendedOutputHeaderRead(pane: int, age: nat)
    requires -1 <= pane <= INT_MAX && age <= ULLONG_MAX
    ensures Scan(CorrectedExtendedOutputStep, EXTENDED_OUTPUT_START, ExtendedOutputHeader(pane, age))
         == ExtendedOutputLexer(2, Idle([]), pane, age)
  {
    var t := FormatTmuxId(PERCENT, pane);
    var a := FormatDecimal(age);
    var s1 := ExtendedOutputLexer(1, Idle([]), pane, 0);
    FormattedIdNoSpace(PERCENT, pane);
    ParseFormatTmuxId(PERCENT, pane);
    ScanSnoc(CorrectedExtendedOutputStep, EXTENDED_OUTPUT_START, t + [SPACE] + a, SPACE);
    ScanAppend(CorrectedExtendedOutputStep, EXTENDED_OUTPUT_START, t + [SPACE], a);
    ScanSnoc(CorrectedExtendedOutputStep, EXTENDED_OUTPUT_START, t, SPACE);
    CorrectedExtendedOutputToken(EXTENDED_OUTPUT_START, t);
    assert [] + t == t;
    assert Scan(CorrectedExtendedOutputStep, EXTENDED_OUTPUT_START, t + [SPACE]) == s1;
    assert NoSpace(a);
    CorrectedExtendedOutputToken(s1, a);
    assert [] + a == a;
    ToULongLongFormat(age);
  }

  /** With the corrected step a well-formed line is read as its pane, its age
      and the payload before escaping. */
  lemma CorrectedExtendedOutputLineDecoded(pane: int, age: nat, data: seq<Codepoint>)
    requires -1 <= pane <= INT_MAX && age <= ULLONG_MAX
    ensures Scan(CorrectedExtendedOutputStep, EXTENDED_OUTPUT_START, ExtendedOutputLine(pane, age, data))
         == ExtendedOutputLexer(3, Idle(data), pane, age)
  {
    var s2 := ExtendedOutputLexer(2, Idle([]), pane, age);
    var s3 := ExtendedOutputLexer(3, Idle([]), pane, age);
    var h := ExtendedOutputHeader(pane, age);
    CorrectedExtendedOutputHeaderRead(pane, age);
    ScanAppend(CorrectedExtendedOutputStep, EXTENDED_OUTPUT_START, h + [COLON, SPACE], EscapeOctal(data));
    ScanAppend(CorrectedExtendedOutputStep, EXTENDED_OUTPUT_START, h, [COLON, SPACE]);
    var s2c := ExtendedOutputLexer(2, Idle([COLON]), pane, age);
    assert CorrectedExtendedOutputStep(s2, COLON) == s2c;
    assert CorrectedExtendedOutputStep(s2c, SPACE) == s3;
    ScanSnoc(CorrectedExtendedOutputStep, s2, [COLON], SPACE);
    assert [COLON][1..] == [];
    assert [COLON] + [SPACE] == [COLON, SPACE];
    assert Scan(CorrectedExtendedOutputStep, s2, [COLON, SPACE]) == s3;
    CorrectedExtendedOutputPayload(s3, EscapeOctal(data));
    DecodeEscaped([], data);
    assert [] + data == data;
  }

  // ------------------------------------------------------------------ classes

  class TmuxOutputNotification {
    var arg: int
    var octParse: int
    var octParseChar: Codepoint
    var lexBuffer: seq<Codepoint>
    var pane: int

    function State(): OutputLexer
      reads this
    {
      OutputLexer(arg, OctalDecoder(octParse, octParseChar, lexBuffer), pane)
    }

    constructor()
      ensures State() == OUTPUT_START
    {
      arg, octParse, octParseChar, lexBuffer, pane := 0, 0, 0, [], 0;
    }

    method PushChar(cc: Codepoint)
      modifies this
      ensures State() == OutputStep(old(State()), cc)
    {
      if arg == 0 {
        if cc == SPACE {
          pane := ParseTmuxPaneId(lexBuffer).value;
          lexBuffer := [];
          arg := 1;
        } else {
          lexBuffer := lexBuffer + [cc];
        }
      } else {
        if cc == BACKSLASH {
          octParse := 1;
        } else if octParse > 0 && octParse < 4 {
          if ZERO <= cc <= NINE {
            octParseChar := (octParseChar * 8 + (cc - ZERO)) % UINT_MODULUS;
            octParse := octParse + 1;
            if octParse == 4 {
              lexBuffer := lexBuffer + [octParseChar];
              octParseChar := 0;
              octParse := 0;
            }
          } else {
            lexBuffer := lexBuffer + [octParseChar];
            octParseChar := 0;
            octParse := 0;
            lexBuffer := lexBuffer + [cc];
          }
        } else {
          lexBuffer := lexBuffer + [cc];
        }
      }
    }

    method Execute(m: TmuxServerManager)
      modifies m`received
      ensures m.received == old(m.received) + [Output(pane, lexBuffer)]
    {
      m.Receive(Output(pane, lexBuffer));
    }
  }

  class TmuxExtendedOutputNotification {
    var arg: int
    var octParse: int
    var octParseChar: Codepoint
    var lexBuffer: seq<Codepoint>
    var pane: int
    var age: nat

    function State(): ExtendedOutputLexer
      reads this
    {
      ExtendedOutputLexer(arg, OctalDecoder(octParse, octParseChar, lexBuffer), pane, age)
    }

    constructor()
      ensures State() == EXTENDED_OUTPUT_START
    {
      arg, octParse, octParseChar, lexBuffer, pane, age := 0, 0, 0, [], 0, 0;
    }

    method PushChar(cc: Codepoint)
      modifies this
      ensures State() == ExtendedOutputStep(old(State()), cc)
    {
      if arg == 0 && cc == SPACE {
        pane := ParseTmuxPaneId(lexBuffer).value;
        lexBuffer := [];
        arg := arg + 1;
      } else if arg == 1 && cc == SPACE {
        age := ToULongLong(lexBuffer).value;
        lexBuffer := [];
        arg := arg + 1;
      } else if arg == 2 && cc == SPACE {
        if |lexBuffer| == 1 && lexBuffer[0] == COLON {
          lexBuffer := [];
          arg := arg + 1;
        } else {
          lexBuffer := [];
        }
      } else if arg < 2 {
        lexBuffer := lexBuffer + [cc];
      } else if arg == 3 {
        if cc == BACKSLASH {
          octParse := 1;
        } else if octParse > 0 && octParse < 4 {
          if ZERO <= cc <= NINE {
            octParseChar := (octParseChar * 8 + (cc - ZERO)) % UINT_MODULUS;
            octParse := octParse + 1;
            if octParse == 4 {
              lexBuffer := lexBuffer + [octParseChar];
              octParseChar := 0;
              octParse := 0;
            }
          } else {
            lexBuffer := lexBuffer + [octParseChar];
            octParseChar := 0;
            octParse := 0;
            lexBuffer := lexBuffer + [cc];
          }
        } else {
          lexBuffer := lexBuffer + [cc];
        }
      }
    }

    method Execute(m: TmuxServerManager)
      modifies m`received
      ensures m.received == old(m.received) + [ExtendedOutput(pane, age, lexBuffer)]
    {
      m.Receive(ExtendedOutput(pane, age, lexBuffer));
    }
  }
}
