/** The notifications whose arguments are space-separated tokens collected in
    `lexBuffer` and converted when the space after them arrives:
    `%session-changed`, `%window-renamed`, `%session-window-changed`,
    `%client-session-changed`, `%subscription-changed` and `%layout-change`. */
module TmuxArguments {
  import opened Codepoints
  import opened Decimal
  import opened TmuxIds
  import opened TmuxCommands
  import opened TmuxQueue
  import opened TmuxServer

  // ------------------------------------------------------ `<id> <text>`

  /** `%session-changed $<id> <name>`, `%window-renamed @<id> <name>` and
      `%session-window-changed $<id> @<window>` share one lexer: the first
      token is an id, the rest of the line is collected as it is. */
  datatype IdTextLexer = IdTextLexer(arg: int, lexBuffer: seq<Codepoint>, id: int)

  const ID_TEXT_START := IdTextLexer(0, [], 0)

  function IdTextStep(sigil: Codepoint): (IdTextLexer, Codepoint) -> IdTextLexer {
    (s: IdTextLexer, cc: Codepoint) =>
      if s.arg == 0 && cc == SPACE then IdTextLexer(s.arg + 1, [], ParseTmuxId(sigil, s.lexBuffer).value)
      else s.(lexBuffer := s.lexBuffer + [cc])
  }

  /** Code units that are not the first space are collected. */
  lemma {:induction false} IdTextCollects(sigil: Codepoint, s: IdTextLexer, t: seq<Codepoint>)
    requires s.arg != 0 || NoSpace(t)
    ensures Scan(IdTextStep(sigil), s, t) == s.(lexBuffer := s.lexBuffer + t)
    decreases |t|
  {
    if t == [] {
      assert s.lexBuffer + t == s.lexBuffer;
    } else {
      if s.arg == 0 { NoSpaceTail(t); }
      IdTextCollects(sigil, IdTextStep(sigil)(s, t[0]), t[1..]);
      assert s.lexBuffer + [t[0]] + t[1..] == s.lexBuffer + t;
    }
  }

  /** A line is read as the id its first token parses to and the text after
      the first space, spaces included. */
  lemma IdTextLine(sigil: Codepoint, t: seq<Codepoint>, text: seq<Codepoint>)
    requires NoSpace(t)
    ensures Scan(IdTextStep(sigil), ID_TEXT_START, t + [SPACE] + text) == IdTextLexer(1, text, ParseTmuxId(sigil, t).value)
  {
    var s1 := IdTextLexer(1, [], ParseTmuxId(sigil, t).value);
    ScanAppend(IdTextStep(sigil), ID_TEXT_START, t + [SPACE], text);
    ScanSnoc(IdTextStep(sigil), ID_TEXT_START, t, SPACE);
    IdTextCollects(sigil, ID_TEXT_START, t);
    assert [] + t == t;
    IdTextCollects(sigil, s1, text);
    assert [] + text == text;
  }

  /** The id tmux writes is read back. */
  lemma IdTextRoundTrip(sigil: Codepoint, id: int, text: seq<Codepoint>)
    requires sigil != SPACE && -1 <= id <= INT_MAX
    ensures Scan(IdTextStep(sigil), ID_TEXT_START, FormatTmuxId(sigil, id) + [SPACE] + text) == IdTextLexer(1, text, id)
  {
    FormattedIdNoSpace(sigil, id);
    IdTextLine(sigil, FormatTmuxId(sigil, id), text);
    ParseFormatTmuxId(sigil, id);
  }

  /** `%session-window-changed $<s> @<w>`: the session is read while lexing
      and the window is parsed from the buffer by `execute`. */
  lemma SessionWindowChangedLine(session: int, window: int)
    requires -1 <= session <= INT_MAX && -1 <= window <= INT_MAX
    ensures var r := Scan(IdTextStep(DOLLAR), ID_TEXT_START, FormatTmuxId(DOLLAR, session) + [SPACE] + FormatTmuxId(AT, window));
            r.id == session && ParseTmuxWindowId(r.lexBuffer) == IdParse(window, true)
  {
    IdTextRoundTrip(DOLLAR, session, FormatTmuxId(AT, window));
    ParseFormatTmuxId(AT, window);
  }

  // ------------------------------------- `<client> $<session> <name>`

  datatype ClientSessionLexer = ClientSessionLexer(arg: int, lexBuffer: seq<Codepoint>, client: seq<Codepoint>, session: int)

  /** The explicit constructor starts the session at -2. */
  const CLIENT_SESSION_START := ClientSessionLexer(0, [], [], -2)

  /** A session token that does not parse leaves the session at -2. */
  function ClientSessionStep(s: ClientSessionLexer, cc: Codepoint): ClientSessionLexer {
    if cc == SPACE && s.arg == 0 then s.(client := s.lexBuffer, lexBuffer := [], arg := s.arg + 1)
    else if cc == SPACE && s.arg == 1 then
      var p := ParseTmuxSessionId(s.lexBuffer);
      s.(session := if p.ok then p.value else -2, lexBuffer := [], arg := s.arg + 1)
    else s.(lexBuffer := s.lexBuffer + [cc])
  }

  lemma {:induction false} ClientSessionCollects(s: ClientSessionLexer, t: seq<Codepoint>)
    requires (s.arg != 0 && s.arg != 1) || NoSpace(t)
    ensures Scan(ClientSessionStep, s, t) == s.(lexBuffer := s.lexBuffer + t)
    decreases |t|
  {
    if t == [] {
      assert s.lexBuffer + t == s.lexBuffer;
    } else {
      if s.arg == 0 || s.arg == 1 { NoSpaceTail(t); }
      ClientSessionCollects(ClientSessionStep(s, t[0]), t[1..]);
      assert s.lexBuffer + [t[0]] + t[1..] == s.lexBuffer + t;
    }
  }

  /** The client is the first token, the session the second (or -2 when it
      does not parse), and the name is the rest of the line. */
  lemma ClientSessionLine(client: seq<Codepoint>, t: seq<Codepoint>, name: seq<Codepoint>)
    requires NoSpace(client) && NoSpace(t)
    ensures Scan(ClientSessionStep, CLIENT_SESSION_START, client + [SPACE] + t + [SPACE] + name)
         == ClientSessionLexer(2, name, client,
                               if ParseTmuxId(DOLLAR, t).ok then ParseTmuxId(DOLLAR, t).value else -2)
  {
    var st := ClientSessionStep;
    var s1 := ClientSessionLexer(1, [], client, -2);
    var s2 := ClientSessionLexer(2, [], client, if ParseTmuxId(DOLLAR, t).ok then ParseTmuxId(DOLLAR, t).value else -2);
    ScanAppend(st, CLIENT_SESSION_START, client + [SPACE] + t + [SPACE], name);
    ScanSnoc(st, CLIENT_SESSION_START, client + [SPACE] + t, SPACE);
    ScanAppend(st, CLIENT_SESSION_START, client + [SPACE], t);
    ScanSnoc(st, CLIENT_SESSION_START, client, SPACE);
    ClientSessionCollects(CLIENT_SESSION_START, client);
    assert [] + client == client;
    ClientSessionCollects(s1, t);
    assert [] + t == t;
    ClientSessionCollects(s2, name);
    assert [] + name == name;
  }

  // ------------------ `<name> $<s> @<w> <index> %<p> : <value>`

  datatype SubscriptionLexer = SubscriptionLexer(arg: int, lexBuffer: seq<Codepoint>, name: seq<Codepoint>,
                                                 session: int, window: int, windowIndex: int, pane: int)

  const SUBSCRIPTION_START := SubscriptionLexer(0, [], [], 0, 0, 0, 0)

  /** Five arguments are converted on the space after them; from then on a
      lone `:` token starts the value, and other tokens are discarded. */
  function SubscriptionStep(s: SubscriptionLexer, cc: Codepoint): SubscriptionLexer {
    var buf := s.lexBuffer;
    if s.arg == 0 && cc == SPACE then s.(name := buf, lexBuffer := [], arg := s.arg + 1)
    else if s.arg == 1 && cc == SPACE then s.(session := ParseTmuxSessionId(buf).value, lexBuffer := [], arg := s.arg + 1)
    else if s.arg == 2 && cc == SPACE then s.(window := ParseTmuxWindowId(buf).value, lexBuffer := [], arg := s.arg + 1)
    else if s.arg == 3 && cc == SPACE then s.(windowIndex := ToInt(buf).value, lexBuffer := [], arg := s.arg + 1)
    else if s.arg == 4 && cc == SPACE then s.(pane := ParseTmuxPaneId(buf).value, lexBuffer := [], arg := s.arg + 1)
    else if s.arg == 5 && cc == SPACE then
      if |buf| == 1 && buf[0] == COLON then s.(lexBuffer := [], arg := s.arg + 1) else s.(lexBuffer := [])
    else s.(lexBuffer := buf + [cc])
  }

  lemma {:induction false} SubscriptionCollects(s: SubscriptionLexer, t: seq<Codepoint>)
    requires !(0 <= s.arg <= 5) || NoSpace(t)
    ensures Scan(SubscriptionStep, s, t) == s.(lexBuffer := s.lexBuffer + t)
    decreases |t|
  {
    if t == [] {
      assert s.lexBuffer + t == s.lexBuffer;
    } else {
      if 0 <= s.arg <= 5 { NoSpaceTail(t); }
      SubscriptionCollects(SubscriptionStep(s, t[0]), t[1..]);
      assert s.lexBuffer + [t[0]] + t[1..] == s.lexBuffer + t;
    }
  }

  /** One argument and the space after it. */
  lemma SubscriptionField(s: SubscriptionLexer, t: seq<Codepoint>)
    requires 0 <= s.arg <= 5 && s.lexBuffer == [] && NoSpace(t)
    ensures Scan(SubscriptionStep, s, t + [SPACE]) == SubscriptionStep(s.(lexBuffer := t), SPACE)
  {
    ScanSnoc(SubscriptionStep, s, t, SPACE);
    SubscriptionCollects(s, t);
    assert [] + t == t;
  }

  /** The line tmux writes for a subscription (the value may hold spaces). */
  function SubscriptionLine(name: seq<Codepoint>, session: int, window: int, index: nat, pane: int, value: seq<Codepoint>): seq<Codepoint>
    requires session >= -1 && window >= -1 && pane >= -1
  {
    (name + [SPACE] + (FormatTmuxId(DOLLAR, session) + [SPACE]))
      + (FormatTmuxId(AT, window) + [SPACE] + (FormatDecimal(index) + [SPACE]))
      + (FormatTmuxId(PERCENT, pane) + [SPACE] + ([COLON, SPACE] + value))
  }

  lemma SubscriptionNameSession(name: seq<Codepoint>, session: int)
    requires NoSpace(name) && -1 <= session <= INT_MAX
    ensures Scan(SubscriptionStep, SUBSCRIPTION_START, name + [SPACE] + (FormatTmuxId(DOLLAR, session) + [SPACE]))
         == SubscriptionLexer(2, [], name, session, 0, 0, 0)
  {
    var s1 := SubscriptionLexer(1, [], name, 0, 0, 0, 0);
    SubscriptionField(SUBSCRIPTION_START, name);
    FormattedIdNoSpace(DOLLAR, session);
    ParseFormatTmuxId(DOLLAR, session);
    SubscriptionField(s1, FormatTmuxId(DOLLAR, session));
    ScanAppend(SubscriptionStep, SUBSCRIPTION_START, name + [SPACE], FormatTmuxId(DOLLAR, session) + [SPACE]);
  }

  lemma SubscriptionWindowIndex(s: SubscriptionLexer, window: int, index: nat)
    requires s.arg == 2 && s.lexBuffer == [] && -1 <= window <= INT_MAX && index <= INT_MAX
    ensures Scan(SubscriptionStep, s, FormatTmuxId(AT, window) + [SPACE] + (FormatDecimal(index) + [SPACE]))
         == s.(arg := 4, window := window, windowIndex := index)
  {
    var s3 := s.(arg := 3, window := window);
    FormattedIdNoSpace(AT, window);
    ParseFormatTmuxId(AT, window);
    SubscriptionField(s, FormatTmuxId(AT, window));
    ToIntFormat(index);
    SubscriptionField(s3, FormatDecimal(index));
    ScanAppend(SubscriptionStep, s, FormatTmuxId(AT, window) + [SPACE], FormatDecimal(index) + [SPACE]);
  }

  lemma SubscriptionPaneValue(s: SubscriptionLexer, pane: int, value: seq<Codepoint>)
    requires s.arg == 4 && s.lexBuffer == [] && -1 <= pane <= INT_MAX
    ensures Scan(SubscriptionStep, s, FormatTmuxId(PERCENT, pane) + [SPACE] + ([COLON, SPACE] + value))
         == s.(arg := 6, pane := pane, lexBuffer := value)
  {
    var s5 := s.(arg := 5, pane := pane);
    var s6 := s.(arg := 6, pane := pane);
    FormattedIdNoSpace(PERCENT, pane);
    ParseFormatTmuxId(PERCENT, pane);
    SubscriptionField(s, FormatTmuxId(PERCENT, pane));
    SubscriptionField(s5, [COLON]);
    assert [COLON] + [SPACE] == [COLON, SPACE];
    SubscriptionCollects(s6, value);
    assert [] + value == value;
    ScanAppend(SubscriptionStep, s5, [COLON, SPACE], value);
    ScanAppend(SubscriptionStep, s, FormatTmuxId(PERCENT, pane) + [SPACE], [COLON, SPACE] + value);
  }

  /** Every field of a well-formed line is read back. */
  lemma SubscriptionLineRead(name: seq<Codepoint>, session: int, window: int, index: nat, pane: int, value: seq<Codepoint>)
    requires NoSpace(name)
    requires -1 <= session <= INT_MAX && -1 <= window <= INT_MAX && index <= INT_MAX && -1 <= pane <= INT_MAX
    ensures Scan(SubscriptionStep, SUBSCRIPTION_START, SubscriptionLine(name, session, window, index, pane, value))
         == SubscriptionLexer(6, value, name, session, window, index, pane)
  {
    var a := name + [SPACE] + (FormatTmuxId(DOLLAR, session) + [SPACE]);
    var b := FormatTmuxId(AT, window) + [SPACE] + (FormatDecimal(index) + [SPACE]);
    var c := FormatTmuxId(PERCENT, pane) + [SPACE] + ([COLON, SPACE] + value);
    var s2 := SubscriptionLexer(2, [], name, session, 0, 0, 0);
    SubscriptionNameSession(name, session);
    SubscriptionWindowIndex(s2, window, index);
    SubscriptionPaneValue(s2.(arg := 4, window := window, windowIndex := index), pane, value);
    ScanAppend(SubscriptionStep, SUBSCRIPTION_START, a + b, c);
    ScanAppend(SubscriptionStep, SUBSCRIPTION_START, a, b);
  }

  // ------------------------- `@<window> <layout> <visible-layout> <flags>`

  datatype LayoutChangeLexer = LayoutChangeLexer(arg: int, lexBuffer: seq<Codepoint>, window: int,
                                                 layout: seq<Codepoint>, visibleLayout: seq<Codepoint>)

  const LAYOUT_CHANGE_START := LayoutChangeLexer(0, [], 0, [], [])

  /** Three arguments are converted on the spaces after them; there is no
      branch that collects a code unit, so every other code unit is dropped. */
  function LayoutChangeStep(s: LayoutChangeLexer, cc: Codepoint): LayoutChangeLexer {
    var buf := s.lexBuffer;
    if s.arg == 0 && cc == SPACE then s.(window := ParseTmuxWindowId(buf).value, lexBuffer := [], arg := s.arg + 1)
    else if s.arg == 1 && cc == SPACE then s.(layout := buf, lexBuffer := [], arg := s.arg + 1)
    else if s.arg == 2 && cc == SPACE then s.(visibleLayout := buf, lexBuffer := [], arg := s.arg + 1)
    else s
  }

  /** Where the lexer is after a line holding `spaces` spaces. */
  function LayoutChangeAfter(spaces: nat): LayoutChangeLexer {
    LayoutChangeLexer(Min(3, spaces), [], if spaces == 0 then 0 else -2, [], [])
  }

  lemma {:induction false} ScanLayoutChange(spaces: nat, line: seq<Codepoint>)
    ensures Scan(LayoutChangeStep, LayoutChangeAfter(spaces), line) == LayoutChangeAfter(spaces + SpaceCount(line))
    decreases |line|
  {
    if line != [] {
      var c := line[0];
      var n := if c == SPACE then 1 else 0;
      assert LayoutChangeStep(LayoutChangeAfter(spaces), c) == LayoutChangeAfter(spaces + n);
      ScanLayoutChange(spaces + n, line[1..]);
    }
  }

  /** Nothing of the line reaches `execute`: the window is -2 as soon as one
      space has been seen (the id is parsed from an empty buffer), and the two
      layouts and the flags are always empty. */
  lemma LayoutChangeLosesArguments(line: seq<Codepoint>)
    ensures Scan(LayoutChangeStep, LAYOUT_CHANGE_START, line) == LayoutChangeAfter(SpaceCount(line))
  {
    assert LayoutChangeAfter(0) == LAYOUT_CHANGE_START;
    ScanLayoutChange(0, line);
  }

  /** The step evidently intended: code units that end no argument are
      collected, like every other lexer of the client does. */
  function CorrectedLayoutChangeStep(s: LayoutChangeLexer, cc: Codepoint): LayoutChangeLexer {
    var buf := s.lexBuffer;
    if s.arg == 0 && cc == SPACE then s.(window := ParseTmuxWindowId(buf).value, lexBuffer := [], arg := s.arg + 1)
    else if s.arg == 1 && cc == SPACE then s.(layout := buf, lexBuffer := [], arg := s.arg + 1)
    else if s.arg == 2 && cc == SPACE then s.(visibleLayout := buf, lexBuffer := [], arg := s.arg + 1)
    else s.(lexBuffer := buf + [cc])
  }

  lemma {:induction false} CorrectedLayoutChangeCollects(s: LayoutChangeLexer, t: seq<Codepoint>)
    requires !(0 <= s.arg <= 2) || NoSpace(t)
    ensures Scan(CorrectedLayoutChangeStep, s, t) == s.(lexBuffer := s.lexBuffer + t)
    decreases |t|
  {
    if t == [] {
      assert s.lexBuffer + t == s.lexBuffer;
    } else {
      if 0 <= s.arg <= 2 { NoSpaceTail(t); }
      CorrectedLayoutChangeCollects(CorrectedLayoutChangeStep(s, t[0]), t[1..]);
      assert s.lexBuffer + [t[0]] + t[1..] == s.lexBuffer + t;
    }
  }

  lemma CorrectedLayoutChangeField(s: LayoutChangeLexer, t: seq<Codepoint>)
    requires 0 <= s.arg <= 2 && s.lexBuffer == [] && NoSpace(t)
    ensures Scan(CorrectedLayoutChangeStep, s, t + [SPACE]) == CorrectedLayoutChangeStep(s.(lexBuffer := t), SPACE)
  {
    ScanSnoc(CorrectedLayoutChangeStep, s, t, SPACE);
    CorrectedLayoutChangeCollects(s, t);
    assert [] + t == t;
  }

  /** With the corrected step a well-formed line is read back field by field. */
  lemma CorrectedLayoutChangeLine(window: int, layout: seq<Codepoint>, visible: seq<Codepoint>, flags: seq<Codepoint>)
    requires -1 <= window <= INT_MAX && NoSpace(layout) && NoSpace(visible)
    ensures Scan(CorrectedLayoutChangeStep, LAYOUT_CHANGE_START,
                 FormatTmuxId(AT, window) + [SPACE] + layout + [SPACE] + visible + [SPACE] + flags)
         == LayoutChangeLexer(3, flags, window, layout, visible)
  {
    var st := CorrectedLayoutChangeStep;
    var p1, p2, p3 := FormatTmuxId(AT, window) + [SPACE], layout + [SPACE], visible + [SPACE];
    var s1 := LayoutChangeLexer(1, [], window, [], []);
    var s2 := LayoutChangeLexer(2, [], window, layout, []);
    var s3 := LayoutChangeLexer(3, [], window, layout, visible);
    FormattedIdNoSpace(AT, window);
    ParseFormatTmuxId(AT, window);
    CorrectedLayoutChangeField(LAYOUT_CHANGE_START, FormatTmuxId(AT, window));
    CorrectedLayoutChangeField(s1, layout);
    CorrectedLayoutChangeField(s2, visible);
    CorrectedLayoutChangeCollects(s3, flags);
    assert [] + flags == flags;
    ScanAppend(st, LAYOUT_CHANGE_START, p1, p2);
    ScanAppend(st, LAYOUT_CHANGE_START, p1 + p2, p3);
    ScanAppend(st, LAYOUT_CHANGE_START, p1 + p2 + p3, flags);
    assert FormatTmuxId(AT, window) + [SPACE] + layout + [SPACE] + visible + [SPACE] + flags == p1 + p2 + p3 + flags;
  }

  // ------------------------------------------------------------------ classes

  class TmuxSessionChangedNotification {
    var arg: int
    var lexBuffer: seq<Codepoint>
    var session: int

    function State(): IdTextLexer
      reads this
    {
      IdTextLexer(arg, lexBuffer, session)
    }

    constructor()
      ensures State() == ID_TEXT_START
    {
      arg, lexBuffer, session := 0, [], 0;
    }

    method PushChar(cc: Codepoint)
      modifies this
      ensures State() == IdTextStep(DOLLAR)(old(State()), cc)
    {
      if arg == 0 && cc == SPACE {
        session := ParseTmuxSessionId(lexBuffer).value;
        lexBuffer := [];
        arg := arg + 1;
      } else {
        lexBuffer := lexBuffer + [cc];
      }
    }

    /** Hands the session and the name to `receiveSessionChanged`. */
    method Execute(m: TmuxServerManager)
      modifies m`sessions, m`activeSession, m`currentCommand, m`pendingCommands, m`sentCommands
      ensures m.sessions == old(m.sessions)[session := lexBuffer]
      ensures m.activeSession == session
      ensures session in old(m.sessions) ==> m.Queue() == old(m.Queue())
      ensures session !in old(m.sessions) ==> m.Queue() == Send(old(m.Queue()), KonsoleSizeCommand(old(m.activeSession), session))
    {
      m.ReceiveSessionChanged(session, lexBuffer);
    }
  }

  class TmuxWindowRenamedNotification {
    var arg: int
    var lexBuffer: seq<Codepoint>
    var window: int

    function State(): IdTextLexer
      reads this
    {
      IdTextLexer(arg, lexBuffer, window)
    }

    constructor()
      ensures State() == ID_TEXT_START
    {
      arg, lexBuffer, window := 0, [], 0;
    }

    method PushChar(cc: Codepoint)
      modifies this
      ensures State() == IdTextStep(AT)(old(State()), cc)
    {
      if arg == 0 && cc == SPACE {
        window := ParseTmuxWindowId(lexBuffer).value;
        lexBuffer := [];
        arg := arg + 1;
      } else {
        lexBuffer := lexBuffer + [cc];
      }
    }

    method Execute(m: TmuxServerManager)
      modifies m`received
      ensures m.received == old(m.received) + [WindowRenamed(window, lexBuffer)]
    {
      m.Receive(WindowRenamed(window, lexBuffer));
    }
  }

  class TmuxSessionWindowChangedNotification {
    var arg: int
    var lexBuffer: seq<Codepoint>
    var session: int

    function State(): IdTextLexer
      reads this
    {
      IdTextLexer(arg, lexBuffer, session)
    }

    constructor()
      ensures State() == ID_TEXT_START
    {
      arg, lexBuffer, session := 0, [], 0;
    }

    method PushChar(cc: Codepoint)
      modifies this
      ensures State() == IdTextStep(DOLLAR)(old(State()), cc)
    {
      if arg == 0 && cc == SPACE {
        session := ParseTmuxSessionId(lexBuffer).value;
        lexBuffer := [];
        arg := arg + 1;
      } else {
        lexBuffer := lexBuffer + [cc];
      }
    }

    /** Reports the change only when the window token parses. */
    method Execute(m: TmuxServerManager)
      modifies m`received
      ensures var w := ParseTmuxWindowId(lexBuffer);
              m.received == old(m.received) + (if w.ok then [SessionWindowChanged(session, w.value)] else [])
    {
      var w := ParseTmuxWindowId(lexBuffer);
      if w.ok {
        m.Receive(SessionWindowChanged(session, w.value));
      }
    }
  }

  class TmuxClientSessionChangedNotification {
    var arg: int
    var lexBuffer: seq<Codepoint>
    var client: seq<Codepoint>
    var session: int

    function State(): ClientSessionLexer
      reads this
    {
      ClientSessionLexer(arg, lexBuffer, client, session)
    }

    constructor()
      ensures State() == CLIENT_SESSION_START
    {
      arg, lexBuffer, client, session := 0, [], [], -2;
    }

    method PushChar(cc: Codepoint)
      modifies this
      ensures State() == ClientSessionStep(old(State()), cc)
    {
      if cc == SPACE && arg == 0 {
        client := lexBuffer;
        lexBuffer := [];
        arg := arg + 1;
      } else if cc == SPACE && arg == 1 {
        var p := ParseTmuxSessionId(lexBuffer);
        session := p.value;
        if !p.ok {
          session := -2;
        }
        lexBuffer := [];
        arg := arg + 1;
      } else {
        lexBuffer := lexBuffer + [cc];
      }
    }

    method Execute(m: TmuxServerManager)
      modifies m`received
      ensures m.received == old(m.received) + [ClientSessionChanged(client, session, lexBuffer)]
    {
      m.Receive(ClientSessionChanged(client, session, lexBuffer));
    }
  }

  class TmuxSubscriptionChangedNotification {
    var arg: int
    var lexBuffer: seq<Codepoint>
    var name: seq<Codepoint>
    var session: int
    var window: int
    var windowIndex: int
    var pane: int

    function State(): SubscriptionLexer
      reads this
    {
      SubscriptionLexer(arg, lexBuffer, name, session, window, windowIndex, pane)
    }

    constructor()
      ensures State() == SUBSCRIPTION_START
    {
      arg, lexBuffer, name := 0, [], [];
      session, window, windowIndex, pane := 0, 0, 0, 0;
    }

    method PushChar(cc: Codepoint)
      modifies this
      ensures State() == SubscriptionStep(old(State()), cc)
    {
      if arg == 0 && cc == SPACE {
        name := lexBuffer;
        lexBuffer := [];
        arg := arg + 1;
      } else if arg == 1 && cc == SPACE {
        session := ParseTmuxSessionId(lexBuffer).value;
        lexBuffer := [];
        arg := arg + 1;
      } else if arg == 2 && cc == SPACE {
        window := ParseTmuxWindowId(lexBuffer).value;
        lexBuffer := [];
        arg := arg + 1;
      } else if arg == 3 && cc == SPACE {
        windowIndex := ToInt(lexBuffer).value;
        lexBuffer := [];
        arg := arg + 1;
      } else if arg == 4 && cc == SPACE {
        pane := ParseTmuxPaneId(lexBuffer).value;
        lexBuffer := [];
        arg := arg + 1;
      } else if arg == 5 && cc == SPACE {
        if |lexBuffer| == 1 && lexBuffer[0] == COLON {
          lexBuffer := [];
          arg := arg + 1;
        } else {
          lexBuffer := [];
        }
      } else {
        lexBuffer := lexBuffer + [cc];
      }
    }

    method Execute(m: TmuxServerManager)
      modifies m`received
      ensures m.received == old(m.received) + [SubscriptionChanged(name, session, window, windowIndex, pane, lexBuffer)]
    {
      m.Receive(SubscriptionChanged(name, session, window, windowIndex, pane, lexBuffer));
    }
  }

  class TmuxLayoutChangeNotification {
    var arg: int
    var lexBuffer: seq<Codepoint>
    var window: int
    var windowLayout: seq<Codepoint>
    var windowVisibleLayout: seq<Codepoint>

    function State(): LayoutChangeLexer
      reads this
    {
      LayoutChangeLexer(arg, lexBuffer, window, windowLayout, windowVisibleLayout)
    }

    constructor()
      ensures State() == LAYOUT_CHANGE_START
    {
      arg, lexBuffer, window, windowLayout, windowVisibleLayout := 0, [], 0, [], [];
    }

    method PushChar(cc: Codepoint)
      modifies this
      ensures State() == LayoutChangeStep(old(State()), cc)
    {
      if arg == 0 && cc == SPACE {
        window := ParseTmuxWindowId(lexBuffer).value;
        lexBuffer := [];
        arg := arg + 1;
      } else if arg == 1 && cc == SPACE {
        windowLayout := lexBuffer;
        lexBuffer := [];
        arg := arg + 1;
      } else if arg == 2 && cc == SPACE {
        windowVisibleLayout := lexBuffer;
        lexBuffer := [];
        arg := arg + 1;
      }
    }

    method Execute(m: TmuxServerManager)
      modifies m`received
      ensures m.received == old(m.received) + [LayoutChange(window, windowLayout, windowVisibleLayout, lexBuffer)]
    {
      m.Receive(LayoutChange(window, windowLayout, windowVisibleLayout, lexBuffer));
    }
  }
}
