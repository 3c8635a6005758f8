/** The notifications that collect their whole line and interpret it, if at
    all, in `execute`: `%client-detached`, `%config-error`, `%continue`,
    `%exit`, `%message`, `%pane-mode-changed`, `%paste-buffer-changed`,
    `%paste-buffer-deleted`, `%pause`, `%session-renamed` and
    `%sessions-changed`. */
module TmuxTextNotifications {
  import opened Codepoints
  import opened Decimal
  import opened TmuxIds
  import opened TmuxServer

  /** Their `push_char`: append the code unit. */
  function Collect(buf: seq<Codepoint>, cc: Codepoint): seq<Codepoint> {
    buf + [cc]
  }

  /** The buffer ends up holding the line exactly. */
  lemma {:induction false} CollectLine(buf: seq<Codepoint>, line: seq<Codepoint>)
    ensures Scan(Collect, buf, line) == buf + line
    decreases |line|
  {
    if line == [] {
      assert buf + line == buf;
    } else {
      CollectLine(buf + [line[0]], line[1..]);
      assert buf + [line[0]] + line[1..] == buf + line;
    }
  }

  /** `%continue`, `%pane-mode-changed` and `%pause` name their pane with an id
      that `execute` reads back. */
  lemma PaneLineRead(pane: int)
    requires -1 <= pane <= INT_MAX
    ensures ParseTmuxPaneId(Scan(Collect, [], FormatTmuxId(PERCENT, pane))) == IdParse(pane, true)
  {
    CollectLine([], FormatTmuxId(PERCENT, pane));
    assert [] + FormatTmuxId(PERCENT, pane) == FormatTmuxId(PERCENT, pane);
    ParseFormatTmuxId(PERCENT, pane);
  }

  class TmuxClientDetachedNotification {
    var client: seq<Codepoint>

    constructor()
      ensures client == []
    {
      client := [];
    }

    method PushChar(cc: Codepoint)
      modifies this
      ensures client == Collect(old(client), cc)
    {
      client := client + [cc];
    }

    method Execute(m: TmuxServerManager)
      modifies m`received
      ensures m.received == old(m.received) + [ClientDetached(client)]
    {
      m.Receive(ClientDetached(client));
    }
  }

  class TmuxConfigErrorNotification {
    var error: seq<Codepoint>

    constructor()
      ensures error == []
    {
      error := [];
    }

    method PushChar(cc: Codepoint)
      modifies this
      ensures error == Collect(old(error), cc)
    {
      error := error + [cc];
    }

    method Execute(m: TmuxServerManager)
      modifies m`received
      ensures m.received == old(m.received) + [ConfigError(error)]
    {
      m.Receive(ConfigError(error));
    }
  }

  class TmuxContinueNotification {
    var lexBuffer: seq<Codepoint>

    constructor()
      ensures lexBuffer == []
    {
      lexBuffer := [];
    }

    method PushChar(cc: Codepoint)
      modifies this
      ensures lexBuffer == Collect(old(lexBuffer), cc)
    {
      lexBuffer := lexBuffer + [cc];
    }

    /** Reports the pane only when the id parses, then empties the buffer. */
    method Execute(m: TmuxServerManager)
      modifies this, m`received
      ensures var p := ParseTmuxPaneId(old(lexBuffer));
              m.received == old(m.received) + (if p.ok then [Continue(p.value)] else [])
      ensures lexBuffer == []
    {
      var p := ParseTmuxPaneId(lexBuffer);
      if p.ok {
        m.Receive(Continue(p.value));
      }
      lexBuffer := [];
    }
  }

  class TmuxExitNotification {
    var lexBuffer: seq<Codepoint>

    constructor()
      ensures lexBuffer == []
    {
      lexBuffer := [];
    }

    method PushChar(cc: Codepoint)
      modifies this
      ensures lexBuffer == Collect(old(lexBuffer), cc)
    {
      lexBuffer := lexBuffer + [cc];
    }

    method Execute(m: TmuxServerManager)
      modifies m`received
      ensures m.received == old(m.received) + [Exit(lexBuffer)]
    {
      m.Receive(Exit(lexBuffer));
    }
  }

  /** `%message`; its `execute` only shows the text in a message box. */
  class TmuxMessageNotification {
    var lexBuffer: seq<Codepoint>

    constructor()
      ensures lexBuffer == []
    {
      lexBuffer := [];
    }

    method PushChar(cc: Codepoint)
      modifies this
      ensures lexBuffer == Collect(old(lexBuffer), cc)
    {
      lexBuffer := lexBuffer + [cc];
    }
  }

  class TmuxPaneModeChangedNotification {
    var lexBuffer: seq<Codepoint>

    constructor()
      ensures lexBuffer == []
    {
      lexBuffer := [];
    }

    method PushChar(cc: Codepoint)
      modifies this
      ensures lexBuffer == Collect(old(lexBuffer), cc)
    {
      lexBuffer := lexBuffer + [cc];
    }

    method Execute(m: TmuxServerManager)
      modifies m`received
      ensures var p := ParseTmuxPaneId(lexBuffer);
              m.received == old(m.received) + (if p.ok then [PaneModeChanged(p.value)] else [])
    {
      var p := ParseTmuxPaneId(lexBuffer);
      if p.ok {
        m.Receive(PaneModeChanged(p.value));
      }
    }
  }

  class TmuxPasteBufferChangedNotification {
    var lexBuffer: seq<Codepoint>

    constructor()
      ensures lexBuffer == []
    {
      lexBuffer := [];
    }

    method PushChar(cc: Codepoint)
      modifies this
      ensures lexBuffer == Collect(old(lexBuffer), cc)
    {
      lexBuffer := lexBuffer + [cc];
    }

    method Execute(m: TmuxServerManager)
      modifies m`received
      ensures m.received == old(m.received) + [PasteBufferChanged(lexBuffer)]
    {
      m.Receive(PasteBufferChanged(lexBuffer));
    }
  }

  class TmuxPasteBufferDeletedNotification {
    var lexBuffer: seq<Codepoint>

    constructor()
      ensures lexBuffer == []
    {
      lexBuffer := [];
    }

    method PushChar(cc: Codepoint)
      modifies this
      ensures lexBuffer == Collect(old(lexBuffer), cc)
    {
      lexBuffer := lexBuffer + [cc];
    }

    method Execute(m: TmuxServerManager)
      modifies m`received
      ensures m.received == old(m.received) + [PasteBufferDeleted(lexBuffer)]
    {
      m.Receive(PasteBufferDeleted(lexBuffer));
    }
  }

  class TmuxPauseNotification {
    var lexBuffer: seq<Codepoint>

    constructor()
      ensures lexBuffer == []
    {
      lexBuffer := [];
    }

    method PushChar(cc: Codepoint)
      modifies this
      ensures lexBuffer == Collect(old(lexBuffer), cc)
    {
      lexBuffer := lexBuffer + [cc];
    }

    method Execute(m: TmuxServerManager)
      modifies m`received
      ensures var p := ParseTmuxPaneId(lexBuffer);
              m.received == old(m.received) + (if p.ok then [Pause(p.value)] else [])
    {
      var p := ParseTmuxPaneId(lexBuffer);
      if p.ok {
        m.Receive(Pause(p.value));
      }
    }
  }

  class TmuxSessionRenamedNotification {
    var lexBuffer: seq<Codepoint>

    constructor()
      ensures lexBuffer == []
    {
      lexBuffer := [];
    }

    method PushChar(cc: Codepoint)
      modifies this
      ensures lexBuffer == Collect(old(lexBuffer), cc)
    {
      lexBuffer := lexBuffer + [cc];
    }

    method Execute(m: TmuxServerManager)
      modifies m`received
      ensures m.received == old(m.received) + [SessionRenamed(lexBuffer)]
    {
      m.Receive(SessionRenamed(lexBuffer));
    }
  }

  /** `%sessions-changed` has no arguments; its `push_char` ignores its input. */
  class TmuxSessionsChangedNotification {
    constructor()
    {
    }

    method Execute(m: TmuxServerManager)
      modifies m`received
      ensures m.received == old(m.received) + [SessionsChanged]
    {
      m.Receive(SessionsChanged);
    }
  }
}
