/** `TmuxServerManager`: the client side of one tmux control-mode connection.
    It keeps the command in flight and the queue of commands waiting behind it,
    the known sessions by id, and the active session. Qt signals and the
    collaborators it calls without a body here are logs: `sentCommands` is the
    `doSendCommand` signal, `guiSizes` the `setGuiWindowSize` calls and
    `received` the `receive*` methods declared without a body. */
module TmuxServer {
  import opened Codepoints
  import opened Decimal
  import opened TmuxCommands
  import opened TmuxQueue
  import opened TmuxReplies

  /** A call of a `receive*` method the header declares without a body. */
  datatype TmuxEvent =
    | ClientDetached(client: seq<Codepoint>)
    | ClientSessionChanged(client: seq<Codepoint>, session: int, name: seq<Codepoint>)
    | ConfigError(error: seq<Codepoint>)
    | Continue(pane: int)
    | Exit(reason: seq<Codepoint>)
    | ExtendedOutput(pane: int, age: nat, data: seq<Codepoint>)
    | LayoutChange(window: int, layout: seq<Codepoint>, visibleLayout: seq<Codepoint>, flags: seq<Codepoint>)
    | Output(pane: int, data: seq<Codepoint>)
    | PaneModeChanged(pane: int)
    | PasteBufferChanged(buffer: seq<Codepoint>)
    | PasteBufferDeleted(buffer: seq<Codepoint>)
    | Pause(pane: int)
    | SessionRenamed(name: seq<Codepoint>)
    | SessionWindowChanged(session: int, window: int)
    | SessionsChanged
    | SubscriptionChanged(name: seq<Codepoint>, session: int, window: int, windowIndex: int, pane: int, value: seq<Codepoint>)
    | UnlinkedWindowAdd(window: int)
    | UnlinkedWindowClose(window: int)
    | UnlinkedWindowRenamed(window: int)
    | WindowAdd(window: int)
    | WindowClose(window: int)
    | WindowPaneChanged(window: int, pane: int)
    | WindowRenamed(window: int, name: seq<Codepoint>)

  /** A `setGuiWindowSize(width, height)` call on the manager of `session`. */
  datatype GuiSize = GuiSize(session: int, width: int, height: int)

  /** The command `receiveSessionChanged` sends for a session it has not seen:
      it asks for the `@konsole_size` of `$<active>`, where `active` is the
      session active BEFORE the change, and its callback sizes `session`. */
  function KonsoleSizeCommand(active: int, session: int): (c: TmuxCommand)
    ensures c.Valid() && c.responseHandler == Some(KonsoleSizeHandler(session))
    ensures |c.command| > 29 && c.command[..15] == Str("show -v -q -t $")
    ensures c.command[15..|c.command| - 14] == FormatInt(active)
    ensures c.command[|c.command| - 14..] == Str(" @konsole_size")
  {
    var text := Str("show -v -q -t $") + FormatInt(active) + Str(" @konsole_size");
    assert text[..15] == Str("show -v -q -t $");
    assert text[15..|text| - 14] == FormatInt(active);
    assert text[|text| - 14..] == Str(" @konsole_size");
    MakeCommand(text, Some(KonsoleSizeHandler(session)), None)
  }

  /** The `setGuiWindowSize` calls a response handler makes: only the
      `@konsole_size` callback makes one, when the reply is a single
      well-formed `W,H` line. A reference definition of the callback's effect:
      `RunResponseHandler` is proved against it, and what it reads is proved in
      `KonsoleSizeOfFormatted` and `KonsoleSizeRejects`. */
  function HandlerSizes(h: Handler, response: seq<seq<Codepoint>>): (r: seq<GuiSize>)
    ensures |r| <= 1
    ensures |r| == 1 <==> h.KonsoleSizeHandler? && |response| == 1 && KonsoleSizeOf(response[0]).ok
    ensures |r| == 1 ==> r[0] == GuiSize(h.session, KonsoleSizeOf(response[0]).width, KonsoleSizeOf(response[0]).height)
  {
    if h.KonsoleSizeHandler? && |response| == 1 && KonsoleSizeOf(response[0]).ok then
      [GuiSize(h.session, KonsoleSizeOf(response[0]).width, KonsoleSizeOf(response[0]).height)]
    else []
  }

  /** The loop of the `@konsole_size` callback over the single reply line:
      digits go to the width until the first comma and to the height after it;
      any other code unit abandons the value (`ok == false`). */
  method ParseKonsoleSize(line: seq<Codepoint>) returns (ok: bool, width: int, height: int)
    ensures KonsoleSize(ok, width, height) == KonsoleSizeOf(line)
  {
    var arg := 0;
    width, height := 0, 0;
    var n := 0;
    while n < |line|
      invariant 0 <= n <= |line|
      invariant Scan(SizeStep, SIZE_START, line) == Scan(SizeStep, SizeScan(arg, width, height, false), line[n..])
    {
      var cc := line[n];
      assert line[n..] == [cc] + line[n + 1..];
      if ZERO <= cc <= NINE {
        if arg == 0 {
          width := width * 10 + (cc - ZERO);
        } else {
          height := height * 10 + (cc - ZERO);
        }
      } else if arg == 0 && cc == COMMA {
        arg := arg + 1;
      } else {
        SizeFailedSticks(SizeScan(arg, width, height, true), line[n + 1..]);
        return false, width, height;
      }
      n := n + 1;
    }
    assert line[n..] == [];
    ok := true;
  }

  class TmuxServerManager {
    var currentCommand: TmuxCommand
    var pendingCommands: seq<TmuxCommand>
    var sessions: map<int, seq<Codepoint>>
    var activeSession: int
    var initComplete: bool

    var sentCommands: seq<seq<Codepoint>>
    ghost var fired: seq<Firing>
    var guiSizes: seq<GuiSize>
    var received: seq<TmuxEvent>

    /** The part of the state the one-in-flight discipline is about. */
    ghost function Queue(): QueueState
      reads this
    {
      QueueState(currentCommand, pendingCommands, sentCommands, fired)
    }

    /** No current command, the attach placeholder queued, no sessions, and
        active session -1. */
    constructor()
      ensures Queue() == InitialState()
      ensures sessions == map[] && activeSession == -1 && !initComplete
      ensures guiSizes == [] && received == []
    {
      currentCommand := EmptyCommand();
      pendingCommands := [AttachCommand()];
      sessions := map[];
      activeSession := -1;
      initComplete := false;
      sentCommands := [];
      fired := [];
      guiSizes := [];
      received := [];
    }

    /** `sendCommand`. */
    method SendCommand(command: TmuxCommand)
      modifies this`currentCommand, this`pendingCommands, this`sentCommands
      ensures Queue() == Send(old(Queue()), command)
    {
      if !currentCommand.Valid() {
        currentCommand := command;
        sentCommands := sentCommands + [command.command];
      } else {
        pendingCommands := pendingCommands + [command];
      }
    }

    /** `init`: list the sessions. */
    method Init()
      modifies this`currentCommand, this`pendingCommands, this`sentCommands
      ensures Queue() == Send(old(Queue()), ListSessionsCommand())
    {
      SendCommand(ListSessionsCommand());
    }

    /** `updateSessions`: one `(id, name)` pair per reply line. The vector is
        local to the method in the source and is dropped when it returns. */
    method UpdateSessions(response: seq<seq<Codepoint>>) returns (updated: seq<(int, seq<Codepoint>)>)
      ensures |updated| == |response|
      ensures forall j :: 0 <= j < |response| ==> updated[j] == SessionEntry(response[j])
    {
      updated := [];
      var k := 0;
      while k < |response|
        invariant 0 <= k <= |response|
        invariant |updated| == k
        invariant forall j :: 0 <= j < k ==> updated[j] == SessionEntry(response[j])
      {
        var sessionString := response[k];
        var counter, i, session := 0, 0, 0;
        var n := 0;
        while n < |sessionString|
          invariant 0 <= n <= |sessionString|
          invariant 0 <= i <= n
          invariant Scan(SessionLineStep, SESSION_LINE_START, sessionString)
                 == Scan(SessionLineStep, SessionLineScan(counter, i, session), sessionString[n..])
        {
          var cc := sessionString[n];
          assert sessionString[n..] == [cc] + sessionString[n + 1..];
          if counter == 0 && cc == DOLLAR {
            counter := counter + 1;
            i := i + 1;
          } else if counter == 1 && ZERO <= cc <= NINE {
            session := session * 10 + (cc - ZERO);
            i := i + 1;
          } else if counter == 1 && cc == SPACE {
            counter := counter + 1;
            i := i + 1;
          }
          n := n + 1;
        }
        assert sessionString[n..] == [];
        var name := sessionString[i..];
        updated := updated + [(session, name)];
        k := k + 1;
      }
    }

    /** Runs a response handler for its effect on the manager. */
    method RunResponseHandler(h: Handler, response: seq<seq<Codepoint>>)
      modifies this`guiSizes
      ensures guiSizes == old(guiSizes) + HandlerSizes(h, response)
    {
      match h
      case UpdateSessionsHandler =>
        var _ := UpdateSessions(response);
      case KonsoleSizeHandler(session) =>
        if |response| == 1 {
          var ok, width, height := ParseKonsoleSize(response[0]);
          if ok {
            guiSizes := guiSizes + [GuiSize(session, width, height)];
          }
        }
      case _ =>
    }

    /** `receiveCommandResponse`. */
    method ReceiveCommandResponse(response: seq<seq<Codepoint>>)
      modifies this`currentCommand, this`pendingCommands, this`sentCommands, this`fired, this`guiSizes
      ensures Queue() == Respond(old(Queue()), response)
      ensures guiSizes == old(guiSizes) + (if old(currentCommand).Valid()
                                            then HandlerSizes(old(currentCommand).responseHandler.value, response)
                                            else [])
    {
      if currentCommand.Valid() {
        var h := currentCommand.responseHandler.value;
        RunResponseHandler(h, response);
        fired := fired + [Firing(ResponsePath, h, response)];
        currentCommand := currentCommand.Executed();
        if |pendingCommands| > 0 {
          currentCommand := pendingCommands[0];
          pendingCommands := pendingCommands[1..];
          sentCommands := sentCommands + [currentCommand.command];
        }
      }
    }

    /** `receiveCommandError`. The error handlers only log. */
    method ReceiveCommandError(response: seq<seq<Codepoint>>)
      modifies this`currentCommand, this`fired
      ensures Queue() == Fail(old(Queue()), response)
    {
      if currentCommand.Valid() {
        fired := fired + [Firing(ErrorPath, currentCommand.errorHandler.value, response)];
        currentCommand := currentCommand.ErrorExecuted();
      }
    }

    /** `receiveSessionChanged`: rename a known session, or record a new one and
        ask tmux for its size; either way it becomes the active session. */
    method ReceiveSessionChanged(session: int, name: seq<Codepoint>)
      modifies this`sessions, this`activeSession, this`currentCommand, this`pendingCommands, this`sentCommands
      ensures sessions == old(sessions)[session := name]
      ensures activeSession == session
      ensures session in old(sessions) ==> Queue() == old(Queue())
      ensures session !in old(sessions) ==> Queue() == Send(old(Queue()), KonsoleSizeCommand(old(activeSession), session))
    {
      if session in sessions {
        sessions := sessions[session := name];
      } else {
        sessions := sessions[session := name];
        SendCommand(KonsoleSizeCommand(activeSession, session));
      }
      activeSession := session;
    }

    /** The `receive*` methods declared without a body: each records its call. */
    method Receive(e: TmuxEvent)
      modifies this`received
      ensures received == old(received) + [e]
    {
      received := received + [e];
    }
  }

  /** `receiveSessionChanged` as a map update: the changed session ends up with
      the new name, every other session keeps its own, and no session is removed. */
  lemma SessionChangedOnlyTouchesOne(sessions: map<int, seq<Codepoint>>, session: int, name: seq<Codepoint>)
    ensures var m := sessions[session := name];
            && m.Keys == sessions.Keys + {session}
            && m[session] == name
            && forall s :: s in sessions && s != session ==> m[s] == sessions[s]
  {
  }
}
