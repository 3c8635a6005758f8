/** `TmuxResponseNotification`: the reply to a command, the lines between
    `%begin` and `%end` (or `%error`). The emulator, which is not part of this
    model, sets `state` on the guard lines and starts each reply line with an
    empty entry; `push_char` fills the last entry and `execute` hands the
    reply to the manager. */
module TmuxResponse {
  import opened Codepoints
  import opened TmuxQueue
  import opened TmuxServer

  datatype ResponseState = Begin | Response | End | Error | None

  datatype ResponseLexer = ResponseLexer(state: ResponseState, commandResponse: seq<seq<Codepoint>>)

  /** In state `Response` the code unit goes at the end of the last line; in
      every other state it is dropped. (`last()` of an empty list is undefined;
      the step leaves such a state alone and `PushChar` requires a line.) */
  function ResponseStep(s: ResponseLexer, cc: Codepoint): ResponseLexer {
    var rs := s.commandResponse;
    if s.state == Response && |rs| > 0 then s.(commandResponse := rs[..|rs| - 1] + [rs[|rs| - 1] + [cc]])
    else s
  }

  /** A reply line is collected into the last entry, the earlier lines untouched. */
  lemma {:induction false} ResponseCollectsLine(lines: seq<seq<Codepoint>>, last: seq<Codepoint>, line: seq<Codepoint>)
    ensures Scan(ResponseStep, ResponseLexer(Response, lines + [last]), line) == ResponseLexer(Response, lines + [last + line])
    decreases |line|
  {
    if line == [] {
      assert last + line == last;
    } else {
      var rs := lines + [last];
      assert rs[..|rs| - 1] == lines;
      ResponseCollectsLine(lines, last + [line[0]], line[1..]);
      assert last + [line[0]] + line[1..] == last + line;
    }
  }

  /** Outside a reply nothing is collected. */
  lemma {:induction false} ResponseIgnoresOutsideReply(s: ResponseLexer, line: seq<Codepoint>)
    requires s.state != Response
    ensures Scan(ResponseStep, s, line) == s
    decreases |line|
  {
    if line != [] {
      ResponseIgnoresOutsideReply(s, line[1..]);
    }
  }

  class TmuxResponseNotification {
    var state: ResponseState
    var commandResponse: seq<seq<Codepoint>>

    function State(): ResponseLexer
      reads this
    {
      ResponseLexer(state, commandResponse)
    }

    constructor()
      ensures State() == ResponseLexer(Begin, [])
    {
      state := Begin;
      commandResponse := [];
    }

    method PushChar(cc: Codepoint)
      requires state == Response ==> |commandResponse| > 0
      modifies this`commandResponse
      ensures State() == ResponseStep(old(State()), cc)
    {
      if state == Response {
        var n := |commandResponse|;
        commandResponse := commandResponse[..n - 1] + [commandResponse[n - 1] + [cc]];
      }
    }

    /** After `%end` the reply goes to `receiveCommandResponse`, after `%error`
        to `receiveCommandError`; in any other state nothing is delivered.
        Either way the notification ends in state `None`. */
    method Execute(m: TmuxServerManager)
      modifies this`state, m`currentCommand, m`pendingCommands, m`sentCommands, m`fired, m`guiSizes
      ensures state == None && commandResponse == old(commandResponse)
      ensures old(state) == End ==> m.Queue() == Respond(old(m.Queue()), commandResponse)
      ensures old(state) == End ==>
                m.guiSizes == old(m.guiSizes) + (if old(m.currentCommand).Valid()
                                                 then HandlerSizes(old(m.currentCommand).responseHandler.value, commandResponse)
                                                 else [])
      ensures old(state) == Error ==> m.Queue() == Fail(old(m.Queue()), commandResponse) && m.guiSizes == old(m.guiSizes)
      ensures old(state) != End && old(state) != Error ==> m.Queue() == old(m.Queue()) && m.guiSizes == old(m.guiSizes)
    {
      if state == End {
        m.ReceiveCommandResponse(commandResponse);
      } else if state == Error {
        m.ReceiveCommandError(commandResponse);
      }
      state := None;
    }
  }
}
