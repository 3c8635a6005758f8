/** The one-in-flight command discipline of `TmuxServerManager`, as functions on
    the part of its state that `sendCommand`, `receiveCommandResponse` and
    `receiveCommandError` touch. The class in module `TmuxServer` is proved to
    follow these functions; the properties of the discipline are proved here. */
module TmuxQueue {
  import opened Codepoints
  import opened TmuxCommands

  datatype Path = ResponsePath | ErrorPath

  /** One run of a handler: which path, which handler, and on which reply lines. */
  datatype Firing = Firing(path: Path, handler: Handler, response: seq<seq<Codepoint>>)

  /** `m_currentCommand`, `m_pendingCommands`, the `doSendCommand` emissions so far,
      and the log of handlers run so far. */
  datatype QueueState = QueueState(current: TmuxCommand, pending: seq<TmuxCommand>,
                                   sent: seq<seq<Codepoint>>, fired: seq<Firing>)

  /** The state the constructor builds: no current command and the attach
      placeholder waiting in the queue. */
  function InitialState(): QueueState {
    QueueState(EmptyCommand(), [AttachCommand()], [], [])
  }

  /** `sendCommand`: emit at once when nothing valid is in flight, else enqueue. */
  function Send(q: QueueState, c: TmuxCommand): QueueState {
    if !q.current.Valid() then q.(current := c, sent := q.sent + [c.command])
    else q.(pending := q.pending + [c])
  }

  /** `receiveCommandResponse`: run the current response handler, then promote
      and emit the head of the queue, if any. Without a valid current command
      the reply is only logged. */
  function Respond(q: QueueState, response: seq<seq<Codepoint>>): QueueState {
    if !q.current.Valid() then q
    else
      var fired := q.fired + [Firing(ResponsePath, q.current.responseHandler.value, response)];
      if |q.pending| > 0 then
        QueueState(q.pending[0], q.pending[1..], q.sent + [q.pending[0].command], fired)
      else
        q.(current := q.current.Executed(), fired := fired)
  }

  /** `receiveCommandError`: run the current error handler; the queue is not touched. */
  function Fail(q: QueueState, response: seq<seq<Codepoint>>): QueueState {
    if !q.current.Valid() then q
    else q.(current := q.current.ErrorExecuted(),
            fired := q.fired + [Firing(ErrorPath, q.current.errorHandler.value, response)])
  }

  /** What arrives at the manager: a command to send, or a reply block from tmux. */
  datatype Event = SendEvent(command: TmuxCommand) | ResponseEvent(lines: seq<seq<Codepoint>>) | ErrorEvent(lines: seq<seq<Codepoint>>)

  function Apply(q: QueueState, e: Event): QueueState {
    match e
    case SendEvent(c) => Send(q, c)
    case ResponseEvent(r) => Respond(q, r)
    case ErrorEvent(r) => Fail(q, r)
  }

  function Run(q: QueueState, events: seq<Event>): QueueState
    decreases |events|
  {
    if events == [] then q else Run(Apply(q, events[0]), events[1..])
  }

  /** The commands handed to `sendCommand` in a sequence of events, in order. */
  function Commands(events: seq<Event>): seq<TmuxCommand>
    decreases |events|
  {
    if events == [] then []
    else (if events[0].SendEvent? then [events[0].command] else []) + Commands(events[1..])
  }

  predicate WellFormed(events: seq<Event>) {
    forall i :: 0 <= i < |events| ==> !events[i].ErrorEvent? && (events[i].SendEvent? ==> events[i].command.Valid())
  }

  function Texts(cs: seq<TmuxCommand>): (r: seq<seq<Codepoint>>)
    ensures |r| == |cs| && forall i :: 0 <= i < |cs| ==> r[i] == cs[i].command
  {
    seq(|cs|, i requires 0 <= i < |cs| => cs[i].command)
  }

  function InFlight(q: QueueState): nat {
    if q.current.Valid() then 1 else 0
  }

  /** The commands not yet answered: the one in flight, then the queue. */
  function Live(q: QueueState): seq<TmuxCommand> {
    (if q.current.Valid() then [q.current] else []) + q.pending
  }

  /** The one-in-flight discipline: commands wait in the queue only behind a
      command in flight, and every waiting command can be answered. */
  ghost predicate Disciplined(q: QueueState) {
    && (!q.current.Valid() ==> q.pending == [])
    && forall i :: 0 <= i < |q.pending| ==> q.pending[i].Valid()
  }

  /** `q` results from the commands `cs` (the first `emitted0` of them in flight
      or answered before the log starts): the first `|q.fired|` of them have been
      answered, in order, each by its own response handler; the rest are live, in
      order; and exactly the commands that became current were emitted, in order. */
  ghost predicate Paired(q: QueueState, cs: seq<TmuxCommand>, emitted0: nat) {
    && Disciplined(q)
    && |q.fired| + |Live(q)| == |cs|
    && Live(q) == cs[|q.fired|..]
    && (forall i :: 0 <= i < |q.fired| ==>
          q.fired[i].path == ResponsePath && cs[i].responseHandler == Some(q.fired[i].handler))
    && emitted0 <= |q.fired| + InFlight(q)
    && q.sent == Texts(cs[emitted0..|q.fired| + InFlight(q)])
  }

  lemma SendPaired(q: QueueState, cs: seq<TmuxCommand>, emitted0: nat, c: TmuxCommand)
    requires Paired(q, cs, emitted0) && c.Valid()
    ensures Paired(Send(q, c), cs + [c], emitted0)
  {
    var q' := Send(q, c);
    var k := |q.fired|;
    if !q.current.Valid() {
      assert Live(q) == [];
      assert Live(q') == [c] == (cs + [c])[k..];
      assert (cs + [c])[emitted0..k + 1] == cs[emitted0..k] + [c];
    } else {
      assert Live(q') == Live(q) + [c];
      assert (cs + [c])[k..] == cs[k..] + [c];
      assert (cs + [c])[emitted0..k + 1] == cs[emitted0..k + 1];
    }
  }

  lemma RespondPaired(q: QueueState, cs: seq<TmuxCommand>, emitted0: nat, response: seq<seq<Codepoint>>)
    requires Paired(q, cs, emitted0)
    ensures Paired(Respond(q, response), cs, emitted0)
  {
    if q.current.Valid() {
      var q' := Respond(q, response);
      var k := |q.fired|;
      assert cs[k] == Live(q)[0] == q.current;
      if |q.pending| > 0 {
        assert Live(q') == q.pending == cs[k + 1..];
        assert cs[emitted0..k + 2] == cs[emitted0..k + 1] + [q.pending[0]];
      } else {
        assert Live(q') == [];
      }
    }
  }

  /** FIFO pairing: as long as tmux answers without errors, every reply is
      handed to the response handler of the oldest unanswered command, each
      command is emitted once, in the order it was sent, and at most one command
      is in flight. */
  lemma {:induction false} RunPaired(q: QueueState, cs: seq<TmuxCommand>, emitted0: nat, events: seq<Event>)
    requires Paired(q, cs, emitted0) && WellFormed(events)
    ensures Paired(Run(q, events), cs + Commands(events), emitted0)
    decreases |events|
  {
    if events == [] {
      assert cs + [] == cs;
    } else {
      var e := events[0];
      assert WellFormed(events[1..]) by {
        forall i | 0 <= i < |events[1..]| ensures !events[1..][i].ErrorEvent? && (events[1..][i].SendEvent? ==> events[1..][i].command.Valid()) {
          assert events[1..][i] == events[i + 1];
        }
      }
      assert !e.ErrorEvent? && (e.SendEvent? ==> e.command.Valid()) by { assert e == events[0]; }
      var head := if e.SendEvent? then [e.command] else [];
      if e.SendEvent? {
        SendPaired(q, cs, emitted0, e.command);
      } else {
        RespondPaired(q, cs, emitted0, e.lines);
        assert cs + head == cs;
      }
      assert Commands(events) == head + Commands(events[1..]);
      assert Run(q, events) == Run(Apply(q, e), events[1..]);
      RunPaired(Apply(q, e), cs + head, emitted0, events[1..]);
      assert cs + head + Commands(events[1..]) == cs + Commands(events);
    }
  }

  /** The state a client freshly created would be in. */
  function IdleState(): QueueState {
    QueueState(EmptyCommand(), [], [], [])
  }

  /** From an idle manager, the i-th reply goes to the i-th command sent, and the
      emitted commands are the sent ones, in order. */
  lemma IdleRunPairs(events: seq<Event>)
    requires WellFormed(events)
    ensures var q := Run(IdleState(), events);
            var cs := Commands(events);
            && |q.fired| <= |cs|
            && (forall i :: 0 <= i < |q.fired| ==> q.fired[i].path == ResponsePath && cs[i].responseHandler == Some(q.fired[i].handler))
            && |q.sent| <= |cs| && q.sent == Texts(cs[..|q.sent|])
            && |q.fired| <= |q.sent| && |q.sent| - |q.fired| <= 1
  {
    assert Paired(IdleState(), [], 0);
    RunPaired(IdleState(), [], 0, events);
    assert [] + Commands(events) == Commands(events);
  }

  /** What the constructor evidently intends: the attach placeholder is the
      command in flight (tmux answers the attach without being sent anything),
      so the first reply goes to `tmuxAttachHandler`. */
  function AttachedState(): QueueState {
    QueueState(AttachCommand(), [], [], [])
  }

  /** From the intended initial state, replies pair in FIFO order with the
      attach placeholder first and then the sent commands; the placeholder itself
      is never emitted. */
  lemma AttachedRunPairs(events: seq<Event>)
    requires WellFormed(events)
    ensures var q := Run(AttachedState(), events);
            var cs := [AttachCommand()] + Commands(events);
            && 1 <= |q.fired| + InFlight(q) <= |cs|
            && (|q.fired| > 0 ==> q.fired[0].handler == AttachHandler)
            && (forall i :: 0 <= i < |q.fired| ==> q.fired[i].path == ResponsePath && cs[i].responseHandler == Some(q.fired[i].handler))
            && q.sent == Texts(cs[1..|q.fired| + InFlight(q)])
  {
    assert Live(AttachedState()) == [AttachCommand()];
    assert Paired(AttachedState(), [AttachCommand()], 1);
    RunPaired(AttachedState(), [AttachCommand()], 1, events);
  }

  /** As written, the constructor breaks the discipline: a command waits while
      nothing is in flight. */
  lemma InitialStateUndisciplined()
    ensures !Disciplined(InitialState())
  {
  }

  /** As written: `init()` sends `ls`, then tmux's reply to the attach arrives.
      That reply is handed to the `ls` handler, and the empty attach placeholder
      is then emitted to tmux as a command of its own. */
  lemma InitialStateMispairs(attachReply: seq<seq<Codepoint>>)
    ensures var q := Run(InitialState(), [SendEvent(ListSessionsCommand()), ResponseEvent(attachReply)]);
            && q.fired == [Firing(ResponsePath, UpdateSessionsHandler, attachReply)]
            && q.sent == [ListSessionsCommand().command, []]
  {
    var e := [SendEvent(ListSessionsCommand()), ResponseEvent(attachReply)];
    var q1 := Apply(InitialState(), e[0]);
    assert e[1..] == [ResponseEvent(attachReply)];
    assert Run(InitialState(), e) == Run(q1, e[1..]);
    var q2 := Apply(q1, e[1]);
    assert Run(q1, e[1..]) == Run(q2, []);
  }

  /** An error answer consumes the current command's error handler, leaves the
      queue alone and makes the next `sendCommand` emit at once: the new command
      overtakes every command already waiting. */
  lemma ErrorLetsNextSendOvertake(q: QueueState, r: seq<seq<Codepoint>>, c: TmuxCommand)
    requires Disciplined(q) && q.current.Valid() && q.pending != []
    ensures var q' := Send(Fail(q, r), c);
            && q'.fired == q.fired + [Firing(ErrorPath, q.current.errorHandler.value, r)]
            && q'.current == c && q'.pending == q.pending
            && q'.sent == q.sent + [c.command]
  {
  }

  /** After an error answer, replies alone never move the queue: without a new
      `sendCommand`, the waiting commands are never emitted and no handler runs. */
  lemma {:induction false} ErrorStallsQueue(q: QueueState, events: seq<Event>)
    requires !q.current.Valid()
    requires forall i :: 0 <= i < |events| ==> !events[i].SendEvent?
    ensures Run(q, events) == q
    decreases |events|
  {
    if events != [] {
      assert !events[0].SendEvent?;
      assert Apply(q, events[0]) == q;
      assert forall i :: 0 <= i < |events[1..]| ==> !events[1..][i].SendEvent? by {
        forall i | 0 <= i < |events[1..]| ensures !events[1..][i].SendEvent? {
          assert events[1..][i] == events[i + 1];
        }
      }
      ErrorStallsQueue(q, events[1..]);
    }
  }

  /** The error path never runs the response handler and never dequeues. */
  lemma FailKeepsQueue(q: QueueState, r: seq<seq<Codepoint>>)
    ensures Fail(q, r).pending == q.pending && Fail(q, r).sent == q.sent
    ensures q.current.Valid() ==>
              && !Fail(q, r).current.Valid()
              && Fail(q, r).current.responseHandler == q.current.responseHandler
              && Fail(q, r).fired == q.fired + [Firing(ErrorPath, q.current.errorHandler.value, r)]
    ensures !q.current.Valid() ==> Fail(q, r) == q
  {
  }
}
