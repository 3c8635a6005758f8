/** `TmuxCommand`: a command line for tmux together with the two completion
    handlers that are run, at most once each, when tmux answers it. */
module TmuxCommands {
  import opened Codepoints

  /** The completion handlers the client installs, as opaque tags. */
  datatype Handler =
    | AttachHandler                    // `tmuxAttachHandler`: logs unexpected data
    | UpdateSessionsHandler            // the `ls` response handler of `init()`
    | KonsoleSizeHandler(session: int) // the `@konsole_size` callback of `receiveSessionChanged`
    | DefaultErrorHandler              // installed when no error handler is given: logs only
    | Callback(tag: nat)               // any other closure a caller supplies

  /** A `TmuxCommand` value; `None` stands for a null `std::function`. */
  datatype TmuxCommand = TmuxCommand(command: seq<Codepoint>, responseHandler: Option<Handler>, errorHandler: Option<Handler>)
  {
    /** `operator bool`: both handlers are still present. */
    predicate Valid() {
      responseHandler.Some? && errorHandler.Some?
    }

    /** The command after `execute`: the response handler has been run and nulled. */
    function Executed(): (c: TmuxCommand)
      requires responseHandler.Some?
      ensures !c.Valid() && c.responseHandler.None?
      ensures c.command == command && c.errorHandler == errorHandler
    {
      this.(responseHandler := None)
    }

    /** The command after `executeError`: the error handler has been run and nulled. */
    function ErrorExecuted(): (c: TmuxCommand)
      requires errorHandler.Some?
      ensures !c.Valid() && c.errorHandler.None?
      ensures c.command == command && c.responseHandler == responseHandler
    {
      this.(errorHandler := None)
    }
  }

  datatype Option<T> = None | Some(value: T)

  /** The default constructor `TmuxCommand()`: empty text, no handlers. */
  function EmptyCommand(): (c: TmuxCommand)
    ensures !c.Valid() && c.command == []
  {
    TmuxCommand([], None, None)
  }

  /** The handler-taking constructor: a missing error handler is replaced by the
      logging default, so the command is valid exactly when a response handler is given. */
  function MakeCommand(command: seq<Codepoint>, responseHandler: Option<Handler>, errorHandler: Option<Handler>): (c: TmuxCommand)
    ensures c.command == command && c.responseHandler == responseHandler
    ensures c.errorHandler.Some?
    ensures errorHandler.Some? ==> c.errorHandler == errorHandler
    ensures errorHandler.None? ==> c.errorHandler == Some(DefaultErrorHandler)
    ensures c.Valid() <==> responseHandler.Some?
  {
    TmuxCommand(command, responseHandler, if errorHandler.Some? then errorHandler else Some(DefaultErrorHandler))
  }

  /** `TmuxCommand{"", tmuxAttachHandler}`, the placeholder for the reply to the attach itself. */
  function AttachCommand(): (c: TmuxCommand)
    ensures c.Valid() && c.command == [] && c.responseHandler == Some(AttachHandler)
  {
    MakeCommand([], Some(AttachHandler), None)
  }

  /** The command `init()` sends to list the sessions. */
  function ListSessionsCommand(): (c: TmuxCommand)
    ensures c.Valid() && c.responseHandler == Some(UpdateSessionsHandler)
  {
    MakeCommand(Str("ls -F '#{session_id} #{q:session_name}'"), Some(UpdateSessionsHandler), None)
  }
}
