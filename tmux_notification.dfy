/** `TmuxNotificationVariant`: the one notification being lexed at a time,
    with the kind each alternative declares. */
module TmuxNotifications {
  import TmuxOutput
  import TmuxWindows
  import TmuxArguments
  import TmuxTextNotifications
  import TmuxResponse

  /** `TmuxNotificationKind`. `Begin`, `End` and `Error` name the guard lines
      of a command reply; every other value names a notification. */
  datatype TmuxNotificationKind =
    | None | Response | Begin | End | Error
    | ClientDetached | ClientSessionChanged | ConfigError | Continue | Exit
    | ExtendedOutput | LayoutChange | Message | Output | PaneModeChanged
    | PasteBufferChanged | PasteBufferDeleted | Pause | SessionChanged | SessionRenamed
    | SessionWindowChanged | SessionsChanged | SubscriptionChanged | UnlinkedWindowAdd | UnlinkedWindowClose
    | UnlinkedWindowRenamed | WindowAdd | WindowClose | WindowPaneChanged | WindowRenamed

  /** The alternatives of the variant; `TmuxNullNotification` has no state. */
  datatype TmuxNotificationVariant =
    | NullNotification
    | ResponseNotification(response: TmuxResponse.TmuxResponseNotification)
    | ClientDetachedNotification(clientDetached: TmuxTextNotifications.TmuxClientDetachedNotification)
    | ClientSessionChangedNotification(clientSessionChanged: TmuxArguments.TmuxClientSessionChangedNotification)
    | ConfigErrorNotification(configError: TmuxTextNotifications.TmuxConfigErrorNotification)
    | ContinueNotification(continueNotification: TmuxTextNotifications.TmuxContinueNotification)
    | ExitNotification(exit: TmuxTextNotifications.TmuxExitNotification)
    | ExtendedOutputNotification(extendedOutput: TmuxOutput.TmuxExtendedOutputNotification)
    | LayoutChangeNotification(layoutChange: TmuxArguments.TmuxLayoutChangeNotification)
    | MessageNotification(message: TmuxTextNotifications.TmuxMessageNotification)
    | OutputNotification(output: TmuxOutput.TmuxOutputNotification)
    | PaneModeChangedNotification(paneModeChanged: TmuxTextNotifications.TmuxPaneModeChangedNotification)
    | PasteBufferChangedNotification(pasteBufferChanged: TmuxTextNotifications.TmuxPasteBufferChangedNotification)
    | PasteBufferDeletedNotification(pasteBufferDeleted: TmuxTextNotifications.TmuxPasteBufferDeletedNotification)
    | PauseNotification(pause: TmuxTextNotifications.TmuxPauseNotification)
    | SessionChangedNotification(sessionChanged: TmuxArguments.TmuxSessionChangedNotification)
    | SessionRenamedNotification(sessionRenamed: TmuxTextNotifications.TmuxSessionRenamedNotification)
    | SessionWindowChangedNotification(sessionWindowChanged: TmuxArguments.TmuxSessionWindowChangedNotification)
    | SessionsChangedNotification(sessionsChanged: TmuxTextNotifications.TmuxSessionsChangedNotification)
    | SubscriptionChangedNotification(subscriptionChanged: TmuxArguments.TmuxSubscriptionChangedNotification)
    | UnlinkedWindowAddNotification(unlinkedWindowAdd: TmuxWindows.TmuxUnlinkedWindowAddNotification)
    | UnlinkedWindowCloseNotification(unlinkedWindowClose: TmuxWindows.TmuxUnlinkedWindowCloseNotification)
    | UnlinkedWindowRenamedNotification(unlinkedWindowRenamed: TmuxWindows.TmuxUnlinkedWindowRenamedNotification)
    | WindowAddNotification(windowAdd: TmuxWindows.TmuxWindowAddNotification)
    | WindowCloseNotification(windowClose: TmuxWindows.TmuxWindowCloseNotification)
    | WindowPaneChangedNotification(windowPaneChanged: TmuxWindows.TmuxWindowPaneChangedNotification)
    | WindowRenamedNotification(windowRenamed: TmuxArguments.TmuxWindowRenamedNotification)
  {
    /** The static `Kind` of the alternative held: never one of the guard-line kinds. */
    function Kind(): (k: TmuxNotificationKind)
      ensures !k.Begin? && !k.End? && !k.Error?
      ensures k.None? <==> this.NullNotification?
      ensures k.Response? <==> this.ResponseNotification?
    {
      match this
      case NullNotification => None
      case ResponseNotification(_) => Response
      case ClientDetachedNotification(_) => ClientDetached
      case ClientSessionChangedNotification(_) => ClientSessionChanged
      case ConfigErrorNotification(_) => ConfigError
      case ContinueNotification(_) => Continue
      case ExitNotification(_) => Exit
      case ExtendedOutputNotification(_) => ExtendedOutput
      case LayoutChangeNotification(_) => LayoutChange
      case MessageNotification(_) => Message
      case OutputNotification(_) => Output
      case PaneModeChangedNotification(_) => PaneModeChanged
      case PasteBufferChangedNotification(_) => PasteBufferChanged
      case PasteBufferDeletedNotification(_) => PasteBufferDeleted
      case PauseNotification(_) => Pause
      case SessionChangedNotification(_) => SessionChanged
      case SessionRenamedNotification(_) => SessionRenamed
      case SessionWindowChangedNotification(_) => SessionWindowChanged
      case SessionsChangedNotification(_) => SessionsChanged
      case SubscriptionChangedNotification(_) => SubscriptionChanged
      case UnlinkedWindowAddNotification(_) => UnlinkedWindowAdd
      case UnlinkedWindowCloseNotification(_) => UnlinkedWindowClose
      case UnlinkedWindowRenamedNotification(_) => UnlinkedWindowRenamed
      case WindowAddNotification(_) => WindowAdd
      case WindowCloseNotification(_) => WindowClose
      case WindowPaneChangedNotification(_) => WindowPaneChanged
      case WindowRenamedNotification(_) => WindowRenamed
    }
  }
}
