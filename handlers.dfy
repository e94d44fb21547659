/**
 * The handler functions of the bot's modules. A trigger's action and a
 * configuration watcher are Python bound methods: a function together with
 * the module instance it belongs to. Two bound methods are equal when both
 * parts are, as in Python.
 */
module Handlers {

  datatype Handler =
    | Process             // VentingModule.process
    | ProcessParticipant  // EventModule.process_participant
    | Restart             // BotAdministrationModule.restart
    | SetConfig           // BotAdministrationModule.set_config
    | GetConfig           // BotAdministrationModule.get_config
    | HandleCommand       // PrivateSupport.handle_command
    | HandleDM            // DMHandlerModule.handle_dm
    | ResetModule         // VentingModule.reset_module

  /** The function's `__name__`. */
  function Name(h: Handler): string {
    match h
    case Process => "process"
    case ProcessParticipant => "process_participant"
    case Restart => "restart"
    case SetConfig => "set_config"
    case GetConfig => "get_config"
    case HandleCommand => "handle_command"
    case HandleDM => "handle_dm"
    case ResetModule => "reset_module"
  }

  datatype BoundMethod = BoundMethod(handler: Handler, owner: object)

  /** What awaiting a handler gives: a truthy value, a falsy one (False or None), or an exception. */
  datatype Outcome = Truthy | Falsy | Raised
}
