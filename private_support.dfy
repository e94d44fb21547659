/**
 * The private-support module: a single `private` command whose first
 * argument selects a subcommand. Its authorisation check is still a stub
 * that returns None, so every call returns before the arguments are read.
 */
module PrivateSupport {
  import opened Options
  import opened Text
  import opened Handlers
  import opened Commands
  import opened Triggers
  import opened Client

  /** The branch handle_command takes. */
  datatype Route =
    | Help                   // one token: the list of subcommands
    | Open                   // open_session
    | Close                  // close_session
    | ClearChannel           // clear_channel
    | Unknown(sub: string)   // send_error naming the subcommand

  /** The stub test_authorization: its None is falsy. */
  const StubAuthorization: bool := false

  /**
   * The routing chain over the arguments; None where `args[1]` raises IndexError,
   * which only an argument list without any token reaches.
   */
  function RouteOf(args: seq<string>): (r: Option<Route>)
    ensures r.None? <==> args == []
    ensures |args| == 1 ==> r == Some(Help)
    ensures |args| >= 2 ==> r.Some? && (r.value.Unknown? <==> args[1] !in ["open", "close", "clear"])
    ensures |args| >= 2 && r.value.Unknown? ==> r.value.sub == args[1]
    ensures |args| >= 2 ==> (r == Some(Open) <==> args[1] == "open")
    ensures |args| >= 2 ==> (r == Some(Close) <==> args[1] == "close")
    ensures |args| >= 2 ==> (r == Some(ClearChannel) <==> args[1] == "clear")
  {
    if |args| == 1 then Some(Help)
    else if args == [] then None
    else if args[1] == "open" then Some(Open)
    else if args[1] == "close" then Some(Close)
    else if args[1] == "clear" then Some(ClearChannel)
    else Some(Unknown(args[1]))
  }

  /** What one call does: its result, and the branch it took, None when it returned before routing. */
  datatype Handled = Handled(result: Outcome, route: Option<Route>)

  /**
   * handle_command with the value test_authorization gives: a falsy value returns True at
   * once; otherwise the message's tokens are routed and True is returned.
   */
  function HandleCommand(authorized: bool, content: string): (h: Handled)
    ensures !authorized ==> h == Handled(Truthy, None)
    ensures authorized ==> h.route == RouteOf(Tokens(content))
    ensures h.result == Raised <==> authorized && Tokens(content) == []
    ensures h.result != Raised ==> h.result == Truthy
  {
    if !authorized then Handled(Truthy, None)
    else
      match RouteOf(Tokens(content))
      case None => Handled(Raised, None)
      case Some(route) => Handled(Truthy, Some(route))
  }

  /** With the stub, every call returns True and takes no branch. */
  lemma StubReturnsBeforeRouting(content: string)
    ensures HandleCommand(StubAuthorization, content) == Handled(Truthy, None)
  {
  }

  /**
   * A message the `private` trigger fires on has a first token, so the call returns True
   * whatever the authorisation gives, and an authorised call takes exactly one branch.
   */
  lemma FiredCommandReturnsTrue(prefix: string, names: seq<string>, content: string, authorized: bool)
    requires CheckCommand(Some(prefix), names, content) == Some(true)
    ensures HandleCommand(authorized, content).result == Truthy
    ensures authorized ==> HandleCommand(authorized, content).route.Some?
  {
  }

  /** A doubled space anywhere leaves the route unchanged. */
  lemma RoutingIgnoresSpaceRuns(a: string, b: string, authorized: bool)
    ensures HandleCommand(authorized, a + "  " + b) == HandleCommand(authorized, a + " " + b)
  {
    TokensIgnoreSpaceRuns(a, b);
  }

  /** Only the command word and the first argument decide the branch; later words do not. */
  lemma RoutingReadsTwoTokens(content: string, extra: string, authorized: bool)
    requires |Tokens(content)| >= 2
    ensures HandleCommand(authorized, content + " " + extra) == HandleCommand(authorized, content)
  {
    TokensAppendSpace(content, extra);
    assert Tokens(content + " " + extra)[1] == Tokens(content)[1];
  }

  /** The source class `PrivateSupport`; the `Module` suffix keeps it apart from this module's name. */
  class PrivateSupportModule {
    const client: WeepingWillowClient

    constructor (client: WeepingWillowClient)
      ensures this.client == client
    {
      this.client := client;
    }

    /** get_triggers: a single `private` command running handle_command. */
    method GetTriggers() returns (produced: seq<Option<Trigger>>)
      ensures |produced| == 1 && produced[0].Some?
      ensures var t := produced[0].value;
        t.CommandTrigger? && t.command.command == ["private"] && t.command.prefix == None
        && t.command.config == client.dataConnection
        && t.action == BoundMethod(Handlers.HandleCommand, this) && t.command.action == t.action
    {
      var c := new Command(client.dataConnection, Single("private"), BoundMethod(Handlers.HandleCommand, this));
      produced := [Some(GetTrigger(c))];
    }
  }
}
