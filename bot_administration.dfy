/**
 * The bot-administration module: the `wrestart`, `setconfig` and `getconfig`
 * commands. Each is open to admins only, that is to members of the guild's
 * tech or admin role; the two configuration commands take their arguments
 * from the message's tokens.
 */
module BotAdministration {
  import opened Options
  import opened Text
  import opened Handlers
  import opened DataConnection
  import opened Commands
  import opened Triggers
  import opened Client

  /** The guild's roles, with the tech and admin role ids from the client's settings. */
  datatype Guild = Guild(roles: seq<Role>, techRole: int, adminRole: int)

  /** What the module sends back to the channel. */
  datatype Reply =
    | NotAuthorized                                  // "You're not authorized to use that command"
    | SyntaxHint(command: string, takesValue: bool)  // "Syntax is incorrect. Should be `{args[0]} config_name[ config_value]`."
    | Rebooting                                      // "Rebooting server"
    | RebootFailed                                   // "Couldn't reboot :("
    | ConfigValue(key: string, value: Option<string>) // the embed titled with the key, describing the value
    | CheckMark                                      // the reaction added to the command message

  /** The command names, in the order get_triggers yields them. */
  const CommandNames: seq<string> := ["wrestart", "setconfig", "getconfig"]

  /** The handler each command runs, in the same order. */
  const CommandHandlers: seq<Handler> := [Restart, SetConfig, GetConfig]

  /** The author is an admin: some tech or admin role of the guild lists them. */
  predicate IsAdmin(g: Guild, author: int) {
    exists i :: 0 <= i < |g.roles| && IsAdminRole(g.roles[i], g.techRole, g.adminRole) && author in g.roles[i].members
  }

  /** The replies of the arity check: the hint, sent only when the count is wrong, quotes the first token. */
  function ArityReplies(args: seq<string>, expected: nat, takesValue: bool): seq<Reply>
    requires |args| >= 1
  {
    if |args| != expected then [SyntaxHint(args[0], takesValue)] else []
  }

  /** Tokens after a space-separated tail: the tokens of the head come first, unchanged. */
  lemma ExtraTokensAreIgnored(content: string, extra: string, n: nat)
    requires n <= |Tokens(content)|
    ensures n <= |Tokens(content + " " + extra)|
    ensures Tokens(content + " " + extra)[..n] == Tokens(content)[..n]
  {
    TokensAppendSpace(content, extra);
  }

  class BotAdministrationModule {
    const client: WeepingWillowClient

    constructor (client: WeepingWillowClient)
      ensures this.client == client
    {
      this.client := client;
    }

    /** get_triggers: one command trigger per name, wrestart, setconfig, getconfig, each with its own handler. */
    method GetTriggers() returns (produced: seq<Option<Trigger>>)
      ensures |produced| == |CommandNames|
      ensures forall i :: 0 <= i < |produced| ==>
        produced[i].Some? && produced[i].value.CommandTrigger?
        && produced[i].value.command.command == [CommandNames[i]]
        && produced[i].value.command.config == client.dataConnection
        && produced[i].value.command.prefix == None
        && produced[i].value.action == BoundMethod(CommandHandlers[i], this)
        && produced[i].value.command.action == produced[i].value.action
    {
      produced := [];
      for i := 0 to |CommandNames|
        invariant |produced| == i
        invariant forall j :: 0 <= j < i ==>
          produced[j].Some? && produced[j].value.CommandTrigger?
          && produced[j].value.command.command == [CommandNames[j]]
          && produced[j].value.command.config == client.dataConnection
          && produced[j].value.command.prefix == None
          && produced[j].value.action == BoundMethod(CommandHandlers[j], this)
          && produced[j].value.command.action == produced[j].value.action
      {
        var c := new Command(client.dataConnection, Single(CommandNames[i]), BoundMethod(CommandHandlers[i], this));
        produced := produced + [Some(GetTrigger(c))];
      }
    }

    /** test_authorization: true exactly when the author is an admin; otherwise the refusal is sent. */
    method TestAuthorization(m: Message, g: Guild) returns (ok: bool, replies: seq<Reply>)
      ensures ok <==> IsAdmin(g, m.authorId)
      ensures replies == if ok then [] else [NotAuthorized]
    {
      var admins := client.GetAdminUsers(g.roles, g.techRole, g.adminRole);
      AdminMembership(g.roles, g.techRole, g.adminRole, m.authorId);
      ok := m.authorId in admins;
      replies := if ok then [] else [NotAuthorized];
    }

    /**
     * restart: refused for a non-admin; otherwise announced, with a second message when the
     * reboot command reports failure. Both paths give a falsy value (False, or None).
     */
    method Restart(m: Message, g: Guild, rebootStatus: int) returns (result: Outcome, replies: seq<Reply>)
      ensures result == Falsy
      ensures !IsAdmin(g, m.authorId) ==> replies == [NotAuthorized]
      ensures IsAdmin(g, m.authorId) ==> replies == [Rebooting] + (if rebootStatus > 0 then [RebootFailed] else [])
    {
      var ok;
      ok, replies := TestAuthorization(m, g);
      if !ok {
        return Falsy, replies;
      }
      replies := [Rebooting];
      if rebootStatus > 0 {
        replies := replies + [RebootFailed];
      }
      result := Falsy;
    }

    /**
     * set_config: for an admin with three or more tokens, stores token 2 under key token 1 and
     * returns true; a count other than three also sends the hint. Fewer than three tokens raise
     * IndexError (after the hint when there is a first token).
     */
    method SetConfig(m: Message, g: Guild) returns (result: Outcome, replies: seq<Reply>)
      modifies client.dataConnection
      ensures var args := Tokens(m.content);
        !(IsAdmin(g, m.authorId) && |args| >= 3) ==> unchanged(client.dataConnection)
      ensures !IsAdmin(g, m.authorId) ==> result == Falsy && replies == [NotAuthorized]
      ensures var args := Tokens(m.content);
        IsAdmin(g, m.authorId) && |args| < 3 ==>
          result == Raised && replies == (if args == [] then [] else [SyntaxHint(args[0], true)])
      ensures var args := Tokens(m.content); var dc := client.dataConnection;
        IsAdmin(g, m.authorId) && |args| >= 3 ==>
          result == Truthy && replies == ArityReplies(args, 3, true) + [CheckMark]
          && dc.values == (if dc.accessDenied then old(dc.values) else old(dc.values)[args[1] := args[2]])
          && dc.configChangeActions == old(dc.configChangeActions)
          && dc.scheduled == old(dc.scheduled) + Notify(Watching(dc.configChangeActions, args[1]), args[1], args[2])
    {
      var ok;
      ok, replies := TestAuthorization(m, g);
      if !ok {
        return Falsy, replies;
      }
      var args := Tokens(m.content);
      if args == [] {
        // formatting the hint reads args[0]
        return Raised, replies;
      }
      replies := replies + ArityReplies(args, 3, true);
      if |args| < 3 {
        return Raised, replies;
      }
      client.dataConnection.SetConfig(args[1], args[2]);
      replies := replies + [CheckMark];
      result := Truthy;
    }

    /**
     * get_config: for an admin with two or more tokens, reads key token 1 with no default, sends
     * the key and the value and returns true; a count other than two also sends the hint. Fewer
     * than two tokens raise IndexError. Reading without a default changes nothing.
     */
    method GetConfig(m: Message, g: Guild) returns (result: Outcome, replies: seq<Reply>)
      modifies client.dataConnection
      ensures var dc := client.dataConnection;
        dc.values == old(dc.values) && dc.configChangeActions == old(dc.configChangeActions)
        && dc.scheduled == old(dc.scheduled)
      ensures !IsAdmin(g, m.authorId) ==> result == Falsy && replies == [NotAuthorized]
      ensures var args := Tokens(m.content);
        IsAdmin(g, m.authorId) && |args| < 2 ==>
          result == Raised && replies == (if args == [] then [] else [SyntaxHint(args[0], false)])
      ensures var args := Tokens(m.content); var dc := client.dataConnection;
        IsAdmin(g, m.authorId) && |args| >= 2 ==>
          result == Truthy
          && replies == ArityReplies(args, 2, false) + [ConfigValue(args[1], ReadResult(dc.values, dc.accessDenied, args[1], None))]
    {
      var ok;
      ok, replies := TestAuthorization(m, g);
      if !ok {
        return Falsy, replies;
      }
      var args := Tokens(m.content);
      if args == [] {
        return Raised, replies;
      }
      replies := replies + ArityReplies(args, 2, false);
      if |args| < 2 {
        return Raised, replies;
      }
      var val := client.dataConnection.GetConfig(args[1], None);
      assert old(client.dataConnection.scheduled) + [] == old(client.dataConnection.scheduled);
      replies := replies + [ConfigValue(args[1], val)];
      result := Truthy;
    }
  }
}
