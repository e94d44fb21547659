/** Commands: a name list, the handler, and the command prefix read from configuration. */
module Commands {
  import opened Options
  import opened Text
  import opened Handlers
  import opened DataConnection

  /** The `command` argument of the constructor: one name, or a list of names. */
  datatype CommandArg = Single(name: string) | List(names: seq<string>)

  /** Whether the content invokes one of `names`; `None` where the check raises. */
  function CheckCommand(prefix: Option<string>, names: seq<string>, content: string): (r: Option<bool>)
    // startswith(None) raises TypeError: the prefix has not been read yet
    ensures prefix.None? ==> r.None?
    ensures prefix.Some? && !StartsWith(content, prefix.value) ==> r == Some(false)
    // args[0] raises IndexError when the content has no tokens
    ensures prefix.Some? && StartsWith(content, prefix.value) ==> (r.None? <==> Tokens(content) == [])
    ensures r == Some(true) <==>
      prefix.Some?&& StartsWith(content, prefix.value) && Tokens(content) != []
      && DropPrefix(Tokens(content)[0], |prefix.value|) in names
  {
    match prefix
    case None => None
    case Some(p) =>
      if !StartsWith(content, p) then Some(false)
      else
        var args := Tokens(content);
        if args == [] then None
        else Some(DropPrefix(args[0], |p|) in names)
  }

  /** The content is the prefix followed at once by one of the names, then its end or a space. */
  predicate Invokes(p: string, names: seq<string>, content: string) {
    exists i :: 0 <= i < |names| && (content == p + names[i] || StartsWith(content, p + names[i] + " "))
  }

  /**
   * For a prefix of one or more characters without spaces and names without spaces, the check
   * never raises, and it holds exactly when the content is the prefix, a name, then the end or a space.
   */
  lemma CheckCommandMeaning(p: string, names: seq<string>, content: string)
    requires p != "" && ' ' !in p
    requires forall i :: 0 <= i < |names| ==> ' ' !in names[i]
    ensures CheckCommand(Some(p), names, content) == Some(Invokes(p, names, content))
  {
    if StartsWith(content, p) {
      var rest := content[|p|..];
      assert content == p + rest;
      SplitPrefixNoSpace(p, rest);
      FirstTokenKeepsPrefix(content, p);
      var first := p + Split(rest)[0];
      NonEmptyAppend([first], Split(rest)[1..]);
      assert Tokens(content)[0] == first;
      assert DropPrefix(first, |p|) == Split(rest)[0];
      forall i | 0 <= i < |names|
        ensures Split(rest)[0] == names[i] <==> (content == p + names[i] || StartsWith(content, p + names[i] + " "))
      {
        FirstPieceIs(rest, names[i]);
        var n := names[i];
        if StartsWith(rest, n + " ") {
          assert content[..|p + n + " "|] == p + rest[..|n + " "|];
        }
        if StartsWith(content, p + n + " ") {
          assert rest[..|n + " "|] == content[|p|..|p + n + " "|];
        }
        if content == p + n {
          assert rest == n;
        }
      }
    } else {
      forall i | 0 <= i < |names|
        ensures !(content == p + names[i] || StartsWith(content, p + names[i] + " "))
      {
        var n := names[i];
        assert (p + n)[..|p|] == p;
        assert (p + n + " ")[..|p|] == p;
      }
    }
  }

  /** The content `.setconfigx` does not invoke `setconfig`: the match is on the whole first token. */
  lemma LongerWordDoesNotMatch()
    ensures CheckCommand(Some("."), ["setconfig"], ".setconfigx") == Some(false)
  {
    var content := ".setconfigx";
    SplitNoSpace(content);
    assert NonEmpty([content]) == [content];
    assert DropPrefix(content, 1) == "setconfigx";
  }

  class Command {
    const config: WeepingWillowDataConnection
    /** The accepted names. */
    const command: seq<string>
    const action: BoundMethod
    /** None until get_prefix has run. */
    var prefix: Option<string>

    /** A single name becomes a list of one; a list is kept as given. */
    constructor (config: WeepingWillowDataConnection, command: CommandArg, action: BoundMethod)
      ensures this.config == config && this.action == action && prefix == None
      ensures command.Single? ==> this.command == [command.name]
      ensures command.List? ==> this.command == command.names
    {
      this.config := config;
      this.command := match command
        case Single(name) => [name]
        case List(names) => names;
      this.action := action;
      prefix := None;
    }

    /** get_prefix: the `command_prefix` setting, `'.'` by default (and stored when absent). */
    method GetPrefix()
      modifies this, config
      ensures prefix == ReadResult(old(config.values), config.accessDenied, "command_prefix", Some("."))
      ensures config.values == AfterRead(old(config.values), config.accessDenied, "command_prefix", Some("."))
      ensures config.configChangeActions == old(config.configChangeActions)
      ensures config.scheduled == old(config.scheduled)
        + ReadNotifications(config.configChangeActions, old(config.values), config.accessDenied, "command_prefix", Some("."))
    {
      prefix := config.GetConfig("command_prefix", Some("."));
    }
  }
}
