/**
 * Triggers: a match rule and the action to run when it matches. The three
 * kinds are a closed set: a channel match, a direct-message match and a
 * command match.
 */
module Triggers {
  import opened Options
  import opened Text
  import opened Handlers
  import opened Commands

  /** The parts of a platform message the bot looks at. */
  datatype Message = Message(
    id: int,
    channelId: int,
    isDM: bool,
    authorId: int,
    authorIsBot: bool,
    content: string,
    createdAt: int)

  /**
   * A trigger: its `trigger_value` and its `action`. A channel trigger's value is the
   * configured channel id as text; a DM trigger has no value (None); a command trigger's
   * value is its Command.
   */
  datatype Trigger =
    | ChannelTrigger(channel: string, action: BoundMethod)
    | DMTrigger(action: BoundMethod)
    | CommandTrigger(command: Command, action: BoundMethod)

  /** What `evaluate` gives: the action to call, no match (None), or an exception. */
  datatype Evaluation = Fires(action: BoundMethod) | Passes | Raises

  /** The description every trigger kind shows; no kind overrides it. */
  const TriggerDescription := "On"

  /** The objects a trigger's evaluation reads: a command trigger reads its command's prefix. */
  function Footprint(t: Trigger): set<object> {
    if t.CommandTrigger? then {t.command} else {}
  }

  /** The `evaluate` of each trigger kind. */
  function Evaluate(t: Trigger, m: Message): (e: Evaluation)
    reads Footprint(t)
    ensures e.Fires? ==> e.action == t.action
    // ChannelTrigger: `message.channel.id == int(self.trigger_value)`; int() raises on a non-number
    ensures t.ChannelTrigger? ==> (e.Fires? <==> ParseInt(t.channel) == Some(m.channelId))
    ensures t.ChannelTrigger? ==> (e.Raises? <==> ParseInt(t.channel).None?)
    // DMTrigger: a DM channel and an author who is not a bot
    ensures t.DMTrigger? ==> (e.Fires? <==> m.isDM && !m.authorIsBot) && !e.Raises?
    // CommandTrigger: exactly when check_command holds
    ensures t.CommandTrigger? ==> (e.Fires? <==> CheckCommand(t.command.prefix, t.command.command, m.content) == Some(true))
    ensures t.CommandTrigger? ==> (e.Raises? <==> CheckCommand(t.command.prefix, t.command.command, m.content).None?)
  {
    match t
    case ChannelTrigger(channel, action) =>
      (match ParseInt(channel)
       case None => Raises
       case Some(id) => if m.channelId == id then Fires(action) else Passes)
    case DMTrigger(action) =>
      if m.isDM && !m.authorIsBot then Fires(action) else Passes
    case CommandTrigger(command, action) =>
      (match CheckCommand(command.prefix, command.command, m.content)
       case None => Raises
       case Some(b) => if b then Fires(action) else Passes)
  }

  /** A channel trigger looks at nothing but the message's channel id. */
  lemma ChannelTriggerSeesOnlyChannel(channel: string, action: BoundMethod, m1: Message, m2: Message)
    requires m1.channelId == m2.channelId
    ensures Evaluate(ChannelTrigger(channel, action), m1) == Evaluate(ChannelTrigger(channel, action), m2)
  {
  }

  /** A channel trigger whose value is `str(id)` fires for the messages of channel `id` and only those. */
  lemma ChannelTriggerForId(id: int, action: BoundMethod, m: Message)
    ensures Evaluate(ChannelTrigger(IntToString(id), action), m) == if m.channelId == id then Fires(action) else Passes
  {
    ParseIntRoundTrip(id);
  }

  /** An entry of the client's trigger list; evaluating a None entry raises AttributeError. */
  function EvaluateEntry(entry: Option<Trigger>, m: Message): (e: Evaluation)
    reads if entry.Some? then Footprint(entry.value) else {}
    ensures entry.None? ==> e.Raises?
    ensures entry.Some? ==> e == Evaluate(entry.value, m)
  {
    match entry
    case None => Raises
    case Some(t) => Evaluate(t, m)
  }

  /** `Command.get_trigger`: a command trigger over the command itself, firing the command's action. */
  function GetTrigger(c: Command): (t: Trigger)
    ensures t.CommandTrigger? && t.command == c && t.action == c.action
  {
    CommandTrigger(c, c.action)
  }

  /** `str(self.trigger_value)`; a command's default object text is a parameter. */
  function ValueText(t: Trigger, commandText: string): string {
    match t
    case ChannelTrigger(channel, _) => channel
    case DMTrigger(_) => "None"
    case CommandTrigger(_, _) => commandText
  }

  /** `__str__`: the hash, the description, the value and the action's name, in that order. */
  function Describe(t: Trigger, hash: int, commandText: string): (r: string)
    ensures StartsWith(r, "<Trigger (" + IntToString(hash) + "): " + TriggerDescription + ": ")
    ensures var tail := "; " + Name(t.action.handler) + ">";
            |tail| <= |r| && r[|r| - |tail|..] == tail
    ensures var head := "<Trigger (" + IntToString(hash) + "): " + TriggerDescription + ": ";
            var tail := "; " + Name(t.action.handler) + ">";
            |head| + |tail| <= |r| && r[|head|..|r| - |tail|] == ValueText(t, commandText)
  {
    var head := "<Trigger (" + IntToString(hash) + "): " + TriggerDescription + ": ";
    var tail := "; " + Name(t.action.handler) + ">";
    var r := head + ValueText(t, commandText) + tail;
    assert r[..|head|] == head;
    assert r[|r| - |tail|..] == tail;
    assert r[|head|..|r| - |tail|] == ValueText(t, commandText);
    r
  }
}
