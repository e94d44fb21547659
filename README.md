# Weeping Willow, modelled in Dafny

Weeping Willow is a Discord bot for the House of Misfits community. This project models
its core:

- **Client.** The client keeps an ordered list of modules and an ordered list of triggers.
  A message is offered to the triggers in registration order, and the first handler that
  returns a truthy value ends the dispatch.
- **Triggers.** A channel trigger matches one channel id, a DM trigger matches a non-bot
  direct message, and a command trigger matches a prefix followed by a command word.
- **Configuration store.** Settings are string keys mapped to string values. A read can
  persist its default. A write schedules every callback watching its key, even when the
  database refuses the write.
- **Venting module.** Every message of the venting channel is scheduled for deletion a
  configured number of seconds after it was created. A periodic tick deletes the messages
  that are due, and a rescan picks up messages that were missed. Changing either setting
  replaces the module with a fresh one. The older, configuration-file venting module is
  modelled too.
- **Event module.** Each weekday has its own participant channel. At 02:00 every day the
  trigger moves to the new day's channel and the participant role is cleared. A message
  in the channel grants the author the role.
- **Database upgrades.** Upgrades are `(from, to, function)` steps, registered by a
  decorator and run in one pass from the stored schema version.
- **Bot administration.** The `wrestart`, `setconfig` and `getconfig` commands are open
  only to members of the tech or admin role.
- **Private support.** The `private` command routes on its first argument. Its
  authorisation check is still a stub.

The source's objects become Dafny classes where their fields change in place:

- the client;
- the data connection;
- a command, whose prefix is read later;
- each module;
- the upgrade registry.

Everything else is a datatype, and the rules the code applies are functions.

Python semantics are stated explicitly where they matter:

- `split(' ')` keeps empty pieces, and the comprehension then drops them.
- `int()` raises on a non-number, and a raise is modelled as an error result.
- `list.remove` raises `ValueError` on a missing element.
- A `None` entry in the trigger list raises when it is evaluated.
- `None` and `False` are both falsy.

Time is measured in integer seconds, with day 0 being Thursday 1970-01-01.

Where a handler's effect belongs to another module, each module's method models its own
effect. Inside a single dispatch, the client takes the value each handler returns as a
parameter: a function from (bound method, message) to `Truthy`, `Falsy` or `Raised`.

The model follows the code as written in these places:

- `client.py` defines no `add_module`, `get_config`, `set_config` or `data_connection`, yet
  the modules call them.
  - `client.data_connection` is a `WeepingWillowDataConnection`.
  - `client.get_config` stands for that connection's `get_config`.
  - `client.set_config` (bot_administration.py:64) stands for that connection's `set_config`.
  - `add_module` is one round of `set_up_modules`: record the module, then register its
    triggers.
- A handler that raises is not caught. The exception leaves `on_message`, so no later
  trigger sees the message. The model
  ends the dispatch as `Aborted` when a handler's outcome is `Raised`.
- `__module_list__` (modules/__init__.py:1) names only `BotAdministration`,
  `VentingModule` and `DMHandlerModule`. The event module and the private-support module
  are never loaded in this snapshot. Their models describe what they would do once
  registered.
- The venting module stores the deletion delay through `set_config` when the setting is
  absent. That write schedules the module's own `reset_module` watcher, so the first
  message processed with the setting absent replaces the module.
  `DataConnection.WeepingWillowDataConnection.GetConfig` and `Venting.VentingModule.Process`
  state this effect.

## Model

| member | source | states |
|---|---|---|
| Text.Split | houseofmisfits/weeping_willow/modules/bot_administration.py:52 | `split(' ')` gives at least one piece, and no piece holds a space |
| Text.JoinSplit | houseofmisfits/weeping_willow/modules/bot_administration.py:52 | joining the pieces with single spaces gives the string back, so splitting loses nothing |
| Text.SplitNoSpace | houseofmisfits/weeping_willow/triggers/command.py:26 | a string without a space splits into itself alone |
| Text.SplitAppendSpace | houseofmisfits/weeping_willow/triggers/command.py:26 | splitting `a + " " + b` gives the pieces of `a`, then the pieces of `b` |
| Text.SplitJoin | houseofmisfits/weeping_willow/triggers/command.py:26 | splitting space-free pieces joined by spaces gives the pieces back |
| Text.SplitPrefixNoSpace | houseofmisfits/weeping_willow/triggers/command.py:26-28 | behind a space-free prefix, the first piece starts with that prefix, and the later pieces are those of the rest |
| Text.NonEmpty | houseofmisfits/weeping_willow/modules/bot_administration.py:53 | the comprehension keeps exactly the non-empty pieces, and never more than it was given |
| Text.NonEmptyAppend | houseofmisfits/weeping_willow/modules/bot_administration.py:53 | filtering commutes with concatenation |
| Text.Tokens | houseofmisfits/weeping_willow/modules/bot_administration.py:52-53 | no token is empty, and no token holds a space |
| Text.TokensAppendSpace | houseofmisfits/weeping_willow/modules/bot_administration.py:52-53 | the tokens of `a + " " + b` are the tokens of `a`, then those of `b` |
| Text.TokensIgnoreSpaceRuns | houseofmisfits/weeping_willow/modules/private_support.py:25 | doubling a space leaves the tokens unchanged |
| Text.FirstTokenKeepsPrefix | houseofmisfits/weeping_willow/triggers/command.py:24-28 | content that starts with a space-free prefix has a first token, and that token starts with the prefix |
| Text.FirstSpace | houseofmisfits/weeping_willow/triggers/command.py:26 | the index of the first space, or the length when there is none; nothing before it is a space |
| Text.SplitHead | houseofmisfits/weeping_willow/triggers/command.py:26 | the first piece is everything before the first space |
| Text.FirstPieceIs | houseofmisfits/weeping_willow/triggers/command.py:26-28 | a space-free word is the first piece exactly when the string is that word, or that word and a space |
| Text.DigitChar | houseofmisfits/weeping_willow/modules/event_module.py:66 | a digit below ten is written as a decimal digit character |
| Text.NatToString | houseofmisfits/weeping_willow/modules/event_module.py:66 | `str(n)` is one or more decimal digits |
| Text.NatToStringValue | houseofmisfits/weeping_willow/modules/event_module.py:66 | the digits of `str(n)` denote `n` |
| Text.ParseIntRoundTrip | houseofmisfits/weeping_willow/triggers/channel_trigger.py:8 | `int(str(i)) == i` for every integer, negative ones included |
| Text.LeadingZeroIsNotCanonical | houseofmisfits/weeping_willow/modules/event_module.py:66 | `int("012")` is 12, but `str(12)` is not `"012"` |
| Lists.IndexOf | houseofmisfits/weeping_willow/modules/venting.py:43-44 | the first position of an element that is present |
| Lists.RemoveFirst | houseofmisfits/weeping_willow/modules/venting.py:43-44 | `list.remove` fails exactly when the element is absent; otherwise it drops the first occurrence, so one element fewer and the multiset loses one copy |
| Lists.FlattenMembers | houseofmisfits/weeping_willow/client.py:31-37 | an element of the flattened list comes from one of the lists, and every element of every list is in it |
| DataConnection.Watching | houseofmisfits/weeping_willow/data_connection.py:89 | the callbacks selected for a key are registered for that key, and every callback registered for the key is selected |
| DataConnection.WatchingRegister | houseofmisfits/weeping_willow/data_connection.py:93-99 | registering a callback adds one firing for its key, after the earlier ones, and none for any other key |
| DataConnection.Notify | houseofmisfits/weeping_willow/data_connection.py:90-91 | one task per selected callback, in order, each called with the written key and value |
| DataConnection.SetThenGet | houseofmisfits/weeping_willow/data_connection.py:76-86 | after a successful write, the key reads the new value and every other key reads as before |
| DataConnection.DefaultIsSticky | houseofmisfits/weeping_willow/data_connection.py:68-71 | a read with a default returns a value, and a second read returns the same value |
| DataConnection.WeepingWillowDataConnection.constructor | houseofmisfits/weeping_willow/data_connection.py:15-19 | starts with no watchers and no scheduled callbacks |
| DataConnection.WeepingWillowDataConnection.SetConfig | houseofmisfits/weeping_willow/data_connection.py:76-91 | delete-then-insert leaves one value per key; a refused write leaves the table unchanged; the watchers of the key are scheduled either way |
| DataConnection.WeepingWillowDataConnection.GetConfig | houseofmisfits/weeping_willow/data_connection.py:51-74 | returns None when access is refused; otherwise the stored value, else the default, which is then stored through `set_config` with its callbacks scheduled; else None |
| DataConnection.WeepingWillowDataConnection.OnConfigChange | houseofmisfits/weeping_willow/data_connection.py:93-99 | appends the watcher after the earlier ones; the table and the schedule are unchanged |
| Commands.CheckCommand | houseofmisfits/weeping_willow/triggers/command.py:23-29 | raises while the prefix is still None; false when the content lacks the prefix; raises when it has no token; true exactly when the content has the prefix and a token, and the first token minus the prefix is one of the names |
| Commands.CheckCommandMeaning | houseofmisfits/weeping_willow/triggers/command.py:23-29 | for a non-empty, space-free prefix and space-free names, the check never raises, and it holds exactly when the content is prefix plus name, followed by the end or a space |
| Commands.LongerWordDoesNotMatch | houseofmisfits/weeping_willow/triggers/command.py:28-29 | `.setconfigx` does not invoke `setconfig`, because the whole first token must match |
| Commands.Command.constructor | houseofmisfits/weeping_willow/triggers/command.py:10-18 | a single name becomes a list of one; the prefix is None until `get_prefix` runs |
| Commands.Command.GetPrefix | houseofmisfits/weeping_willow/triggers/command.py:20-21 | the prefix is the `command_prefix` setting, with `.` as the default, stored when absent |
| Triggers.Evaluate | houseofmisfits/weeping_willow/triggers/channel_trigger.py:7-9 | each kind fires its own action exactly when its test holds (channel id equals `int(value)`; a DM whose author is not a bot; the command check); it raises exactly when `int()` or the command check raises |
| Triggers.ChannelTriggerSeesOnlyChannel | houseofmisfits/weeping_willow/triggers/channel_trigger.py:7-9 | two messages in the same channel get the same evaluation |
| Triggers.ChannelTriggerForId | houseofmisfits/weeping_willow/triggers/channel_trigger.py:7-9 | a trigger on `str(id)` fires for the messages of channel `id` and only those |
| Triggers.EvaluateEntry | houseofmisfits/weeping_willow/client.py:47-48 | a None entry raises; any other entry is evaluated |
| Triggers.GetTrigger | houseofmisfits/weeping_willow/triggers/command.py:31-32 | a command trigger over the command itself, with the command's action |
| Triggers.Describe | houseofmisfits/weeping_willow/triggers/trigger.py:16-22 | the text starts with the hash and the description `On`, ends with the action's name, and holds the trigger value in between |
| Client.RunFromShift | houseofmisfits/weeping_willow/client.py:46-61 | dispatch over the tail of a concatenation is dispatch over the second list |
| Client.RunFromAppend | houseofmisfits/weeping_willow/client.py:46-61 | dispatch from any position of a concatenation reaches the second list only when the first part ran out |
| Client.RunAppend | houseofmisfits/weeping_willow/client.py:46-61 | dispatch over `a + b` is dispatch over `a`, continued over `b` only when `a` ran out |
| Client.InvokedArePrefixOfFired | houseofmisfits/weeping_willow/client.py:47-57 | the handlers called are an initial part of the firing triggers' actions, in list order; a trigger that passes never has its handler called |
| Client.AllDecliningCallsEveryFired | houseofmisfits/weeping_willow/client.py:47-61 | with no exception and every handler declining, each firing trigger's handler is called once, in order, and the list runs out |
| Client.StopsAtFirstTruthy | houseofmisfits/weeping_willow/client.py:56-57 | a dispatch that stopped did so at its last call, which was truthy, and every earlier call was falsy; one that ran out saw only falsy results |
| Client.EarlierRegisteredRunsFirst | houseofmisfits/weeping_willow/client.py:29-30 | of two firing triggers, the earlier-registered handler is called first; if it is truthy the later one is never called; if it is falsy and nothing between them fires, the later one is called next |
| Client.SkipPassing | houseofmisfits/weeping_willow/client.py:47-49 | triggers that pass are skipped: the next call is the first firing trigger's handler |
| Client.SkipPassingFrom | houseofmisfits/weeping_willow/client.py:47-49 | dispatch from `i` equals dispatch from the first entry after `i` that does not pass |
| Client.NoneEntryBlocksLaterTriggers | houseofmisfits/weeping_willow/client.py:47-48 | a None entry ends every dispatch that reaches it with an exception, so no later trigger is evaluated |
| Client.AdminMembership | houseofmisfits/weeping_willow/client.py:76-87 | a member is in the admin list exactly when some tech or admin role of the guild lists them |
| Client.WeepingWillowClient.constructor | houseofmisfits/weeping_willow/client.py:20-25 | no modules and no triggers |
| Client.WeepingWillowClient.AddTrigger | houseofmisfits/weeping_willow/client.py:39-41 | appends at the end; earlier entries and their order stay |
| Client.WeepingWillowClient.RemoveTrigger | houseofmisfits/weeping_willow/modules/venting.py:44 | `triggers.remove` fails exactly when the trigger is absent, and then nothing changes; otherwise its first occurrence goes |
| Client.WeepingWillowClient.RemoveModule | houseofmisfits/weeping_willow/modules/venting.py:43 | `modules.remove` fails exactly when the module is absent; otherwise its first occurrence goes |
| Client.WeepingWillowClient.AddModule | houseofmisfits/weeping_willow/client.py:33-37 | the module is appended, then its triggers, in the order produced |
| Client.WeepingWillowClient.SetUpModules | houseofmisfits/weeping_willow/client.py:27-37 | modules in module order; triggers module by module, each module's in its own order |
| Client.WeepingWillowClient.OnMessage | houseofmisfits/weeping_willow/client.py:46-61 | the loop calls exactly the handlers that `Run` lists, in that order, and ends as `Run` says: stopped at a truthy result, aborted by an exception, or run out |
| Client.WeepingWillowClient.GetAdminUsers | houseofmisfits/weeping_willow/client.py:76-87 | the member lists of the tech and admin roles, concatenated in guild order |
| Schedules.RecordKeepsLockstep | houseofmisfits/weeping_willow/modules/venting.py:48-54 | recording keeps both tables on the same ids; the message's entry is new and due at creation plus delay; every other entry stays |
| Schedules.RecordOverwrites | houseofmisfits/weeping_willow/modules/venting.py:51-52 | processing an id again replaces its entry, so each id has one deletion time, the latest |
| Schedules.PartialSweepStart | houseofmisfits/weeping_willow/modules/venting.py:65 | before any id of the snapshot is visited, nothing has changed |
| Schedules.PartialSweepEnd | houseofmisfits/weeping_willow/modules/venting.py:65-75 | once every id is visited, the sweep is complete |
| Schedules.PartialSweepStep | houseofmisfits/weeping_willow/modules/venting.py:66-75 | visiting one id removes it from both tables when it is due, and otherwise changes nothing |
| Schedules.SweepRemovesExactlyDue | houseofmisfits/weeping_willow/modules/venting.py:64-75 | a sweep removes exactly the due ids from both tables, and keeps every other entry with its time, so the remaining ones are due later |
| Schedules.SweepTwice | houseofmisfits/weeping_willow/modules/venting.py:64-75 | two sweeps are one sweep at the later time, so sweeping again at once changes nothing |
| Schedules.TrackAddsWindow | houseofmisfits/weeping_willow/modules/venting.py:83-88 | a rescan keeps lockstep and tracks exactly the old ids plus the window's ids |
| Schedules.TrackKeepsTracked | houseofmisfits/weeping_willow/modules/venting.py:84 | a rescan never touches an id that was already tracked |
| Schedules.TrackFirstOccurrence | houseofmisfits/weeping_willow/modules/venting.py:83-88 | an untracked id is scheduled by its first message in the window |
| Schedules.TrackAllTracked | houseofmisfits/weeping_willow/modules/venting.py:84 | a window whose ids are all tracked changes nothing |
| Schedules.RescanChangesNothing | houseofmisfits/weeping_willow/modules/venting.py:83-88 | rescanning the same window at once changes nothing, whatever the delay |
| Venting.DeletionSecondsStable | houseofmisfits/weeping_willow/modules/venting.py:49 | the read that stores the default `300` does not change later reads, and a second read stores nothing |
| Venting.DefaultDeletionSeconds | houseofmisfits/weeping_willow/modules/venting.py:49 | with the setting absent, the delay is 300 seconds |
| Venting.FailedSecondsChangeNothing | houseofmisfits/weeping_willow/modules/venting.py:49 | a read whose value `int()` rejects has stored nothing and scheduled no callback |
| Venting.AttemptStep | houseofmisfits/weeping_willow/modules/venting.py:65-66 | the ids attempted so far are always the due ids already visited |
| Venting.WindowStep | houseofmisfits/weeping_willow/modules/venting.py:83-84 | one step of the rescan: ids seen, the untracked test and the remaining window advance together |
| Venting.VentingModule.constructor | houseofmisfits/weeping_willow/modules/venting.py:18-26 | empty tables, open, first rescan due at once, no trigger |
| Venting.VentingModule.GetTriggers | houseofmisfits/weeping_willow/modules/venting.py:28-39 | both settings are watched by `reset_module`; an unset channel yields nothing and closes the loop; a set channel yields one channel trigger to `process` |
| Venting.VentingModule.Process | houseofmisfits/weeping_willow/modules/venting.py:48-54 | a readable delay records the message and returns falsy, so dispatch goes on; an unreadable one raises and records nothing; the delay read may store its default |
| Venting.VentingModule.ExecuteScheduledDeletions | houseofmisfits/weeping_willow/modules/venting.py:64-75 | the tables become the sweep of the old tables; the deletes attempted are exactly the due ids |
| Venting.VentingModule.ScanMessages | houseofmisfits/weeping_willow/modules/venting.py:77-88 | an unset channel: nothing; a non-numeric channel: raises; otherwise the latest 200 messages are tracked, and it raises only if some are untracked and the delay is unreadable |
| Venting.VentingModule.ScanWindow | houseofmisfits/weeping_willow/modules/venting.py:83-88 | the window is tracked, and the delay setting is read exactly when some message is untracked |
| Venting.VentingModule.RunLoopTick | houseofmisfits/weeping_willow/modules/venting.py:56-62 | a closed loop has ended; otherwise a sweep, then a rescan when the scan time has come, moving it ten minutes on unless the rescan raised; a rescan that processes a message stores the default delay and schedules its watchers, as ScanMessages states |
| Venting.VentingModule.ResetModule | houseofmisfits/weeping_willow/modules/venting.py:41-46 | as corrected: a None value changes nothing. Otherwise the module leaves, its trigger (if any) leaves and it closes. A fresh module is appended with its trigger on the channel setting, or none. The fresh module's two watchers are appended after this module's, which stay registered. The settings and the notification queue do not change. It fails exactly where a `remove` would raise, and then stays open |
| Venting.VentingModule.ResetModuleAsWritten | houseofmisfits/weeping_willow/modules/venting.py:41-46 | as written: `triggers.remove(self.trigger)` runs even when there is no trigger, and then fails after the module has already left the list, with the module still open. On success the state is the one ResetModule gives: the fresh module, its trigger, its watchers and the unchanged settings |
| LegacyVenting.VentingModule.constructor | houseofmisfits/weeping_willow/venting.py:17-24 | the delay from the configuration file, empty tables, open |
| LegacyVenting.VentingModule.Process | houseofmisfits/weeping_willow/venting.py:26-30 | records the message, due the configured delay after creation |
| LegacyVenting.VentingModule.ExecuteScheduledDeletions | houseofmisfits/weeping_willow/venting.py:37-48 | the tables become the sweep of the old tables; the deletes attempted are exactly the due ids |
| LegacyVenting.VentingModule.RunLoopTick | houseofmisfits/weeping_willow/venting.py:32-35 | the loop runs while open, one sweep per tick |
| LegacyVenting.LifetimeOfAMessage | houseofmisfits/weeping_willow/venting.py:26-48 | a message is still tracked before creation plus delay, and is swept from then on |
| Events.WeekdaysDistinct | houseofmisfits/weeping_willow/modules/event_module.py:16-24 | seven distinct day names |
| Events.Weekday | houseofmisfits/weeping_willow/modules/event_module.py:58 | a weekday number indexes the table |
| Events.NextResetIsTomorrowAtTwo | houseofmisfits/weeping_willow/modules/event_module.py:52-55 | the next reset is at 02:00 of the following day, so it lies in the future |
| Events.NextResetSameDay | houseofmisfits/weeping_willow/modules/event_module.py:52-55 | two times on the same day schedule the same reset |
| Events.ChannelKeyWeekly | houseofmisfits/weeping_willow/modules/event_module.py:58-59 | times a week apart read the same setting |
| Events.TriggerAndHandlerAgreeOnCanonicalValues | houseofmisfits/weeping_willow/modules/event_module.py:66 | for a value that `str` produces, the channel trigger fires on a message exactly when the handler's `str(id)` test accepts it |
| Events.LeadingZeroFiresButHandlerDeclines | houseofmisfits/weeping_willow/modules/event_module.py:66 | the trigger on `"012"` fires for channel 12, but the handler's test rejects that message, so `process_participant` returns False |
| Events.KeptOnlyDrops | houseofmisfits/weeping_willow/modules/event_module.py:42 | removing a trigger adds no entry |
| Events.EventModule.constructor | houseofmisfits/weeping_willow/modules/event_module.py:28-32 | no trigger, no reset time, open |
| Events.EventModule.ScheduleNextDay | houseofmisfits/weeping_willow/modules/event_module.py:52-55 | the reset time becomes 02:00 tomorrow; nothing else changes |
| Events.EventModule.CreateTrigger | houseofmisfits/weeping_willow/modules/event_module.py:57-63 | a channel trigger on today's participant channel, to `process_participant`, or None when the setting is unset |
| Events.EventModule.ResetTrigger | houseofmisfits/weeping_willow/modules/event_module.py:39-45 | the old trigger, if any, leaves the list, today's trigger is installed, and the next reset is scheduled; it fails exactly where `remove` would raise |
| Events.EventModule.GetTriggersAsWritten | houseofmisfits/weeping_willow/modules/event_module.py:34-37 | as written: produces the new trigger, which may be None; no setting is written and no watcher is scheduled or registered |
| Events.EventModule.GetTriggers | houseofmisfits/weeping_willow/modules/event_module.py:34-37 | as corrected: produces the new trigger only when there is one, never None; no setting is written and no watcher is scheduled or registered |
| Events.EventModule.ProcessParticipant | houseofmisfits/weeping_willow/modules/event_module.py:65-78 | raises without a trigger; falsy unless `str(channel id)` is the trigger's value; raises on an unreadable role; otherwise the author joins the participants and the result is truthy; the settings, the watchers and the notification queue stay as they were |
| Events.EventModule.ClearParticipantRole | houseofmisfits/weeping_willow/modules/event_module.py:47-50 | every holder loses the role; an unreadable role setting raises and changes nothing |
| Events.EventModule.ResetAndClear | houseofmisfits/weeping_willow/modules/event_module.py:83-84 | reset, then clear; fails where either raises, and a role failure comes after the trigger has been replaced; the settings, the watchers and the notification queue stay as they were |
| Events.EventModule.LoopDailyTickAsWritten | houseofmisfits/weeping_willow/modules/event_module.py:80-87 | as written: a closed loop has ended; before the reset time nothing happens; a missing reset time ends the loop. A rotation survives exactly when the old trigger can be removed and the role reads as a number. It then replaces the trigger, clears the participants, appends the new trigger even when None, and sets the next reset in the future. A role failure leaves today's trigger created but out of the list; a failed removal changes nothing |
| Events.EventModule.LoopDailyTick | houseofmisfits/weeping_willow/modules/event_module.py:80-87 | as corrected: the same cases as the as-written tick, but a rotation appends only a real trigger, so the list never gains a None; neither tick writes a setting or schedules a watcher |
| Events.NoEventDayBlocksLaterDays | houseofmisfits/weeping_willow/modules/event_module.py:85 | with a None entry in the list, every dispatch that reaches it raises, and no later trigger is called |
| Upgrades.ConfigKeysAreEventKeys | houseofmisfits/weeping_willow/upgrade/upgrades.py:87-89 | the migration's keys are the event module's keys, day for day |
| Upgrades.LikeCoversDayKeys | houseofmisfits/weeping_willow/upgrade/upgrades.py:74 | every day key matches `participant_channel%`, and `participant_role` does not |
| Upgrades.DeleteLike | houseofmisfits/weeping_willow/upgrade/upgrades.py:99-102 | the matching keys are gone; every other key keeps its value |
| Upgrades.RowsFromMeaning | houseofmisfits/weeping_willow/upgrade/upgrades.py:91-97 | the rows from day `i` on: one per day, `int()` of the setting or NULL when unset; fails exactly when some setting is not a number |
| Upgrades.EventChannelRowsMeaning | houseofmisfits/weeping_willow/upgrade/upgrades.py:77-97 | seven rows, row `i` being `int()` of day `i`'s setting or NULL; fails exactly when some present setting is not a number |
| Upgrades.RanAtMostOncePerStep | houseofmisfits/weeping_willow/upgrade/upgrades.py:19-24 | the migrations a pass runs come from strictly increasing step indices, so each step runs at most once and in list order; the first starts at the stored version, and each later one at the version the previous step set |
| Upgrades.UnregisteredVersionRunsNothing | houseofmisfits/weeping_willow/upgrade/upgrades.py:19-20 | from a version no remaining step starts at, nothing runs and nothing changes |
| Upgrades.FromScratch | houseofmisfits/weeping_willow/upgrade/upgrades.py:53-111 | a fresh database runs both migrations in order and ends at `0.0.2`, with the event table built and the day keys deleted |
| Upgrades.FromDevelopmentVersion | houseofmisfits/weeping_willow/upgrade/upgrades.py:66-67 | `0.0.2-dev` runs only `make_module_commands` and ends at `0.0.2` |
| Upgrades.UpToDateRunsNothing | houseofmisfits/weeping_willow/upgrade/upgrades.py:16-26 | at any version no step starts from, `0.0.2` included, a pass does nothing |
| Upgrades.BadDaySettingStopsAtFirstVersion | houseofmisfits/weeping_willow/upgrade/upgrades.py:93 | a non-numeric day setting makes the second migration raise, and the database stays at `0.0.1` |
| Upgrades.UpgradeRegistry.constructor | houseofmisfits/weeping_willow/upgrade/upgrades.py:8 | the step list starts empty |
| Upgrades.UpgradeRegistry.Upgrade | houseofmisfits/weeping_willow/upgrade/upgrades.py:45-50 | the decorator appends the step and returns the function unchanged |
| Upgrades.UpgradeRegistry.RegisterAll | houseofmisfits/weeping_willow/upgrade/upgrades.py:53-67 | registration order is `0.0.0`, then `0.0.2-dev`, then `0.0.1`, because stacked decorators apply bottom-up |
| Upgrades.UpgradeRegistry.UpgradeDatabase | houseofmisfits/weeping_willow/upgrade/upgrades.py:16-26 | the loop's pass equals `Chain` over the registered steps: each step whose `from` is the current version runs and sets its `to`, and an exception ends the pass |
| BotAdministration.ExtraTokensAreIgnored | houseofmisfits/weeping_willow/modules/bot_administration.py:61-62 | words after the needed tokens do not change them |
| BotAdministration.BotAdministrationModule.constructor | houseofmisfits/weeping_willow/modules/bot_administration.py:18-19 | keeps the client |
| BotAdministration.BotAdministrationModule.GetTriggers | houseofmisfits/weeping_willow/modules/bot_administration.py:21-24 | three command triggers, `wrestart`, `setconfig`, `getconfig` in that order, each running its own handler |
| BotAdministration.BotAdministrationModule.TestAuthorization | houseofmisfits/weeping_willow/modules/bot_administration.py:26-36 | true exactly when a tech or admin role lists the author; otherwise the refusal is sent |
| BotAdministration.BotAdministrationModule.Restart | houseofmisfits/weeping_willow/modules/bot_administration.py:38-47 | always falsy (False when refused, None after the reboot attempt); announces the reboot, then reports a failed one |
| BotAdministration.BotAdministrationModule.SetConfig | houseofmisfits/weeping_willow/modules/bot_administration.py:49-73 | refused: falsy, config unchanged; fewer than three tokens: raises, config unchanged; otherwise token 2 is stored under token 1, a wrong count also sends the hint, and the result is truthy |
| BotAdministration.BotAdministrationModule.GetConfig | houseofmisfits/weeping_willow/modules/bot_administration.py:75-104 | never changes the config; refused: falsy; fewer than two tokens: raises; otherwise sends token 1 and its value, and the result is truthy |
| PrivateSupport.RouteOf | houseofmisfits/weeping_willow/modules/private_support.py:26-47 | one token shows help; otherwise `open`, `close` and `clear` pick their handlers and anything else is unknown; exactly one branch; raises only without tokens |
| PrivateSupport.HandleCommand | houseofmisfits/weeping_willow/modules/private_support.py:17-48 | a failed check returns True before parsing; otherwise routes; truthy on every path except a message without tokens |
| PrivateSupport.StubReturnsBeforeRouting | houseofmisfits/weeping_willow/modules/private_support.py:50-51 | with the stub check every call returns True and takes no branch |
| PrivateSupport.FiredCommandReturnsTrue | houseofmisfits/weeping_willow/modules/private_support.py:23-48 | a message the command trigger fires on always gets True, and an authorised one takes a branch |
| PrivateSupport.RoutingIgnoresSpaceRuns | houseofmisfits/weeping_willow/modules/private_support.py:25 | extra spaces do not change the routing |
| PrivateSupport.RoutingReadsTwoTokens | houseofmisfits/weeping_willow/modules/private_support.py:25-47 | once a subcommand is given, later words do not change the routing |
| PrivateSupport.PrivateSupportModule.constructor | houseofmisfits/weeping_willow/modules/private_support.py:10-12 | keeps the client |
| PrivateSupport.PrivateSupportModule.GetTriggers | houseofmisfits/weeping_willow/modules/private_support.py:14-15 | a single `private` command trigger running `handle_command` |

## Left out

- Discord I/O:
  - Sending messages, embeds and reactions is recorded as a list of replies.
  - Deleting messages and changing presence are not modelled.
  - Fetching the channel history is a parameter holding a list of messages.
  - Fetching guild roles is a parameter holding a list of roles with member ids.
- The reboot (`os.system("reboot")`): its exit status is a parameter of
  `BotAdministration.BotAdministrationModule.Restart`.
- Concurrency and scheduling: `create_task`, `sleep`, the order in which callbacks and
  loops interleave, and the coroutine object that `on_message` tests for truth. Each loop
  is one tick method that takes `now`. Each callback is a recorded notification. Handler
  results within a dispatch are an outcome parameter.
- `build_config_table` and the retry after `UndefinedTableError`: the table is assumed to
  exist.
- An empty `_version` table, where `result['version']` would raise.
- SQL DDL and the real database: the config is a map, and the event tables are a field of
  the database value.
- Dates, naive time and UTC time: everything is integer seconds. The mixing of local time
  (`datetime.now`, `date.today`) with UTC (`utcnow`, `created_at`) is not modelled.
- Python `int()` accepts surrounding whitespace and underscores. The model accepts only
  an optional sign and ASCII digits.
- `BOT_GUILD_ID` and `guild.get_role`: the participant role is modelled by the set of ids
  holding it.
- `set_up_modules` iterates `module.get_triggers()` with a plain `for` (client.py:36), but
  the modules' `get_triggers` are async generators, so that loop would raise `TypeError`.
  `getattr(modules, 'BotAdministration')` (client.py:32) fails too, because the package
  exports `BotAdministrationModule`. The model assumes each module's triggers are produced
  and registered in order.
- Client.WeepingWillowClient.RemoveTrigger: compares triggers as values, while Python's
  `list.remove` compares trigger objects by identity, since `Trigger` defines no `__eq__`.
  The two differ only when the list holds two distinct triggers with the same value and the
  same bound method. The model does not prove that this never happens.
- The support sessions, the meditation module, the DM handler and the logging engine are
  not part of this model.
- Venting.VentingModule.ExecuteScheduledDeletions: does not say which deletes failed.
  Platform errors are caught and the entry is removed either way, so the tables do not
  depend on that. A non-platform exception from `delete` is not modelled.
- Venting.VentingModule.ScanMessages: the channel's history is a parameter, not a fetch
  by channel id.
- BotAdministration.BotAdministrationModule.SetConfig: the `SyntaxOrAccessError` handler
  around `set_config` is not modelled. The data connection catches that error itself, so
  the handler never runs.
- The private-support handlers `open_session`, `close_session` and `clear_channel` are
  empty stubs. Only which of them is chosen is modelled.

## Findings

| source | as written | input that shows it | evidently intended | confidence | as-written member | corrected member |
|---|---|---|---|---|---|---|
| houseofmisfits/weeping_willow/modules/event_module.py:85 | the daily rotation appends `self.trigger` even when `create_trigger` returned None, and `get_triggers` (line 36) yields it too | a day whose `participant_channel_<day>` setting is unset: the list gains a None entry, and every later message that reaches it raises `AttributeError`, so triggers registered after it, including later days' event triggers, never run (`Events.NoEventDayBlocksLaterDays`) | append or yield only an existing trigger | not executed | Events.EventModule.LoopDailyTickAsWritten | Events.EventModule.LoopDailyTick |
| houseofmisfits/weeping_willow/modules/venting.py:44 | `reset_module` calls `triggers.remove(self.trigger)` even when no trigger was installed (venting channel unset) | start with `venting_channel` unset, then set it: the watcher runs `reset_module`, and `remove(None)` raises `ValueError` (unless the list happens to hold a None entry) after the module has already left the module list; no new module is added, so the channel is never watched until restart | remove the trigger only when there is one, then add the fresh module | not executed | Venting.VentingModule.ResetModuleAsWritten | Venting.VentingModule.ResetModule |
