/**
 * The event module: each day it installs a channel trigger on that day's
 * participant channel (or none when no channel is set for the weekday),
 * grants the participant role to whoever posts there, and at 02:00 the next
 * day clears the role and rotates the trigger. Time is integer seconds since
 * 1970-01-01 00:00, a Thursday.
 */
module Events {
  import opened Options
  import opened Text
  import opened Lists
  import opened Handlers
  import opened DataConnection
  import opened Triggers
  import opened Client

  /** `weekdays`: Monday is 0. */
  const Weekdays: seq<string> := ["mon", "tue", "wed", "thu", "fri", "sat", "sun"]
  const DaySeconds := 86400
  /** `time(2, 0, 0)`. */
  const ResetOffset := 2 * 3600
  const RoleKey := "participant_role"

  /** The table gives seven distinct names, one per weekday number. */
  lemma WeekdaysDistinct()
    ensures |Weekdays| == 7
    ensures forall i, j :: 0 <= i < j < |Weekdays| ==> Weekdays[i] != Weekdays[j]
  {
  }

  /** `date.today()` as a day number. */
  function DayOf(t: int): int {
    t / DaySeconds
  }

  /** `date.weekday()`: day 0 is a Thursday. */
  function Weekday(t: int): (w: nat)
    ensures w < |Weekdays|
  {
    (DayOf(t) + 3) % 7
  }

  /** `'participant_channel_{}'.format(day_of_week)`. */
  function ChannelKeyFor(t: int): string {
    "participant_channel_" + Weekdays[Weekday(t)]
  }

  /** `datetime.combine(date.today() + timedelta(days=1), time(2, 0, 0))`. */
  function NextReset(now: int): int {
    (DayOf(now) + 1) * DaySeconds + ResetOffset
  }

  /** The next reset is at 02:00 of the following day, so it lies in the future. */
  lemma NextResetIsTomorrowAtTwo(now: int)
    ensures DayOf(NextReset(now)) == DayOf(now) + 1
    ensures NextReset(now) % DaySeconds == ResetOffset
    ensures now < NextReset(now)
  {
  }

  /** Two times on the same day schedule the same reset. */
  lemma NextResetSameDay(a: int, b: int)
    requires DayOf(a) == DayOf(b)
    ensures NextReset(a) == NextReset(b)
  {
  }

  /** Times a week apart look up the same key. */
  lemma ChannelKeyWeekly(t: int)
    ensures ChannelKeyFor(t + 7 * DaySeconds) == ChannelKeyFor(t)
  {
    assert DayOf(t + 7 * DaySeconds) == DayOf(t) + 7;
  }

  /** What create_trigger gives for the setting's value. */
  function Created(values: map<string, string>, denied: bool, now: int, owner: object): Option<Trigger> {
    match ReadResult(values, denied, ChannelKeyFor(now), None)
    case None => None
    case Some(v) => Some(ChannelTrigger(v, BoundMethod(Handler.ProcessParticipant, owner)))
  }

  /** `int(get_config('participant_role'))`; None where it raises. */
  function RoleId(values: map<string, string>, denied: bool): Option<int> {
    match ReadResult(values, denied, RoleKey, None)
    case None => None
    case Some(v) => ParseInt(v)
  }

  /** process_participant's test: `str(message.channel.id) == self.trigger.trigger_value`. */
  predicate ParticipantMatches(t: Trigger, m: Message) {
    t.ChannelTrigger? && IntToString(m.channelId) == t.channel
  }

  /**
   * The trigger tests `channel.id == int(value)` and process_participant tests
   * `str(channel.id) == value`: on a value that str() produces, the trigger fires on a
   * message exactly when the handler's test accepts it.
   */
  lemma TriggerAndHandlerAgreeOnCanonicalValues(c: int, a: BoundMethod, m: Message)
    ensures Evaluate(ChannelTrigger(IntToString(c), a), m).Fires?
            <==> ParticipantMatches(ChannelTrigger(IntToString(c), a), m)
  {
    ChannelTriggerForId(c, a, m);
    ParseIntRoundTrip(m.channelId);
  }

  /**
   * On a value with a leading zero they disagree: the trigger on `"012"` fires for channel 12,
   * and the handler's test then rejects the message.
   */
  lemma LeadingZeroFiresButHandlerDeclines(a: BoundMethod, m: Message)
    requires m.channelId == 12
    ensures Evaluate(ChannelTrigger("012", a), m).Fires?
    ensures !ParticipantMatches(ChannelTrigger("012", a), m)
  {
    LeadingZeroIsNotCanonical();
  }

  /** The trigger list after `remove(t)` of a trigger that is present; unchanged otherwise. */
  function Kept(ts: seq<Option<Trigger>>, t: Option<Trigger>): seq<Option<Trigger>> {
    if t.Some? && t in ts then RemoveFirst(ts, t).value else ts
  }

  /** Removing an entry adds none. */
  lemma KeptOnlyDrops(ts: seq<Option<Trigger>>, t: Option<Trigger>)
    ensures forall x :: x in Kept(ts, t) ==> x in ts
  {
    if t.Some? && t in ts {
      var r := RemoveFirst(ts, t).value;
      forall x | x in r
        ensures x in ts
      {
        assert x in multiset(r);
      }
    }
  }

  class EventModule {
    const client: WeepingWillowClient
    var trigger: Option<Trigger>
    var resetTs: Option<int>
    var isOpen: bool
    /** The ids of the members who hold the participant role. */
    var participants: set<int>

    constructor (client: WeepingWillowClient, participants: set<int>)
      ensures this.client == client && trigger == None && resetTs == None && isOpen
      ensures this.participants == participants
    {
      this.client := client;
      trigger := None;
      resetTs := None;
      isOpen := true;
      this.participants := participants;
    }

    /** schedule_next_day. */
    method ScheduleNextDay(now: int)
      modifies this
      ensures resetTs == Some(NextReset(now))
      ensures trigger == old(trigger) && isOpen == old(isOpen) && participants == old(participants)
    {
      resetTs := Some(NextReset(now));
    }

    /** create_trigger: a channel trigger on today's participant channel, or None when it is unset. */
    method CreateTrigger(now: int) returns (t: Option<Trigger>)
      modifies client.dataConnection
      ensures t == Created(old(client.dataConnection.values), client.dataConnection.accessDenied, now, this)
      ensures client.dataConnection.values == old(client.dataConnection.values)
      ensures client.dataConnection.scheduled == old(client.dataConnection.scheduled)
      ensures client.dataConnection.configChangeActions == old(client.dataConnection.configChangeActions)
    {
      var v := client.dataConnection.GetConfig(ChannelKeyFor(now), None);
      if v.None? {
        return None;
      }
      t := Some(ChannelTrigger(v.value, BoundMethod(Handler.ProcessParticipant, this)));
    }

    /**
     * reset_trigger: take out the previous trigger, only when there is one, then install today's
     * and schedule the next reset. `ok` is false where `remove` raises ValueError.
     */
    method ResetTrigger(now: int) returns (ok: bool)
      modifies this, client, client.dataConnection
      ensures ok == (old(trigger).None? || old(trigger) in old(client.triggers))
      ensures ok ==> trigger == Created(old(client.dataConnection.values), client.dataConnection.accessDenied, now, this)
                     && resetTs == Some(NextReset(now))
                     && client.triggers == Kept(old(client.triggers), old(trigger))
      ensures !ok ==> trigger == old(trigger) && resetTs == old(resetTs) && client.triggers == old(client.triggers)
      ensures client.modules == old(client.modules)
      ensures isOpen == old(isOpen) && participants == old(participants)
      ensures client.dataConnection.values == old(client.dataConnection.values)
      ensures client.dataConnection.scheduled == old(client.dataConnection.scheduled)
      ensures client.dataConnection.configChangeActions == old(client.dataConnection.configChangeActions)
    {
      if trigger.Some? {
        ok := client.RemoveTrigger(trigger);
        if !ok {
          return;
        }
        trigger := None;
      }
      trigger := CreateTrigger(now);
      ScheduleNextDay(now);
      ok := true;
    }

    /** get_triggers as written: reset, then produce the trigger, None on a day without a channel. */
    method GetTriggersAsWritten(now: int) returns (produced: seq<Option<Trigger>>)
      requires trigger.None?
      modifies this, client, client.dataConnection
      ensures produced == [trigger]
      ensures trigger == Created(old(client.dataConnection.values), client.dataConnection.accessDenied, now, this)
      ensures trigger.None? ==> None in produced
      ensures resetTs == Some(NextReset(now))
      ensures client.triggers == old(client.triggers) && client.modules == old(client.modules)
      ensures client.dataConnection.values == old(client.dataConnection.values)
      ensures client.dataConnection.scheduled == old(client.dataConnection.scheduled)
      ensures client.dataConnection.configChangeActions == old(client.dataConnection.configChangeActions)
      ensures isOpen == old(isOpen) && participants == old(participants)
    {
      var _ := ResetTrigger(now);
      produced := [trigger];
    }

    /** get_triggers as corrected: reset, then produce the trigger only when there is one. */
    method GetTriggers(now: int) returns (produced: seq<Option<Trigger>>)
      requires trigger.None?
      modifies this, client, client.dataConnection
      ensures produced == (if trigger.Some? then [trigger] else [])
      ensures None !in produced
      ensures trigger == Created(old(client.dataConnection.values), client.dataConnection.accessDenied, now, this)
      ensures resetTs == Some(NextReset(now))
      ensures client.triggers == old(client.triggers) && client.modules == old(client.modules)
      ensures client.dataConnection.values == old(client.dataConnection.values)
      ensures client.dataConnection.scheduled == old(client.dataConnection.scheduled)
      ensures client.dataConnection.configChangeActions == old(client.dataConnection.configChangeActions)
      ensures isOpen == old(isOpen) && participants == old(participants)
    {
      var _ := ResetTrigger(now);
      produced := if trigger.Some? then [trigger] else [];
    }

    /**
     * process_participant: no match (False) unless `str(channel.id)` is the trigger's value; then
     * the author gets the participant role (True). Reading `trigger_value` of no trigger, and
     * `int()` of an unset or non-numeric role setting, raise.
     */
    method ProcessParticipant(m: Message) returns (result: Outcome)
      modifies this, client.dataConnection
      ensures var role := RoleId(old(client.dataConnection.values), client.dataConnection.accessDenied);
              var matches := old(trigger).Some? && ParticipantMatches(old(trigger).value, m);
              result == (if old(trigger).None? then Raised
                         else if !matches then Falsy
                         else if role.None? then Raised
                         else Truthy)
              && participants == (if result == Truthy then old(participants) + {m.authorId} else old(participants))
      ensures trigger == old(trigger) && resetTs == old(resetTs) && isOpen == old(isOpen)
      ensures client.dataConnection.values == old(client.dataConnection.values)
      ensures client.dataConnection.scheduled == old(client.dataConnection.scheduled)
      ensures client.dataConnection.configChangeActions == old(client.dataConnection.configChangeActions)
    {
      if trigger.None? {
        return Raised;
      }
      if !ParticipantMatches(trigger.value, m) {
        return Falsy;
      }
      var role := client.dataConnection.GetConfig(RoleKey, None);
      if role.None? || ParseInt(role.value).None? {
        return Raised;
      }
      participants := participants + {m.authorId};
      result := Truthy;
    }

    /** clear_participant_role: every holder loses the role; an unreadable role setting raises. */
    method ClearParticipantRole() returns (ok: bool)
      modifies this, client.dataConnection
      ensures ok == RoleId(old(client.dataConnection.values), client.dataConnection.accessDenied).Some?
      ensures participants == if ok then {} else old(participants)
      ensures trigger == old(trigger) && resetTs == old(resetTs) && isOpen == old(isOpen)
      ensures client.dataConnection.values == old(client.dataConnection.values)
      ensures client.dataConnection.scheduled == old(client.dataConnection.scheduled)
      ensures client.dataConnection.configChangeActions == old(client.dataConnection.configChangeActions)
    {
      var role := client.dataConnection.GetConfig(RoleKey, None);
      if role.None? || ParseInt(role.value).None? {
        return false;
      }
      var holders := participants;
      ghost var dc := client.dataConnection;
      ghost var values, scheduled, actions := dc.values, dc.scheduled, dc.configChangeActions;
      while holders != {}
        invariant participants == holders
        invariant trigger == old(trigger) && resetTs == old(resetTs) && isOpen == old(isOpen)
        invariant dc.values == values && dc.scheduled == scheduled && dc.configChangeActions == actions
        decreases |holders|
      {
        if forall e :: e !in holders {
          assert false;
        }
        var member :| member in holders;
        participants := participants - {member};
        holders := holders - {member};
      }
      ok := true;
    }

    /**
     * The first two steps of a rotation: reset_trigger, then clear_participant_role. `ok` is false
     * where either raises; when the role setting is the cause, the trigger has been replaced already.
     */
    method ResetAndClear(now: int) returns (ok: bool)
      modifies this, client, client.dataConnection
      ensures var denied := client.dataConnection.accessDenied;
              var v0 := old(client.dataConnection.values);
              var removable := old(trigger).None? || old(trigger) in old(client.triggers);
              ok == (removable && RoleId(v0, denied).Some?)
              && (removable ==> trigger == Created(v0, denied, now, this)
                                && client.triggers == Kept(old(client.triggers), old(trigger))
                                && resetTs == Some(NextReset(now))
                                && participants == (if ok then {} else old(participants)))
              && (!removable ==> trigger == old(trigger) && client.triggers == old(client.triggers)
                                 && resetTs == old(resetTs) && participants == old(participants))
      ensures None !in old(client.triggers) ==> None !in client.triggers
      ensures isOpen == old(isOpen) && client.modules == old(client.modules)
      ensures client.dataConnection.values == old(client.dataConnection.values)
      ensures client.dataConnection.scheduled == old(client.dataConnection.scheduled)
      ensures client.dataConnection.configChangeActions == old(client.dataConnection.configChangeActions)
    {
      ghost var before := client.triggers;
      ok := ResetTrigger(now);
      if !ok {
        return;
      }
      KeptOnlyDrops(before, old(trigger));
      ok := ClearParticipantRole();
    }

    /**
     * One iteration of loop_daily as written: the rotation appends the new trigger even when it is
     * None. A closed module's loop has ended; before the reset time nothing happens; an exception
     * (no reset time yet, a failed removal, an unreadable role) ends the loop, and a role failure
     * leaves today's trigger created but not added to the list.
     */
    method LoopDailyTickAsWritten(now: int) returns (alive: bool)
      modifies this, client, client.dataConnection
      ensures !old(isOpen) ==> !alive && client.triggers == old(client.triggers) && trigger == old(trigger)
                               && resetTs == old(resetTs) && participants == old(participants)
      ensures old(isOpen) && old(resetTs).None? ==>
                !alive && client.triggers == old(client.triggers) && trigger == old(trigger)
                && participants == old(participants)
      ensures old(isOpen) && old(resetTs).Some? && now <= old(resetTs).value ==>
                alive && client.triggers == old(client.triggers) && trigger == old(trigger)
                && resetTs == old(resetTs) && participants == old(participants)
      ensures var denied := client.dataConnection.accessDenied;
              var v0 := old(client.dataConnection.values);
              var removable := old(trigger).None? || old(trigger) in old(client.triggers);
              old(isOpen) && old(resetTs).Some? && now > old(resetTs).value ==>
                alive == (removable && RoleId(v0, denied).Some?)
                && (alive ==> trigger == Created(v0, denied, now, this)
                              && client.triggers == Kept(old(client.triggers), old(trigger)) + [trigger]
                              && (trigger.None? ==> None in client.triggers)
                              && participants == {}
                              && resetTs == Some(NextReset(now)) && now < resetTs.value)
                && (removable && !alive ==> trigger == Created(v0, denied, now, this)
                                            && client.triggers == Kept(old(client.triggers), old(trigger))
                                            && resetTs == Some(NextReset(now)) && participants == old(participants))
                && (!removable ==> trigger == old(trigger) && client.triggers == old(client.triggers)
                                   && resetTs == old(resetTs) && participants == old(participants))
      ensures isOpen == old(isOpen) && client.modules == old(client.modules)
      ensures client.dataConnection.values == old(client.dataConnection.values)
      ensures client.dataConnection.scheduled == old(client.dataConnection.scheduled)
      ensures client.dataConnection.configChangeActions == old(client.dataConnection.configChangeActions)
    {
      if !isOpen {
        return false;
      }
      if resetTs.None? {
        return false;
      }
      if now > resetTs.value {
        var ok := ResetAndClear(now);
        if !ok {
          return false;
        }
        client.AddTrigger(trigger);
        ScheduleNextDay(now);
        NextResetIsTomorrowAtTwo(now);
      }
      alive := true;
    }

    /**
     * One iteration of loop_daily, with the rotation appending the new trigger only when there is
     * one. A closed module's loop has ended; before the reset time nothing happens; an exception
     * (no reset time yet, a failed removal, an unreadable role) ends the loop, and a role failure
     * leaves today's trigger created but not added to the list.
     */
    method LoopDailyTick(now: int) returns (alive: bool)
      modifies this, client, client.dataConnection
      ensures !old(isOpen) ==> !alive && client.triggers == old(client.triggers) && trigger == old(trigger)
                               && resetTs == old(resetTs) && participants == old(participants)
      ensures old(isOpen) && old(resetTs).None? ==>
                !alive && client.triggers == old(client.triggers) && trigger == old(trigger)
                && participants == old(participants)
      ensures old(isOpen) && old(resetTs).Some? && now <= old(resetTs).value ==>
                alive && client.triggers == old(client.triggers) && trigger == old(trigger)
                && resetTs == old(resetTs) && participants == old(participants)
      ensures var denied := client.dataConnection.accessDenied;
              var v0 := old(client.dataConnection.values);
              var removable := old(trigger).None? || old(trigger) in old(client.triggers);
              old(isOpen) && old(resetTs).Some? && now > old(resetTs).value ==>
                alive == (removable && RoleId(v0, denied).Some?)
                && (alive ==> trigger == Created(v0, denied, now, this)
                              && client.triggers == Kept(old(client.triggers), old(trigger)) + (if trigger.Some? then [trigger] else [])
                              && participants == {}
                              && resetTs == Some(NextReset(now)) && now < resetTs.value)
                && (removable && !alive ==> trigger == Created(v0, denied, now, this)
                                            && client.triggers == Kept(old(client.triggers), old(trigger))
                                            && resetTs == Some(NextReset(now)) && participants == old(participants))
                && (!removable ==> trigger == old(trigger) && client.triggers == old(client.triggers)
                                   && resetTs == old(resetTs) && participants == old(participants))
      ensures None !in old(client.triggers) ==> None !in client.triggers
      ensures isOpen == old(isOpen) && client.modules == old(client.modules)
      ensures client.dataConnection.values == old(client.dataConnection.values)
      ensures client.dataConnection.scheduled == old(client.dataConnection.scheduled)
      ensures client.dataConnection.configChangeActions == old(client.dataConnection.configChangeActions)
    {
      if !isOpen {
        return false;
      }
      if resetTs.None? {
        return false;
      }
      if now > resetTs.value {
        var ok := ResetAndClear(now);
        if !ok {
          return false;
        }
        if trigger.Some? {
          client.AddTrigger(trigger);
        }
        ScheduleNextDay(now);
        NextResetIsTomorrowAtTwo(now);
      }
      alive := true;
    }
  }

  /**
   * After a rotation as written on a day with no channel set, the trigger list ends in a None
   * entry: from then on every dispatch that reaches it raises, so no trigger appended after it,
   * such as the next days' event triggers, is ever evaluated.
   */
  lemma NoEventDayBlocksLaterDays(pre: seq<Option<Trigger>>, later: seq<Option<Trigger>>, m: Message,
                                  outcome: (BoundMethod, Message) -> Outcome)
    requires Run(pre, m, outcome).end == Exhausted
    ensures Run(pre + [None] + later, m, outcome) == Dispatch(Run(pre, m, outcome).invoked, Aborted)
    ensures Fired(later, m) != [] ==> Run(pre + [None] + later, m, outcome).invoked == Run(pre, m, outcome).invoked
  {
    NoneEntryBlocksLaterTriggers(pre, later, m, outcome);
    assert Run(pre, m, outcome).invoked + [] == Run(pre, m, outcome).invoked;
  }
}
