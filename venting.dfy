/**
 * The venting module: messages posted in the venting channel are deleted a
 * configured number of seconds after they were created. A loop sweeps due
 * messages every tick and rescans the channel every ten minutes for messages
 * it missed; changing either setting swaps the module for a successor one.
 */
module Venting {
  import opened Options
  import opened Text
  import opened Lists
  import opened Handlers
  import opened DataConnection
  import opened Triggers
  import opened Client
  import opened Schedules

  const ChannelKey := "venting_channel"
  const DeletionKey := "venting_deletion_seconds"
  /** `get_config('venting_deletion_seconds', '300')`. */
  const DefaultDeletion := "300"
  /** `channel.history(limit=200)`. */
  const HistoryLimit := 200
  /** `timedelta(minutes=10)` between rescans. */
  const ScanInterval := 600

  /** `int(get_config('venting_deletion_seconds', '300'))`; None where int() raises (a refused read gives None, and int(None) raises too). */
  function DeletionSeconds(values: map<string, string>, denied: bool): Option<int> {
    match ReadResult(values, denied, DeletionKey, Some(DefaultDeletion))
    case None => None
    case Some(v) => ParseInt(v)
  }

  /** The read that stores the default does not change what later reads give; a second read stores nothing. */
  lemma DeletionSecondsStable(values: map<string, string>, denied: bool)
    ensures var after := AfterRead(values, denied, DeletionKey, Some(DefaultDeletion));
            DeletionSeconds(after, denied) == DeletionSeconds(values, denied)
            && AfterRead(after, denied, DeletionKey, Some(DefaultDeletion)) == after
  {
  }

  /** With the setting absent the delay is 300 seconds. */
  lemma DefaultDeletionSeconds(values: map<string, string>)
    requires DeletionKey !in values
    ensures DeletionSeconds(values, false) == Some(300)
  {
    assert AllDigits(DefaultDeletion);
    assert DefaultDeletion[..2] == "30" && "30"[..1] == "3" && "3"[..0] == "";
  }

  /** A read whose value int() rejects stores nothing and schedules no callback. */
  lemma FailedSecondsChangeNothing(actions: seq<(string, BoundMethod)>, values: map<string, string>, denied: bool)
    requires DeletionSeconds(values, denied).None?
    ensures AfterRead(values, denied, DeletionKey, Some(DefaultDeletion)) == values
    ensures ReadNotifications(actions, values, denied, DeletionKey, Some(DefaultDeletion)) == []
  {
    if !denied && DeletionKey !in values {
      DefaultDeletionSeconds(values);
    }
  }

  /** The messages a rescan looks at: the latest 200 of the channel, newest first. */
  function Window(history: seq<Message>): seq<Message> {
    if |history| <= HistoryLimit then history else history[..HistoryLimit]
  }

  /** Whether a rescan goes as far as processing its window: the channel is set and is a number. */
  predicate ScanOpensChannel(values: map<string, string>, denied: bool) {
    var ch := ReadResult(values, denied, ChannelKey, None);
    ch.Some? && ParseInt(ch.value).Some?
  }

  /** A rescan returns normally: no channel set, or the window holds nothing untracked, or the delay is a number. */
  predicate ScanSucceeds(s: Store, values: map<string, string>, denied: bool, history: seq<Message>) {
    var ch := ReadResult(values, denied, ChannelKey, None);
    ch.None?
    || (ParseInt(ch.value).Some? && (DeletionSeconds(values, denied).Some? || !Untracked(s, Window(history))))
  }

  /** The tables after a rescan; one that raises raises before recording anything. */
  function ScanStore(s: Store, values: map<string, string>, denied: bool, history: seq<Message>): Store {
    var secs := DeletionSeconds(values, denied);
    if ScanOpensChannel(values, denied) && secs.Some? then Track(s, Window(history), secs.value) else s
  }

  /** A rescan that processes at least one message reads, and may store, the delay setting. */
  predicate ScanReadsDelay(s: Store, values: map<string, string>, denied: bool, history: seq<Message>) {
    ScanOpensChannel(values, denied) && Untracked(s, Window(history))
  }

  /** Visiting one id of the snapshot: it is attempted exactly when due. */
  lemma AttemptStep(s0: Store, todo: set<int>, now: int, k: int, attempted: set<int>)
    requires k in todo && todo <= s0.schedules.Keys
    requires attempted == Due(s0, now) - todo
    ensures (if s0.schedules[k] <= now then attempted + {k} else attempted) == Due(s0, now) - (todo - {k})
  {
  }

  /** One step of a rescan: how the ids seen, the untracked test and the remaining fold move on. */
  lemma WindowStep(s0: Store, window: seq<Message>, i: nat)
    requires i < |window|
    ensures Ids(window[..i + 1]) == Ids(window[..i]) + {window[i].id}
    ensures Untracked(s0, window[..i + 1]) == (Untracked(s0, window[..i]) || window[i].id !in s0.schedules)
    ensures window[i..] == [window[i]] + window[i + 1..]
    ensures window[i].id in s0.schedules.Keys + Ids(window[..i]) && window[i].id !in s0.schedules ==> Untracked(s0, window[..i])
  {
    var pre, next := window[..i], window[..i + 1];
    assert forall k :: 0 <= k < i ==> next[k] == pre[k];
    assert next[i] == window[i];
    if window[i].id in Ids(pre) && window[i].id !in s0.schedules {
      var k :| 0 <= k < i && pre[k].id == window[i].id;
    }
  }

  class VentingModule {
    const client: WeepingWillowClient
    var deletionSchedules: map<int, int>
    var messages: map<int, Message>
    /** The loop runs while this holds. */
    var isOpen: bool
    var scanTime: int
    var trigger: Option<Trigger>

    function Contents(): Store
      reads this
    {
      Store(deletionSchedules, messages)
    }

    predicate Valid()
      reads this
    {
      Lockstep(Contents())
    }

    /** A new module tracks nothing and scans on its first tick. */
    constructor (client: WeepingWillowClient, now: int)
      ensures this.client == client && Valid() && Contents() == Store(map[], map[])
      ensures isOpen && scanTime == now && trigger == None
    {
      this.client := client;
      deletionSchedules := map[];
      messages := map[];
      isOpen := true;
      scanTime := now;
      trigger := None;
    }

    /**
     * get_triggers: watch both settings with reset_module, then install a trigger on the
     * venting channel, or none (and close the loop) when the channel is unset.
     */
    method GetTriggers() returns (produced: seq<Option<Trigger>>)
      modifies this, client.dataConnection
      ensures var rm := BoundMethod(Handler.ResetModule, this);
              client.dataConnection.configChangeActions
                == old(client.dataConnection.configChangeActions) + [(ChannelKey, rm), (DeletionKey, rm)]
      ensures client.dataConnection.values == old(client.dataConnection.values)
      ensures client.dataConnection.scheduled == old(client.dataConnection.scheduled)
      ensures var ch := ReadResult(old(client.dataConnection.values), client.dataConnection.accessDenied, ChannelKey, None);
              (ch.None? ==> produced == [] && !isOpen && trigger == old(trigger))
              && (ch.Some? ==> trigger == Some(ChannelTrigger(ch.value, BoundMethod(Handler.Process, this)))
                               && produced == [trigger] && isOpen == old(isOpen))
      ensures Contents() == old(Contents()) && scanTime == old(scanTime)
    {
      var dc := client.dataConnection;
      dc.OnConfigChange(ChannelKey, BoundMethod(Handler.ResetModule, this));
      dc.OnConfigChange(DeletionKey, BoundMethod(Handler.ResetModule, this));
      var ch := dc.GetConfig(ChannelKey, None);
      if ch.None? {
        isOpen := false;
        produced := [];
      } else {
        trigger := Some(ChannelTrigger(ch.value, BoundMethod(Handler.Process, this)));
        produced := [trigger];
      }
    }

    /** process: schedule the message for deletion and return False, so dispatch goes on. */
    method Process(m: Message) returns (result: Outcome)
      requires Valid()
      modifies this, client.dataConnection
      ensures Valid()
      ensures var secs := DeletionSeconds(old(client.dataConnection.values), client.dataConnection.accessDenied);
              result == (if secs.None? then Raised else Falsy)
              && Contents() == (if secs.None? then old(Contents()) else Record(old(Contents()), m, secs.value))
      ensures client.dataConnection.values
                == AfterRead(old(client.dataConnection.values), client.dataConnection.accessDenied, DeletionKey, Some(DefaultDeletion))
      ensures client.dataConnection.configChangeActions == old(client.dataConnection.configChangeActions)
      ensures client.dataConnection.scheduled == old(client.dataConnection.scheduled)
                + ReadNotifications(client.dataConnection.configChangeActions, old(client.dataConnection.values),
                                    client.dataConnection.accessDenied, DeletionKey, Some(DefaultDeletion))
      ensures isOpen == old(isOpen) && scanTime == old(scanTime) && trigger == old(trigger)
    {
      var raw := client.dataConnection.GetConfig(DeletionKey, Some(DefaultDeletion));
      if raw.None? {
        return Raised;
      }
      var secs := ParseInt(raw.value);
      if secs.None? {
        return Raised;
      }
      RecordKeepsLockstep(Contents(), m, secs.value);
      deletionSchedules := deletionSchedules[m.id := m.createdAt + secs.value];
      messages := messages[m.id := m];
      result := Falsy;
    }

    /**
     * execute_scheduled_deletions over a snapshot of the ids: each due message gets one delete
     * attempt, `attempted`, and leaves both tables in the `finally` clause; whether that attempt
     * raised does not enter the new state.
     */
    method ExecuteScheduledDeletions(now: int) returns (attempted: set<int>)
      requires Valid()
      modifies this
      ensures Valid()
      ensures Contents() == Sweep(old(Contents()), now)
      ensures attempted == Due(old(Contents()), now)
      ensures isOpen == old(isOpen) && scanTime == old(scanTime) && trigger == old(trigger)
    {
      ghost var s0 := Contents();
      var todo := deletionSchedules.Keys;
      attempted := {};
      PartialSweepStart(s0, now);
      assert Due(s0, now) - todo == {};
      while todo != {}
        invariant todo <= s0.schedules.Keys
        invariant Contents() == PartialSweep(s0, todo, now)
        invariant attempted == Due(s0, now) - todo
        invariant isOpen == old(isOpen) && scanTime == old(scanTime) && trigger == old(trigger)
        decreases |todo|
      {
        if forall e :: e !in todo {
          assert false;
        }
        var k :| k in todo;
        PartialSweepStep(s0, todo, now, k);
        AttemptStep(s0, todo, now, k, attempted);
        if now >= deletionSchedules[k] {
          attempted := attempted + {k};
          deletionSchedules := deletionSchedules - {k};
          messages := messages - {k};
        }
        todo := todo - {k};
      }
      assert Due(s0, now) - todo == Due(s0, now);
      PartialSweepEnd(s0, now);
      SweepRemovesExactlyDue(s0, now);
    }

    /**
     * scan_messages: nothing when the channel is unset; int() of the channel raises when it is not
     * a number; otherwise every message of the window whose id is untracked is processed, in order.
     */
    method ScanMessages(history: seq<Message>) returns (ok: bool)
      requires Valid()
      modifies this, client.dataConnection
      ensures Valid()
      ensures var v0, denied := old(client.dataConnection.values), client.dataConnection.accessDenied;
              ok == ScanSucceeds(old(Contents()), v0, denied, history)
              && Contents() == ScanStore(old(Contents()), v0, denied, history)
      ensures var v0, denied := old(client.dataConnection.values), client.dataConnection.accessDenied;
              var r := ScanReadsDelay(old(Contents()), v0, denied, history);
              client.dataConnection.values == (if r then AfterRead(v0, denied, DeletionKey, Some(DefaultDeletion)) else v0)
              && client.dataConnection.scheduled == old(client.dataConnection.scheduled)
                   + (if r then ReadNotifications(client.dataConnection.configChangeActions, v0, denied, DeletionKey, Some(DefaultDeletion)) else [])
      ensures client.dataConnection.configChangeActions == old(client.dataConnection.configChangeActions)
      ensures isOpen == old(isOpen) && scanTime == old(scanTime) && trigger == old(trigger)
    {
      var ch := client.dataConnection.GetConfig(ChannelKey, None);
      if ch.None? {
        return true;
      }
      var channelId := ParseInt(ch.value);
      if channelId.None? {
        return false;
      }
      ok := ScanWindow(Window(history));
    }

    /** The loop of scan_messages over the window, once the channel is known to be a number. */
    method ScanWindow(window: seq<Message>) returns (ok: bool)
      requires Valid()
      modifies this, client.dataConnection
      ensures Valid()
      ensures var v0, denied := old(client.dataConnection.values), client.dataConnection.accessDenied;
              var secs := DeletionSeconds(v0, denied);
              ok == (secs.Some? || !Untracked(old(Contents()), window))
              && Contents() == (if secs.Some? then Track(old(Contents()), window, secs.value) else old(Contents()))
      ensures var v0, denied := old(client.dataConnection.values), client.dataConnection.accessDenied;
              var r := Untracked(old(Contents()), window);
              client.dataConnection.values == (if r then AfterRead(v0, denied, DeletionKey, Some(DefaultDeletion)) else v0)
              && client.dataConnection.scheduled == old(client.dataConnection.scheduled)
                   + (if r then ReadNotifications(client.dataConnection.configChangeActions, v0, denied, DeletionKey, Some(DefaultDeletion)) else [])
      ensures client.dataConnection.configChangeActions == old(client.dataConnection.configChangeActions)
      ensures isOpen == old(isOpen) && scanTime == old(scanTime) && trigger == old(trigger)
    {
      var dc := client.dataConnection;
      ghost var s0 := Contents();
      ghost var v0 := dc.values;
      ghost var sched0 := dc.scheduled;
      ghost var secs := DeletionSeconds(v0, dc.accessDenied);
      ghost var after := AfterRead(v0, dc.accessDenied, DeletionKey, Some(DefaultDeletion));
      ghost var notes := ReadNotifications(dc.configChangeActions, v0, dc.accessDenied, DeletionKey, Some(DefaultDeletion));
      DeletionSecondsStable(v0, dc.accessDenied);
      if secs.None? {
        FailedSecondsChangeNothing(dc.configChangeActions, v0, dc.accessDenied);
      }
      ghost var read := false;
      var i := 0;
      while i < |window|
        invariant 0 <= i <= |window|
        invariant Valid()
        invariant read == Untracked(s0, window[..i])
        invariant dc.values == (if read then after else v0)
        invariant dc.scheduled == sched0 + (if read then notes else [])
        invariant dc.configChangeActions == old(dc.configChangeActions)
        invariant secs.None? ==> Contents() == s0
        invariant secs.Some? ==> Track(s0, window, secs.value) == Track(Contents(), window[i..], secs.value)
        invariant Contents().schedules.Keys == s0.schedules.Keys + Ids(window[..i])
        invariant isOpen == old(isOpen) && scanTime == old(scanTime) && trigger == old(trigger)
      {
        var m := window[i];
        WindowStep(s0, window, i);
        if m.id !in deletionSchedules {
          var result := Process(m);
          if result == Raised {
            return false;
          }
          read := true;
        }
        i := i + 1;
      }
      assert window[..|window|] == window;
      return true;
    }

    /**
     * One iteration of run_loop: a closed module's loop has ended; otherwise sweep, then rescan
     * when `scan_time <= now` and move `scan_time` ten minutes on. An exception from the rescan
     * ends the loop (`alive` false) before `scan_time` moves.
     */
    method RunLoopTick(now: int, history: seq<Message>) returns (alive: bool)
      requires Valid()
      modifies this, client.dataConnection
      ensures Valid()
      ensures isOpen == old(isOpen) && trigger == old(trigger)
      ensures !old(isOpen) ==> !alive && Contents() == old(Contents()) && scanTime == old(scanTime)
                               && client.dataConnection.values == old(client.dataConnection.values)
                               && client.dataConnection.scheduled == old(client.dataConnection.scheduled)
      ensures old(isOpen) && now < old(scanTime) ==>
                alive && Contents() == Sweep(old(Contents()), now) && scanTime == old(scanTime)
                && client.dataConnection.values == old(client.dataConnection.values)
                && client.dataConnection.scheduled == old(client.dataConnection.scheduled)
      ensures var swept := Sweep(old(Contents()), now);
              var v0, denied := old(client.dataConnection.values), client.dataConnection.accessDenied;
              old(isOpen) && old(scanTime) <= now ==>
                alive == ScanSucceeds(swept, v0, denied, history)
                && Contents() == ScanStore(swept, v0, denied, history)
                && scanTime == (if alive then now + ScanInterval else old(scanTime))
      // a rescan that processes a message reads the delay, storing the default and notifying its watchers
      ensures var swept := Sweep(old(Contents()), now);
              var v0, denied := old(client.dataConnection.values), client.dataConnection.accessDenied;
              var r := ScanReadsDelay(swept, v0, denied, history);
              old(isOpen) && old(scanTime) <= now ==>
                client.dataConnection.values == (if r then AfterRead(v0, denied, DeletionKey, Some(DefaultDeletion)) else v0)
                && client.dataConnection.scheduled == old(client.dataConnection.scheduled)
                     + (if r then ReadNotifications(client.dataConnection.configChangeActions, v0, denied,
                                                    DeletionKey, Some(DefaultDeletion)) else [])
      ensures client.dataConnection.configChangeActions == old(client.dataConnection.configChangeActions)
    {
      if !isOpen {
        return false;
      }
      var _ := ExecuteScheduledDeletions(now);
      alive := true;
      if scanTime <= now {
        alive := ScanMessages(history);
        if alive {
          scanTime := now + ScanInterval;
        }
      }
    }

    /**
     * reset_module as corrected: on a non-None value, leave the client's module list, take this
     * module's trigger out of the trigger list when there is one, close the loop, and add a successor
     * module with the triggers it produces. `ok` is false where Python raises ValueError.
     */
    method ResetModule(value: Option<string>, now: int) returns (ok: bool, successor: VentingModule?)
      modifies this, client, client.dataConnection
      ensures value.None? ==> ok && successor == null && isOpen == old(isOpen)
                              && client.modules == old(client.modules) && client.triggers == old(client.triggers)
      ensures value.Some? && this !in old(client.modules) ==>
                !ok && successor == null && client.modules == old(client.modules) && client.triggers == old(client.triggers)
      ensures value.Some? && this in old(client.modules) && old(trigger).Some? && old(trigger) !in old(client.triggers) ==>
                !ok && successor == null && client.modules == RemoveFirst(old(client.modules), this).value
                && client.triggers == old(client.triggers)
      ensures ok && value.Some? ==>
                var ch := ReadResult(old(client.dataConnection.values), client.dataConnection.accessDenied, ChannelKey, None);
                var kept := if old(trigger).Some? then RemoveFirst(old(client.triggers), old(trigger)).value else old(client.triggers);
                successor != null && successor.client == client && successor.Valid() && successor.Contents() == Store(map[], map[])
                && !isOpen && successor.isOpen == ch.Some?
                && successor.trigger == (if ch.Some? then Some(ChannelTrigger(ch.value, BoundMethod(Handler.Process, successor))) else None)
                && client.modules == RemoveFirst(old(client.modules), this).value + [successor]
                && client.triggers == kept + (if ch.Some? then [successor.trigger] else [])
      ensures ok == (value.None? || (this in old(client.modules) && (old(trigger).None? || old(trigger) in old(client.triggers))))
      ensures !ok ==> isOpen == old(isOpen)
      ensures Contents() == old(Contents()) && trigger == old(trigger)
      // the successor's get_triggers adds its two watchers; this module's watchers stay registered
      ensures var dc := client.dataConnection;
              dc.values == old(dc.values) && dc.scheduled == old(dc.scheduled)
              && dc.configChangeActions == old(dc.configChangeActions)
                   + (if ok && value.Some? then [(ChannelKey, BoundMethod(Handler.ResetModule, successor)),
                                                 (DeletionKey, BoundMethod(Handler.ResetModule, successor))] else [])
    {
      if value.None? {
        return true, null;
      }
      ok := client.RemoveModule(this);
      if !ok {
        return false, null;
      }
      if trigger.Some? {
        ok := client.RemoveTrigger(trigger);
        if !ok {
          return false, null;
        }
      }
      isOpen := false;
      successor := new VentingModule(client, now);
      var produced := successor.GetTriggers();
      client.AddModule(successor, produced);
    }

    /**
     * reset_module as written: `triggers.remove(self.trigger)` runs even when no trigger was
     * installed, and `remove(None)` raises ValueError, after the module has already left the
     * client's list; no fresh module is added.
     */
    method ResetModuleAsWritten(value: Option<string>, now: int) returns (ok: bool, successor: VentingModule?)
      modifies this, client, client.dataConnection
      ensures value.None? ==> ok && successor == null
                              && client.modules == old(client.modules) && client.triggers == old(client.triggers)
      ensures value.Some? && this !in old(client.modules) ==>
                !ok && successor == null && client.modules == old(client.modules) && client.triggers == old(client.triggers)
      ensures value.Some? && this in old(client.modules) && old(trigger) !in old(client.triggers) ==>
                !ok && successor == null && client.modules == RemoveFirst(old(client.modules), this).value
                && client.triggers == old(client.triggers)
      ensures ok == (value.None? || (this in old(client.modules) && old(trigger) in old(client.triggers)))
      ensures ok && value.Some? ==>
                var ch := ReadResult(old(client.dataConnection.values), client.dataConnection.accessDenied, ChannelKey, None);
                successor != null && successor.client == client && successor.Valid() && successor.Contents() == Store(map[], map[])
                && !isOpen && successor.isOpen == ch.Some?
                && successor.trigger == (if ch.Some? then Some(ChannelTrigger(ch.value, BoundMethod(Handler.Process, successor))) else None)
                && client.modules == RemoveFirst(old(client.modules), this).value + [successor]
                && client.triggers == RemoveFirst(old(client.triggers), old(trigger)).value + (if ch.Some? then [successor.trigger] else [])
      ensures !ok || value.None? ==> isOpen == old(isOpen)
      ensures Contents() == old(Contents()) && trigger == old(trigger)
      ensures var dc := client.dataConnection;
              dc.values == old(dc.values) && dc.scheduled == old(dc.scheduled)
              && dc.configChangeActions == old(dc.configChangeActions)
                   + (if ok && value.Some? then [(ChannelKey, BoundMethod(Handler.ResetModule, successor)),
                                                 (DeletionKey, BoundMethod(Handler.ResetModule, successor))] else [])
    {
      if value.None? {
        return true, null;
      }
      ok := client.RemoveModule(this);
      if !ok {
        return false, null;
      }
      ok := client.RemoveTrigger(trigger);
      if !ok {
        return false, null;
      }
      isOpen := false;
      successor := new VentingModule(client, now);
      var produced := successor.GetTriggers();
      client.AddModule(successor, produced);
    }
  }
}
