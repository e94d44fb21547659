/**
 * The configuration store: a table of string keys to string values, kept
 * here as a map, with callbacks that `set_config` schedules for the key it
 * writes. Scheduled callbacks are recorded, in order, as notifications.
 */
module DataConnection {
  import opened Options
  import opened Handlers

  /** One `create_task(action(key, value))` issued by set_config. */
  datatype Notification = Notification(callback: BoundMethod, key: string, value: string)

  /** The comprehension `[action for watched_key, action in actions if key == watched_key]`. */
  function Watching(actions: seq<(string, BoundMethod)>, key: string): (r: seq<BoundMethod>)
    ensures |r| <= |actions|
    ensures forall i :: 0 <= i < |r| ==> (key, r[i]) in actions
    ensures forall j :: 0 <= j < |actions| && actions[j].0 == key ==> actions[j].1 in r
    decreases |actions|
  {
    if actions == [] then []
    else
      var init := actions[..|actions| - 1];
      var last := actions[|actions| - 1];
      assert actions == init + [last];
      Watching(init, key) + (if last.0 == key then [last.1] else [])
  }

  /** Registering a callback adds one firing for its key, after the earlier ones, and none for other keys. */
  lemma WatchingRegister(actions: seq<(string, BoundMethod)>, key: string, callback: BoundMethod, other: string)
    requires other != key
    ensures Watching(actions + [(key, callback)], key) == Watching(actions, key) + [callback]
    ensures Watching(actions + [(key, callback)], other) == Watching(actions, other)
  {
    assert (actions + [(key, callback)])[..|actions|] == actions;
  }

  /** The tasks set_config creates: each callback called with the key and the value, in order. */
  function Notify(callbacks: seq<BoundMethod>, key: string, value: string): (r: seq<Notification>)
    ensures |r| == |callbacks|
    ensures forall i :: 0 <= i < |r| ==> r[i] == Notification(callbacks[i], key, value)
  {
    seq(|callbacks|, i requires 0 <= i < |callbacks| => Notification(callbacks[i], key, value))
  }

  /** What get_config returns. An access error reads as None, whatever the default. */
  function ReadResult(values: map<string, string>, denied: bool, key: string, default: Option<string>): Option<string> {
    if denied then None
    else if key in values then Some(values[key])
    else default
  }

  /** Whether get_config persists its default through set_config. */
  predicate WritesDefault(values: map<string, string>, denied: bool, key: string, default: Option<string>) {
    !denied && key !in values && default.Some?
  }

  /** The table after get_config. */
  function AfterRead(values: map<string, string>, denied: bool, key: string, default: Option<string>): map<string, string> {
    if WritesDefault(values, denied, key, default) then values[key := default.value] else values
  }

  /** The callback tasks get_config creates: those of the set_config that stores the default, if it does. */
  function ReadNotifications(actions: seq<(string, BoundMethod)>, values: map<string, string>, denied: bool,
                             key: string, default: Option<string>): seq<Notification> {
    if WritesDefault(values, denied, key, default) then Notify(Watching(actions, key), key, default.value) else []
  }

  /** After a successful set, reading the key yields the value, and any other key reads as before. */
  lemma SetThenGet(values: map<string, string>, key: string, value: string, other: string, d: Option<string>, e: Option<string>)
    requires other != key
    ensures ReadResult(values[key := value], false, key, d) == Some(value)
    ensures ReadResult(values[key := value], false, other, e) == ReadResult(values, false, other, e)
  {
  }

  /** A default is written once: reading with a default twice returns what the first read returned. */
  lemma DefaultIsSticky(values: map<string, string>, key: string, d: string, d2: Option<string>)
    ensures var first := ReadResult(values, false, key, Some(d));
            var after := if WritesDefault(values, false, key, Some(d)) then values[key := d] else values;
            first.Some? && ReadResult(after, false, key, d2) == first
  {
  }

  class WeepingWillowDataConnection {
    /** The rows of `bot_config`. */
    var values: map<string, string>
    /** `config_change_actions`, in registration order. */
    var configChangeActions: seq<(string, BoundMethod)>
    /** Callback tasks created so far, in creation order. */
    var scheduled: seq<Notification>
    /** Whether the database refuses the bot's statements (SyntaxOrAccessError). */
    const accessDenied: bool

    constructor (initial: map<string, string>, accessDenied: bool)
      ensures values == initial && this.accessDenied == accessDenied
      ensures configChangeActions == [] && scheduled == []
    {
      values := initial;
      this.accessDenied := accessDenied;
      configChangeActions := [];
      scheduled := [];
    }

    /**
     * set_config: delete-then-insert inside a transaction, so one value per key. A refused write
     * leaves the table as it was, and the callbacks for the key are scheduled in either case.
     */
    method SetConfig(key: string, value: string)
      modifies this
      ensures values == if accessDenied then old(values) else old(values)[key := value]
      ensures configChangeActions == old(configChangeActions)
      ensures scheduled == old(scheduled) + Notify(Watching(configChangeActions, key), key, value)
    {
      if !accessDenied {
        values := values[key := value];
      }
      var actions := Watching(configChangeActions, key);
      scheduled := scheduled + Notify(actions, key, value);
    }

    /** get_config: the stored value; else the default, stored through SetConfig; else None. */
    method GetConfig(key: string, default: Option<string>) returns (r: Option<string>)
      modifies this
      ensures r == ReadResult(old(values), accessDenied, key, default)
      ensures configChangeActions == old(configChangeActions)
      ensures values == AfterRead(old(values), accessDenied, key, default)
      ensures scheduled == old(scheduled) + ReadNotifications(configChangeActions, old(values), accessDenied, key, default)
    {
      if accessDenied {
        return None;
      }
      if key !in values && default.Some? {
        SetConfig(key, default.value);
        return default;
      }
      if key !in values {
        return None;
      }
      return Some(values[key]);
    }

    /** on_config_change: appends, so a callback registered twice fires twice. */
    method OnConfigChange(key: string, callback: BoundMethod)
      modifies this
      ensures configChangeActions == old(configChangeActions) + [(key, callback)]
      ensures values == old(values) && scheduled == old(scheduled)
    {
      configChangeActions := configChangeActions + [(key, callback)];
    }
  }
}
