/**
 * Database upgrades: migrations registered by a decorator as (from, to, function)
 * steps, and one pass over them that runs each step whose `from` is the current
 * version. The database is abstracted to the parts the migrations touch.
 */
module Upgrades {
  import opened Options
  import opened Text
  import Events

  datatype Migration = InitializeDatabase | MakeModuleCommands

  /** One entry of `version_functions`. */
  datatype Step = Step(from: string, to: string, func: Migration)

  /**
   * The database: the `bot_config` table, the `_version` table (None: absent), the
   * `event_channels` rows in insertion order, day 0 first (None: table absent; a None row is
   * NULL) and whether `event_participants` exists.
   */
  datatype Database = Database(
    config: map<string, string>,
    version: Option<string>,
    eventChannels: Option<seq<Option<int>>>,
    participantsTable: bool)

  /** `config_keys` of make_module_commands. */
  const ConfigKeys: seq<string> := ["participant_channel_mon", "participant_channel_tue",
    "participant_channel_wed", "participant_channel_thu", "participant_channel_fri",
    "participant_channel_sat", "participant_channel_sun"]

  /** The migration's keys are the event module's keys, day for day. */
  lemma ConfigKeysAreEventKeys(t: int)
    ensures |ConfigKeys| == |Events.Weekdays|
    ensures forall i :: 0 <= i < |ConfigKeys| ==> ConfigKeys[i] == "participant_channel_" + Events.Weekdays[i]
    ensures Events.ChannelKeyFor(t) == ConfigKeys[Events.Weekday(t)]
  {
  }

  /** The LIKE pattern `'participant_channel%'`: `_` stands for any one character. */
  const LikePrefix := "participant_channel"

  predicate MatchesLike(key: string) {
    |LikePrefix| <= |key| && forall i :: 0 <= i < |LikePrefix| ==> LikePrefix[i] == '_' || key[i] == LikePrefix[i]
  }

  /** Every day's key matches the pattern, and the role setting does not. */
  lemma LikeCoversDayKeys()
    ensures forall i :: 0 <= i < |ConfigKeys| ==> MatchesLike(ConfigKeys[i])
    ensures !MatchesLike("participant_role")
  {
    assert "participant_role"[12] != LikePrefix[12];
    forall i | 0 <= i < |ConfigKeys|
      ensures MatchesLike(ConfigKeys[i])
    {
      assert ConfigKeys[i][..|LikePrefix|] == LikePrefix;
    }
  }

  /** `DELETE FROM bot_config WHERE config_key LIKE 'participant_channel%'`. */
  function DeleteLike(config: map<string, string>): (r: map<string, string>)
    ensures forall k :: k in r ==> !MatchesLike(k)
    ensures forall k :: k in config && !MatchesLike(k) ==> k in r && r[k] == config[k]
    ensures r.Keys <= config.Keys
  {
    map k | k in config && !MatchesLike(k) :: config[k]
  }

  /** The seven rows from day `i` on: `int()` of the day's setting, NULL when unset; None where int() raises. */
  function RowsFrom(config: map<string, string>, i: nat): Option<seq<Option<int>>>
    requires i <= |ConfigKeys|
    decreases |ConfigKeys| - i
  {
    if i == |ConfigKeys| then Some([])
    else
      var key := ConfigKeys[i];
      var row := if key in config then ParseInt(config[key]) else Some(0);
      if row.None? then None
      else
        match RowsFrom(config, i + 1)
        case None => None
        case Some(rest) => Some([if key in config then row else None] + rest)
  }

  /** The row builder of make_module_commands. */
  function EventChannelRows(config: map<string, string>): Option<seq<Option<int>>> {
    RowsFrom(config, 0)
  }

  /** A day whose setting int() rejects. */
  predicate Unparsable(config: map<string, string>, i: nat)
    requires i < |ConfigKeys|
  {
    ConfigKeys[i] in config && ParseInt(config[ConfigKeys[i]]).None?
  }

  lemma {:induction false} RowsFromMeaning(config: map<string, string>, i: nat)
    requires i <= |ConfigKeys|
    ensures RowsFrom(config, i).None? <==> exists j :: i <= j < |ConfigKeys| && Unparsable(config, j)
    ensures RowsFrom(config, i).Some? ==>
              |RowsFrom(config, i).value| == |ConfigKeys| - i
              && forall j :: i <= j < |ConfigKeys| ==>
                   RowsFrom(config, i).value[j - i]
                     == (if ConfigKeys[j] in config then ParseInt(config[ConfigKeys[j]]) else None)
    decreases |ConfigKeys| - i
  {
    if i < |ConfigKeys| {
      RowsFromMeaning(config, i + 1);
      var key := ConfigKeys[i];
      if RowsFrom(config, i).Some? {
        var rest := RowsFrom(config, i + 1).value;
        var rows := RowsFrom(config, i).value;
        assert rows == [if key in config then ParseInt(config[key]) else None] + rest;
        forall j | i < j < |ConfigKeys|
          ensures rows[j - i] == (if ConfigKeys[j] in config then ParseInt(config[ConfigKeys[j]]) else None)
        {
          assert rows[j - i] == rest[j - (i + 1)];
        }
      }
      if RowsFrom(config, i).None? && !Unparsable(config, i) {
        var j :| i + 1 <= j < |ConfigKeys| && Unparsable(config, j);
      }
    }
  }

  /**
   * Exactly seven rows: row i is `int()` of day i's setting, or NULL when the setting is absent;
   * the build raises exactly when some present setting is not a number.
   */
  lemma EventChannelRowsMeaning(config: map<string, string>)
    ensures EventChannelRows(config).None? <==> exists j :: 0 <= j < |ConfigKeys| && Unparsable(config, j)
    ensures EventChannelRows(config).Some? ==>
              |EventChannelRows(config).value| == 7
              && forall j :: 0 <= j < 7 ==>
                   EventChannelRows(config).value[j]
                     == (if ConfigKeys[j] in config then ParseInt(config[ConfigKeys[j]]) else None)
  {
    RowsFromMeaning(config, 0);
  }

  /** A migration's effect; None where it raises. make_module_commands runs in one transaction. */
  function Apply(func: Migration, db: Database): Option<Database> {
    match func
    case InitializeDatabase =>
      // CREATE TABLE _version, then INSERT '0.0.0'
      if db.version.Some? then None else Some(db.(version := Some("0.0.0")))
    case MakeModuleCommands =>
      var rows := EventChannelRows(db.config);
      if db.eventChannels.Some? || rows.None? || db.participantsTable then None
      else Some(db.(config := DeleteLike(db.config), eventChannels := rows, participantsTable := true))
  }

  /** `_set_version`: UPDATE _version; None where the table is missing. */
  function SetVersion(db: Database, version: string): Option<Database> {
    if db.version.None? then None else Some(db.(version := Some(version)))
  }

  /** `_get_current_version`: the stored version, `'0.0.0'` when the table is missing. */
  function CurrentVersion(db: Database): string {
    if db.version.None? then "0.0.0" else db.version.value
  }

  /** What a pass did: the migrations it ran, in order, the version it ended at, the database, and whether it raised. */
  datatype UpgradeRun = UpgradeRun(ran: seq<Migration>, current: string, db: Database, raised: bool)

  function Prepend(func: Migration, r: UpgradeRun): UpgradeRun {
    UpgradeRun([func] + r.ran, r.current, r.db, r.raised)
  }

  /** upgrade_database_async from the step at index `i` on: a step runs when the version is its `from`. */
  function ChainFrom(steps: seq<Step>, i: nat, current: string, db: Database): UpgradeRun
    requires i <= |steps|
    decreases |steps| - i
  {
    if i == |steps| then UpgradeRun([], current, db, false)
    else if steps[i].from != current then ChainFrom(steps, i + 1, current, db)
    else
      var f := steps[i].func;
      match Apply(f, db)
      case None => UpgradeRun([f], current, db, true)
      case Some(db1) =>
        (match SetVersion(db1, steps[i].to)
         case None => UpgradeRun([f], current, db1, true)
         case Some(db2) => Prepend(f, ChainFrom(steps, i + 1, steps[i].to, db2)))
  }

  function Chain(steps: seq<Step>, db: Database): UpgradeRun {
    ChainFrom(steps, 0, CurrentVersion(db), db)
  }

  /** The order `@upgrade` registers in: decorators apply bottom-up, so the '0.0.2-dev' step comes before the '0.0.1' one. */
  const Registered: seq<Step> := [
    Step("0.0.0", "0.0.1", InitializeDatabase),
    Step("0.0.2-dev", "0.0.2", MakeModuleCommands),
    Step("0.0.1", "0.0.2", MakeModuleCommands)]

  /**
   * Each step runs at most once, in list order: the migrations a pass runs are those of strictly
   * increasing step indices `idx`, the first starting at the version the pass started from and
   * each later one at the version the previous step set.
   */
  lemma {:induction false} RanAtMostOncePerStep(steps: seq<Step>, i: nat, current: string, db: Database)
    returns (idx: seq<nat>)
    requires i <= |steps|
    ensures var ran := ChainFrom(steps, i, current, db).ran;
            |idx| == |ran|
            && (forall k :: 0 <= k < |idx| ==> i <= idx[k] < |steps| && ran[k] == steps[idx[k]].func)
            && (forall k, l :: 0 <= k < l < |idx| ==> idx[k] < idx[l])
            && (|idx| > 0 ==> steps[idx[0]].from == current)
            && (forall k :: 0 < k < |idx| ==> steps[idx[k]].from == steps[idx[k - 1]].to)
    decreases |steps| - i
  {
    if i == |steps| {
      return [];
    }
    if steps[i].from != current {
      idx := RanAtMostOncePerStep(steps, i + 1, current, db);
      return;
    }
    match Apply(steps[i].func, db)
    case None =>
      idx := [i];
    case Some(db1) =>
      match SetVersion(db1, steps[i].to)
      case None =>
        idx := [i];
      case Some(db2) =>
        var rest := RanAtMostOncePerStep(steps, i + 1, steps[i].to, db2);
        idx := [i] + rest;
        assert forall k :: 0 < k < |idx| ==> idx[k] == rest[k - 1];
  }

  /** From a version no remaining step starts at, nothing runs and nothing changes. */
  lemma {:induction false} UnregisteredVersionRunsNothing(steps: seq<Step>, i: nat, current: string, db: Database)
    requires i <= |steps|
    requires forall j :: i <= j < |steps| ==> steps[j].from != current
    ensures ChainFrom(steps, i, current, db) == UpgradeRun([], current, db, false)
    decreases |steps| - i
  {
    if i < |steps| {
      UnregisteredVersionRunsNothing(steps, i + 1, current, db);
    }
  }

  /** A fresh database: both migrations run, in order, and the version ends at '0.0.2'. */
  lemma FromScratch(db: Database)
    requires db.version.None? && db.eventChannels.None? && !db.participantsTable
    requires EventChannelRows(db.config).Some?
    ensures var r := Chain(Registered, db);
            r.ran == [InitializeDatabase, MakeModuleCommands] && r.current == "0.0.2" && !r.raised
            && r.db.version == Some("0.0.2") && r.db.eventChannels == EventChannelRows(db.config)
            && (forall k :: k in r.db.config ==> !MatchesLike(k))
  {
    var db1 := db.(version := Some("0.0.1"));
    assert ChainFrom(Registered, 1, "0.0.1", db1) == ChainFrom(Registered, 2, "0.0.1", db1);
    var db2 := db1.(config := DeleteLike(db1.config), eventChannels := EventChannelRows(db1.config),
                    participantsTable := true, version := Some("0.0.2"));
    UnregisteredVersionRunsNothing(Registered, 3, "0.0.2", db2);
  }

  /** A development database at '0.0.2-dev' runs only make_module_commands and ends at '0.0.2'. */
  lemma FromDevelopmentVersion(db: Database)
    requires db.version == Some("0.0.2-dev") && db.eventChannels.None? && !db.participantsTable
    requires EventChannelRows(db.config).Some?
    ensures var r := Chain(Registered, db);
            r.ran == [MakeModuleCommands] && r.current == "0.0.2" && !r.raised
  {
    var db2 := db.(config := DeleteLike(db.config), eventChannels := EventChannelRows(db.config),
                   participantsTable := true, version := Some("0.0.2"));
    UnregisteredVersionRunsNothing(Registered, 2, "0.0.2", db2);
  }

  /** At '0.0.2', or at any version no step starts from, a pass does nothing. */
  lemma UpToDateRunsNothing(db: Database)
    requires CurrentVersion(db) !in {"0.0.0", "0.0.1", "0.0.2-dev"}
    ensures Chain(Registered, db) == UpgradeRun([], CurrentVersion(db), db, false)
  {
    UnregisteredVersionRunsNothing(Registered, 0, CurrentVersion(db), db);
  }

  /** A day setting that is not a number makes the second migration raise, leaving the database at '0.0.1'. */
  lemma BadDaySettingStopsAtFirstVersion(db: Database, j: nat)
    requires db.version.None? && db.eventChannels.None? && !db.participantsTable
    requires j < |ConfigKeys| && Unparsable(db.config, j)
    ensures var r := Chain(Registered, db);
            r.ran == [InitializeDatabase, MakeModuleCommands] && r.raised
            && r.current == "0.0.1" && r.db == db.(version := Some("0.0.1"))
  {
    EventChannelRowsMeaning(db.config);
    var db1 := db.(version := Some("0.0.1"));
    assert ChainFrom(Registered, 1, "0.0.1", db1) == ChainFrom(Registered, 2, "0.0.1", db1);
  }

  /** The module-level `version_functions` list and the `upgrade` decorator. */
  class UpgradeRegistry {
    var versionFunctions: seq<Step>

    constructor ()
      ensures versionFunctions == []
    {
      versionFunctions := [];
    }

    /** `upgrade(from, to)(func)`: append the step, return the function unchanged. */
    method Upgrade(from: string, to: string, func: Migration) returns (r: Migration)
      modifies this
      ensures r == func
      ensures versionFunctions == old(versionFunctions) + [Step(from, to, func)]
    {
      versionFunctions := versionFunctions + [Step(from, to, func)];
      r := func;
    }

    /** Importing the module: the decorators in the order Python applies them. */
    method RegisterAll()
      modifies this
      ensures versionFunctions == old(versionFunctions) + Registered
    {
      var _ := Upgrade("0.0.0", "0.0.1", InitializeDatabase);
      var _ := Upgrade("0.0.2-dev", "0.0.2", MakeModuleCommands);
      var _ := Upgrade("0.0.1", "0.0.2", MakeModuleCommands);
    }

    /** upgrade_database_async: one pass over the steps; an exception ends it. */
    method UpgradeDatabase(db: Database) returns (r: UpgradeRun)
      ensures r == Chain(versionFunctions, db)
    {
      var current := CurrentVersion(db);
      var state := db;
      var ran: seq<Migration> := [];
      for i := 0 to |versionFunctions|
        invariant Chain(versionFunctions, db)
                    == UpgradeRun(ran + ChainFrom(versionFunctions, i, current, state).ran,
                                  ChainFrom(versionFunctions, i, current, state).current,
                                  ChainFrom(versionFunctions, i, current, state).db,
                                  ChainFrom(versionFunctions, i, current, state).raised)
      {
        var step := versionFunctions[i];
        if current == step.from {
          ran := ran + [step.func];
          var next := Apply(step.func, state);
          if next.None? {
            return UpgradeRun(ran, current, state, true);
          }
          var updated := SetVersion(next.value, step.to);
          if updated.None? {
            return UpgradeRun(ran, current, next.value, true);
          }
          assert [step.func] + ChainFrom(versionFunctions, i + 1, step.to, updated.value).ran
                 == ChainFrom(versionFunctions, i, current, state).ran;
          state := updated.value;
          current := step.to;
        }
      }
      r := UpgradeRun(ran, current, state, false);
    }
  }
}
