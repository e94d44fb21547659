/**
 * The expiry bookkeeping shared by both venting modules: a table of
 * message id to deletion time and a table of message id to message, kept
 * with the same keys. Times are integer seconds.
 */
module Schedules {
  import opened Triggers

  /** `deletion_schedules` and `messages`. */
  datatype Store = Store(schedules: map<int, int>, messages: map<int, Message>)

  /** Both tables have the same ids, and each message is filed under its own id. */
  predicate Lockstep(s: Store) {
    s.schedules.Keys == s.messages.Keys && forall id :: id in s.messages ==> s.messages[id].id == id
  }

  /** `process`: the message in both tables under its id, due `secs` after it was created. */
  function Record(s: Store, m: Message, secs: int): Store {
    Store(s.schedules[m.id := m.createdAt + secs], s.messages[m.id := m])
  }

  /** Recording keeps the tables in lockstep; the message's entry is the new one, every other entry stays. */
  lemma RecordKeepsLockstep(s: Store, m: Message, secs: int)
    requires Lockstep(s)
    ensures var r := Record(s, m, secs);
            Lockstep(r) && r.schedules.Keys == s.schedules.Keys + {m.id}
            && r.schedules[m.id] == m.createdAt + secs && r.messages[m.id] == m
            && (forall id :: id in s.schedules && id != m.id ==> r.schedules[id] == s.schedules[id] && r.messages[id] == s.messages[id])
  {
  }

  /** Re-processing an id replaces its entry: one schedule per id, the latest one. */
  lemma RecordOverwrites(s: Store, m1: Message, m2: Message, secs1: int, secs2: int)
    requires m1.id == m2.id
    ensures Record(Record(s, m1, secs1), m2, secs2) == Record(s, m2, secs2)
  {
  }

  /** The ids whose deletion time has come: `now >= deletion_schedules[id]`. */
  function Due(s: Store, now: int): set<int> {
    set id | id in s.schedules && s.schedules[id] <= now
  }

  /** A sweep: every due id leaves both tables, whether or not its delete succeeded. */
  function Sweep(s: Store, now: int): Store {
    Store(map id | id in s.schedules && s.schedules[id] > now :: s.schedules[id],
          map id | id in s.messages && id !in Due(s, now) :: s.messages[id])
  }

  /** A sweep part-way through its snapshot: the ids still `pending` are untouched, the others are swept. */
  function PartialSweep(s: Store, pending: set<int>, now: int): Store {
    Store(map k | k in s.schedules && (k in pending || s.schedules[k] > now) :: s.schedules[k],
          map k | k in s.messages && (k in pending || k !in Due(s, now)) :: s.messages[k])
  }

  /** Before any id is visited nothing has changed. */
  lemma PartialSweepStart(s: Store, now: int)
    ensures PartialSweep(s, s.schedules.Keys, now) == s
  {
    var p := PartialSweep(s, s.schedules.Keys, now);
    assert forall k :: k in Due(s, now) ==> k in s.schedules;
    assert p.schedules == s.schedules;
    assert p.messages == s.messages;
  }

  /** Once every id is visited the sweep is complete. */
  lemma PartialSweepEnd(s: Store, now: int)
    ensures PartialSweep(s, {}, now) == Sweep(s, now)
  {
  }

  /** Visiting one pending id removes it from both tables when it is due and changes nothing otherwise. */
  lemma PartialSweepStep(s: Store, pending: set<int>, now: int, k: int)
    requires k in pending && pending <= s.schedules.Keys
    ensures var p := PartialSweep(s, pending, now);
            k in p.schedules && p.schedules[k] == s.schedules[k]
            && PartialSweep(s, pending - {k}, now)
                 == (if s.schedules[k] <= now then Store(p.schedules - {k}, p.messages - {k}) else p)
  {
    var p := PartialSweep(s, pending, now);
    var q := PartialSweep(s, pending - {k}, now);
    if s.schedules[k] <= now {
      assert q.schedules == p.schedules - {k};
      assert q.messages == p.messages - {k};
    } else {
      assert q.schedules == p.schedules;
      assert q.messages == p.messages;
    }
  }

  /** A sweep removes exactly the due entries and keeps the others with their times, in lockstep. */
  lemma SweepRemovesExactlyDue(s: Store, now: int)
    requires Lockstep(s)
    ensures var r := Sweep(s, now);
            Lockstep(r)
            && r.schedules.Keys == s.schedules.Keys - Due(s, now)
            && (forall id :: id in r.schedules ==> r.schedules[id] == s.schedules[id] && r.messages[id] == s.messages[id])
            && (forall id :: id in r.schedules ==> r.schedules[id] > now)
  {
    var r := Sweep(s, now);
    assert r.schedules.Keys == s.schedules.Keys - Due(s, now);
    assert r.messages.Keys == s.messages.Keys - Due(s, now);
  }

  /** Two sweeps are one sweep at the later time; in particular sweeping again at once changes nothing. */
  lemma SweepTwice(s: Store, t1: int, t2: int)
    ensures Sweep(Sweep(s, t1), t2) == Sweep(s, if t1 < t2 then t2 else t1)
  {
    var t := if t1 < t2 then t2 else t1;
    var a, b := Sweep(Sweep(s, t1), t2), Sweep(s, t);
    assert a.schedules == b.schedules;
    forall id
      ensures id in a.messages <==> id in b.messages
    {
      assert id in Due(Sweep(s, t1), t2) <==> id in s.schedules && t1 < s.schedules[id] <= t2;
      assert id in Due(s, t1) <==> id in s.schedules && s.schedules[id] <= t1;
      assert id in Due(s, t) <==> id in s.schedules && s.schedules[id] <= t;
    }
    assert a.messages == b.messages;
  }

  /** The ids of a window of messages. */
  function Ids(window: seq<Message>): set<int> {
    set i | 0 <= i < |window| :: window[i].id
  }

  /** Some message of the window is not tracked yet. */
  predicate Untracked(s: Store, window: seq<Message>) {
    exists i :: 0 <= i < |window| && window[i].id !in s.schedules
  }

  /** A rescan: the window's messages in order, each one recorded only when its id is not tracked yet. */
  function Track(s: Store, window: seq<Message>, secs: int): Store
    decreases |window|
  {
    if window == [] then s
    else Track(if window[0].id in s.schedules then s else Record(s, window[0], secs), window[1..], secs)
  }

  /** A rescan keeps the tables in lockstep and adds exactly the window's ids. */
  lemma {:induction false} TrackAddsWindow(s: Store, window: seq<Message>, secs: int)
    requires Lockstep(s)
    ensures Lockstep(Track(s, window, secs))
    ensures Track(s, window, secs).schedules.Keys == s.schedules.Keys + Ids(window)
    decreases |window|
  {
    if window != [] {
      var next := if window[0].id in s.schedules then s else Record(s, window[0], secs);
      RecordKeepsLockstep(s, window[0], secs);
      TrackAddsWindow(next, window[1..], secs);
      assert Ids(window) == {window[0].id} + Ids(window[1..]) by {
        assert forall i :: 0 < i < |window| ==> window[i].id == window[1..][i - 1].id;
        assert forall j :: 0 <= j < |window| - 1 ==> window[1..][j].id == window[j + 1].id;
      }
    }
  }

  /** A rescan never touches an entry that was already tracked. */
  lemma {:induction false} TrackKeepsTracked(s: Store, window: seq<Message>, secs: int, id: int)
    requires id in s.schedules && id in s.messages
    ensures var r := Track(s, window, secs);
            id in r.schedules && r.schedules[id] == s.schedules[id] && id in r.messages && r.messages[id] == s.messages[id]
    decreases |window|
  {
    if window != [] {
      var next := if window[0].id in s.schedules then s else Record(s, window[0], secs);
      TrackKeepsTracked(next, window[1..], secs, id);
    }
  }

  /** An untracked id gets the time of its first message in the window: later copies are skipped. */
  lemma {:induction false} TrackFirstOccurrence(s: Store, window: seq<Message>, secs: int, j: nat)
    requires j < |window| && window[j].id !in s.schedules
    requires forall k :: 0 <= k < j ==> window[k].id != window[j].id
    ensures var r := Track(s, window, secs);
            window[j].id in r.schedules && r.schedules[window[j].id] == window[j].createdAt + secs
            && window[j].id in r.messages && r.messages[window[j].id] == window[j]
    decreases |window|
  {
    if j == 0 {
      TrackKeepsTracked(Record(s, window[0], secs), window[1..], secs, window[0].id);
    } else {
      var next := if window[0].id in s.schedules then s else Record(s, window[0], secs);
      assert window[1..][j - 1] == window[j];
      TrackFirstOccurrence(next, window[1..], secs, j - 1);
    }
  }

  /** A window whose ids are all tracked changes nothing. */
  lemma {:induction false} TrackAllTracked(s: Store, window: seq<Message>, secs: int)
    requires !Untracked(s, window)
    ensures Track(s, window, secs) == s
    decreases |window|
  {
    if window != [] {
      assert window[0].id in s.schedules;
      assert forall i :: 0 <= i < |window| - 1 ==> window[1..][i] == window[i + 1];
      TrackAllTracked(s, window[1..], secs);
    }
  }

  /** Rescanning the same window at once changes nothing. */
  lemma RescanChangesNothing(s: Store, window: seq<Message>, secs: int, secs2: int)
    requires Lockstep(s)
    ensures Track(Track(s, window, secs), window, secs2) == Track(s, window, secs)
  {
    TrackAddsWindow(s, window, secs);
    var r := Track(s, window, secs);
    assert forall i :: 0 <= i < |window| ==> window[i].id in Ids(window);
    TrackAllTracked(r, window, secs2);
  }
}
