/**
 * The older venting module: the deletion delay is a fixed number read from
 * the bot's configuration file, `process` is synchronous, and the loop only
 * sweeps; there is no rescan and no reset.
 */
module LegacyVenting {
  import opened Client
  import opened Triggers
  import opened Schedules

  class VentingModule {
    const client: WeepingWillowClient
    /** `config['venting']['deletion_seconds']`. */
    const deletionSeconds: int
    var deletionSchedules: map<int, int>
    var messages: map<int, Message>
    var isOpen: bool

    function Contents(): Store
      reads this
    {
      Store(deletionSchedules, messages)
    }

    predicate Valid()
      reads this
    {
      Lockstep(Contents())
    }

    constructor (client: WeepingWillowClient, deletionSeconds: int)
      ensures this.client == client && this.deletionSeconds == deletionSeconds
      ensures Valid() && Contents() == Store(map[], map[]) && isOpen
    {
      this.client := client;
      this.deletionSeconds := deletionSeconds;
      deletionSchedules := map[];
      messages := map[];
      isOpen := true;
    }

    /** process: the message in both tables, due `deletion_seconds` after it was created; an earlier entry for the id is replaced. */
    method Process(m: Message)
      requires Valid()
      modifies this
      ensures Valid()
      ensures Contents() == Record(old(Contents()), m, deletionSeconds)
      ensures isOpen == old(isOpen)
    {
      RecordKeepsLockstep(Contents(), m, deletionSeconds);
      deletionSchedules := deletionSchedules[m.id := m.createdAt + deletionSeconds];
      messages := messages[m.id := m];
    }

    /**
     * execute_scheduled_deletions over a snapshot of the ids (`.copy()`): each due message gets one
     * delete attempt, `attempted`, and leaves both tables whether that attempt raised or not.
     */
    method ExecuteScheduledDeletions(now: int) returns (attempted: set<int>)
      requires Valid()
      modifies this
      ensures Valid()
      ensures Contents() == Sweep(old(Contents()), now)
      ensures attempted == Due(old(Contents()), now)
      ensures isOpen == old(isOpen)
    {
      ghost var s0 := Contents();
      var snapshot := deletionSchedules.Keys;
      var todo := snapshot;
      attempted := {};
      PartialSweepStart(s0, now);
      assert Due(s0, now) - todo == {};
      while todo != {}
        invariant todo <= snapshot == s0.schedules.Keys
        invariant Contents() == PartialSweep(s0, todo, now)
        invariant attempted == Due(s0, now) - todo
        invariant isOpen == old(isOpen)
        decreases |todo|
      {
        if forall e :: e !in todo {
          assert false;
        }
        var k :| k in todo;
        PartialSweepStep(s0, todo, now, k);
        if now >= deletionSchedules[k] {
          attempted := attempted + {k};
          deletionSchedules := deletionSchedules - {k};
          messages := messages - {k};
        }
        todo := todo - {k};
      }
      assert Due(s0, now) - todo == Due(s0, now);
      PartialSweepEnd(s0, now);
      SweepRemovesExactlyDue(s0, now);
    }

    /** One iteration of run_loop: a closed module's loop has ended; otherwise one sweep. */
    method RunLoopTick(now: int) returns (alive: bool)
      requires Valid()
      modifies this
      ensures Valid() && alive == old(isOpen) && isOpen == old(isOpen)
      ensures Contents() == if alive then Sweep(old(Contents()), now) else old(Contents())
    {
      if !isOpen {
        return false;
      }
      var _ := ExecuteScheduledDeletions(now);
      alive := true;
    }
  }

  /** A message processed at creation time t with delay d is still tracked before t + d and swept from then on. */
  lemma LifetimeOfAMessage(s: Store, m: Message, d: int, now: int)
    requires Lockstep(s)
    ensures m.id in Sweep(Record(s, m, d), now).schedules <==> now < m.createdAt + d
  {
    RecordKeepsLockstep(s, m, d);
    SweepRemovesExactlyDue(Record(s, m, d), now);
  }
}
