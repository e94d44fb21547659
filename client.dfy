/**
 * The client: the ordered trigger list, the module list, and dispatch of an
 * incoming message over the triggers in registration order.
 */
module Client {
  import opened Options
  import opened Lists
  import opened Handlers
  import opened DataConnection
  import opened Triggers

  /** How a dispatch ended: a handler returned a truthy value, the list ran out, or an exception escaped. */
  datatype End = Stopped | Exhausted | Aborted

  /** The handlers a dispatch called, in call order, and how it ended. */
  datatype Dispatch = Dispatch(invoked: seq<BoundMethod>, end: End)

  /** The command objects the triggers of a list read. */
  function CommandsIn(ts: seq<Option<Trigger>>): set<object> {
    set i | 0 <= i < |ts| && ts[i].Some? && ts[i].value.CommandTrigger? :: ts[i].value.command as object
  }

  function Then(before: seq<BoundMethod>, d: Dispatch): Dispatch {
    Dispatch(before + d.invoked, d.end)
  }

  /** Dispatching over one list and then over another: the second is reached only when the first ran out. */
  function Combine(first: Dispatch, second: Dispatch): Dispatch {
    if first.end == Exhausted then Then(first.invoked, second) else first
  }

  /**
   * on_message from position `i` on: evaluate each entry in order; call the handler of one that
   * fires; stop at a truthy result, go on after a falsy one, abort on an exception.
   * `outcome` gives what each handler returns for the message.
   */
  function RunFrom(ts: seq<Option<Trigger>>, i: nat, m: Message, outcome: (BoundMethod, Message) -> Outcome): Dispatch
    requires i <= |ts|
    reads CommandsIn(ts)
    decreases |ts| - i
  {
    if i == |ts| then Dispatch([], Exhausted)
    else
      match EvaluateEntry(ts[i], m)
      case Raises => Dispatch([], Aborted)
      case Passes => RunFrom(ts, i + 1, m, outcome)
      case Fires(a) =>
        (match outcome(a, m)
         case Truthy => Dispatch([a], Stopped)
         case Raised => Dispatch([a], Aborted)
         case Falsy => Then([a], RunFrom(ts, i + 1, m, outcome)))
  }

  function Run(ts: seq<Option<Trigger>>, m: Message, outcome: (BoundMethod, Message) -> Outcome): Dispatch
    reads CommandsIn(ts)
  {
    RunFrom(ts, 0, m, outcome)
  }

  /** The actions of every entry from position `i` on that fires for the message, in list order. */
  function FiredFrom(ts: seq<Option<Trigger>>, i: nat, m: Message): seq<BoundMethod>
    requires i <= |ts|
    reads CommandsIn(ts)
    decreases |ts| - i
  {
    if i == |ts| then []
    else
      var e := EvaluateEntry(ts[i], m);
      (if e.Fires? then [e.action] else []) + FiredFrom(ts, i + 1, m)
  }

  function Fired(ts: seq<Option<Trigger>>, m: Message): seq<BoundMethod>
    reads CommandsIn(ts)
  {
    FiredFrom(ts, 0, m)
  }

  /** Dispatch over the tail of `a + b` is dispatch over `b`. */
  lemma {:induction false} RunFromShift(a: seq<Option<Trigger>>, b: seq<Option<Trigger>>, j: nat, m: Message,
                                        outcome: (BoundMethod, Message) -> Outcome)
    requires j <= |b|
    ensures RunFrom(a + b, |a| + j, m, outcome) == RunFrom(b, j, m, outcome)
    decreases |b| - j
  {
    if j < |b| {
      assert (a + b)[|a| + j] == b[j];
      RunFromShift(a, b, j + 1, m, outcome);
    }
  }

  lemma {:induction false} RunFromAppend(a: seq<Option<Trigger>>, b: seq<Option<Trigger>>, i: nat, m: Message,
                                         outcome: (BoundMethod, Message) -> Outcome)
    requires i <= |a|
    ensures RunFrom(a + b, i, m, outcome) == Combine(RunFrom(a, i, m, outcome), Run(b, m, outcome))
    decreases |a| - i
  {
    if i == |a| {
      RunFromShift(a, b, 0, m, outcome);
    } else {
      assert (a + b)[i] == a[i];
      RunFromAppend(a, b, i + 1, m, outcome);
      var rest := RunFrom(a, i + 1, m, outcome);
      var rb := Run(b, m, outcome);
      match EvaluateEntry(a[i], m)
      case Raises =>
      case Passes =>
      case Fires(x) =>
        if outcome(x, m) == Falsy && rest.end == Exhausted {
          assert [x] + (rest.invoked + rb.invoked) == ([x] + rest.invoked) + rb.invoked;
        }
    }
  }

  /** Dispatch over a concatenation reaches the second list only when the first ran out. */
  lemma RunAppend(a: seq<Option<Trigger>>, b: seq<Option<Trigger>>, m: Message, outcome: (BoundMethod, Message) -> Outcome)
    ensures Run(a + b, m, outcome) == Combine(Run(a, m, outcome), Run(b, m, outcome))
  {
    RunFromAppend(a, b, 0, m, outcome);
  }

  /** The handlers called are the first ones of the firing triggers, in list order: nothing that passes is called. */
  lemma {:induction false} InvokedArePrefixOfFired(ts: seq<Option<Trigger>>, i: nat, m: Message,
                                                   outcome: (BoundMethod, Message) -> Outcome)
    requires i <= |ts|
    ensures RunFrom(ts, i, m, outcome).invoked <= FiredFrom(ts, i, m)
    decreases |ts| - i
  {
    if i < |ts| {
      InvokedArePrefixOfFired(ts, i + 1, m, outcome);
    }
  }

  /** With no exception, and every handler declining, each firing trigger's handler is called once, in order. */
  lemma {:induction false} AllDecliningCallsEveryFired(ts: seq<Option<Trigger>>, i: nat, m: Message,
                                                       outcome: (BoundMethod, Message) -> Outcome)
    requires i <= |ts|
    requires forall k :: i <= k < |ts| ==> !EvaluateEntry(ts[k], m).Raises?
    requires forall k :: i <= k < |ts| && EvaluateEntry(ts[k], m).Fires? ==> outcome(EvaluateEntry(ts[k], m).action, m) == Falsy
    ensures RunFrom(ts, i, m, outcome) == Dispatch(FiredFrom(ts, i, m), Exhausted)
    decreases |ts| - i
  {
    if i < |ts| {
      AllDecliningCallsEveryFired(ts, i + 1, m, outcome);
    }
  }

  /**
   * A dispatch that stopped did so at its last call, which returned a truthy value, and every
   * earlier call returned a falsy one; one that ran out saw only falsy results.
   */
  lemma {:induction false} StopsAtFirstTruthy(ts: seq<Option<Trigger>>, i: nat, m: Message,
                                              outcome: (BoundMethod, Message) -> Outcome)
    requires i <= |ts|
    ensures var d := RunFrom(ts, i, m, outcome);
            d.end == Stopped ==> |d.invoked| >= 1 && outcome(d.invoked[|d.invoked| - 1], m) == Truthy
    ensures var d := RunFrom(ts, i, m, outcome);
            forall k :: 0 <= k < |d.invoked| - 1 ==> outcome(d.invoked[k], m) == Falsy
    ensures var d := RunFrom(ts, i, m, outcome);
            d.end == Exhausted ==> forall k :: 0 <= k < |d.invoked| ==> outcome(d.invoked[k], m) == Falsy
    decreases |ts| - i
  {
    if i < |ts| {
      StopsAtFirstTruthy(ts, i + 1, m, outcome);
      var rest := RunFrom(ts, i + 1, m, outcome);
      match EvaluateEntry(ts[i], m)
      case Raises =>
      case Passes =>
      case Fires(a) =>
        if outcome(a, m) == Falsy {
          var d := Then([a], rest);
          assert forall k :: 1 <= k < |d.invoked| ==> d.invoked[k] == rest.invoked[k - 1];
        }
    }
  }

  /**
   * Two triggers that both fire, at positions i < j, with nothing before i stopping or aborting:
   * i's handler is called before anything registered after it; if it returns a truthy value the
   * dispatch ends there, so j's handler is never called; if it returns a falsy value and the
   * triggers between them pass, j's handler is the next one called.
   */
  lemma EarlierRegisteredRunsFirst(ts: seq<Option<Trigger>>, i: nat, j: nat, m: Message,
                                   outcome: (BoundMethod, Message) -> Outcome)
    requires i < j < |ts|
    requires EvaluateEntry(ts[i], m).Fires? && EvaluateEntry(ts[j], m).Fires?
    requires Run(ts[..i], m, outcome).end == Exhausted
    ensures var before := Run(ts[..i], m, outcome).invoked;
            var d := Run(ts, m, outcome);
            |before| < |d.invoked| && d.invoked[|before|] == EvaluateEntry(ts[i], m).action
    ensures var a := EvaluateEntry(ts[i], m).action;
            outcome(a, m) == Truthy ==>
              Run(ts, m, outcome) == Dispatch(Run(ts[..i], m, outcome).invoked + [a], Stopped)
    ensures var a := EvaluateEntry(ts[i], m).action;
            var before := Run(ts[..i], m, outcome).invoked;
            var d := Run(ts, m, outcome);
            outcome(a, m) == Falsy && (forall k :: i < k < j ==> EvaluateEntry(ts[k], m).Passes?) ==>
              |before| + 1 < |d.invoked| && d.invoked[|before| + 1] == EvaluateEntry(ts[j], m).action
  {
    var pre, post := ts[..i], ts[i..];
    assert ts == pre + post;
    RunAppend(pre, post, m, outcome);
    assert post[0] == ts[i];
    var tail := post[1..];
    assert post == [post[0]] + tail;
    RunAppend([post[0]], tail, m, outcome);
    assert Run(tail, m, outcome) == RunFrom(post, 1, m, outcome) by {
      RunFromShift([post[0]], tail, 0, m, outcome);
    }
    if outcome(EvaluateEntry(ts[i], m).action, m) == Falsy && (forall k :: i < k < j ==> EvaluateEntry(ts[k], m).Passes?) {
      SkipPassing(tail, 0, j - i - 1, m, outcome);
      assert tail[j - i - 1] == ts[j];
    }
  }

  /** Entries that pass are skipped: dispatch from i equals dispatch from the first entry that does not pass. */
  lemma {:induction false} SkipPassing(ts: seq<Option<Trigger>>, i: nat, j: nat, m: Message,
                                       outcome: (BoundMethod, Message) -> Outcome)
    requires i <= j < |ts|
    requires forall k :: i <= k < j ==> EvaluateEntry(ts[k], m).Passes?
    requires EvaluateEntry(ts[j], m).Fires?
    ensures var d := RunFrom(ts, i, m, outcome);
            |d.invoked| >= 1 && d.invoked[0] == EvaluateEntry(ts[j], m).action
    decreases j - i
  {
    SkipPassingFrom(ts, i, j, m, outcome);
  }

  lemma {:induction false} SkipPassingFrom(ts: seq<Option<Trigger>>, i: nat, j: nat, m: Message,
                                           outcome: (BoundMethod, Message) -> Outcome)
    requires i <= j < |ts|
    requires forall k :: i <= k < j ==> EvaluateEntry(ts[k], m).Passes?
    ensures RunFrom(ts, i, m, outcome) == RunFrom(ts, j, m, outcome)
    decreases j - i
  {
    if i < j {
      SkipPassingFrom(ts, i + 1, j, m, outcome);
    }
  }

  /** A None entry raises when reached: no trigger registered after it is ever evaluated. */
  lemma NoneEntryBlocksLaterTriggers(pre: seq<Option<Trigger>>, post: seq<Option<Trigger>>, m: Message,
                                     outcome: (BoundMethod, Message) -> Outcome)
    ensures var d := Run(pre + [None] + post, m, outcome);
            d.end != Exhausted && d == Combine(Run(pre, m, outcome), Dispatch([], Aborted))
  {
    RunAppend(pre + [None], post, m, outcome);
    RunAppend(pre, [None], m, outcome);
  }

  /** A guild role: its id and its members' ids. */
  datatype Role = Role(id: int, members: seq<int>)

  predicate IsAdminRole(r: Role, techRole: int, adminRole: int) {
    r.id in [techRole, adminRole]
  }

  /** The members of the tech and admin roles, role by role in guild order, duplicates kept. */
  function AdminMembers(roles: seq<Role>, techRole: int, adminRole: int): seq<int>
    decreases |roles|
  {
    if roles == [] then []
    else
      var last := roles[|roles| - 1];
      AdminMembers(roles[..|roles| - 1], techRole, adminRole)
        + (if IsAdminRole(last, techRole, adminRole) then last.members else [])
  }

  /** A member is an admin exactly when some tech or admin role lists them. */
  lemma {:induction false} AdminMembership(roles: seq<Role>, techRole: int, adminRole: int, member: int)
    ensures member in AdminMembers(roles, techRole, adminRole)
        <==> exists i :: 0 <= i < |roles| && IsAdminRole(roles[i], techRole, adminRole) && member in roles[i].members
    decreases |roles|
  {
    if roles != [] {
      var init := roles[..|roles| - 1];
      AdminMembership(init, techRole, adminRole, member);
      if exists i :: 0 <= i < |roles| && IsAdminRole(roles[i], techRole, adminRole) && member in roles[i].members {
        var i :| 0 <= i < |roles| && IsAdminRole(roles[i], techRole, adminRole) && member in roles[i].members;
        if i < |init| { assert init[i] == roles[i]; }
      }
      if member in AdminMembers(init, techRole, adminRole) {
        var i :| 0 <= i < |init| && IsAdminRole(init[i], techRole, adminRole) && member in init[i].members;
        assert roles[i] == init[i];
      }
    }
  }

  function Owners(setup: seq<(object, seq<Option<Trigger>>)>): seq<object> {
    seq(|setup|, i requires 0 <= i < |setup| => setup[i].0)
  }

  function Produced(setup: seq<(object, seq<Option<Trigger>>)>): seq<seq<Option<Trigger>>> {
    seq(|setup|, i requires 0 <= i < |setup| => setup[i].1)
  }

  class WeepingWillowClient {
    const dataConnection: WeepingWillowDataConnection
    var modules: seq<object>
    var triggers: seq<Option<Trigger>>

    constructor (dataConnection: WeepingWillowDataConnection)
      ensures this.dataConnection == dataConnection && modules == [] && triggers == []
    {
      this.dataConnection := dataConnection;
      modules := [];
      triggers := [];
    }

    /** add_trigger: appends at the end; the earlier entries and their order stay. */
    method AddTrigger(trigger: Option<Trigger>)
      modifies this
      ensures triggers == old(triggers) + [trigger] && modules == old(modules)
    {
      triggers := triggers + [trigger];
    }

    /** `triggers.remove(trigger)`: false where Python raises ValueError, and then nothing changes. */
    method RemoveTrigger(trigger: Option<Trigger>) returns (ok: bool)
      modifies this
      ensures ok == (trigger in old(triggers))
      ensures triggers == RemoveFirst(old(triggers), trigger).GetOr(old(triggers))
      ensures modules == old(modules)
    {
      var r := RemoveFirst(triggers, trigger);
      ok := r.Some?;
      triggers := r.GetOr(triggers);
    }

    /** `modules.remove(module)`: false where Python raises ValueError, and then nothing changes. */
    method RemoveModule(m: object) returns (ok: bool)
      modifies this
      ensures ok == (m in old(modules))
      ensures modules == RemoveFirst(old(modules), m).GetOr(old(modules))
      ensures triggers == old(triggers)
    {
      var r := RemoveFirst(modules, m);
      ok := r.Some?;
      modules := r.GetOr(modules);
    }

    /** One round of set_up_modules: record the module, then register each trigger it produced, in order. */
    method AddModule(m: object, produced: seq<Option<Trigger>>)
      modifies this
      ensures modules == old(modules) + [m]
      ensures triggers == old(triggers) + produced
    {
      modules := modules + [m];
      for i := 0 to |produced|
        invariant modules == old(modules) + [m]
        invariant triggers == old(triggers) + produced[..i]
      {
        AddTrigger(produced[i]);
        assert produced[..i + 1] == produced[..i] + [produced[i]];
      }
    }

    /** set_up_modules: registration order is module order, then each module's trigger order. */
    method SetUpModules(setup: seq<(object, seq<Option<Trigger>>)>)
      modifies this
      ensures modules == old(modules) + Owners(setup)
      ensures triggers == old(triggers) + Flatten(Produced(setup))
    {
      for k := 0 to |setup|
        invariant modules == old(modules) + Owners(setup[..k])
        invariant triggers == old(triggers) + Flatten(Produced(setup[..k]))
      {
        AddModule(setup[k].0, setup[k].1);
        assert Owners(setup[..k + 1]) == Owners(setup[..k]) + [setup[k].0];
        assert Produced(setup[..k + 1])[..k] == Produced(setup[..k]);
      }
      assert setup[..|setup|] == setup;
    }

    /** on_message: the loop over the trigger list with its early return. */
    method OnMessage(m: Message, outcome: (BoundMethod, Message) -> Outcome) returns (d: Dispatch)
      ensures d == Run(triggers, m, outcome)
    {
      var invoked: seq<BoundMethod> := [];
      for i := 0 to |triggers|
        invariant Run(triggers, m, outcome) == Then(invoked, RunFrom(triggers, i, m, outcome))
      {
        var e := EvaluateEntry(triggers[i], m);
        if e.Raises? {
          return Dispatch(invoked, Aborted);
        }
        if e.Fires? {
          var result := outcome(e.action, m);
          assert RunFrom(triggers, i, m, outcome) == match result
            case Truthy => Dispatch([e.action], Stopped)
            case Raised => Dispatch([e.action], Aborted)
            case Falsy => Then([e.action], RunFrom(triggers, i + 1, m, outcome));
          invoked := invoked + [e.action];
          if result == Truthy {
            return Dispatch(invoked, Stopped);
          }
          if result == Raised {
            return Dispatch(invoked, Aborted);
          }
        }
      }
      d := Dispatch(invoked, Exhausted);
    }

    /** get_admin_users: the concatenated member lists of the guild's tech and admin roles. */
    method GetAdminUsers(roles: seq<Role>, techRole: int, adminRole: int) returns (admins: seq<int>)
      ensures admins == AdminMembers(roles, techRole, adminRole)
    {
      admins := [];
      for i := 0 to |roles|
        invariant admins == AdminMembers(roles[..i], techRole, adminRole)
      {
        if roles[i].id in [techRole, adminRole] {
          admins := admins + roles[i].members;
        }
        assert roles[..i + 1][..i] == roles[..i];
      }
      assert roles[..|roles|] == roles;
    }
  }
}
