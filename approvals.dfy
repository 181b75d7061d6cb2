/** The tiered approval engine (`ApprovalSystem` in modules/approvals.py).

    An action type is classified into a tier by three configured lists. A
    forbidden action is resolved at once as "blocked" and goes to the history;
    an auto action is resolved at once as "auto_approved" and goes to the
    history; every other action (including unknown types) waits in the queue
    until the operator approves or rejects it, which moves it to the history.
    The history keeps its last 200 entries whenever it is saved. */
module Approvals {
  import opened Common

  /** Number of history entries kept on every save. */
  const HistoryLimit := 200

  datatype Tier = Auto | Approval | Forbidden

  datatype Status = Pending | AutoApproved | Approved | Rejected | Blocked

  /** Who resolved an action: "system" (policy), "jarvis" (auto) or "user". */
  datatype Resolver = System | Jarvis | User

  /** A value of the free-form `params` mapping. `PNone` is an explicit None. */
  datatype Param = PNone | PBool(b: bool) | PInt(i: int) | PReal(x: real) | PText(s: string)

  type Params = map<string, Param>

  /** One action record, with exactly the fields the engine builds. The `id` is
      the millisecond clock reading the source renders as "action_<ms>". */
  datatype Action = Action(
    id: nat,
    actionType: string,
    description: string,
    reason: string,
    bot: Option<string>,
    params: Params,
    tier: Tier,
    status: Status,
    submittedAt: int,
    resolvedAt: Option<int>,
    resolvedBy: Option<Resolver>)

  /** The `permissions` section of the configuration. */
  datatype Permissions = Permissions(
    autoApprove: seq<string>,
    requireApproval: seq<string>,
    neverTouch: seq<string>)

  /** Tier lookup: `auto_approve` is consulted first, then `require_approval`,
      then `never_touch`; a type in none of them fails closed to approval. */
  function PermissionTier(p: Permissions, actionType: string): (t: Tier)
    ensures t == Auto <==> actionType in p.autoApprove
    ensures t == Forbidden <==>
      actionType !in p.autoApprove && actionType !in p.requireApproval && actionType in p.neverTouch
    ensures actionType !in p.autoApprove && actionType !in p.requireApproval && actionType !in p.neverTouch
      ==> t == Approval
  {
    if actionType in p.autoApprove then Auto
    else if actionType in p.requireApproval then Approval
    else if actionType in p.neverTouch then Forbidden
    else Approval
  }

  /** The record built for every submission before the tier is acted upon. */
  function NewAction(id: nat, actionType: string, description: string, reason: string,
                     bot: Option<string>, params: Option<Params>, tier: Tier, now: int): Action
  {
    Action(id, actionType, description, reason, bot, params.GetOr(map[]), tier,
           Pending, now, None, None)
  }

  /** The record after resolution by `by` at time `at`. */
  function Resolve(a: Action, status: Status, at: int, resolver: Resolver): Action {
    a.(status := status, resolvedAt := Some(at), resolvedBy := Some(resolver))
  }

  /** `_save_history`: keep the last 200 entries. */
  function Truncated(history: seq<Action>): (r: seq<Action>)
    ensures |r| == Min(|history|, HistoryLimit)
    ensures r == history[|history| - |r|..]
  {
    PyTail(history, HistoryLimit)
  }

  predicate AllPending(q: seq<Action>) {
    forall i :: 0 <= i < |q| ==> q[i].status == Pending
  }

  predicate UniqueIds(q: seq<Action>) {
    forall i, j :: 0 <= i < j < |q| ==> q[i].id != q[j].id
  }

  /** The index of the first queue element with the given id, as the `for i,
      action in enumerate(self.queue)` loop finds it. */
  function IndexOfId(q: seq<Action>, id: nat): (r: Option<nat>)
    ensures r.None? <==> forall k :: 0 <= k < |q| ==> q[k].id != id
    ensures r.Some? ==>
      && r.value < |q| && q[r.value].id == id
      && forall k :: 0 <= k < r.value ==> q[k].id != id
  {
    if q == [] then None
    else if q[0].id == id then Some(0)
    else match IndexOfId(q[1..], id)
      case None => None
      case Some(k) => Some(k + 1)
  }

  /** `self.queue.pop(i)`. */
  function RemoveAt<T>(q: seq<T>, i: nat): (r: seq<T>)
    requires i < |q|
    ensures |r| == |q| - 1
    ensures forall k :: 0 <= k < i ==> r[k] == q[k]
    ensures forall k :: i <= k < |r| ==> r[k] == q[k + 1]
  {
    q[..i] + q[i + 1..]
  }

  /** `get_pending_actions`: the queue elements whose status is "pending", in
      queue order. */
  function FilterPending(q: seq<Action>): (r: seq<Action>)
    ensures |r| <= |q|
    ensures AllPending(r)
    ensures forall a :: a in r <==> a in q && a.status == Pending
    ensures AllPending(q) ==> r == q
  {
    if q == [] then []
    else if q[0].status == Pending then [q[0]] + FilterPending(q[1..])
    else FilterPending(q[1..])
  }

  /** The filter keeps queue order: a later-queued action comes after the
      pending actions queued before it. */
  lemma {:induction false} FilterPendingAppend(q: seq<Action>, a: Action)
    ensures FilterPending(q + [a]) == FilterPending(q) + (if a.status == Pending then [a] else [])
    decreases |q|
  {
    if q == [] {
      assert [] + [a] == [a];
    } else {
      assert (q + [a])[1..] == q[1..] + [a];
      FilterPendingAppend(q[1..], a);
    }
  }

  /** What `get_dashboard_data` returns. */
  datatype Dashboard = Dashboard(pending: seq<Action>, recentHistory: seq<Action>, pendingCount: nat)

  /** A queued action removed by approve or reject: the queue that remains
      keeps only pending actions and, when ids are unique, no longer holds the
      id, so a repeated approve or reject finds nothing. */
  lemma {:induction false} ResolvedIdLeavesQueue(q: seq<Action>, id: nat)
    requires UniqueIds(q)
    requires IndexOfId(q, id).Some?
    ensures var i := IndexOfId(q, id).value;
      IndexOfId(RemoveAt(q, i), id).None? && UniqueIds(RemoveAt(q, i))
      && (AllPending(q) ==> AllPending(RemoveAt(q, i)))
  {
    var i := IndexOfId(q, id).value;
    var r := RemoveAt(q, i);
    forall k | 0 <= k < |r| ensures r[k].id != id {
      if k < i { assert r[k] == q[k]; } else { assert r[k] == q[k + 1]; }
    }
  }

  /** Without unique ids the second approve is not a no-op: it resolves the
      other queued action that carries the same id. */
  lemma DuplicateIdSecondApproveResolvesOther(a: Action, b: Action)
    requires a.id == b.id && a != b
    ensures IndexOfId([a, b], a.id) == Some(0)
    ensures IndexOfId(RemoveAt([a, b], 0), a.id) == Some(0)
    ensures RemoveAt([a, b], 0)[0] == b
  {
  }

  class ApprovalSystem {
    const permissions: Permissions
    /** Actions waiting for the operator. */
    var queue: seq<Action>
    /** Resolved actions, oldest first. */
    var history: seq<Action>

    /** The engine's invariant: the queue holds only pending actions. */
    ghost predicate Valid()
      reads this
    {
      AllPending(queue)
    }

    /** `__init__` with the queue and history the loaders returned. */
    constructor (permissions: Permissions, loadedQueue: seq<Action>, loadedHistory: seq<Action>)
      ensures this.permissions == permissions
      ensures queue == loadedQueue && history == loadedHistory
      ensures Valid() <==> AllPending(loadedQueue)
    {
      this.permissions := permissions;
      queue := loadedQueue;
      history := loadedHistory;
    }

    function Tier(actionType: string): (t: Tier) {
      PermissionTier(permissions, actionType)
    }

    /** `submit_action`. `idMs` is the millisecond clock used for the id and
        `now` the time stamped on the record. */
    method SubmitAction(actionType: string, description: string, reason: string,
                        bot: Option<string>, params: Option<Params>, idMs: nat, now: int)
      returns (status: Status, action: Action)
      modifies this
      ensures var tier := PermissionTier(permissions, actionType);
        var pending := NewAction(idMs, actionType, description, reason, bot, params, tier, now);
        match tier
        case Forbidden =>
          && status == Blocked && action == Resolve(pending, Blocked, now, System)
          && queue == old(queue) && history == Truncated(old(history) + [action])
        case Auto =>
          && status == AutoApproved && action == Resolve(pending, AutoApproved, now, Jarvis)
          && queue == old(queue) && history == Truncated(old(history) + [action])
        case Approval =>
          && status == Pending && action == pending
          && queue == old(queue) + [action] && history == old(history)
      ensures old(Valid()) ==> Valid()
    {
      var tier := Tier(actionType);
      action := NewAction(idMs, actionType, description, reason, bot, params, tier, now);
      if tier == Forbidden {
        action := Resolve(action, Blocked, now, System);
        history := history + [action];
        history := Truncated(history);
        status := Blocked;
      } else if tier == Auto {
        action := Resolve(action, AutoApproved, now, Jarvis);
        history := history + [action];
        history := Truncated(history);
        status := AutoApproved;
      } else {
        queue := queue + [action];
        status := Pending;
      }
    }

    /** The loop shared by `approve_action` and `reject_action`: the first
        queued action with the id is stamped, appended to the history and
        popped from the queue; an id not in the queue changes nothing. */
    method ResolveQueued(id: nat, verdict: Status, now: int) returns (r: Option<Action>)
      modifies this
      ensures match IndexOfId(old(queue), id)
        case None => r.None? && queue == old(queue) && history == old(history)
        case Some(i) =>
          && r == Some(Resolve(old(queue)[i], verdict, now, User))
          && queue == RemoveAt(old(queue), i)
          && history == Truncated(old(history) + [r.value])
    {
      var i := 0;
      while i < |queue|
        invariant 0 <= i <= |queue|
        invariant queue == old(queue) && history == old(history)
        invariant forall k :: 0 <= k < i ==> queue[k].id != id
      {
        if queue[i].id == id {
          var resolved := Resolve(queue[i], verdict, now, User);
          history := history + [resolved];
          queue := RemoveAt(queue, i);
          history := Truncated(history);
          return Some(resolved);
        }
        i := i + 1;
      }
      return None;
    }

    /** `approve_action`. */
    method ApproveAction(id: nat, now: int) returns (r: Option<Action>)
      modifies this
      ensures match IndexOfId(old(queue), id)
        case None => r.None? && queue == old(queue) && history == old(history)
        case Some(i) =>
          && r == Some(Resolve(old(queue)[i], Approved, now, User))
          && queue == RemoveAt(old(queue), i)
          && history == Truncated(old(history) + [r.value])
      ensures old(Valid()) ==> Valid()
    {
      r := ResolveQueued(id, Approved, now);
    }

    /** `reject_action`. */
    method RejectAction(id: nat, now: int) returns (r: Option<Action>)
      modifies this
      ensures match IndexOfId(old(queue), id)
        case None => r.None? && queue == old(queue) && history == old(history)
        case Some(i) =>
          && r == Some(Resolve(old(queue)[i], Rejected, now, User))
          && queue == RemoveAt(old(queue), i)
          && history == Truncated(old(history) + [r.value])
      ensures old(Valid()) ==> Valid()
    {
      r := ResolveQueued(id, Rejected, now);
    }

    /** `get_pending_actions`: under the invariant, the whole queue. */
    function PendingActions(): (r: seq<Action>)
      reads this
      ensures AllPending(r)
      ensures forall a :: a in r <==> a in queue && a.status == Pending
      ensures Valid() ==> r == queue
    {
      FilterPending(queue)
    }

    /** `get_recent_history(limit)`, Python slice semantics included. */
    function RecentHistory(limit: int): (r: seq<Action>)
      reads this
      ensures limit > 0 ==> |r| == Min(limit, |history|) && r == history[|history| - |r|..]
    {
      PyTail(history, limit)
    }

    /** `get_dashboard_data`. */
    function DashboardData(): (d: Dashboard)
      reads this
      ensures d.pendingCount == |d.pending|
      ensures Valid() ==> d.pending == queue && d.pendingCount == |queue|
      ensures forall a :: a in d.pending <==> a in queue && a.status == Pending
      ensures |d.recentHistory| == Min(20, |history|)
      ensures d.recentHistory == history[|history| - |d.recentHistory|..]
    {
      var pending := PendingActions();
      Dashboard(pending, RecentHistory(20), |pending|)
    }
  }

  /** The queue/history scenario of a pause request that requires approval:
      it is queued as pending, appears among the pending actions, and after
      approval it has left the queue and is the latest history entry. */
  method PauseApprovalScenario(idMs: nat, now: int, later: int)
  {
    var p := Permissions([], ["pause_on_loss_streak"], []);
    var engine := new ApprovalSystem(p, [], []);
    var status, action := engine.SubmitAction("pause_on_loss_streak", "Pause bot", "5 losses",
                                              Some("bot"), Some(map["streak" := PInt(5)]), idMs, now);
    assert status == Pending && engine.queue == [action] && engine.history == [];
    assert engine.PendingActions() == [action];
    assert IndexOfId(engine.queue, idMs) == Some(0);
    var r := engine.ApproveAction(idMs, later);
    assert r.Some? && r.value.status == Approved;
    assert engine.queue == [] && engine.history == [r.value];
    assert engine.PendingActions() == [];
    assert engine.RecentHistory(1) == [r.value];
    var again := engine.ApproveAction(idMs, later);
    assert again.None?;
  }

  /** A forbidden type never reaches the queue, whatever else is configured. */
  method ForbiddenScenario(idMs: nat, now: int)
  {
    var p := Permissions([], [], ["delete_database"]);
    var engine := new ApprovalSystem(p, [], []);
    var status, action := engine.SubmitAction("delete_database", "Drop", "cleanup", None, None, idMs, now);
    assert status == Blocked && action.resolvedBy == Some(System);
    assert engine.queue == [] && engine.history == [action];
  }
}
