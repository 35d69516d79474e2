/**
 * The `checksupporterroles` command: validate the configuration once, then
 * walk every member of the guild, issue the mutation the rule asks for, and
 * count additions, removals and failed mutations.
 */
module BulkScan {
  import opened Wrappers
  import opened GuildSettings
  import opened Reconciler

  /** Why a scan refuses to start. */
  datatype ScanError = TargetNotConfigured | NoConditionRoles

  /** The three counters of the final report. */
  datatype ScanReport = ScanReport(added: nat, removed: nat, skipped: nat)

  datatype ScanResult = Rejected(error: ScanError) | Completed(report: ScanReport)

  /** One member's effect on the counters: at most one of them grows, by one. */
  function Record(r: ScanReport, a: Action, succeeded: bool): (r': ScanReport)
    ensures a.NoAction? ==> r' == r
    ensures r'.added + r'.removed + r'.skipped == r.added + r.removed + r.skipped + (if a.NoAction? then 0 else 1)
    ensures r.added <= r'.added && r.removed <= r'.removed && r.skipped <= r'.skipped
    ensures r'.added != r.added ==> a.AddRole? && succeeded
    ensures r'.removed != r.removed ==> a.RemoveRole? && succeeded
    ensures r'.skipped != r.skipped ==> !a.NoAction? && !succeeded
  {
    match a
    case NoAction => r
    case AddRole(_) => if succeeded then r.(added := r.added + 1) else r.(skipped := r.skipped + 1)
    case RemoveRole(_) => if succeeded then r.(removed := r.removed + 1) else r.(skipped := r.skipped + 1)
  }

  /** A member's roles after the scan: the rule's mutation applied, when its call succeeded. */
  predicate Reconciled(after: set<RoleId>, before: set<RoleId>, slots: seq<Option<RoleId>>,
                       target: Option<RoleId>, succeeded: bool)
  {
    after == Apply(before, Decide(before, slots, target), succeeded)
  }

  /** The counters after the members, in order, each with the outcome of its mutation call. */
  function Tally(members: seq<set<RoleId>>, slots: seq<Option<RoleId>>, target: Option<RoleId>,
                 succeeds: seq<bool>): (r: ScanReport)
    requires |succeeds| == |members|
    ensures r.added + r.removed + r.skipped <= |members|
  {
    if members == [] then ScanReport(0, 0, 0)
    else
      var n := |members| - 1;
      Record(Tally(members[..n], slots, target, succeeds[..n]), Decide(members[n], slots, target), succeeds[n])
  }

  /** The number of members the rule asks to mutate. */
  function Pending(members: seq<set<RoleId>>, slots: seq<Option<RoleId>>, target: Option<RoleId>): nat
  {
    if members == [] then 0
    else
      var n := |members| - 1;
      Pending(members[..n], slots, target) + (if Decide(members[n], slots, target).NoAction? then 0 else 1)
  }

  /** What happens to one member in the scan: no call, a successful add or remove, or a failed call. */
  datatype Call = NoCall | AddSucceeded | RemoveSucceeded | CallFailed

  function CallOf(roles: set<RoleId>, slots: seq<Option<RoleId>>, target: Option<RoleId>, succeeded: bool): Call
  {
    var a := Decide(roles, slots, target);
    if a.NoAction? then NoCall
    else if !succeeded then CallFailed
    else if a.AddRole? then AddSucceeded
    else RemoveSucceeded
  }

  /** The number of members k whose scan step is `c`. */
  function Count(members: seq<set<RoleId>>, slots: seq<Option<RoleId>>, target: Option<RoleId>,
                 succeeds: seq<bool>, c: Call): (n: nat)
    requires |succeeds| == |members|
    ensures n <= |members|
  {
    if members == [] then 0
    else
      var last := |members| - 1;
      Count(members[..last], slots, target, succeeds[..last], c)
        + (if CallOf(members[last], slots, target, succeeds[last]) == c then 1 else 0)
  }

  /**
   * `check_supporter_roles`. `members` holds each member's roles and is
   * updated in place; `succeeds[i]` is whether the add or remove call for
   * member i, when the rule issues one, goes through (a `Forbidden` or any
   * other exception is a `false`); it is not consulted for a member the rule
   * leaves alone.
   */
  method CheckSupporterRoles(guildRoles: set<RoleId>, s: Settings, members: array<set<RoleId>>, succeeds: seq<bool>)
    returns (result: ScanResult)
    requires |succeeds| == members.Length
    modifies members
    ensures var r := GetRolesFromConfig(guildRoles, s);
      && (r.target.None? ==> result == Rejected(TargetNotConfigured))
      && (r.target.Some? && ConditionRoles(r.conditions) == [] ==> result == Rejected(NoConditionRoles))
      && (result.Rejected? ==> members[..] == old(members[..]))
      && (r.target.Some? && ConditionRoles(r.conditions) != [] ==>
            && result == Completed(Tally(old(members[..]), r.conditions, r.target, succeeds))
            && forall k :: 0 <= k < members.Length ==>
                 Reconciled(members[k], old(members[k]), r.conditions, r.target, succeeds[k]))
  {
    var resolved := GetRolesFromConfig(guildRoles, s);
    if resolved.target.None? {
      return Rejected(TargetNotConfigured);
    }
    var d := resolved.target.value;
    var conditionRoles := ConditionRoles(resolved.conditions);
    if conditionRoles == [] {
      return Rejected(NoConditionRoles);
    }
    var report := ScanMembers(members, resolved.conditions, d, conditionRoles, succeeds);
    result := Completed(report);
  }

  /**
   * The loop of `check_supporter_roles` over a validated configuration: the
   * inline rule for every member, a failed call counted as skipped, and the
   * walk never stopped by a failure.
   */
  method ScanMembers(members: array<set<RoleId>>, slots: seq<Option<RoleId>>, d: RoleId,
                     conditionRoles: seq<RoleId>, succeeds: seq<bool>)
    returns (report: ScanReport)
    requires conditionRoles == ConditionRoles(slots) && conditionRoles != []
    requires |succeeds| == members.Length
    modifies members
    ensures report == Tally(old(members[..]), slots, Some(d), succeeds)
    ensures forall k :: 0 <= k < members.Length ==> Reconciled(members[k], old(members[k]), slots, Some(d), succeeds[k])
  {
    ghost var before := members[..];
    var countAdded, countRemoved, skipped := 0, 0, 0;
    var i := 0;
    while i < members.Length
      invariant 0 <= i <= members.Length
      invariant ScanReport(countAdded, countRemoved, skipped)
             == Tally(before[..i], slots, Some(d), succeeds[..i])
      invariant forall k :: 0 <= k < i ==> Reconciled(members[k], before[k], slots, Some(d), succeeds[k])
      invariant forall k :: i <= k < members.Length ==> members[k] == before[k]
    {
      label LoopHead:
      var roles := members[i];
      var hasAnyConditionRole := HasAnyCondition(roles, conditionRoles);
      var hasD := d in roles;
      ghost var a := Decide(roles, slots, Some(d));
      InlineRuleIsDecide(roles, slots, d);
      assert Tally(before[..i + 1], slots, Some(d), succeeds[..i + 1])
          == Record(Tally(before[..i], slots, Some(d), succeeds[..i]), a, succeeds[i]) by {
        assert before[..i + 1][..i] == before[..i];
        assert succeeds[..i + 1][..i] == succeeds[..i];
      }
      if hasAnyConditionRole && !hasD {
        if succeeds[i] {
          members[i] := roles + {d};
          countAdded := countAdded + 1;
        } else {
          skipped := skipped + 1;
        }
      } else if !hasAnyConditionRole && hasD {
        if succeeds[i] {
          members[i] := roles - {d};
          countRemoved := countRemoved + 1;
        } else {
          skipped := skipped + 1;
        }
      }
      assert Reconciled(members[i], before[i], slots, Some(d), succeeds[i]);
      assert forall k :: 0 <= k < members.Length && k != i ==> members[k] == old@LoopHead(members[k]);
      i := i + 1;
    }
    assert before[..i] == before;
    assert succeeds[..i] == succeeds;
    report := ScanReport(countAdded, countRemoved, skipped);
  }

  /** The rule the scan applies inline (its own `any` and `role_d in member.roles`) is Decide. */
  lemma InlineRuleIsDecide(memberRoles: set<RoleId>, slots: seq<Option<RoleId>>, d: RoleId)
    requires ConditionRoles(slots) != []
    ensures var hasCondition := HasAnyCondition(memberRoles, ConditionRoles(slots));
      Decide(memberRoles, slots, Some(d))
        == if hasCondition && d !in memberRoles then AddRole(d)
           else if !hasCondition && d in memberRoles then RemoveRole(d)
           else NoAction
  {
  }

  /**
   * Every member the rule asks to mutate is counted exactly once, as added,
   * removed or skipped; a member the rule leaves alone is counted nowhere.
   */
  lemma {:induction false} TallyAccountsForPending(members: seq<set<RoleId>>, slots: seq<Option<RoleId>>,
                                                   target: Option<RoleId>, succeeds: seq<bool>)
    requires |succeeds| == |members|
    ensures var r := Tally(members, slots, target, succeeds);
      r.added + r.removed + r.skipped == Pending(members, slots, target)
  {
    if members != [] {
      var n := |members| - 1;
      TallyAccountsForPending(members[..n], slots, target, succeeds[..n]);
    }
  }

  /**
   * `added` and `removed` count exactly the members whose add or remove call
   * succeeded, and `skipped` exactly those whose call failed; a member with
   * no call counts nowhere, whatever its oracle entry.
   */
  lemma {:induction false} TallyCountsCalls(members: seq<set<RoleId>>, slots: seq<Option<RoleId>>,
                                            target: Option<RoleId>, succeeds: seq<bool>)
    requires |succeeds| == |members|
    ensures Tally(members, slots, target, succeeds)
         == ScanReport(Count(members, slots, target, succeeds, AddSucceeded),
                       Count(members, slots, target, succeeds, RemoveSucceeded),
                       Count(members, slots, target, succeeds, CallFailed))
  {
    if members != [] {
      var n := |members| - 1;
      TallyCountsCalls(members[..n], slots, target, succeeds[..n]);
    }
  }

  /**
   * After a scan, the members the rule still wants to mutate are exactly the
   * members whose call failed.
   */
  lemma {:induction false} ScanLeavesOnlyFailedPending(members: seq<set<RoleId>>, after: seq<set<RoleId>>,
                                                       slots: seq<Option<RoleId>>, target: Option<RoleId>,
                                                       succeeds: seq<bool>)
    requires |after| == |members| == |succeeds|
    requires forall k :: 0 <= k < |members| ==> Reconciled(after[k], members[k], slots, target, succeeds[k])
    ensures Pending(after, slots, target) == Count(members, slots, target, succeeds, CallFailed)
  {
    if members != [] {
      var n := |members| - 1;
      DecideIdempotent(members[n], slots, target);
      ScanLeavesOnlyFailedPending(members[..n], after[..n], slots, target, succeeds[..n]);
    }
  }

  /** A second scan after a scan in which no call failed reports zero on every counter. */
  lemma RescanAfterCleanScan(members: seq<set<RoleId>>, after: seq<set<RoleId>>, slots: seq<Option<RoleId>>,
                             target: Option<RoleId>, succeeds: seq<bool>, again: seq<bool>)
    requires |after| == |members| == |succeeds| == |again|
    requires Count(members, slots, target, succeeds, CallFailed) == 0
    requires forall k :: 0 <= k < |members| ==> Reconciled(after[k], members[k], slots, target, succeeds[k])
    ensures Tally(after, slots, target, again) == ScanReport(0, 0, 0)
  {
    ScanLeavesOnlyFailedPending(members, after, slots, target, succeeds);
    TallyAccountsForPending(after, slots, target, again);
  }

  /**
   * Three members, A=1, B=2, D=4: one needs D and its call is refused, one
   * has only D, one has nothing. The report is 0 added, 1 removed, 1 skipped.
   */
  lemma ScanScenario()
    ensures Tally([{1}, {4}, {}], [Some(1), Some(2), None, None, None], Some(4), [false, true, true])
         == ScanReport(0, 1, 1)
  {
  }
}
