/**
 * The reconciliation rule of the supporter-role cog: resolve the configured
 * ids against the guild, keep the condition roles that resolved, and decide
 * whether the target role D is to be added to a member, removed, or left.
 */
module Reconciler {
  import opened Wrappers
  import opened GuildSettings

  /** The one role mutation a check issues for a member, if any. */
  datatype Action = NoAction | AddRole(role: RoleId) | RemoveRole(role: RoleId)

  /** `guild.get_role(id)`: an unset id, or one the guild does not have, gives None. */
  function ResolveRole(guildRoles: set<RoleId>, id: Option<RoleId>): (r: Option<RoleId>)
    ensures r.Some? <==> id.Some? && id.value in guildRoles
    ensures r.Some? ==> r == id
  {
    if id.Some? && id.value in guildRoles then id else None
  }

  /** The six resolved roles: the condition slots A, B, C, E, F and the target D. */
  datatype Resolved = Resolved(conditions: seq<Option<RoleId>>, target: Option<RoleId>)

  /** `_get_roles_from_config`: every stored id resolved against the guild's roles. */
  function GetRolesFromConfig(guildRoles: set<RoleId>, s: Settings): (r: Resolved)
    ensures |r.conditions| == 5
    ensures forall i :: 0 <= i < 5 ==>
      (r.conditions[i].Some? <==> ConditionIds(s)[i].Some? && ConditionIds(s)[i].value in guildRoles)
    ensures forall i :: 0 <= i < 5 && r.conditions[i].Some? ==> r.conditions[i] == ConditionIds(s)[i]
    ensures forall x :: Some(x) in r.conditions <==> x in guildRoles && Some(x) in ConditionIds(s)
    ensures r.target.Some? <==> s.roleD.Some? && s.roleD.value in guildRoles
    ensures r.target.Some? ==> r.target == s.roleD
  {
    var ids := ConditionIds(s);
    Resolved(
      [ResolveRole(guildRoles, ids[0]), ResolveRole(guildRoles, ids[1]), ResolveRole(guildRoles, ids[2]),
       ResolveRole(guildRoles, ids[3]), ResolveRole(guildRoles, ids[4])],
      ResolveRole(guildRoles, s.roleD))
  }

  /** The condition roles that are configured: the slots that are not None, in slot order. */
  function ConditionRoles(slots: seq<Option<RoleId>>): (conds: seq<RoleId>)
    ensures |conds| <= |slots|
    ensures forall x :: x in conds <==> Some(x) in slots
  {
    if slots == [] then []
    else if slots[0].Some? then [slots[0].value] + ConditionRoles(slots[1..])
    else ConditionRoles(slots[1..])
  }

  /** `any(role in member.roles for role in conds)`. */
  function HasAnyCondition(memberRoles: set<RoleId>, conds: seq<RoleId>): (b: bool)
    ensures b <==> exists c :: c in conds && c in memberRoles
  {
    if conds == [] then false
    else conds[0] in memberRoles || HasAnyCondition(memberRoles, conds[1..])
  }

  /** Some slot is configured. */
  ghost predicate AnyConfigured(slots: seq<Option<RoleId>>)
  {
    exists x :: Some(x) in slots
  }

  /** The member holds at least one configured condition role. */
  ghost predicate HoldsCondition(memberRoles: set<RoleId>, slots: seq<Option<RoleId>>)
  {
    exists x :: Some(x) in slots && x in memberRoles
  }

  /**
   * The decision of `_check_and_assign_role_d` once the roles are resolved:
   * nothing without a target or without a condition role; otherwise add the
   * target to a member who holds a condition role and lacks it, remove it from
   * a member who holds none and has it, and leave everyone else alone.
   */
  function Decide(memberRoles: set<RoleId>, slots: seq<Option<RoleId>>, target: Option<RoleId>): (a: Action)
    ensures a.AddRole? <==>
      target.Some? && HoldsCondition(memberRoles, slots) && target.value !in memberRoles
    ensures a.RemoveRole? <==>
      target.Some? && AnyConfigured(slots) && !HoldsCondition(memberRoles, slots) && target.value in memberRoles
    ensures !a.NoAction? ==> target == Some(a.role)
  {
    if target.None? then NoAction
    else
      var conds := ConditionRoles(slots);
      if conds == [] then NoAction
      else
        assert Some(conds[0]) in slots;
        var hasCondition := HasAnyCondition(memberRoles, conds);
        var hasTarget := target.value in memberRoles;
        if hasCondition && !hasTarget then AddRole(target.value)
        else if !hasCondition && hasTarget then RemoveRole(target.value)
        else NoAction
  }

  /**
   * The member's roles after the action, when the mutation call succeeded or
   * failed: a failed call or no action leaves them alone, and a successful
   * call changes the target role and nothing else.
   */
  function Apply(memberRoles: set<RoleId>, a: Action, succeeded: bool): (after: set<RoleId>)
    ensures !succeeded || a.NoAction? ==> after == memberRoles
    ensures !a.NoAction? ==> after - {a.role} == memberRoles - {a.role}
    ensures succeeded && a.AddRole? ==> a.role in after
    ensures succeeded && a.RemoveRole? ==> a.role !in after
  {
    if !succeeded then memberRoles
    else match a
      case NoAction => memberRoles
      case AddRole(d) => memberRoles + {d}
      case RemoveRole(d) => memberRoles - {d}
  }

  /**
   * `_check_and_assign_role_d` for one member: without a guild nothing happens;
   * otherwise the configuration is resolved and the rule decides. Stated in
   * terms of the stored settings: D is added exactly when D is stored and
   * exists, the member lacks it and holds a stored and existing condition
   * role; D is removed exactly when D is stored and exists, the member has it,
   * some condition role is stored and exists, and the member holds none of them.
   */
  function CheckAndAssign(guild: Option<set<RoleId>>, s: Settings, memberRoles: set<RoleId>): (a: Action)
    ensures guild.None? || ResolveRole(guild.value, s.roleD).None? ==> a == NoAction
    ensures a.AddRole? <==>
      && guild.Some? && s.roleD.Some? && s.roleD.value in guild.value
      && s.roleD.value !in memberRoles
      && (exists x :: x in guild.value && x in memberRoles && Some(x) in ConditionIds(s))
    ensures a.RemoveRole? <==>
      && guild.Some? && s.roleD.Some? && s.roleD.value in guild.value
      && s.roleD.value in memberRoles
      && (exists x :: x in guild.value && Some(x) in ConditionIds(s))
      && !(exists x :: x in guild.value && x in memberRoles && Some(x) in ConditionIds(s))
    ensures !a.NoAction? ==> s.roleD == Some(a.role)
  {
    if guild.None? then NoAction
    else
      var r := GetRolesFromConfig(guild.value, s);
      Decide(memberRoles, r.conditions, r.target)
  }

  /** With no condition role configured no mutation is issued: D is never removed from anyone. */
  lemma NoConditionsNoMutation(memberRoles: set<RoleId>, slots: seq<Option<RoleId>>, target: Option<RoleId>)
    requires forall i :: 0 <= i < |slots| ==> slots[i].None?
    ensures Decide(memberRoles, slots, target) == NoAction
  {
  }

  /** After a successful add or remove, the rule asks for nothing more. */
  lemma DecideIdempotent(memberRoles: set<RoleId>, slots: seq<Option<RoleId>>, target: Option<RoleId>)
    ensures Decide(Apply(memberRoles, Decide(memberRoles, slots, target), true), slots, target) == NoAction
  {
  }

  /** The same for the whole single-member check, configuration resolution included. */
  lemma CheckAndAssignIdempotent(guild: Option<set<RoleId>>, s: Settings, memberRoles: set<RoleId>)
    ensures CheckAndAssign(guild, s, Apply(memberRoles, CheckAndAssign(guild, s, memberRoles), true)) == NoAction
  {
  }

  /** The decision depends on the slots only through the set of configured roles. */
  lemma DecideOnConfiguredSet(memberRoles: set<RoleId>, slots1: seq<Option<RoleId>>,
                              slots2: seq<Option<RoleId>>, target: Option<RoleId>)
    requires forall x :: Some(x) in slots1 <==> Some(x) in slots2
    ensures Decide(memberRoles, slots1, target) == Decide(memberRoles, slots2, target)
  {
  }

  /** Reordering the condition slots never changes the decision. */
  lemma DecidePermutationInvariant(memberRoles: set<RoleId>, slots1: seq<Option<RoleId>>,
                                   slots2: seq<Option<RoleId>>, target: Option<RoleId>)
    requires multiset(slots1) == multiset(slots2)
    ensures Decide(memberRoles, slots1, target) == Decide(memberRoles, slots2, target)
  {
    forall x
      ensures Some(x) in slots1 <==> Some(x) in slots2
    {
      assert Some(x) in slots1 <==> Some(x) in multiset(slots1);
      assert Some(x) in slots2 <==> Some(x) in multiset(slots2);
    }
    DecideOnConfiguredSet(memberRoles, slots1, slots2, target);
  }

  /** Configuring a slot with a role another slot already holds never changes the decision. */
  lemma DecideDuplicateInvariant(memberRoles: set<RoleId>, slots: seq<Option<RoleId>>, k: nat,
                                 j: nat, target: Option<RoleId>)
    requires k < |slots| && j <= |slots|
    ensures Decide(memberRoles, slots[..j] + [slots[k]] + slots[j..], target) == Decide(memberRoles, slots, target)
  {
  }

  /**
   * The target is not filtered out of the condition slots: when D is also a
   * configured condition role, a member who has D is never asked to lose it.
   */
  lemma TargetAsConditionNeverRemoved(memberRoles: set<RoleId>, slots: seq<Option<RoleId>>, d: RoleId)
    requires Some(d) in slots && d in memberRoles
    ensures Decide(memberRoles, slots, Some(d)) == NoAction
  {
  }

  /**
   * Because D is not filtered out, listing D among the conditions does change
   * decisions: a member holding only D loses it when the conditions are {A},
   * and keeps it when they are {A, D}.
   */
  lemma TargetInConditionsChangesDecision()
    ensures Decide({4}, [Some(1)], Some(4)) == RemoveRole(4)
    ensures Decide({4}, [Some(1), Some(4)], Some(4)) == NoAction
  {
  }

  /** The four single-member scenarios: A=1, B=2, D=4. */
  lemma Scenarios()
    ensures Decide({1}, [Some(1), None, None, None, None], Some(4)) == AddRole(4)
    ensures Decide({4}, [Some(1), Some(2), None, None, None], Some(4)) == RemoveRole(4)
    ensures Decide({4}, [None, None, None, None, None], Some(4)) == NoAction
    ensures Decide({1}, [Some(1), None, None, None, None], None) == NoAction
  {
  }
}
