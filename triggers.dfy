/**
 * The two listeners that run the single-member check: a role update runs it
 * only when the role list changed, a join only when scanning on join is on.
 */
module Triggers {
  import opened Wrappers
  import opened GuildSettings
  import opened Reconciler

  /** The role set a member's role list denotes. */
  function RolesOf(roles: seq<RoleId>): (r: set<RoleId>)
    ensures forall x :: x in r <==> x in roles
  {
    set r | r in roles
  }

  /** `on_member_update`: the check runs on the updated member when the role lists differ. */
  function OnMemberUpdate(guild: Option<set<RoleId>>, s: Settings, before: seq<RoleId>, after: seq<RoleId>): (a: Action)
    ensures before == after ==> a == NoAction
    ensures before != after ==> a == CheckAndAssign(guild, s, RolesOf(after))
  {
    if before != after then CheckAndAssign(guild, s, RolesOf(after)) else NoAction
  }

  /** `on_member_join`: the check runs on the new member only when `scan_on_join` is set. */
  function OnMemberJoin(guild: Option<set<RoleId>>, s: Settings, roles: seq<RoleId>): (a: Action)
    ensures !s.scanOnJoin ==> a == NoAction
    ensures s.scanOnJoin ==> a == CheckAndAssign(guild, s, RolesOf(roles))
  {
    if s.scanOnJoin then CheckAndAssign(guild, s, RolesOf(roles)) else NoAction
  }

  /**
   * The bot's own successful mutation comes back as a role update; the check it
   * triggers issues nothing, so the listeners do not oscillate.
   */
  lemma OwnMutationEchoIsQuiet(guild: Option<set<RoleId>>, s: Settings, before: seq<RoleId>, after: seq<RoleId>)
    requires RolesOf(after) == Apply(RolesOf(before), CheckAndAssign(guild, s, RolesOf(before)), true)
    ensures OnMemberUpdate(guild, s, before, after) == NoAction
  {
  }

  /** The scan-on-join switch gates the join listener only; it never changes a decision. */
  lemma ScanOnJoinOnlyGatesJoins(guild: Option<set<RoleId>>, s: Settings, enabled: bool, memberRoles: set<RoleId>)
    ensures CheckAndAssign(guild, s.(scanOnJoin := enabled), memberRoles) == CheckAndAssign(guild, s, memberRoles)
  {
  }
}
