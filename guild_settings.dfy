/**
 * The per-guild configuration of the supporter-role cog: five condition-role
 * ids (A, B, C, E, F), the target-role id D and the scan-on-join switch.
 */
module GuildSettings {
  import opened Wrappers

  /** A Discord role id (a snowflake). */
  type RoleId = nat

  /** What `config.guild(guild).all()` reads: every stored field at once. */
  datatype Settings = Settings(
    roleA: Option<RoleId>,
    roleB: Option<RoleId>,
    roleC: Option<RoleId>,
    roleE: Option<RoleId>,
    roleF: Option<RoleId>,
    roleD: Option<RoleId>,
    scanOnJoin: bool)

  /** The registered defaults: no role configured, scanning on join disabled. */
  const DEFAULT_SETTINGS: Settings := Settings(None, None, None, None, None, None, false)

  /** The condition-role ids in the order the cog lists them: A, B, C, E, F. */
  function ConditionIds(s: Settings): (ids: seq<Option<RoleId>>)
    ensures |ids| == 5
  {
    [s.roleA, s.roleB, s.roleC, s.roleE, s.roleF]
  }

  /**
   * The stored configuration of one guild. Each `supporterset` command
   * overwrites exactly one field; the frame of each setter names that field.
   */
  class GuildConfig {
    var roleA: Option<RoleId>
    var roleB: Option<RoleId>
    var roleC: Option<RoleId>
    var roleE: Option<RoleId>
    var roleF: Option<RoleId>
    var roleD: Option<RoleId>
    var scanOnJoin: bool

    /** The whole record, as `all()` returns it. */
    function All(): (s: Settings)
      reads this
      ensures ConditionIds(s) == [roleA, roleB, roleC, roleE, roleF]
      ensures s.roleD == roleD && s.scanOnJoin == scanOnJoin
    {
      Settings(roleA, roleB, roleC, roleE, roleF, roleD, scanOnJoin)
    }

    /** A guild's entry is created with the registered defaults. */
    constructor ()
      ensures All() == DEFAULT_SETTINGS
    {
      roleA, roleB, roleC, roleE, roleF, roleD := None, None, None, None, None, None;
      scanOnJoin := false;
    }

    method SetRoleA(id: RoleId)
      modifies this`roleA
      ensures All() == old(All()).(roleA := Some(id))
    {
      roleA := Some(id);
    }

    method SetRoleB(id: RoleId)
      modifies this`roleB
      ensures All() == old(All()).(roleB := Some(id))
    {
      roleB := Some(id);
    }

    method SetRoleC(id: RoleId)
      modifies this`roleC
      ensures All() == old(All()).(roleC := Some(id))
    {
      roleC := Some(id);
    }

    method SetRoleE(id: RoleId)
      modifies this`roleE
      ensures All() == old(All()).(roleE := Some(id))
    {
      roleE := Some(id);
    }

    method SetRoleF(id: RoleId)
      modifies this`roleF
      ensures All() == old(All()).(roleF := Some(id))
    {
      roleF := Some(id);
    }

    method SetRoleD(id: RoleId)
      modifies this`roleD
      ensures All() == old(All()).(roleD := Some(id))
    {
      roleD := Some(id);
    }

    method SetScanOnJoin(enabled: bool)
      modifies this`scanOnJoin
      ensures All() == old(All()).(scanOnJoin := enabled)
    {
      scanOnJoin := enabled;
    }
  }
}
