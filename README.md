# Supporter role: a Dafny model

This project models the supporter-role cog of a Red-DiscordBot plugin. For each guild the cog stores five condition-role ids (A, B, C, E, F), one target-role id (D) and a scan-on-join switch. It keeps role D in line with the condition roles. A member who holds any configured condition role gets D. A member who holds none of them loses D. The rule runs in three places:

- when a member's role list changes;
- when a member joins, if scan-on-join is on;
- in the `checksupporterroles` command, which scans every member of the guild and counts additions, removals and skipped members.

Modules:

- `Wrappers` (`wrappers.dfy`): the `Option` type.
- `GuildSettings` (`guild_settings.dfy`): the stored record `Settings` and its registered defaults. `GuildConfig` is a class with one field per stored key. Each `supporterset` setter is a method whose frame names only its own field, and whose postcondition gives the whole new record.
- `Reconciler` (`reconciler.dfy`): `guild.get_role` resolution, the filter that drops unset slots, the `any(...)` test, and the decision `Decide`. Also the single-member check `_check_and_assign_role_d` (`CheckAndAssign`) and the effect of a mutation on a member's roles (`Apply`).
- `Triggers` (`triggers.dfy`): the `on_member_update` and `on_member_join` gates.
- `BulkScan` (`bulk_scan.dfy`): the `checksupporterroles` command. Configuration is validated once. The loop then runs over an array of member role sets and updates them in place. It keeps the three counters as the source does. The counters' meaning is given by the function `Tally`.

Modelling choices:

- A role id is a `nat` (a Discord snowflake).
- A guild is the set of role ids it has. `guild.get_role` gives `None` for an unset id and for an id the guild does not have.
- A member's roles are a `set<RoleId>`. `on_member_update` compares role *lists*, so the two listeners take `seq<RoleId>`.
- The scan takes an outcome oracle `succeeds` with one entry per member. The entry says whether that member's add or remove call, when the rule issues one, goes through. It is not consulted for a member the rule leaves alone. `discord.Forbidden` and every other exception are the same outcome, `false`, which matches how the source treats them.
- `if not guild: return` is modelled by giving `CheckAndAssign` an `Option` guild.

Two facts about the code that shape the model:

- The code does not filter D out of its own condition list (`supporterrole/supporterrole.py:78`). `Reconciler.TargetAsConditionNeverRemoved` and `Reconciler.TargetInConditionsChangesDecision` show the effect: if D is also a condition slot, a member who has D is never asked to lose it, so listing D as a condition changes decisions.
- The code keeps the resolved slots as a list in A, B, C, E, F order. `Reconciler.DecideOnConfiguredSet` proves that only the set of roles in that list matters.

## Model

| member | source | states |
|---|---|---|
| `GuildSettings.GuildConfig.constructor` | supporterrole/supporterrole.py:22-33 | a new guild entry holds the registered defaults: no role set, scan-on-join off |
| `GuildSettings.GuildConfig.SetRoleA` | supporterrole/supporterrole.py:140-146 | `supporterset rolea` stores the id in slot A; every other field is unchanged |
| `GuildSettings.GuildConfig.SetRoleB` | supporterrole/supporterrole.py:148-154 | `supporterset roleb` stores the id in slot B; every other field is unchanged |
| `GuildSettings.GuildConfig.SetRoleC` | supporterrole/supporterrole.py:156-162 | `supporterset rolec` stores the id in slot C; every other field is unchanged |
| `GuildSettings.GuildConfig.SetRoleE` | supporterrole/supporterrole.py:165-171 | `supporterset rolee` stores the id in slot E; every other field is unchanged |
| `GuildSettings.GuildConfig.SetRoleF` | supporterrole/supporterrole.py:173-179 | `supporterset rolef` stores the id in slot F; every other field is unchanged |
| `GuildSettings.GuildConfig.SetRoleD` | supporterrole/supporterrole.py:182-188 | `supporterset roled` stores the target id; every other field is unchanged |
| `GuildSettings.GuildConfig.SetScanOnJoin` | supporterrole/supporterrole.py:190-198 | `supporterset scanonjoin` stores the switch; every other field is unchanged |
| `GuildSettings.GuildConfig.All` | supporterrole/supporterrole.py:48 | the record read back holds the stored fields, the condition ids in A, B, C, E, F order |
| `Reconciler.ResolveRole` | supporterrole/supporterrole.py:49-56 | `guild.get_role` gives a role exactly when the id is set and the guild has that role, and then it is that id |
| `Reconciler.GetRolesFromConfig` | supporterrole/supporterrole.py:46-58 | five condition slots and a target; a slot or the target resolves exactly when its id is stored and the guild has that role, and then it is that id; a role is among the resolved conditions exactly when it is stored in some condition slot and exists in the guild |
| `Reconciler.ConditionRoles` | supporterrole/supporterrole.py:78 | the filtered list holds exactly the roles of the configured slots and is no longer than the slot list |
| `Reconciler.HasAnyCondition` | supporterrole/supporterrole.py:84-86 | true exactly when some listed condition role is among the member's roles |
| `Reconciler.Decide` | supporterrole/supporterrole.py:73-91 | add D exactly when D resolved, the member holds a configured condition role and lacks D; remove D exactly when D resolved, some condition is configured, the member holds none and has D; any mutation is of D; otherwise nothing, and nothing at all when D is unset |
| `Reconciler.CheckAndAssign` | supporterrole/supporterrole.py:61-108 | in terms of the stored settings: no guild, or a D that is unset or unknown, issues nothing; D is added exactly when it exists, the member lacks it and holds a stored, existing condition role; D is removed exactly when it exists, the member has it, some condition role is stored and exists, and the member holds none of them |
| `Reconciler.Apply` | supporterrole/supporterrole.py:93-108 | a failed call or no action leaves the member's roles alone; a successful call changes only the target role: present after an add, absent after a remove |
| `Reconciler.NoConditionsNoMutation` | supporterrole/supporterrole.py:77-82 | with every condition slot unset no mutation is issued, so D is never removed from anyone |
| `Reconciler.DecideIdempotent` | supporterrole/supporterrole.py:89-103 | after the decided mutation succeeds, deciding again on the new roles gives no action |
| `Reconciler.CheckAndAssignIdempotent` | supporterrole/supporterrole.py:61-108 | the same for the whole single-member check, with role resolution included |
| `Reconciler.DecideOnConfiguredSet` | supporterrole/supporterrole.py:78-86 | two slot lists that configure the same roles give the same decision for every member and target |
| `Reconciler.DecidePermutationInvariant` | supporterrole/supporterrole.py:78-86 | reordering the condition slots never changes the decision |
| `Reconciler.DecideDuplicateInvariant` | supporterrole/supporterrole.py:78-86 | inserting a copy of any slot at any position never changes the decision |
| `Reconciler.TargetAsConditionNeverRemoved` | supporterrole/supporterrole.py:78-103 | when D is also a configured condition, a member who has D is left alone |
| `Reconciler.TargetInConditionsChangesDecision` | supporterrole/supporterrole.py:78-103 | D is not filtered out of the conditions: a member holding only D loses it under conditions {A} and keeps it under {A, D} |
| `Reconciler.Scenarios` | supporterrole/supporterrole.py:73-103 | four concrete cases: condition held → add; only D held → remove; no condition configured → nothing; D unset → nothing |
| `Triggers.RolesOf` | supporterrole/supporterrole.py:85-89 | the role set of a member's role list holds exactly the roles in the list, so membership tests on `member.roles` agree with it |
| `Triggers.OnMemberUpdate` | supporterrole/supporterrole.py:111-118 | equal before and after role lists trigger nothing; different lists run the check on the updated member's roles |
| `Triggers.OnMemberJoin` | supporterrole/supporterrole.py:120-127 | a join runs the check exactly when scan-on-join is set, and issues nothing otherwise |
| `Triggers.OwnMutationEchoIsQuiet` | supporterrole/supporterrole.py:112-118 | the role update caused by the bot's own successful mutation triggers a check that issues nothing |
| `Triggers.ScanOnJoinOnlyGatesJoins` | supporterrole/supporterrole.py:46-58 | the scan-on-join switch never changes any member's decision |
| `BulkScan.Record` | supporterrole/supporterrole.py:280-295 | no action leaves the counters alone; otherwise exactly one counter grows by one: `added` only for a successful add, `removed` only for a successful remove, `skipped` only for a failed call |
| `BulkScan.Count` | supporterrole/supporterrole.py:271-295 | the number of members with a given scan step (no call, add succeeded, remove succeeded, call failed), at most the member count |
| `BulkScan.Tally` | supporterrole/supporterrole.py:246-295 | the three counters together never exceed the number of members scanned |
| `BulkScan.CheckSupporterRoles` | supporterrole/supporterrole.py:240-303 | an unresolved D rejects (checked first), then an empty condition list rejects; a rejected scan changes no member; otherwise the report is `Tally` of the members, and every member ends with the rule's mutation applied when its call succeeded and unchanged when it failed |
| `BulkScan.ScanMembers` | supporterrole/supporterrole.py:271-296 | the loop: the inline rule agrees with `Decide` for every member, a failed call is counted as skipped and does not stop the walk, and the counters equal `Tally` |
| `BulkScan.InlineRuleIsDecide` | supporterrole/supporterrole.py:274-295 | with D resolved and at least one condition, the scan's inline `any` / `role_d in member.roles` test is `Decide` |
| `BulkScan.TallyAccountsForPending` | supporterrole/supporterrole.py:280-295 | added + removed + skipped equals the number of members the rule asks to mutate; members the rule leaves alone count nowhere |
| `BulkScan.TallyCountsCalls` | supporterrole/supporterrole.py:280-295 | `added` is the number of members whose add call succeeded, `removed` the number whose remove call succeeded, `skipped` the number whose call failed; a member with no call counts nowhere |
| `BulkScan.ScanLeavesOnlyFailedPending` | supporterrole/supporterrole.py:271-295 | after a scan, the members the rule still wants to mutate are exactly those whose call failed |
| `BulkScan.RescanAfterCleanScan` | supporterrole/supporterrole.py:271-295 | a second scan after a scan in which no call failed (no-op members aside, whatever their oracle entry) reports 0 added, 0 removed, 0 skipped |
| `BulkScan.ScanScenario` | supporterrole/supporterrole.py:271-295 | three members needing add (refused), remove and nothing give the report 0 added, 1 removed, 1 skipped |

## Left out

- Config storage: Red's `Config`, its registration and the per-guild lookup (lines 20-33) become one `GuildConfig` object per guild. Its `All()` is the `all()` read.
- Discord I/O and message text: `ctx.send`, `ctx.typing()` and the console `print` logging of failures. These are output only.
- The `supporterset status` command (lines 200-235): it only formats text.
- The `asyncio.sleep(0.1)` pacing in the scan loop (line 296): it is rate limiting, not logic.
- Listener registration in `cog_load`/`cog_unload`, the `setup` entry point, and the permission and guild-only decorators. These are plugin-host plumbing.
- The two exception classes `discord.Forbidden` and the rest. They are one failure outcome, since the source handles both the same way.
- The failure outcome of the single-member check. Its failure is logged and swallowed, so the model returns the action issued, and `Apply` gives the roles it produces on success or on failure.
- Concurrency between event handlers and cancellation of a running scan. Each evaluation is one sequential call on a snapshot of the member's roles.
- That the scan reads the configuration once rather than per member. The model resolves it once, but a count of store reads is not part of it.
