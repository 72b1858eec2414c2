# Repeatable Quest Config — a Dafny model

This project models the behaviour of "Repeatable Quest Config", a plugin for a
game server. The plugin changes how repeatable quests (daily, weekly and scav
daily tasks) work:

- **Start-up rewriting of the quest configuration (`RQC`).** For the first three
  repeatable-quest categories of the server's shared quest configuration, it
  multiplies six reward tables by configured multipliers. The tables are
  experience, roubles, GP coins, reputation, skill reward chance and skill
  points. It also overwrites the minimum player level, the number of quests and
  the reset time of each of those categories, choosing the setting by the
  category's position.
- **Instant repeatables (`CompleteQuestPatch`).** This is a prefix/postfix pair
  around the server's quest completion. The prefix remembers, in two
  process-wide fields, the completed quest and the name of its category. The
  postfix visits the categories with the remembered name in order and asks the
  server's generator for a quest for each, until one attempt yields a quest.
  It appends that quest to that category, records its change cost, reports
  every category with the name visited so far in the response, the extended
  one last, and clears the remembered quest.
- **Scav-unlock gate (`RemoveIntelCenterPatch`).** A prefix that forces the
  server's "daily scav quests unlocked" check to `true`, except when the trader
  Fence is explicitly locked.
- **Toggles (`Patches.OnLoad`).** Two settings decide which of the two
  interceptors are installed.

Modules:

- `Wrappers` holds the optional and result values.
- `Host` holds the server's data model.
- `Patches` holds the settings, the toggles and the gate.
- `Rqc` holds the configuration rewriting.
- `CompleteQuest` holds the instant-repeatables patch.

Code that updates state in place is modelled as classes:

- `Rqc.Rqc` edits the shared `Host.QuestConfig` object.
- `CompleteQuest.CompleteQuestPatch` holds the two static fields. One object
  stands for the static storage.
- The postfix edits the `Host.PmcData` player profile.

Each such method is proved against a value-level function that states the
whole new state: `Rqc.LoadEffect`, `CompleteQuest.PrefixStep` or
`CompleteQuest.PostfixStep`. The lemmas about those functions state the
properties. They also cover sequences of calls, for example a remembered
category that outlives a failed replacement.

Numbers are exact: multipliers and reward values are `real`. The setting values
are copied and never combined by arithmetic, so they are plain `int`.

The server's quest generator is a parameter of the postfix. So is the content of
the configuration file, passed to both start-up hooks.

## Model

| member | source | states |
|---|---|---|
| `Patches.PatchesToEnable` | Patches.cs:35-36 | the instant-repeatables interceptor is enabled iff `InstantRepeatables` is set, the gate interceptor iff `RemoveIntelCenterRequirement` is set, each at most once, completion patch first |
| `Patches.Patches.OnLoad` | Patches.cs:30-38 | stores the loaded settings and appends exactly the interceptors the toggles select to those already enabled |
| `Patches.RemoveIntelCenterPrefix` | Patches.cs:124-135 | runs the original check with its result untouched exactly when Fence's entry exists and its `Unlocked` is present and false; when the entry is missing, `Unlocked` is absent or true, it skips the original and sets the result to true |
| `Patches.ScavUnlockOnlyRelaxes` | Patches.cs:124-135 | with the plugin loaded the check never refuses what the server would grant; with the setting on it yields `original || !FenceLocked`; with it off it yields the server's verdict |
| `Rqc.Rqc.constructor` | RQC.cs:28-36 | the hook holds the server's shared quest configuration and no settings yet |
| `Rqc.Rqc.ScaleRewardList` | RQC.cs:62-65 | the `*=` loop: category `index`'s chosen table becomes the element-wise product with `m`; its length and every other table, field and category stay as they were |
| `Rqc.Rqc.EditRepeatableXP` | RQC.cs:58-66 | only category `index`'s experience table changes, scaled by `XpMultiplier` |
| `Rqc.Rqc.EditRepeatableCurrency` | RQC.cs:68-80 | only category `index`'s roubles and GP-coins tables change, both scaled by the one `CurrencyMultiplier` |
| `Rqc.Rqc.EditRepeatableRep` | RQC.cs:82-90 | only category `index`'s reputation table changes, scaled by `RepMultiplier` |
| `Rqc.Rqc.EditRepeatableSkillReward` | RQC.cs:92-100 | only category `index`'s skill-reward-chance table changes, scaled by `SkillRewardChanceMultiplier` |
| `Rqc.Rqc.EditRepeatableSkillPointReward` | RQC.cs:102-110 | only category `index`'s skill-point table changes, scaled by `SkillPointRewardMultiplier` |
| `Rqc.Rqc.EditRepeatableMinLevels` | RQC.cs:112-119 | only category `index`'s minimum level changes: to the daily, weekly or scav-daily setting for index 0, 1 or 2; other indices keep it |
| `Rqc.Rqc.EditRepeatableCounts` | RQC.cs:121-127 | the same index mapping for the number of quests |
| `Rqc.Rqc.EditRepeatableTimer` | RQC.cs:129-135 | the same index mapping for the reset time |
| `Rqc.Rqc.OnLoad` | RQC.cs:38-56 | the category list becomes `LoadEffect` of the old one: positions 0-2 get all eight edits once and later positions are untouched; it completes iff there are at least three categories, and otherwise it stops at the first missing position after editing the earlier ones |
| `Rqc.EditsCompose` | RQC.cs:46-53 | the eight edits applied in the source's order equal the all-at-once reference definition `EditedCategory` |
| `Rqc.LoadEditsCategory` | RQC.cs:44-54 | for positions 0-2, each of the six tables is scaled by its own multiplier and roubles and GP coins share one; levels, items, reward spread, name and side stay; the three settings follow the daily/weekly/scav-daily order; positions 3 and above are unchanged |
| `Rqc.ScaledComposes` | RQC.cs:64 | two scaling passes equal one pass by the product of the multipliers |
| `Rqc.RescalingChangesList` | RQC.cs:64 | scaling is not idempotent: a second pass changes a list with a non-zero element unless the multiplier is 0 or 1 |
| `Rqc.LoadTwiceCompounds` | RQC.cs:44-54 | after two start-up passes a reward element is `old * m * m`, while the three overwritten settings equal those after one pass |
| `Rqc.LoadNotIdempotent` | RQC.cs:44-54 | two start-up passes differ from one whenever a multiplier other than 0 or 1 meets a non-zero reward element |
| `Rqc.DoubledExperienceExample` | RQC.cs:62-65 | experience `[100, 200]` scaled by 2 gives `[200, 400]` |
| `CompleteQuest.FirstIndex` | Patches.cs:56 | the `FirstOrDefault` search: absent iff no element satisfies the condition; otherwise the position of an element that does, with none before it |
| `CompleteQuest.ConfigNamedIsFirst` | Patches.cs:81 | the host-configuration lookup by category name is absent exactly when no configuration carries the name; otherwise it yields the first configuration that does |
| `CompleteQuest.FirstReplaceable` | Patches.cs:76-86 | the postfix's scan: absent iff no position holds a category with the remembered name whose own generation attempt yields a quest; otherwise the first such position, with none before it |
| `CompleteQuest.CompleteQuestPatch.constructor` | Patches.cs:43-44 | both static fields start out null |
| `CompleteQuest.CompleteQuestPatch.PatchPrefix` | Patches.cs:51-64 | the fields become `PrefixStep` of their old values: set from the first category holding the quest, left alone when none does |
| `CompleteQuest.CompleteQuestPatch.Postfix` | Patches.cs:66-113 | the fields, the profile's categories and the returned response are those of `PostfixStep`, and the traders are untouched |
| `CompleteQuest.PrefixMissKeepsMemory` | Patches.cs:54-63 | when no category holds the requested id, both fields keep what an earlier call left |
| `CompleteQuest.PrefixRemembersFirstHolder` | Patches.cs:54-62 | categories are scanned in order; the first one holding the id provides the remembered name and its first active quest with that id, and the scan stops there |
| `CompleteQuest.PostfixWithoutReplacement` | Patches.cs:69-112 | with no remembered quest, or when generation yields nothing for every name-matching category, the response is returned as it came, no category changes and the memory is not cleared |
| `CompleteQuest.PostfixChangesAtMostOneMatchingCategory` | Patches.cs:76-110 | categories whose name differs from the remembered one are never changed; at most one category changes; the category count and the remembered name are kept |
| `CompleteQuest.PostfixReplacesFirstGenerated` | Patches.cs:76-109 | in the first name-matching category with a generated quest, the active list grows by one with the new quest, carrying the configured side, last; `ChangeRequirement[newId]` becomes (ChangeCost, ChangeStandingCost or 0); nothing else of that category changes (its end time, inactive quests, name and the other requirements stay); other categories are unchanged; the remembered quest is cleared while the name stays; only this session's response entry changes, to the name-matching categories visited so far, the replaced one last |
| `CompleteQuest.PostfixReportsEarlierAttempts` | Patches.cs:76-106 | each category is a separate generation attempt: a category with the remembered name whose attempt yielded nothing, ahead of the replaced one, is still reported in the session's response, and the replaced category is reported last |
| `CompleteQuest.PostfixFailures` | Patches.cs:86-106 | a generated quest without a matching configuration raises a null reference and changes nothing; a response without the session's entry raises "key not found" after the category was extended, with the memory still set |
| `CompleteQuest.StaleMemoryReplacesOnUnrelatedCompletion` | Patches.cs:54-69 | a memory left set survives the prefix of a completion whose quest is in no repeatable category, and that completion's postfix adds a quest to the remembered category |
| `CompleteQuest.FailedReplacementCarriesOver` | Patches.cs:54-112 | two completions in a row: a replacement that fails keeps the memory, and completing an unrelated quest next replaces a quest in the first quest's category |

## Left out

- Reading `config.json` (Patches.cs:32-33, RQC.cs:40-41) is file I/O. The settings are a `ModConfig` value passed to both start-up hooks. Missing fields default to zero in the deserializer; no error is raised for them, and the model follows that.
- Installing the interceptors is left out: `AbstractPatch`, `GetTargetMethod`, `AccessTools`, Harmony and the order in which the host runs a prefix, the original and a postfix. The model states each hook's effect on its inputs. `ScavUnlockCheck` composes the gate with the original check.
- The host's `GenerateQuestPool` and `AttemptToGenerateRepeatableQuest`, reached by reflection, are one uninterpreted `Generator` per postfix call. It takes the position of the category being attempted and its configuration, so each attempt is a separate draw and two categories with the same name can get different answers. The player's level, profile, session and randomness are folded into that function. The configuration lookup through `ConfigServer` reads a given category list. Exceptions the host may raise during generation are not modelled. One such case is a null configuration when no category configuration has the name: there the model lets the generator yield either nothing or a quest, and the postfix then ends with `NullReference`.
- `ICloner.Clone` is a value copy. Categories are values, so a clone never aliases the profile. The unused logger and the service locator are dropped.
- `float` and `double` rounding in the `*=` multiplications is replaced by exact `real` arithmetic.
- Reward tables are values inside each category. If the server shared one list object between two categories, one start-up pass would scale it twice; that aliasing is not modelled.
- Concurrent sessions racing on the two static fields are out of scope, because calls are modelled one after another. The stale-memory lemmas show what the shared fields carry from one completion to the next.
- The enum-to-text conversion of a category's side (Patches.cs:88) is a `string` field of the category configuration.
- `ModMetadata` (RQC.cs:12-25), the dependency-injection load order and the unused constructor arguments of `RQC` are framework wiring.
- The remembered quest and its category name live in static fields. Only the quest is cleared, only on success, and the category name is never cleared. The model follows the code.
