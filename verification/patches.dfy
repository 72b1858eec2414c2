/**
 * The plugin's settings, the start-up step that decides which interceptors to
 * install, and the interceptor that lifts the scav-quest unlock requirement.
 */
module Patches {
  import opened Wrappers
  import opened Host

  /** The settings read from the plugin's configuration file. */
  datatype ModConfig = ModConfig(
    instantRepeatables: bool,
    xpMultiplier: real,
    currencyMultiplier: real,
    repMultiplier: real,
    skillRewardChanceMultiplier: real,
    skillPointRewardMultiplier: real,
    dailyMinPlayerLevel: int,
    dailyNumberOfQuests: int,
    dailyResetTimer: int,
    weeklyMinPlayerLevel: int,
    weeklyNumberOfQuests: int,
    weeklyResetTimer: int,
    fenceMinPlayerLevel: int,
    fenceNumberOfQuests: int,
    fenceResetTimer: int,
    removeIntelCenterRequirement: bool)

  /** The two interceptors the plugin can install into the server. */
  datatype PatchKind = CompleteQuest | RemoveIntelCenter

  /** The interceptors a configuration switches on, in the order they are installed. */
  function PatchesToEnable(cfg: ModConfig): (r: seq<PatchKind>)
    ensures (CompleteQuest in r) <==> cfg.instantRepeatables
    ensures (RemoveIntelCenter in r) <==> cfg.removeIntelCenterRequirement
    ensures forall i, j :: 0 <= i < j < |r| ==> r[i] == CompleteQuest && r[j] == RemoveIntelCenter
  {
    (if cfg.instantRepeatables then [CompleteQuest] else [])
    + (if cfg.removeIntelCenterRequirement then [RemoveIntelCenter] else [])
  }

  /** The start-up hook: loads the settings and enables the chosen interceptors. */
  class Patches {
    var modConfig: Option<ModConfig>
    /** Interceptors enabled with the server so far, oldest first. */
    var enabled: seq<PatchKind>

    constructor ()
      ensures modConfig == None && enabled == []
    {
      modConfig := None;
      enabled := [];
    }

    /** `loaded` stands for the contents of the configuration file. */
    method OnLoad(loaded: ModConfig)
      modifies this
      ensures modConfig == Some(loaded)
      ensures enabled == old(enabled) + PatchesToEnable(loaded)
    {
      modConfig := Some(loaded);
      if loaded.instantRepeatables {
        enabled := enabled + [CompleteQuest];
      }
      if loaded.removeIntelCenterRequirement {
        enabled := enabled + [RemoveIntelCenter];
      }
    }
  }

  /**
   * What a prefix interceptor decides: whether the intercepted method still
   * runs, and the result value it leaves in place.
   */
  datatype PrefixOutcome = PrefixOutcome(runOriginal: bool, result: bool)

  /** Fence's entry exists and says explicitly that Fence is locked. */
  predicate FenceLocked(tradersInfo: map<TraderId, TraderInfo>) {
    FENCE in tradersInfo && tradersInfo[FENCE].unlocked == Some(false)
  }

  /**
   * Prefix of the server's "has the player unlocked daily scav quests" check.
   * `result` is the check's result slot as the prefix finds it.
   */
  function RemoveIntelCenterPrefix(tradersInfo: map<TraderId, TraderInfo>, result: bool): (o: PrefixOutcome)
    ensures FENCE !in tradersInfo ==> !o.runOriginal && o.result
    ensures FENCE in tradersInfo && tradersInfo[FENCE].unlocked.None? ==> !o.runOriginal && o.result
    ensures FENCE in tradersInfo && tradersInfo[FENCE].unlocked == Some(true) ==> !o.runOriginal && o.result
    ensures FENCE in tradersInfo && tradersInfo[FENCE].unlocked == Some(false) ==> o.runOriginal && o.result == result
  {
    if FENCE in tradersInfo && tradersInfo[FENCE].unlocked.Some? && !tradersInfo[FENCE].unlocked.value then
      PrefixOutcome(true, result)
    else
      PrefixOutcome(false, true)
  }

  /**
   * The value the scav-unlock check yields with the plugin loaded under `cfg`,
   * given the verdict `original` that the server's own check would reach.
   */
  function ScavUnlockCheck(cfg: ModConfig, tradersInfo: map<TraderId, TraderInfo>, original: bool): bool {
    if RemoveIntelCenter in PatchesToEnable(cfg) then
      var o := RemoveIntelCenterPrefix(tradersInfo, false);
      if o.runOriginal then original else o.result
    else
      original
  }

  /**
   * The interceptor only ever unlocks: it never turns a granted unlock into a
   * refusal, it defers to the server exactly when Fence is explicitly locked,
   * and without the setting it changes nothing.
   */
  lemma ScavUnlockOnlyRelaxes(cfg: ModConfig, tradersInfo: map<TraderId, TraderInfo>, original: bool)
    ensures original ==> ScavUnlockCheck(cfg, tradersInfo, original)
    ensures !cfg.removeIntelCenterRequirement ==> ScavUnlockCheck(cfg, tradersInfo, original) == original
    ensures cfg.removeIntelCenterRequirement ==>
              ScavUnlockCheck(cfg, tradersInfo, original) == (original || !FenceLocked(tradersInfo))
  {
  }
}
