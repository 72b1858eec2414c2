/**
 * The start-up step that rewrites the server's repeatable-quest configuration:
 * for the first three categories (daily, weekly, scav daily) it multiplies six
 * reward tables by the configured multipliers and overwrites the minimum
 * player level, the number of quests and the reset time.
 */
module Rqc {
  import opened Wrappers
  import opened Host
  import opened Patches

  /** Every element of `xs` multiplied by `m`: what one `*=` pass over a list leaves. */
  function Scaled(xs: seq<real>, m: real): seq<real> {
    seq(|xs|, k requires 0 <= k < |xs| => xs[k] * m)
  }

  /** A list whose every element is the matching input element times `m` is `Scaled`. */
  lemma ScaledIsPointwise(xs: seq<real>, ys: seq<real>, m: real)
    requires |ys| == |xs|
    requires forall k :: 0 <= k < |xs| ==> ys[k] == xs[k] * m
    ensures ys == Scaled(xs, m)
  {
    assert forall k :: 0 <= k < |xs| ==> ys[k] == Scaled(xs, m)[k];
  }

  lemma MulTwice(x: real, y: real, a: real, b: real)
    requires y == x * a
    ensures y * b == x * (a * b)
  {
  }

  lemma MulChanges(x: real, m: real)
    requires x != 0.0 && m != 1.0
    ensures x * m != x
  {
  }

  /** Two scaling passes amount to one pass by the product of the multipliers. */
  lemma ScaledComposes(xs: seq<real>, a: real, b: real)
    ensures Scaled(Scaled(xs, a), b) == Scaled(xs, a * b)
  {
    var twice := Scaled(Scaled(xs, a), b);
    forall k | 0 <= k < |xs|
      ensures twice[k] == xs[k] * (a * b)
    {
      MulTwice(xs[k], Scaled(xs, a)[k], a, b);
    }
    ScaledIsPointwise(xs, twice, a * b);
  }

  /**
   * Scaling is not idempotent: a second pass changes a list that holds a
   * non-zero element unless the multiplier is 0 or 1.
   */
  lemma RescalingChangesList(xs: seq<real>, m: real, k: nat)
    requires k < |xs| && xs[k] != 0.0 && m != 0.0 && m != 1.0
    ensures Scaled(Scaled(xs, m), m) != Scaled(xs, m)
  {
    var once := Scaled(xs, m)[k];
    assert once != 0.0;
    MulChanges(once, m);
    assert Scaled(Scaled(xs, m), m)[k] == once * m;
    assert Scaled(Scaled(xs, m), m)[k] != once;
  }

  /** The worked example: experience rewards [100, 200] doubled give [200, 400]. */
  lemma DoubledExperienceExample()
    ensures Scaled([100.0, 200.0], 2.0) == [200.0, 400.0]
  {
  }

  /** The reward tables that the plugin scales. */
  datatype RewardList = Experience | Roubles | GpCoins | Reputation | SkillRewardChance | SkillPointReward

  function ListOf(rs: RewardScaling, list: RewardList): seq<real> {
    match list
    case Experience => rs.experience
    case Roubles => rs.roubles
    case GpCoins => rs.gpCoins
    case Reputation => rs.reputation
    case SkillRewardChance => rs.skillRewardChance
    case SkillPointReward => rs.skillPointReward
  }

  /** `rs` with table `list` replaced by `xs` and everything else as it was. */
  function WithList(rs: RewardScaling, list: RewardList, xs: seq<real>): (r: RewardScaling)
    ensures ListOf(r, list) == xs
    ensures forall other :: other != list ==> ListOf(r, other) == ListOf(rs, other)
    ensures r.levels == rs.levels && r.items == rs.items && r.rewardSpread == rs.rewardSpread
    ensures xs == ListOf(rs, list) ==> r == rs
  {
    match list
    case Experience => rs.(experience := xs)
    case Roubles => rs.(roubles := xs)
    case GpCoins => rs.(gpCoins := xs)
    case Reputation => rs.(reputation := xs)
    case SkillRewardChance => rs.(skillRewardChance := xs)
    case SkillPointReward => rs.(skillPointReward := xs)
  }

  /** The configured multiplier for each table; one currency multiplier serves roubles and GP coins. */
  function MultiplierFor(cfg: ModConfig, list: RewardList): real {
    match list
    case Experience => cfg.xpMultiplier
    case Roubles => cfg.currencyMultiplier
    case GpCoins => cfg.currencyMultiplier
    case Reputation => cfg.repMultiplier
    case SkillRewardChance => cfg.skillRewardChanceMultiplier
    case SkillPointReward => cfg.skillPointRewardMultiplier
  }

  /** Replacing a table twice keeps only the second replacement. */
  lemma WithListTwice(rs: RewardScaling, list: RewardList, xs: seq<real>, ys: seq<real>)
    ensures WithList(WithList(rs, list, xs), list, ys) == WithList(rs, list, ys)
  {
  }

  /** Category `c` with table `list` replaced by `xs`. */
  function WithCategoryList(c: RepeatableQuestConfig, list: RewardList, xs: seq<real>): RepeatableQuestConfig {
    c.(rewardScaling := WithList(c.rewardScaling, list, xs))
  }

  /** Category `c` after one pass multiplying table `list` by `m`. */
  function ScaledCategory(c: RepeatableQuestConfig, list: RewardList, m: real): RepeatableQuestConfig {
    WithCategoryList(c, list, Scaled(ListOf(c.rewardScaling, list), m))
  }

  /**
   * The setting chosen by category position: index 0 is the daily, 1 the weekly
   * and 2 the scav daily category; any other index keeps `current`.
   */
  function ByIndex(index: nat, daily: int, weekly: int, fence: int, current: int): int {
    if index == 0 then daily
    else if index == 1 then weekly
    else if index == 2 then fence
    else current
  }

  function MinLevelAt(cfg: ModConfig, index: nat, current: int): int {
    ByIndex(index, cfg.dailyMinPlayerLevel, cfg.weeklyMinPlayerLevel, cfg.fenceMinPlayerLevel, current)
  }

  function NumQuestsAt(cfg: ModConfig, index: nat, current: int): int {
    ByIndex(index, cfg.dailyNumberOfQuests, cfg.weeklyNumberOfQuests, cfg.fenceNumberOfQuests, current)
  }

  function ResetTimeAt(cfg: ModConfig, index: nat, current: int): int {
    ByIndex(index, cfg.dailyResetTimer, cfg.weeklyResetTimer, cfg.fenceResetTimer, current)
  }

  /** Reference definition: category `c` at position `index` after all eight edits, stated at once. */
  function EditedCategory(c: RepeatableQuestConfig, index: nat, cfg: ModConfig): RepeatableQuestConfig {
    var rs := c.rewardScaling;
    c.(rewardScaling := rs.(experience := Scaled(rs.experience, cfg.xpMultiplier),
                            roubles := Scaled(rs.roubles, cfg.currencyMultiplier),
                            gpCoins := Scaled(rs.gpCoins, cfg.currencyMultiplier),
                            reputation := Scaled(rs.reputation, cfg.repMultiplier),
                            skillRewardChance := Scaled(rs.skillRewardChance, cfg.skillRewardChanceMultiplier),
                            skillPointReward := Scaled(rs.skillPointReward, cfg.skillPointRewardMultiplier)),
       minPlayerLevel := MinLevelAt(cfg, index, c.minPlayerLevel),
       numQuests := NumQuestsAt(cfg, index, c.numQuests),
       resetTime := ResetTimeAt(cfg, index, c.resetTime))
  }

  /** The eight edits, applied one after the other, give the reference definition. */
  lemma EditsCompose(c: RepeatableQuestConfig, index: nat, cfg: ModConfig)
    ensures var scaled := ScaledCategory(ScaledCategory(ScaledCategory(ScaledCategory(ScaledCategory(ScaledCategory(c,
                            Experience, cfg.xpMultiplier),
                            Roubles, cfg.currencyMultiplier),
                            GpCoins, cfg.currencyMultiplier),
                            Reputation, cfg.repMultiplier),
                            SkillRewardChance, cfg.skillRewardChanceMultiplier),
                            SkillPointReward, cfg.skillPointRewardMultiplier);
            var leveled := scaled.(minPlayerLevel := MinLevelAt(cfg, index, scaled.minPlayerLevel));
            var counted := leveled.(numQuests := NumQuestsAt(cfg, index, leveled.numQuests));
            counted.(resetTime := ResetTimeAt(cfg, index, counted.resetTime)) == EditedCategory(c, index, cfg)
  {
  }

  lemma UpdateTwice<T>(s: seq<T>, i: nat, a: T, b: T)
    requires i < |s|
    ensures s[i := a][i := b] == s[i := b]
  {
  }

  /** The category list after one start-up pass: positions 0, 1 and 2 edited, the rest untouched. */
  function LoadEffect(cats: seq<RepeatableQuestConfig>, cfg: ModConfig): (r: seq<RepeatableQuestConfig>)
    ensures |r| == |cats|
  {
    seq(|cats|, j requires 0 <= j < |cats| => if j < 3 then EditedCategory(cats[j], j, cfg) else cats[j])
  }

  /** Multiplying element `i` of a list whose first `i` elements are already scaled extends the scaled part by one. */
  lemma ScaledOneMore(xs: seq<real>, current: seq<real>, m: real, i: nat)
    requires i < |xs| == |current|
    requires forall k :: 0 <= k < i ==> current[k] == xs[k] * m
    requires forall k :: i <= k < |xs| ==> current[k] == xs[k]
    ensures forall k :: 0 <= k < i + 1 ==> current[i := current[i] * m][k] == xs[k] * m
    ensures forall k :: i + 1 <= k < |xs| ==> current[i := current[i] * m][k] == xs[k]
  {
  }

  /** Once every element of the table has been multiplied, the category list is the scaled one. */
  lemma ScaledListDone(cats: seq<RepeatableQuestConfig>, now: seq<RepeatableQuestConfig>, index: nat, list: RewardList, m: real)
    requires index < |cats| == |now|
    requires forall j :: 0 <= j < |cats| && j != index ==> now[j] == cats[j]
    requires now[index] == WithCategoryList(cats[index], list, ListOf(now[index].rewardScaling, list))
    requires |ListOf(now[index].rewardScaling, list)| == |ListOf(cats[index].rewardScaling, list)|
    requires forall k :: 0 <= k < |ListOf(cats[index].rewardScaling, list)| ==>
               ListOf(now[index].rewardScaling, list)[k] == ListOf(cats[index].rewardScaling, list)[k] * m
    ensures now == cats[index := ScaledCategory(cats[index], list, m)]
  {
    ScaledIsPointwise(ListOf(cats[index].rewardScaling, list), ListOf(now[index].rewardScaling, list), m);
    assert now[index] == ScaledCategory(cats[index], list, m);
    assert forall j :: 0 <= j < |cats| ==> now[j] == cats[index := ScaledCategory(cats[index], list, m)][j];
  }

  /** The plugin's start-up hook that edits the server's shared quest configuration. */
  class Rqc {
    var modConfig: Option<ModConfig>
    const questConfig: QuestConfig

    constructor (questConfig: QuestConfig)
      ensures this.questConfig == questConfig && modConfig == None
    {
      this.questConfig := questConfig;
      modConfig := None;
    }

    /** Multiplies every element of table `list` of category `index` by `m`, in place. */
    method ScaleRewardList(index: nat, list: RewardList, m: real)
      requires index < |questConfig.repeatableQuests|
      modifies questConfig
      ensures questConfig.repeatableQuests
           == old(questConfig.repeatableQuests)[index := ScaledCategory(old(questConfig.repeatableQuests[index]), list, m)]
    {
      ghost var cats := questConfig.repeatableQuests;
      ghost var xs := ListOf(cats[index].rewardScaling, list);
      var i := 0;
      while i < |ListOf(questConfig.repeatableQuests[index].rewardScaling, list)|
        invariant |questConfig.repeatableQuests| == |cats|
        invariant forall j :: 0 <= j < |cats| && j != index ==> questConfig.repeatableQuests[j] == cats[j]
        invariant questConfig.repeatableQuests[index]
               == WithCategoryList(cats[index], list, ListOf(questConfig.repeatableQuests[index].rewardScaling, list))
        invariant 0 <= i <= |xs| == |ListOf(questConfig.repeatableQuests[index].rewardScaling, list)|
        invariant forall k :: 0 <= k < i ==> ListOf(questConfig.repeatableQuests[index].rewardScaling, list)[k] == xs[k] * m
        invariant forall k :: i <= k < |xs| ==> ListOf(questConfig.repeatableQuests[index].rewardScaling, list)[k] == xs[k]
      {
        var c := questConfig.repeatableQuests[index];
        var current := ListOf(c.rewardScaling, list);
        ScaledOneMore(xs, current, m, i);
        WithListTwice(cats[index].rewardScaling, list, current, current[i := current[i] * m]);
        questConfig.repeatableQuests := questConfig.repeatableQuests[index := WithCategoryList(c, list, current[i := current[i] * m])];
        i := i + 1;
      }
      ScaledListDone(cats, questConfig.repeatableQuests, index, list, m);
    }

    method EditRepeatableXP(index: nat)
      requires modConfig.Some? && index < |questConfig.repeatableQuests|
      modifies questConfig
      ensures questConfig.repeatableQuests == old(questConfig.repeatableQuests)[index :=
                ScaledCategory(old(questConfig.repeatableQuests[index]), Experience, modConfig.value.xpMultiplier)]
    {
      ScaleRewardList(index, Experience, modConfig.value.xpMultiplier);
    }

    /** One multiplier serves both currencies, roubles and GP coins. */
    method EditRepeatableCurrency(index: nat)
      requires modConfig.Some? && index < |questConfig.repeatableQuests|
      modifies questConfig
      ensures questConfig.repeatableQuests == old(questConfig.repeatableQuests)[index :=
                ScaledCategory(ScaledCategory(old(questConfig.repeatableQuests[index]), Roubles, modConfig.value.currencyMultiplier),
                               GpCoins, modConfig.value.currencyMultiplier)]
    {
      ScaleRewardList(index, Roubles, modConfig.value.currencyMultiplier);
      ScaleRewardList(index, GpCoins, modConfig.value.currencyMultiplier);
    }

    method EditRepeatableRep(index: nat)
      requires modConfig.Some? && index < |questConfig.repeatableQuests|
      modifies questConfig
      ensures questConfig.repeatableQuests == old(questConfig.repeatableQuests)[index :=
                ScaledCategory(old(questConfig.repeatableQuests[index]), Reputation, modConfig.value.repMultiplier)]
    {
      ScaleRewardList(index, Reputation, modConfig.value.repMultiplier);
    }

    method EditRepeatableSkillReward(index: nat)
      requires modConfig.Some? && index < |questConfig.repeatableQuests|
      modifies questConfig
      ensures questConfig.repeatableQuests == old(questConfig.repeatableQuests)[index :=
                ScaledCategory(old(questConfig.repeatableQuests[index]), SkillRewardChance, modConfig.value.skillRewardChanceMultiplier)]
    {
      ScaleRewardList(index, SkillRewardChance, modConfig.value.skillRewardChanceMultiplier);
    }

    method EditRepeatableSkillPointReward(index: nat)
      requires modConfig.Some? && index < |questConfig.repeatableQuests|
      modifies questConfig
      ensures questConfig.repeatableQuests == old(questConfig.repeatableQuests)[index :=
                ScaledCategory(old(questConfig.repeatableQuests[index]), SkillPointReward, modConfig.value.skillPointRewardMultiplier)]
    {
      ScaleRewardList(index, SkillPointReward, modConfig.value.skillPointRewardMultiplier);
    }

    method EditRepeatableMinLevels(index: nat)
      requires modConfig.Some? && index < |questConfig.repeatableQuests|
      modifies questConfig
      ensures questConfig.repeatableQuests == old(questConfig.repeatableQuests)[index :=
                old(questConfig.repeatableQuests[index]).(minPlayerLevel :=
                  MinLevelAt(modConfig.value, index, old(questConfig.repeatableQuests[index].minPlayerLevel)))]
    {
      var cfg := modConfig.value;
      var c := questConfig.repeatableQuests[index];
      if index == 0 { questConfig.repeatableQuests := questConfig.repeatableQuests[index := c.(minPlayerLevel := cfg.dailyMinPlayerLevel)]; }
      if index == 1 { questConfig.repeatableQuests := questConfig.repeatableQuests[index := c.(minPlayerLevel := cfg.weeklyMinPlayerLevel)]; }
      if index == 2 { questConfig.repeatableQuests := questConfig.repeatableQuests[index := c.(minPlayerLevel := cfg.fenceMinPlayerLevel)]; }
    }

    method EditRepeatableCounts(index: nat)
      requires modConfig.Some? && index < |questConfig.repeatableQuests|
      modifies questConfig
      ensures questConfig.repeatableQuests == old(questConfig.repeatableQuests)[index :=
                old(questConfig.repeatableQuests[index]).(numQuests :=
                  NumQuestsAt(modConfig.value, index, old(questConfig.repeatableQuests[index].numQuests)))]
    {
      var cfg := modConfig.value;
      var c := questConfig.repeatableQuests[index];
      if index == 0 { questConfig.repeatableQuests := questConfig.repeatableQuests[index := c.(numQuests := cfg.dailyNumberOfQuests)]; }
      if index == 1 { questConfig.repeatableQuests := questConfig.repeatableQuests[index := c.(numQuests := cfg.weeklyNumberOfQuests)]; }
      if index == 2 { questConfig.repeatableQuests := questConfig.repeatableQuests[index := c.(numQuests := cfg.fenceNumberOfQuests)]; }
    }

    method EditRepeatableTimer(index: nat)
      requires modConfig.Some? && index < |questConfig.repeatableQuests|
      modifies questConfig
      ensures questConfig.repeatableQuests == old(questConfig.repeatableQuests)[index :=
                old(questConfig.repeatableQuests[index]).(resetTime :=
                  ResetTimeAt(modConfig.value, index, old(questConfig.repeatableQuests[index].resetTime)))]
    {
      var cfg := modConfig.value;
      var c := questConfig.repeatableQuests[index];
      if index == 0 { questConfig.repeatableQuests := questConfig.repeatableQuests[index := c.(resetTime := cfg.dailyResetTimer)]; }
      if index == 1 { questConfig.repeatableQuests := questConfig.repeatableQuests[index := c.(resetTime := cfg.weeklyResetTimer)]; }
      if index == 2 { questConfig.repeatableQuests := questConfig.repeatableQuests[index := c.(resetTime := cfg.fenceResetTimer)]; }
    }

    /**
     * `loaded` stands for the contents of the configuration file. With fewer than
     * three categories the server's list indexer throws at the first missing
     * position, after the earlier positions have been edited; `completed` is false then.
     */
    method OnLoad(loaded: ModConfig) returns (completed: bool)
      modifies this, questConfig
      ensures modConfig == Some(loaded)
      ensures completed <==> 3 <= |old(questConfig.repeatableQuests)|
      ensures questConfig.repeatableQuests == LoadEffect(old(questConfig.repeatableQuests), loaded)
    {
      modConfig := Some(loaded);
      ghost var cats := questConfig.repeatableQuests;
      var i := 0;
      while i <= 2
        invariant 0 <= i <= 3 && i <= |cats|
        invariant modConfig == Some(loaded)
        invariant |questConfig.repeatableQuests| == |cats|
        invariant forall j :: 0 <= j < |cats| ==>
                    questConfig.repeatableQuests[j] == if j < i then EditedCategory(cats[j], j, loaded) else cats[j]
      {
        if i >= |questConfig.repeatableQuests| {
          return false;
        }
        ghost var before := questConfig.repeatableQuests;
        ghost var c := before[i];
        ghost var prev := c;
        assert before[i := c] == before;
        EditRepeatableXP(i);
        prev := c;
        c := ScaledCategory(c, Experience, loaded.xpMultiplier);
        UpdateTwice(before, i, prev, c);
        EditRepeatableCurrency(i);
        prev := c;
        c := ScaledCategory(ScaledCategory(c, Roubles, loaded.currencyMultiplier), GpCoins, loaded.currencyMultiplier);
        UpdateTwice(before, i, prev, c);
        EditRepeatableRep(i);
        prev := c;
        c := ScaledCategory(c, Reputation, loaded.repMultiplier);
        UpdateTwice(before, i, prev, c);
        EditRepeatableSkillReward(i);
        prev := c;
        c := ScaledCategory(c, SkillRewardChance, loaded.skillRewardChanceMultiplier);
        UpdateTwice(before, i, prev, c);
        EditRepeatableSkillPointReward(i);
        prev := c;
        c := ScaledCategory(c, SkillPointReward, loaded.skillPointRewardMultiplier);
        UpdateTwice(before, i, prev, c);
        EditRepeatableMinLevels(i);
        prev := c;
        c := c.(minPlayerLevel := MinLevelAt(loaded, i, c.minPlayerLevel));
        UpdateTwice(before, i, prev, c);
        EditRepeatableCounts(i);
        prev := c;
        c := c.(numQuests := NumQuestsAt(loaded, i, c.numQuests));
        UpdateTwice(before, i, prev, c);
        EditRepeatableTimer(i);
        prev := c;
        c := c.(resetTime := ResetTimeAt(loaded, i, c.resetTime));
        UpdateTwice(before, i, prev, c);
        EditsCompose(before[i], i, loaded);
        assert questConfig.repeatableQuests == before[i := EditedCategory(before[i], i, loaded)];
        i := i + 1;
      }
      completed := true;
    }
  }

  /**
   * One start-up pass edits exactly the categories at positions 0, 1 and 2:
   * each of the six tables is multiplied by its own multiplier, the other tables
   * and the name and side stay, and the three scalar settings come from the
   * daily, weekly and scav-daily settings by position. Later positions are untouched.
   */
  lemma LoadEditsCategory(cats: seq<RepeatableQuestConfig>, cfg: ModConfig, j: nat)
    requires j < |cats|
    ensures var r := LoadEffect(cats, cfg)[j];
            var c := cats[j];
            if j < 3 then
              (forall list :: ListOf(r.rewardScaling, list) == Scaled(ListOf(c.rewardScaling, list), MultiplierFor(cfg, list)))
              && r.rewardScaling.levels == c.rewardScaling.levels
              && r.rewardScaling.items == c.rewardScaling.items
              && r.rewardScaling.rewardSpread == c.rewardScaling.rewardSpread
              && r.name == c.name && r.side == c.side
              && r.minPlayerLevel == [cfg.dailyMinPlayerLevel, cfg.weeklyMinPlayerLevel, cfg.fenceMinPlayerLevel][j]
              && r.numQuests == [cfg.dailyNumberOfQuests, cfg.weeklyNumberOfQuests, cfg.fenceNumberOfQuests][j]
              && r.resetTime == [cfg.dailyResetTimer, cfg.weeklyResetTimer, cfg.fenceResetTimer][j]
            else
              r == c
  {
  }

  /**
   * Each reward element is multiplied once per start-up pass, so a second pass
   * compounds, while the three overwritten settings come out as after one pass.
   */
  lemma LoadTwiceCompounds(cats: seq<RepeatableQuestConfig>, cfg: ModConfig, j: nat, list: RewardList, k: nat)
    requires j < |cats| && j < 3
    requires k < |ListOf(cats[j].rewardScaling, list)|
    ensures var twice := LoadEffect(LoadEffect(cats, cfg), cfg)[j];
            var m := MultiplierFor(cfg, list);
            ListOf(twice.rewardScaling, list)[k] == ListOf(cats[j].rewardScaling, list)[k] * m * m
            && twice.minPlayerLevel == LoadEffect(cats, cfg)[j].minPlayerLevel
            && twice.numQuests == LoadEffect(cats, cfg)[j].numQuests
            && twice.resetTime == LoadEffect(cats, cfg)[j].resetTime
  {
    var m := MultiplierFor(cfg, list);
    var x := ListOf(cats[j].rewardScaling, list);
    LoadEditsCategory(cats, cfg, j);
    var once := ListOf(LoadEffect(cats, cfg)[j].rewardScaling, list);
    assert once == Scaled(x, m);
    LoadEditsCategory(LoadEffect(cats, cfg), cfg, j);
    assert ListOf(LoadEffect(LoadEffect(cats, cfg), cfg)[j].rewardScaling, list) == Scaled(once, m);
  }

  /** Running the start-up pass twice differs from running it once whenever a multiplier other than 0 and 1 meets a non-zero element. */
  lemma LoadNotIdempotent(cats: seq<RepeatableQuestConfig>, cfg: ModConfig, j: nat, list: RewardList, k: nat)
    requires j < |cats| && j < 3
    requires k < |ListOf(cats[j].rewardScaling, list)| && ListOf(cats[j].rewardScaling, list)[k] != 0.0
    requires MultiplierFor(cfg, list) != 0.0 && MultiplierFor(cfg, list) != 1.0
    ensures LoadEffect(LoadEffect(cats, cfg), cfg) != LoadEffect(cats, cfg)
  {
    var m := MultiplierFor(cfg, list);
    var once := ListOf(LoadEffect(cats, cfg)[j].rewardScaling, list);
    LoadEditsCategory(cats, cfg, j);
    LoadEditsCategory(LoadEffect(cats, cfg), cfg, j);
    RescalingChangesList(ListOf(cats[j].rewardScaling, list), m, k);
    assert ListOf(LoadEffect(LoadEffect(cats, cfg), cfg)[j].rewardScaling, list) != once;
  }
}
