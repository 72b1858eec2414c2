/**
 * The parts of the game server's data model that the plugin reads or writes.
 * The server owns these objects; the plugin only receives references to them.
 */
module Host {
  import opened Wrappers

  type QuestId = string
  type SessionId = string
  type TraderId = string

  /** Id of the trader Fence in the server's trader table. */
  const FENCE: TraderId := "579dc571d53a0658a154fbd5"

  /** Per-level reward tables of one repeatable-quest category. */
  datatype RewardScaling = RewardScaling(
    levels: seq<real>,
    experience: seq<real>,
    roubles: seq<real>,
    gpCoins: seq<real>,
    items: seq<real>,
    reputation: seq<real>,
    rewardSpread: real,
    skillRewardChance: seq<real>,
    skillPointReward: seq<real>)

  /** Server-side settings of one repeatable-quest category (daily, weekly, scav daily, ...). */
  datatype RepeatableQuestConfig = RepeatableQuestConfig(
    name: string,
    side: string,
    minPlayerLevel: int,
    numQuests: int,
    resetTime: int,
    rewardScaling: RewardScaling)

  /** The server's shared quest configuration object; its category list is edited in place. */
  class QuestConfig {
    var repeatableQuests: seq<RepeatableQuestConfig>
  }

  datatype CostItem = CostItem(templateId: string, count: int)

  /** A generated repeatable quest, as far as the plugin looks at it. */
  datatype RepeatableQuest = RepeatableQuest(
    id: QuestId,
    side: string,
    changeCost: seq<CostItem>,
    changeStandingCost: Option<real>)

  /** What replacing (re-rolling) an active repeatable quest costs. */
  datatype ChangeRequirement = ChangeRequirement(changeCost: seq<CostItem>, changeStandingCost: real)

  /** One repeatable-quest category of a player's profile. */
  datatype QuestCategory = QuestCategory(
    name: string,
    activeQuests: seq<RepeatableQuest>,
    inactiveQuests: seq<RepeatableQuest>,
    endTime: int,
    changeRequirement: map<QuestId, ChangeRequirement>)

  datatype TraderInfo = TraderInfo(unlocked: Option<bool>)

  /** A player's profile; the completion patch edits its categories in place. */
  class PmcData {
    var repeatableQuests: seq<QuestCategory>
    var tradersInfo: map<TraderId, TraderInfo>
  }

  /** The changes to one session's profile that a response reports to the client. */
  datatype ProfileChange = ProfileChange(repeatableQuests: Option<seq<QuestCategory>>)

  /** The server's reply to an item event such as completing a quest. */
  datatype ItemEventRouterResponse = ItemEventRouterResponse(profileChanges: map<SessionId, ProfileChange>)
}
