/**
 * The interceptor that replaces a completed repeatable quest at once.
 * Its prefix runs before the server completes a quest and remembers which
 * repeatable category the quest came from; its postfix runs afterwards and
 * asks the server's generator for one new quest of that category. The memory
 * lives in two process-wide fields shared by every call.
 */
module CompleteQuest {
  import opened Wrappers
  import opened Host

  /** Position of the first element satisfying `p` (the `FirstOrDefault` search). */
  function FirstIndex<T>(s: seq<T>, p: T -> bool): (r: Option<nat>)
    ensures r.None? <==> forall k :: 0 <= k < |s| ==> !p(s[k])
    ensures r.Some? ==> r.value < |s| && p(s[r.value]) && forall j :: 0 <= j < r.value ==> !p(s[j])
  {
    if s == [] then None
    else if p(s[0]) then Some(0)
    else match FirstIndex(s[1..], p)
      case None => None
      case Some(k) => Some(k + 1)
  }

  /** The first active quest with id `id`. */
  function FirstWithId(qs: seq<RepeatableQuest>, id: QuestId): Option<RepeatableQuest> {
    match FirstIndex(qs, (q: RepeatableQuest) => q.id == id)
    case None => None
    case Some(k) => Some(qs[k])
  }

  /** Category `c` has an active quest with id `id`. */
  predicate Holds(c: QuestCategory, id: QuestId) {
    exists k :: 0 <= k < |c.activeQuests| && c.activeQuests[k].id == id
  }

  /** The server's configuration of the category called `name`, if there is one. */
  function ConfigNamed(cfgs: seq<RepeatableQuestConfig>, name: string): Option<RepeatableQuestConfig> {
    match FirstIndex(cfgs, (c: RepeatableQuestConfig) => c.name == name)
    case None => None
    case Some(k) => Some(cfgs[k])
  }

  /** The lookup is absent exactly when no configuration has the name, and otherwise yields the first that does. */
  lemma ConfigNamedIsFirst(cfgs: seq<RepeatableQuestConfig>, name: string)
    ensures ConfigNamed(cfgs, name).None? <==> forall k :: 0 <= k < |cfgs| ==> cfgs[k].name != name
    ensures ConfigNamed(cfgs, name).Some? ==>
              ConfigNamed(cfgs, name).value.name == name
              && exists k :: 0 <= k < |cfgs| && ConfigNamed(cfgs, name).value == cfgs[k]
                             && forall j :: 0 <= j < k ==> cfgs[j].name != name
  {
  }

  /**
   * The two shared fields: the quest the prefix last remembered and the name
   * of its category.
   */
  datatype Memory = Memory(completedQuest: Option<RepeatableQuest>, questType: Option<string>)

  /**
   * The server's quest generator for one postfix call: the attempt made for the
   * category at position `i`, given that category's configuration (absent when
   * none has its name), yields a new quest or nothing. Each attempt is a fresh
   * draw, so two categories with the same name can get different answers. The
   * player's profile, level, session and the server's randomness are fixed for
   * the call and folded into the function.
   */
  type Generator = (nat, Option<RepeatableQuestConfig>) -> Option<RepeatableQuest>

  /** The exceptions the postfix can raise. */
  datatype PatchError =
    | NullReference  // a quest was generated but no configuration has the category's name
    | KeyNotFound    // the response has no profile changes for the session

  // ---------------------------------------------------------------- prefix

  /** Position of the first category with an active quest `id`. */
  function CategoryHolding(cats: seq<QuestCategory>, id: QuestId): Option<nat> {
    FirstIndex(cats, (c: QuestCategory) => Holds(c, id))
  }

  /** What the prefix leaves in the shared fields. */
  function PrefixStep(mem: Memory, cats: seq<QuestCategory>, id: QuestId): Memory {
    match CategoryHolding(cats, id)
    case None => mem
    case Some(k) => Memory(FirstWithId(cats[k].activeQuests, id), Some(cats[k].name))
  }

  // --------------------------------------------------------------- postfix

  /** Category `c` carries the remembered category name. */
  predicate Matches(mem: Memory, c: QuestCategory) {
    mem.questType == Some(c.name)
  }

  /** The postfix would obtain a new quest for the category at position `i`. */
  predicate Replaceable(mem: Memory, cats: seq<QuestCategory>, i: nat, cfgs: seq<RepeatableQuestConfig>, generate: Generator) {
    i < |cats| && Matches(mem, cats[i]) && generate(i, ConfigNamed(cfgs, cats[i].name)).Some?
  }

  /** The positions `0 .. n-1`, in order. */
  function Positions(n: nat): (r: seq<nat>)
    ensures |r| == n && forall k :: 0 <= k < n ==> r[k] == k
  {
    seq(n, k requires 0 <= k < n => k as nat)
  }

  /** Position of the first category for which the postfix obtains a new quest. */
  function FirstReplaceable(mem: Memory, cats: seq<QuestCategory>, cfgs: seq<RepeatableQuestConfig>, generate: Generator): (r: Option<nat>)
    ensures r.None? <==> forall k :: 0 <= k < |cats| ==> !Replaceable(mem, cats, k, cfgs, generate)
    ensures r.Some? ==> r.value < |cats| && Replaceable(mem, cats, r.value, cfgs, generate)
                        && forall j :: 0 <= j < r.value ==> !Replaceable(mem, cats, j, cfgs, generate)
  {
    var p := (i: nat) => Replaceable(mem, cats, i, cfgs, generate);
    var ps := Positions(|cats|);
    assert forall k :: 0 <= k < |cats| ==> p(ps[k]) == Replaceable(mem, cats, k, cfgs, generate);
    FirstIndex(ps, p)
  }

  /** The first position for which the postfix obtains a quest is found by the search. */
  lemma FirstReplaceableAt(mem: Memory, cats: seq<QuestCategory>, cfgs: seq<RepeatableQuestConfig>, generate: Generator, k: nat)
    requires Replaceable(mem, cats, k, cfgs, generate)
    requires forall j :: 0 <= j < k ==> !Replaceable(mem, cats, j, cfgs, generate)
    ensures FirstReplaceable(mem, cats, cfgs, generate) == Some(k)
  {
  }

  /** The categories among the first `n` that carry the remembered name, in order. */
  function MatchingPrefix(mem: Memory, cats: seq<QuestCategory>, n: nat): (r: seq<QuestCategory>)
    requires n <= |cats|
    ensures forall x :: x in r ==> x in cats[..n] && Matches(mem, x)
  {
    if n == 0 then []
    else MatchingPrefix(mem, cats, n - 1) + (if Matches(mem, cats[n - 1]) then [cats[n - 1]] else [])
  }

  /** Category `c` with quest `q` appended and its change cost recorded. */
  function WithReplacement(c: QuestCategory, q: RepeatableQuest): QuestCategory {
    c.(activeQuests := c.activeQuests + [q],
       changeRequirement := c.changeRequirement[q.id := ChangeRequirement(q.changeCost, q.changeStandingCost.GetOr(0.0))])
  }

  /** The shared fields, the player's categories and the postfix's result after one postfix call. */
  datatype PostfixOutcome = PostfixOutcome(
    mem: Memory,
    cats: seq<QuestCategory>,
    result: Result<ItemEventRouterResponse, PatchError>)

  function PostfixStep(mem: Memory, cats: seq<QuestCategory>, response: ItemEventRouterResponse,
                       sessionId: SessionId, cfgs: seq<RepeatableQuestConfig>, generate: Generator): PostfixOutcome
  {
    if mem.completedQuest.None? then PostfixOutcome(mem, cats, Success(response))
    else match FirstReplaceable(mem, cats, cfgs, generate)
      case None => PostfixOutcome(mem, cats, Success(response))
      case Some(k) => ReplaceAt(mem, cats, response, sessionId, cfgs, generate, k)
  }

  /** The postfix's outcome once the attempt for the category at position `k` has yielded a quest. */
  function ReplaceAt(mem: Memory, cats: seq<QuestCategory>, response: ItemEventRouterResponse,
                     sessionId: SessionId, cfgs: seq<RepeatableQuestConfig>, generate: Generator, k: nat): PostfixOutcome
    requires Replaceable(mem, cats, k, cfgs, generate)
  {
    var cfg := ConfigNamed(cfgs, cats[k].name);
    if cfg.None? then PostfixOutcome(mem, cats, Failure(NullReference))
    else
      var q := generate(k, cfg).value.(side := cfg.value.side);
      var cats' := cats[k := WithReplacement(cats[k], q)];
      if sessionId !in response.profileChanges then PostfixOutcome(mem, cats', Failure(KeyNotFound))
      else
        var change := response.profileChanges[sessionId].(repeatableQuests := Some(MatchingPrefix(mem, cats, k) + [cats'[k]]));
        PostfixOutcome(mem.(completedQuest := None), cats',
                       Success(response.(profileChanges := response.profileChanges[sessionId := change])))
  }

  // ------------------------------------------------------------ properties

  /** When no category holds the quest, the prefix leaves both fields as an earlier call set them. */
  lemma PrefixMissKeepsMemory(mem: Memory, cats: seq<QuestCategory>, id: QuestId)
    requires forall j :: 0 <= j < |cats| ==> !Holds(cats[j], id)
    ensures PrefixStep(mem, cats, id) == mem
  {
  }

  /**
   * The prefix scans the categories in order and stops at the first one holding
   * the quest: it remembers that category's name and its first active quest with the id.
   */
  lemma PrefixRemembersFirstHolder(mem: Memory, cats: seq<QuestCategory>, id: QuestId, k: nat, i: nat)
    requires k < |cats| && i < |cats[k].activeQuests| && cats[k].activeQuests[i].id == id
    requires forall j :: 0 <= j < k ==> !Holds(cats[j], id)
    requires forall j :: 0 <= j < i ==> cats[k].activeQuests[j].id != id
    ensures PrefixStep(mem, cats, id) == Memory(Some(cats[k].activeQuests[i]), Some(cats[k].name))
  {
    var found := FirstIndex(cats, (c: QuestCategory) => Holds(c, id));
    assert Holds(cats[k], id);
    assert found == Some(k);
    var first := FirstIndex(cats[k].activeQuests, (q: RepeatableQuest) => q.id == id);
    assert first == Some(i);
  }

  /**
   * Without a remembered quest, or when the generator yields nothing for every
   * category with the remembered name, the postfix returns the response as it
   * came, changes no category and keeps its memory.
   */
  lemma PostfixWithoutReplacement(mem: Memory, cats: seq<QuestCategory>, response: ItemEventRouterResponse,
                                  sessionId: SessionId, cfgs: seq<RepeatableQuestConfig>, generate: Generator)
    requires mem.completedQuest.None?
          || forall j :: 0 <= j < |cats| && Matches(mem, cats[j]) ==> generate(j, ConfigNamed(cfgs, cats[j].name)).None?
    ensures PostfixStep(mem, cats, response, sessionId, cfgs, generate) == PostfixOutcome(mem, cats, Success(response))
  {
  }

  /**
   * The postfix never touches a category whose name differs from the remembered
   * one, changes at most one category, keeps the number of categories, and
   * never forgets the remembered category name.
   */
  lemma PostfixChangesAtMostOneMatchingCategory(mem: Memory, cats: seq<QuestCategory>, response: ItemEventRouterResponse,
                                                sessionId: SessionId, cfgs: seq<RepeatableQuestConfig>, generate: Generator)
    ensures var o := PostfixStep(mem, cats, response, sessionId, cfgs, generate);
            |o.cats| == |cats|
            && (forall j :: 0 <= j < |cats| && !Matches(mem, cats[j]) ==> o.cats[j] == cats[j])
            && (forall i, j :: 0 <= i < |cats| && 0 <= j < |cats| && o.cats[i] != cats[i] && o.cats[j] != cats[j] ==> i == j)
            && o.mem.questType == mem.questType
  {
  }

  /**
   * The first category with the remembered name for which the generator yields
   * a quest gets that quest appended last, with the configured side, and its
   * change cost recorded (standing cost 0 when absent); no other category and
   * no other change requirement changes; the remembered quest is cleared; and
   * the response reports, for this session only, the name-matching categories
   * visited so far, the replaced one last.
   */
  lemma PostfixReplacesFirstGenerated(mem: Memory, cats: seq<QuestCategory>, response: ItemEventRouterResponse,
                                      sessionId: SessionId, cfgs: seq<RepeatableQuestConfig>, generate: Generator, k: nat)
    requires mem.completedQuest.Some?
    requires k < |cats| && Replaceable(mem, cats, k, cfgs, generate)
    requires forall j :: 0 <= j < k ==> !Replaceable(mem, cats, j, cfgs, generate)
    requires ConfigNamed(cfgs, cats[k].name).Some?
    requires sessionId in response.profileChanges
    ensures var o := PostfixStep(mem, cats, response, sessionId, cfgs, generate);
            var g := generate(k, ConfigNamed(cfgs, cats[k].name)).value;
            var q := g.(side := ConfigNamed(cfgs, cats[k].name).value.side);
            var before := cats[k].activeQuests;
            var after := o.cats[k].activeQuests;
            |o.cats| == |cats|
            && |after| == |before| + 1 && after[..|before|] == before && after[|before|] == q
            && o.cats[k].changeRequirement.Keys == cats[k].changeRequirement.Keys + {g.id}
            && o.cats[k].changeRequirement[g.id]
               == ChangeRequirement(g.changeCost, if g.changeStandingCost.Some? then g.changeStandingCost.value else 0.0)
            && (forall id :: id in cats[k].changeRequirement && id != g.id ==>
                  o.cats[k].changeRequirement[id] == cats[k].changeRequirement[id])
            && o.cats[k].name == cats[k].name
            && o.cats[k].inactiveQuests == cats[k].inactiveQuests
            && o.cats[k] == cats[k].(activeQuests := before + [q],
                                     changeRequirement := cats[k].changeRequirement[g.id := ChangeRequirement(
                                       g.changeCost, if g.changeStandingCost.Some? then g.changeStandingCost.value else 0.0)])
            && (forall j :: 0 <= j < |cats| && j != k ==> o.cats[j] == cats[j])
            && o.mem == Memory(None, mem.questType)
            && o.result.Success?
            && o.result.value.profileChanges.Keys == response.profileChanges.Keys
            && o.result.value.profileChanges[sessionId].repeatableQuests == Some(MatchingPrefix(mem, o.cats, k + 1))
            && (forall s :: s in response.profileChanges && s != sessionId ==>
                  o.result.value.profileChanges[s] == response.profileChanges[s])
  {
    FirstReplaceableAt(mem, cats, cfgs, generate, k);
    var o := PostfixStep(mem, cats, response, sessionId, cfgs, generate);
    MatchingPrefixUnchanged(mem, cats, o.cats, k);
  }

  /**
   * Each attempt is a separate draw: a category with the remembered name whose
   * attempt yielded nothing, ahead of the replaced one, is still reported in
   * the session's response, and the replaced category is reported last.
   */
  lemma PostfixReportsEarlierAttempts(mem: Memory, cats: seq<QuestCategory>, response: ItemEventRouterResponse,
                                      sessionId: SessionId, cfgs: seq<RepeatableQuestConfig>, generate: Generator,
                                      j: nat, k: nat)
    requires mem.completedQuest.Some?
    requires k < |cats| && Replaceable(mem, cats, k, cfgs, generate)
    requires forall i :: 0 <= i < k ==> !Replaceable(mem, cats, i, cfgs, generate)
    requires ConfigNamed(cfgs, cats[k].name).Some?
    requires sessionId in response.profileChanges
    requires j < k && Matches(mem, cats[j])
    ensures var o := PostfixStep(mem, cats, response, sessionId, cfgs, generate);
            o.result.Success? && sessionId in o.result.value.profileChanges
            && o.result.value.profileChanges[sessionId].repeatableQuests.Some?
            && var reported := o.result.value.profileChanges[sessionId].repeatableQuests.value;
               cats[j] in reported && |reported| >= 2 && reported[|reported| - 1] == o.cats[k]
  {
    PostfixReplacesFirstGenerated(mem, cats, response, sessionId, cfgs, generate, k);
    var o := PostfixStep(mem, cats, response, sessionId, cfgs, generate);
    var before := MatchingPrefix(mem, o.cats, k);
    assert MatchingPrefix(mem, o.cats, k + 1) == before + [o.cats[k]];
    MatchingPrefixHasEveryMatch(mem, o.cats, k, j);
  }

  /** Every category among the first `n` that carries the remembered name is in the matching prefix. */
  lemma {:induction false} MatchingPrefixHasEveryMatch(mem: Memory, cats: seq<QuestCategory>, n: nat, j: nat)
    requires j < n <= |cats| && Matches(mem, cats[j])
    ensures cats[j] in MatchingPrefix(mem, cats, n)
  {
    if j < n - 1 {
      MatchingPrefixHasEveryMatch(mem, cats, n - 1, j);
    }
  }

  /** Categories before position `n` that agree give the same matching prefix. */
  lemma {:induction false} MatchingPrefixUnchanged(mem: Memory, cats: seq<QuestCategory>, cats': seq<QuestCategory>, n: nat)
    requires n <= |cats| && n <= |cats'|
    requires forall j :: 0 <= j < n ==> cats'[j] == cats[j]
    ensures MatchingPrefix(mem, cats', n) == MatchingPrefix(mem, cats, n)
  {
    if n > 0 {
      MatchingPrefixUnchanged(mem, cats, cats', n - 1);
    }
  }

  /**
   * The two exceptions: a generated quest whose category has no configuration
   * changes nothing; a response without the session's profile changes leaves
   * the category already extended while the memory stays set.
   */
  lemma PostfixFailures(mem: Memory, cats: seq<QuestCategory>, response: ItemEventRouterResponse,
                        sessionId: SessionId, cfgs: seq<RepeatableQuestConfig>, generate: Generator, k: nat)
    requires mem.completedQuest.Some?
    requires k < |cats| && Replaceable(mem, cats, k, cfgs, generate)
    requires forall j :: 0 <= j < k ==> !Replaceable(mem, cats, j, cfgs, generate)
    ensures var o := PostfixStep(mem, cats, response, sessionId, cfgs, generate);
            (ConfigNamed(cfgs, cats[k].name).None? ==> o == PostfixOutcome(mem, cats, Failure(NullReference)))
            && (ConfigNamed(cfgs, cats[k].name).Some? && sessionId !in response.profileChanges ==>
                  o.mem == mem && o.result == Failure(KeyNotFound)
                  && |o.cats[k].activeQuests| == |cats[k].activeQuests| + 1)
  {
    FirstReplaceableAt(mem, cats, cfgs, generate, k);
  }

  /**
   * Stale memory: a memory left set by an earlier completion whose replacement
   * failed survives the prefix of a completion of a quest that is in no
   * repeatable category, and that completion's postfix then adds a new quest
   * to the remembered category.
   */
  lemma StaleMemoryReplacesOnUnrelatedCompletion(
    mem: Memory, cats: seq<QuestCategory>, id: QuestId, response: ItemEventRouterResponse,
    sessionId: SessionId, cfgs: seq<RepeatableQuestConfig>, generate: Generator, k: nat)
    requires mem.completedQuest.Some?
    requires forall j :: 0 <= j < |cats| ==> !Holds(cats[j], id)
    requires k < |cats| && Replaceable(mem, cats, k, cfgs, generate)
    requires forall j :: 0 <= j < |cats| ==> ConfigNamed(cfgs, cats[j].name).Some?
    ensures PrefixStep(mem, cats, id) == mem
    ensures var o := PostfixStep(PrefixStep(mem, cats, id), cats, response, sessionId, cfgs, generate);
            exists j :: 0 <= j < |cats| && Matches(mem, cats[j]) && |o.cats[j].activeQuests| == |cats[j].activeQuests| + 1
  {
    PrefixMissKeepsMemory(mem, cats, id);
    var found := FirstReplaceable(mem, cats, cfgs, generate);
    var j := found.value;
    var o := PostfixStep(mem, cats, response, sessionId, cfgs, generate);
    assert |o.cats[j].activeQuests| == |cats[j].activeQuests| + 1;
  }

  /**
   * Two completions in a row: the first completes quest `first` of category
   * `k`, but the generator yields nothing, so the memory stays set; the second
   * completes `other`, which is in no repeatable category, and its postfix
   * replaces a quest in category `k` all the same.
   */
  lemma FailedReplacementCarriesOver(
    mem0: Memory, cats: seq<QuestCategory>, first: QuestId, other: QuestId, response: ItemEventRouterResponse,
    sessionId: SessionId, cfgs: seq<RepeatableQuestConfig>, failing: Generator, succeeding: Generator, k: nat)
    requires k < |cats| && Holds(cats[k], first) && forall j :: 0 <= j < k ==> !Holds(cats[j], first)
    requires forall j :: 0 <= j < |cats| ==> !Holds(cats[j], other)
    requires forall i, c :: failing(i, c).None?
    requires forall i, c :: succeeding(i, c).Some?
    requires forall j :: 0 <= j < |cats| ==> ConfigNamed(cfgs, cats[j].name).Some?
    requires forall j :: 0 <= j < k ==> cats[j].name != cats[k].name
    ensures var m1 := PrefixStep(mem0, cats, first);
            var o1 := PostfixStep(m1, cats, response, sessionId, cfgs, failing);
            var m2 := PrefixStep(o1.mem, o1.cats, other);
            var o2 := PostfixStep(m2, o1.cats, response, sessionId, cfgs, succeeding);
            o1 == PostfixOutcome(m1, cats, Success(response))
            && m2 == m1
            && |o2.cats[k].activeQuests| == |cats[k].activeQuests| + 1
  {
    var m1 := PrefixStep(mem0, cats, first);
    var found := FirstIndex(cats, (c: QuestCategory) => Holds(c, first));
    assert found == Some(k);
    assert m1.questType == Some(cats[k].name) && m1.completedQuest.Some?;
    PostfixWithoutReplacement(m1, cats, response, sessionId, cfgs, failing);
    PrefixMissKeepsMemory(m1, cats, other);
    assert Replaceable(m1, cats, k, cfgs, succeeding);
    FirstReplaceableAt(m1, cats, cfgs, succeeding, k);
    var q := succeeding(k, ConfigNamed(cfgs, cats[k].name)).value.(side := ConfigNamed(cfgs, cats[k].name).value.side);
    assert PostfixStep(m1, cats, response, sessionId, cfgs, succeeding).cats == cats[k := WithReplacement(cats[k], q)];
  }

  // ------------------------------------------------------ the interceptor

  /** The interceptor's process-wide fields; one object stands for the static storage. */
  class CompleteQuestPatch {
    var completedQuest: Option<RepeatableQuest>
    var questType: Option<string>

    constructor ()
      ensures completedQuest == None && questType == None
    {
      completedQuest := None;
      questType := None;
    }

    function Mem(): Memory
      reads this
    {
      Memory(completedQuest, questType)
    }

    /** Runs before the server completes quest `questId` for the player `pmc`. */
    method PatchPrefix(pmc: PmcData, questId: QuestId)
      modifies this
      ensures Mem() == PrefixStep(old(Mem()), pmc.repeatableQuests, questId)
    {
      var i := 0;
      while i < |pmc.repeatableQuests|
        invariant 0 <= i <= |pmc.repeatableQuests|
        invariant forall j :: 0 <= j < i ==> !Holds(pmc.repeatableQuests[j], questId)
        invariant Mem() == old(Mem())
      {
        var quest := pmc.repeatableQuests[i];
        var currentCompletedQuest := FirstWithId(quest.activeQuests, questId);
        if currentCompletedQuest.Some? {
          completedQuest := FirstWithId(quest.activeQuests, questId);
          questType := Some(quest.name);
          return;
        }
        i := i + 1;
      }
    }

    /**
     * Runs after the server has completed the quest and built `response`.
     * `hostConfig` is the server's quest configuration.
     */
    method Postfix(response: ItemEventRouterResponse, pmc: PmcData, sessionId: SessionId,
                   hostConfig: QuestConfig, generate: Generator)
      returns (r: Result<ItemEventRouterResponse, PatchError>)
      modifies this, pmc
      ensures var o := PostfixStep(old(Mem()), old(pmc.repeatableQuests), response, sessionId,
                                   hostConfig.repeatableQuests, generate);
              Mem() == o.mem && pmc.repeatableQuests == o.cats && r == o.result
      ensures pmc.tradersInfo == old(pmc.tradersInfo)
    {
      if completedQuest.None? {
        return Success(response);
      }
      ghost var mem := Mem();
      ghost var cats := pmc.repeatableQuests;
      var replaced := false;
      var newlyGeneratedQuests: seq<QuestCategory> := [];
      var i := 0;
      while i < |pmc.repeatableQuests|
        invariant 0 <= i <= |cats|
        invariant pmc.repeatableQuests == cats && pmc.tradersInfo == old(pmc.tradersInfo)
        invariant Mem() == mem
        invariant forall j :: 0 <= j < i ==> !Replaceable(mem, cats, j, hostConfig.repeatableQuests, generate)
        invariant newlyGeneratedQuests == MatchingPrefix(mem, cats, i)
      {
        var quest := pmc.repeatableQuests[i];
        if questType != Some(quest.name) {
          i := i + 1;
          continue;
        }
        var repeatableConfig := ConfigNamed(hostConfig.repeatableQuests, quest.name);
        var replacementRepeatable := generate(i, repeatableConfig);
        if replacementRepeatable.Some? {
          FirstReplaceableAt(mem, cats, hostConfig.repeatableQuests, generate, i);
          if repeatableConfig.None? {
            PostfixFailures(mem, cats, response, sessionId, hostConfig.repeatableQuests, generate, i);
            return Failure(NullReference);
          }
          var q := replacementRepeatable.value.(side := repeatableConfig.value.side);
          quest := quest.(activeQuests := quest.activeQuests + [q]);
          var newRequirements := ChangeRequirement(q.changeCost, q.changeStandingCost.GetOr(0.0));
          quest := quest.(changeRequirement := quest.changeRequirement[q.id := newRequirements]);
          pmc.repeatableQuests := pmc.repeatableQuests[i := quest];
          replaced := true;
          assert quest == WithReplacement(cats[i], q);
        }
        newlyGeneratedQuests := newlyGeneratedQuests + [quest];
        if replaced {
          if sessionId !in response.profileChanges {
            return Failure(KeyNotFound);
          }
          var change := response.profileChanges[sessionId].(repeatableQuests := Some(newlyGeneratedQuests));
          completedQuest := None;
          return Success(response.(profileChanges := response.profileChanges[sessionId := change]));
        }
        i := i + 1;
      }
      forall j | 0 <= j < |cats| && Matches(mem, cats[j])
        ensures generate(j, ConfigNamed(hostConfig.repeatableQuests, cats[j].name)).None?
      {
        assert !Replaceable(mem, cats, j, hostConfig.repeatableQuests, generate);
      }
      PostfixWithoutReplacement(mem, cats, response, sessionId, hostConfig.repeatableQuests, generate);
      return Success(response);
    }
  }
}
