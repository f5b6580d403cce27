/**
 * The utility decision engine: five scoring terms per candidate action, the
 * candidate generator, scoring in place, softmax selection with a
 * cumulative draw, the conversation-request interrupt, the duration table
 * and the two need updates (time decay and clamped interaction effects).
 *
 * Randomness is an explicit input: `jitter(i)` is the Gaussian draw for the
 * i-th candidate, `r` the uniform selection draw, `draws[i]` the uniform draw
 * for the i-th pending request. `exp` and the square root are inputs too.
 */
module AgentEngine {
  import opened Wrappers
  import opened Numeric
  import opened AgentModels

  // ---------------------------------------------------------------------
  // Configuration
  // ---------------------------------------------------------------------

  const NeedWeight: real := 1.0
  const PersonalityWeight: real := 0.5
  const SocialWeight: real := 2.0
  const AffinityWeight: real := 0.0
  const RecencyWeight: real := 0.1
  const RandomnessWeight: real := 0.3
  const ConversationBaseBonus: real := 8.0
  const MovementBaseBonus: real := 8.0
  const SoftmaxTemperature: real := 0.3
  const ConversationRadius: real := 15.0
  const SocialApproachRadius: real := 30.0
  const RecentInteractionHours: real := 0.05
  const LonelinessGrowth: real := 0.02
  const SocialWanderInfluence: real := 0.5
  const WanderRandomness: real := 0.5
  const MapWidth: int := 60
  const MapHeight: int := 40

  predicate IsLocationAction(a: ActionType)
  {
    a == WalkToLocation || IsInteract(a)
  }

  // ---------------------------------------------------------------------
  // Need satisfaction
  // ---------------------------------------------------------------------

  /** The additive ladder of need bonuses and penalties. */
  function NeedSatisfaction(a: ActionType, s: AgentState): real
  {
    var locationPenalty := if IsInteract(a) then -100.0 else 0.0;
    var walkPenalty := if a == WalkToLocation then -100.0 else 0.0;
    var chat := if a == InitiateConversation || a == JoinConversation
      then ConversationBaseBonus + s.loneliness * 3.0 + 2.0 else 0.0;
    var leave := if a == LeaveConversation then (1.0 - s.loneliness) * 3.0 + 1.0 else 0.0;
    var move := if a == Move then MovementBaseBonus + s.loneliness * 2.0 + 3.0 else 0.0;
    var wander := if a == Wander then MovementBaseBonus * 0.8 + 2.0 + (1.0 - s.loneliness) * 2.0 else 0.0;
    var idle := if a == Idle then -50.0 else 0.0;
    var still := if a == StandStill then -50.0 else 0.0;
    locationPenalty + walkPenalty + chat + leave + move + wander + idle + still
  }

  /** Reference table: the need score of each action in closed form, `L` the loneliness. */
  function NeedTable(a: ActionType, L: real): real
  {
    match a
    case Idle => -50.0
    case StandStill => -50.0
    case WalkToLocation => -100.0
    case InteractFood => -100.0
    case InteractKaraoke => -100.0
    case InteractRest => -100.0
    case InteractSocialHub => -100.0
    case InteractWanderPoint => -100.0
    case InitiateConversation => 10.0 + 3.0 * L
    case JoinConversation => 10.0 + 3.0 * L
    case Move => 11.0 + 2.0 * L
    case Wander => 10.4 - 2.0 * L
    case LeaveConversation => 4.0 - 3.0 * L
    case AvoidAvatar => 0.0
  }

  /** The ladder and the closed-form table agree for every action. */
  lemma NeedMatchesTable(a: ActionType, s: AgentState)
    ensures NeedSatisfaction(a, s) == NeedTable(a, s.loneliness)
  {
  }

  /**
   * Every action the agent can take other than idling or standing still and
   * other than the location activities scores strictly above IDLE on need.
   */
  lemma ActiveOutscoresIdle(a: ActionType, s: AgentState)
    requires ValidState(s)
    requires a != Idle && a != StandStill && !IsLocationAction(a)
    ensures NeedSatisfaction(a, s) > NeedSatisfaction(Idle, s)
    ensures NeedSatisfaction(a, s) >= 0.0
  {
    NeedMatchesTable(a, s);
    NeedMatchesTable(Idle, s);
  }

  // ---------------------------------------------------------------------
  // Personality alignment
  // ---------------------------------------------------------------------

  /** The additive ladder of personality terms. */
  function PersonalityAlignment(a: ActionType, p: Personality): real
  {
    var chat := if a == InitiateConversation || a == JoinConversation then p.sociability * 2.0 + 1.0 else 0.0;
    var wander := if a == Wander then p.curiosity * 1.0 + p.energyBaseline * 0.3 + 0.4 else 0.0;
    var join := if a == JoinConversation then p.agreeableness * 0.8 else 0.0;
    var initiate := if a == InitiateConversation then p.agreeableness * 0.5 else 0.0;
    var rest := if a == Idle || a == InteractRest then (1.0 - p.energyBaseline) * 0.3 else 0.0;
    var active := if a in {Wander, InteractKaraoke, InteractWanderPoint, InteractFood, InteractSocialHub}
      then p.energyBaseline * 0.5 else 0.0;
    var hub := if a == InteractSocialHub then p.sociability * 0.8 else 0.0;
    var karaoke := if a == InteractKaraoke then p.sociability * 0.6 + 0.3 else 0.0;
    var food := if a == InteractFood then 0.4 else 0.0;
    var point := if a == InteractWanderPoint then p.curiosity * 0.7 else 0.0;
    chat + wander + join + initiate + rest + active + hub + karaoke + food + point
  }

  /** Reference table: the personality term of each action in closed form. */
  function PersonalityTable(a: ActionType, soc: real, cur: real, agr: real, eb: real): real
  {
    match a
    case InitiateConversation => 2.0 * soc + 1.0 + 0.5 * agr
    case JoinConversation => 2.0 * soc + 1.0 + 0.8 * agr
    case Wander => cur + 0.8 * eb + 0.4
    case Idle => 0.3 * (1.0 - eb)
    case InteractRest => 0.3 * (1.0 - eb)
    case InteractSocialHub => 0.5 * eb + 0.8 * soc
    case InteractKaraoke => 0.5 * eb + 0.6 * soc + 0.3
    case InteractFood => 0.5 * eb + 0.4
    case InteractWanderPoint => 0.5 * eb + 0.7 * cur
    case WalkToLocation => 0.0
    case LeaveConversation => 0.0
    case AvoidAvatar => 0.0
    case Move => 0.0
    case StandStill => 0.0
  }

  /** The ladder equals the table; with traits in [0,1] the term lies in [0, 3.8]. */
  lemma PersonalityMatchesTable(a: ActionType, p: Personality)
    ensures PersonalityAlignment(a, p)
         == PersonalityTable(a, p.sociability, p.curiosity, p.agreeableness, p.energyBaseline)
    ensures ValidPersonality(p) ==> 0.0 <= PersonalityAlignment(a, p) <= 3.8
  {
  }

  /** More sociable agents like conversations strictly more. */
  lemma SociabilityFavoursConversation(a: ActionType, p: Personality, q: Personality)
    requires a == InitiateConversation || a == JoinConversation
    requires q == p.(sociability := q.sociability) && p.sociability < q.sociability
    ensures PersonalityAlignment(a, p) < PersonalityAlignment(a, q)
  {
    PersonalityMatchesTable(a, p);
    PersonalityMatchesTable(a, q);
  }

  // ---------------------------------------------------------------------
  // Social bias
  // ---------------------------------------------------------------------

  /** `min(len(interests) * 0.1, 0.4)` for a non-empty list, else nothing. */
  function InterestBonus(interests: Option<seq<string>>): (b: real)
    ensures 0.0 <= b <= 0.4
    ensures interests.None? || |interests.value| == 0 ==> b == 0.0
    ensures interests.Some? && 0 < |interests.value| < 4 ==> b == 0.1 * |interests.value| as real
  {
    if interests.Some? && |interests.value| > 0 then Min(|interests.value| as real * 0.1, 0.4) else 0.0
  }

  function SocialBias(a: ActionType, target: Option<NearbyAvatar>, memory: Option<SocialMemory>): real
  {
    if target.None? then 0.0
    else
      var m := memory;
      var known :=
        if m.Some? then
          var initiate :=
            if a == InitiateConversation then
              m.value.sentiment * 0.8 + m.value.familiarity * 0.5
              + (if m.value.interactionCount > 3 then 0.2 else 0.0)
              + (if m.value.interactionCount > 10 then 0.2 else 0.0)
              + InterestBonus(m.value.mutualInterests)
            else 0.0;
          var hostile := if m.value.sentiment < -0.5 then -0.5 else 0.0;
          var avoid :=
            if a == AvoidAvatar then Abs(m.value.sentiment) * 1.5 + (if target.value.distance <= 3.0 then 0.5 else 0.0)
            else 0.0;
          initiate + hostile + avoid
        else if a == InitiateConversation then 0.4
        else 0.0;
      known + (if target.value.isOnline && a == InitiateConversation then 0.2 else 0.0)
  }

  /** Without a target avatar the social term is zero for every action. */
  lemma SocialBiasNoTarget(a: ActionType, memory: Option<SocialMemory>)
    ensures SocialBias(a, None, memory) == 0.0
  {
  }

  /** A stranger is worth 0.4 to talk to, an online one another 0.2; nothing else is biased. */
  lemma SocialBiasStranger(a: ActionType, t: NearbyAvatar)
    ensures SocialBias(a, Some(t), None)
         == if a == InitiateConversation then (if t.isOnline then 0.6 else 0.4) else 0.0
  {
  }

  /**
   * For a known avatar, the urge to start a conversation grows strictly with
   * sentiment and with familiarity, and the shared-interest bonus adds at
   * most 0.4.
   */
  lemma SocialBiasMonotone(t: NearbyAvatar, m: SocialMemory, m': SocialMemory)
    requires m'.interactionCount == m.interactionCount && m'.mutualInterests == m.mutualInterests
    requires m.sentiment <= m'.sentiment && m.familiarity <= m'.familiarity
    requires m.sentiment < m'.sentiment || m.familiarity < m'.familiarity
    ensures SocialBias(InitiateConversation, Some(t), Some(m)) < SocialBias(InitiateConversation, Some(t), Some(m'))
    ensures SocialBias(InitiateConversation, Some(t), Some(m.(mutualInterests := None)))
         <= SocialBias(InitiateConversation, Some(t), Some(m))
         <= SocialBias(InitiateConversation, Some(t), Some(m.(mutualInterests := None))) + 0.4
  {
  }

  /** Avoiding scores 1.5·|sentiment|, 0.5 more when within 3, minus the hostility penalty. */
  lemma SocialBiasAvoid(t: NearbyAvatar, m: SocialMemory)
    ensures SocialBias(AvoidAvatar, Some(t), Some(m))
         == 1.5 * Abs(m.sentiment) + (if t.distance <= 3.0 then 0.5 else 0.0)
            - (if m.sentiment < -0.5 then 0.5 else 0.0)
  {
  }

  // ---------------------------------------------------------------------
  // World affinity
  // ---------------------------------------------------------------------

  /** The piecewise-linear affinity curve. */
  function AffinityCurve(aff: real): real
  {
    if aff >= 0.7 then 0.6 + (aff - 0.7) * 2.0
    else if aff >= 0.5 then 0.2 + (aff - 0.5) * 2.0
    else if aff >= 0.3 then (aff - 0.3) * 1.0
    else (aff - 0.3) * 1.0
  }

  function WorldAffinity(a: ActionType, p: Personality, location: Option<WorldLocation>): real
  {
    if location.None? then 0.0
    else
      var key := LocationKey(location.value.kind);
      var aff := if key in p.worldAffinities then p.worldAffinities[key] else 0.5;
      if IsLocationAction(a) then AffinityCurve(aff) else 0.0
  }

  /** No location, or an action that is not about a location: no affinity. */
  lemma WorldAffinityZero(a: ActionType, p: Personality, location: Option<WorldLocation>)
    requires location.None? || !IsLocationAction(a)
    ensures WorldAffinity(a, p, location) == 0.0
  {
  }

  /**
   * The curve is non-decreasing, changes at most twice as fast as the
   * affinity (so it has no jumps at 0.3, 0.5 or 0.7), and maps [0,1] into
   * [-0.3, 1.2].
   */
  lemma AffinityCurveShape(x: real, y: real)
    requires x <= y
    ensures AffinityCurve(x) <= AffinityCurve(y)
    ensures AffinityCurve(y) - AffinityCurve(x) <= 2.0 * (y - x)
    ensures 0.0 <= x <= 1.0 ==> -0.3 <= AffinityCurve(x) <= 1.2
  {
  }

  // ---------------------------------------------------------------------
  // Recency penalty
  // ---------------------------------------------------------------------

  function RecencyPenalty(a: ActionType, memory: Option<SocialMemory>, cooldowns: seq<string>,
                          location: Option<WorldLocation>, now: real): real
  {
    var talk :=
      if a == InitiateConversation && memory.Some? && memory.value.lastInteraction.Some? then
        var hours := (now - memory.value.lastInteraction.value) / 3600.0;
        if hours < RecentInteractionHours then 0.5 * (1.0 - hours / RecentInteractionHours) else 0.0
      else 0.0;
    var cool := if location.Some? && location.value.id in cooldowns then 1.0 else 0.0;
    talk + cool
  }

  /**
   * A conversation `h` hours after the last one (0 <= h) costs
   * 0.5·(1 − h/0.05) while h < 0.05 and nothing after; a location on cooldown
   * costs 1 more. The penalty therefore stays within [0, 1.5].
   */
  lemma RecencyShape(m: SocialMemory, cooldowns: seq<string>, location: Option<WorldLocation>, now: real)
    requires m.lastInteraction.Some? && m.lastInteraction.value <= now
    ensures var h := (now - m.lastInteraction.value) / 3600.0;
            RecencyPenalty(InitiateConversation, Some(m), cooldowns, location, now)
            == (if h < 0.05 then 0.5 * (1.0 - h / 0.05) else 0.0)
               + (if location.Some? && location.value.id in cooldowns then 1.0 else 0.0)
    ensures 0.0 <= RecencyPenalty(InitiateConversation, Some(m), cooldowns, location, now) <= 1.5
  {
  }

  // ---------------------------------------------------------------------
  // Scoring
  // ---------------------------------------------------------------------

  /** What the scorer looks up for a candidate's target. */
  datatype Lookup = Lookup(avatar: Option<NearbyAvatar>, memory: Option<SocialMemory>, location: Option<WorldLocation>)

  function TargetLookup(t: Option<ActionTarget>, ctx: AgentContext): (l: Lookup)
    ensures t.None? ==> l == Lookup(None, None, None)
    ensures l.location.Some? ==> t.Some? && t.value.kind == LocationTarget
    ensures l.avatar.Some? || l.memory.Some? ==> t.Some? && t.value.kind == AvatarTarget
  {
    if t.Some? && t.value.kind == AvatarTarget && Truthy(t.value.targetId) then
      Lookup(FindAvatar(ctx.nearby, t.value.targetId.value), FindMemory(ctx.memories, t.value.targetId.value), None)
    else if t.Some? && t.value.kind == LocationTarget && Truthy(t.value.targetId) then
      Lookup(None, None, FindLocation(ctx.locations, t.value.targetId.value))
    else Lookup(None, None, None)
  }

  /** `score_action`: every component recomputed, weighted and summed with the jitter `g`. */
  function ScoreAction(c: CandidateAction, ctx: AgentContext, now: real, g: real): (r: CandidateAction)
    ensures r.action == c.action && r.target == c.target
  {
    var l := TargetLookup(c.target, ctx);
    var need := NeedSatisfaction(c.action, ctx.state) * NeedWeight;
    var pers := PersonalityAlignment(c.action, ctx.personality) * PersonalityWeight;
    var social := SocialBias(c.action, l.avatar, l.memory) * SocialWeight;
    var aff := WorldAffinity(c.action, ctx.personality, l.location) * AffinityWeight;
    var rec := RecencyPenalty(c.action, l.memory, ctx.cooldowns, l.location, now) * RecencyWeight;
    var rnd := g * RandomnessWeight;
    c.(needSatisfaction := need, personalityAlignment := pers, socialBias := social,
       worldAffinity := aff, recencyPenalty := rec, randomness := rnd,
       utility := need + pers + social + aff - rec + rnd)
  }

  /**
   * The utility is the sum of the weighted components, in which world
   * affinity weighs nothing: the agent's location affinities never change a
   * score, and neither do the scores a candidate carried before.
   */
  lemma UtilityComposition(c: CandidateAction, c': CandidateAction, ctx: AgentContext,
                           aff: map<string, real>, now: real, g: real)
    requires c'.action == c.action && c'.target == c.target
    ensures var r := ScoreAction(c, ctx, now, g);
            r.utility == r.needSatisfaction + r.personalityAlignment + r.socialBias - r.recencyPenalty + r.randomness
            && r.worldAffinity == 0.0 && r.randomness == 0.3 * g
    ensures ScoreAction(c, ctx.(personality := ctx.personality.(worldAffinities := aff)), now, g)
         == ScoreAction(c', ctx, now, g)
  {
    AffinitiesIgnored(c, c', ctx, aff, now, g);
  }

  /** Other location affinities, or other scores carried by the candidate, leave its score unchanged. */
  lemma AffinitiesIgnored(c: CandidateAction, c': CandidateAction, ctx: AgentContext,
                          aff: map<string, real>, now: real, g: real)
    requires c'.action == c.action && c'.target == c.target
    ensures ScoreAction(c, ctx.(personality := ctx.personality.(worldAffinities := aff)), now, g)
         == ScoreAction(c', ctx, now, g)
  {
    var ctx' := ctx.(personality := ctx.personality.(worldAffinities := aff));
    assert TargetLookup(c.target, ctx') == TargetLookup(c.target, ctx);
    assert PersonalityAlignment(c.action, ctx'.personality) == PersonalityAlignment(c.action, ctx.personality);
  }

  /**
   * Whenever the jitter is less than 160 standard deviations (|g| < 16),
   * IDLE scores below zero and WANDER above zero, so the positive filter
   * keeps WANDER and drops IDLE.
   */
  lemma IdleNegativeWanderPositive(ctx: AgentContext, t: Option<ActionTarget>, now: real, g: real)
    requires ValidState(ctx.state) && ValidPersonality(ctx.personality)
    requires -16.0 < g < 16.0
    ensures ScoreAction(Candidate(Idle, None), ctx, now, g).utility < 0.0
    ensures t.None? || t.value.kind == PositionTarget ==> ScoreAction(Candidate(Wander, t), ctx, now, g).utility > 0.0
  {
    NeedMatchesTable(Idle, ctx.state);
    NeedMatchesTable(Wander, ctx.state);
    PersonalityMatchesTable(Idle, ctx.personality);
    PersonalityMatchesTable(Wander, ctx.personality);
  }

  /** `score_all_actions`: each candidate is scored in place with its own draw. */
  method ScoreAllActions(cands: array<CandidateAction>, ctx: AgentContext, now: real, jitter: nat -> real)
    modifies cands
    ensures forall i :: 0 <= i < cands.Length ==> cands[i] == ScoreAction(old(cands[i]), ctx, now, jitter(i))
  {
    ghost var before := cands[..];
    var i := 0;
    while i < cands.Length
      invariant 0 <= i <= cands.Length
      invariant forall k :: 0 <= k < i ==> cands[k] == ScoreAction(before[k], ctx, now, jitter(k))
      invariant forall k :: i <= k < cands.Length ==> cands[k] == before[k]
    {
      var scored := ScoreAction(cands[i], ctx, now, jitter(i));
      cands[i] := scored;
      i := i + 1;
    }
  }

  // ---------------------------------------------------------------------
  // Social wander target
  // ---------------------------------------------------------------------

  /** The signed pull a nearby avatar exerts on the wander target. */
  function Influence(ctx: AgentContext, nb: NearbyAvatar): real
  {
    var m := FindMemory(ctx.memories, nb.avatarId);
    var sentiment := if m.Some? then m.value.sentiment else if ctx.state.loneliness > 0.5 then 0.1 else 0.0;
    var familiarity := if m.Some? then m.value.familiarity else 0.0;
    var distance := Max(1.0, nb.distance);
    var base := sentiment * (1.0 / (1.0 + distance * 0.1)) * (1.0 + familiarity * 0.5);
    var lonely := if sentiment > 0.0 && ctx.state.loneliness > 0.5 then base * (1.0 + ctx.state.loneliness) else base;
    if sentiment < 0.0 && ctx.state.mood < 0.3 then lonely * 1.5 else lonely
  }

  /** Scaling by a positive factor keeps the sign. */
  lemma ScaleKeepsSign(x: real, k: real)
    requires k > 0.0
    ensures x > 0.0 <==> x * k > 0.0
    ensures x < 0.0 <==> x * k < 0.0
  {
    if x > 0.0 { assert x * k > 0.0; }
    else if x < 0.0 { assert (-x) * k > 0.0; }
  }

  /** Liked avatars attract, disliked ones repel, strangers never repel. */
  lemma InfluenceSign(ctx: AgentContext, nb: NearbyAvatar)
    requires ValidState(ctx.state)
    requires forall m :: m in ctx.memories ==> ValidMemory(m)
    ensures var m := FindMemory(ctx.memories, nb.avatarId);
            m.Some? ==> ((m.value.sentiment > 0.0 <==> Influence(ctx, nb) > 0.0)
                         && (m.value.sentiment < 0.0 <==> Influence(ctx, nb) < 0.0))
    ensures FindMemory(ctx.memories, nb.avatarId).None? ==> Influence(ctx, nb) >= 0.0
  {
    var m := FindMemory(ctx.memories, nb.avatarId);
    var distance := Max(1.0, nb.distance);
    var w := 1.0 / (1.0 + distance * 0.1);
    assert w > 0.0;
    var sentiment := if m.Some? then m.value.sentiment else if ctx.state.loneliness > 0.5 then 0.1 else 0.0;
    var familiarity := if m.Some? then m.value.familiarity else 0.0;
    assert familiarity >= 0.0;
    var f := 1.0 + familiarity * 0.5;
    ScaleKeepsSign(sentiment, w);
    ScaleKeepsSign(sentiment * w, f);
    var base := sentiment * w * f;
    ScaleKeepsSign(base, 1.0 + ctx.state.loneliness);
    var lonely := if sentiment > 0.0 && ctx.state.loneliness > 0.5 then base * (1.0 + ctx.state.loneliness) else base;
    ScaleKeepsSign(lonely, 1.5);
    assert Influence(ctx, nb) == if sentiment < 0.0 && ctx.state.mood < 0.3 then lonely * 1.5 else lonely;
  }

  /** The accumulated social vector: sums of direction times pull, and of |pull|. */
  function SocialSums(ctx: AgentContext, avs: seq<NearbyAvatar>): (r: (real, real, real))
    ensures r.2 >= 0.0
  {
    if |avs| == 0 then (0.0, 0.0, 0.0)
    else
      var prev := SocialSums(ctx, avs[..|avs| - 1]);
      var p := Pull(ctx, avs[|avs| - 1]);
      (prev.0 + p.0, prev.1 + p.1, prev.2 + p.2)
  }

  /** One avatar's contribution: unit direction times pull, on each axis, and the pull's size. */
  function Pull(ctx: AgentContext, nb: NearbyAvatar): (r: (real, real, real))
    ensures r.2 >= 0.0
  {
    var distance := Max(1.0, nb.distance);
    var s := Influence(ctx, nb);
    (((nb.x - ctx.x) as real / distance) * s, ((nb.y - ctx.y) as real / distance) * s, Abs(s))
  }

  /** The accumulation loop over nearby avatars in the wander-target calculation. */
  method SocialInfluence(ctx: AgentContext) returns (dx: real, dy: real, total: real)
    ensures (dx, dy, total) == SocialSums(ctx, ctx.nearby)
    ensures total >= 0.0
  {
    dx, dy, total := 0.0, 0.0, 0.0;
    var i := 0;
    while i < |ctx.nearby|
      invariant 0 <= i <= |ctx.nearby|
      invariant (dx, dy, total) == SocialSums(ctx, ctx.nearby[..i])
    {
      var p := Pull(ctx, ctx.nearby[i]);
      assert ctx.nearby[..i + 1][..i] == ctx.nearby[..i];
      dx, dy, total := dx + p.0, dy + p.1, total + p.2;
      i := i + 1;
    }
    assert ctx.nearby[..i] == ctx.nearby;
  }

  /** Every avatar without pull contributes nothing, so a zero total weight means a zero vector. */
  lemma {:induction false} SocialSumsZero(ctx: AgentContext, avs: seq<NearbyAvatar>)
    ensures var r := SocialSums(ctx, avs);
            r.2 == 0.0 ==> r.0 == 0.0 && r.1 == 0.0
  {
    if |avs| > 0 {
      var init := avs[..|avs| - 1];
      SocialSumsZero(ctx, init);
      var prev := SocialSums(ctx, init);
      var p := Pull(ctx, avs[|avs| - 1]);
      if prev.2 + p.2 == 0.0 {
        assert prev.2 == 0.0 && p.2 == 0.0;
        assert Influence(ctx, avs[|avs| - 1]) == 0.0;
      }
    }
  }

  /** The random draws of the wander target: cosine and sine of the random angle, and the base distance. */
  datatype WanderDraw = WanderDraw(cos: real, sin: real, baseDistance: real)

  /**
   * The social part of the wander offset: the accumulated vector over the
   * total weight, rescaled to the base distance; the raw sums when there was
   * no pull at all.
   */
  function SocialVector(sums: (real, real, real), baseDistance: real, root: real -> real): (real, real)
  {
    if sums.2 > 0.0 then Rescaled(sums.0 / sums.2, sums.1 / sums.2, baseDistance, root)
    else (sums.0, sums.1)
  }

  /** The length of a vector, `math.sqrt(x**2 + y**2)`. */
  function Magnitude(x: real, y: real, root: real -> real): real
  {
    root(x * x + y * y)
  }

  /** The normalised vector stretched to the base distance, unless its magnitude is zero. */
  function Rescaled(nx: real, ny: real, baseDistance: real, root: real -> real): (real, real)
  {
    var magnitude := Magnitude(nx, ny, root);
    if magnitude > 0.0 then ((nx / magnitude) * baseDistance, (ny / magnitude) * baseDistance)
    else (nx, ny)
  }

  /**
   * A non-zero pull becomes a vector of exactly the base distance, parallel
   * to the accumulated pull and pointing the same way.
   */
  lemma SocialVectorAlongPull(sums: (real, real, real), baseDistance: real, root: real -> real)
    requires IsSqrt(root) && baseDistance > 0.0 && sums.2 > 0.0 && (sums.0 != 0.0 || sums.1 != 0.0)
    ensures var v := SocialVector(sums, baseDistance, root);
            v.0 * sums.1 == v.1 * sums.0
            && v.0 * sums.0 + v.1 * sums.1 > 0.0
            && v.0 * v.0 + v.1 * v.1 == baseDistance * baseDistance
  {
    var t := sums.2;
    var nx, ny := sums.0 / t, sums.1 / t;
    assert sums.0 == nx * t && sums.1 == ny * t;
    var v := SocialVector(sums, baseDistance, root);
    RescaledFacts(root, nx, ny, baseDistance, v.0, v.1);
    ScaleBack(nx, ny, t, sums.0, sums.1, v.0, v.1);
  }

  /** The rescaled vector is parallel to, and on the same side as, the vector it came from, with length `b`. */
  lemma RescaledFacts(root: real -> real, nx: real, ny: real, b: real, v0: real, v1: real)
    requires IsSqrt(root) && (nx != 0.0 || ny != 0.0) && b > 0.0 && (v0, v1) == Rescaled(nx, ny, b, root)
    ensures v0 * ny == v1 * nx && v0 * nx + v1 * ny > 0.0 && v0 * v0 + v1 * v1 == b * b
  {
    var l := nx * nx + ny * ny;
    MagnitudePositive(root, nx, ny);
    var m := root(l);
    assert v0 == (nx / m) * b && v1 == (ny / m) * b;
    ScaledByMagnitude(nx, ny, l, m, b, v0, v1);
  }

  lemma ScaledByMagnitude(nx: real, ny: real, l: real, m: real, b: real, v0: real, v1: real)
    requires l == nx * nx + ny * ny && l > 0.0 && m > 0.0 && m * m == l && b > 0.0
    requires v0 == (nx / m) * b && v1 == (ny / m) * b
    ensures v0 * ny == v1 * nx && v0 * nx + v1 * ny > 0.0 && v0 * v0 + v1 * v1 == b * b
  {
    var q := b / m;
    assert m * q == b;
    assert v0 == nx * q && v1 == ny * q;
    MulPositive(q, l);
    assert v0 * nx + v1 * ny == q * l;
    assert v0 * v0 + v1 * v1 == (q * q) * l;
    assert (q * q) * (m * m) == (m * q) * (m * q);
  }

  /** Scaling the normalised vector back by the total weight keeps parallelism and direction. */
  lemma ScaleBack(nx: real, ny: real, t: real, s0: real, s1: real, v0: real, v1: real)
    requires t > 0.0 && s0 == nx * t && s1 == ny * t && v0 * ny == v1 * nx && v0 * nx + v1 * ny > 0.0
    ensures v0 * s1 == v1 * s0 && v0 * s0 + v1 * s1 > 0.0
  {
    assert v0 * s1 == (v0 * ny) * t;
    assert v1 * s0 == (v1 * nx) * t;
    assert v0 * s0 + v1 * s1 == (v0 * nx + v1 * ny) * t;
    MulPositive(v0 * nx + v1 * ny, t);
  }

  /** A non-zero vector has a positive magnitude. */
  lemma MagnitudePositive(root: real -> real, x: real, y: real)
    requires IsSqrt(root) && (x != 0.0 || y != 0.0)
    ensures root(x * x + y * y) > 0.0 && root(x * x + y * y) * root(x * x + y * y) == x * x + y * y
  {
    var v := x * x + y * y;
    SumOfSquaresPositive(x, y, v);
    RootPositive(root(v), v);
  }

  /** The square root of a positive number is positive. */
  lemma RootPositive(m: real, v: real)
    requires m >= 0.0 && m * m == v && v > 0.0
    ensures m > 0.0
  {
    assert m * m > 0.0;
  }

  lemma SumOfSquaresPositive(x: real, y: real, v: real)
    requires (x != 0.0 || y != 0.0) && v == x * x + y * y
    ensures v > 0.0
  {
    var p, q := x * x, y * y;
    SquareNonNegative(x, p);
    SquareNonNegative(y, q);
    if x != 0.0 { SquarePositive(x, p); } else { SquarePositive(y, q); }
  }

  lemma SquareNonNegative(x: real, p: real)
    requires p == x * x
    ensures p >= 0.0
  {
  }

  lemma SquarePositive(x: real, p: real)
    requires x != 0.0 && p == x * x
    ensures p > 0.0
  {
    if x > 0.0 {
      PositiveSquare(x, p);
    } else {
      PositiveSquare(-x, p);
    }
  }

  lemma PositiveSquare(x: real, p: real)
    requires x > 0.0 && p == x * x
    ensures p > 0.0
  {
    assert p / x == x;
  }

  lemma MulPositive(a: real, b: real)
    requires a > 0.0 && b > 0.0
    ensures a * b > 0.0
  {
  }

  /**
   * The offset the wander target moves by: the random vector alone when
   * nobody is nearby, otherwise the social vector weighted by
   * `SOCIAL_WANDER_INFLUENCE` plus the random vector weighted by
   * `WANDER_RANDOMNESS`.
   */
  function WanderOffset(ctx: AgentContext, draw: WanderDraw, root: real -> real): (real, real)
  {
    var random := RandomVector(draw);
    if |ctx.nearby| == 0 then random
    else Blend(SocialVector(SocialSums(ctx, ctx.nearby), draw.baseDistance, root), random)
  }

  /** The random component: the base distance along the random angle. */
  function RandomVector(draw: WanderDraw): (real, real)
  {
    (draw.cos * draw.baseDistance, draw.sin * draw.baseDistance)
  }

  /** The social and random vectors weighted by their two configured weights. */
  function Blend(social: (real, real), random: (real, real)): (real, real)
  {
    (social.0 * SocialWanderInfluence + random.0 * WanderRandomness,
     social.1 * SocialWanderInfluence + random.1 * WanderRandomness)
  }

  /** With nobody nearby the offset is purely the random one. */
  lemma LoneWanderIsRandom(ctx: AgentContext, draw: WanderDraw, root: real -> real)
    requires |ctx.nearby| == 0
    ensures WanderOffset(ctx, draw, root) == (draw.cos * draw.baseDistance, draw.sin * draw.baseDistance)
  {
    assert WanderOffset(ctx, draw, root).0 == draw.cos * draw.baseDistance;
    assert WanderOffset(ctx, draw, root).1 == draw.sin * draw.baseDistance;
  }

  /**
   * With a genuine cosine and sine, the blended offset moves at most the
   * base distance along each axis: the social part has at most that length
   * on each axis and the two weights add up to one.
   */
  lemma WanderOffsetWithinBase(ctx: AgentContext, draw: WanderDraw, root: real -> real)
    requires IsSqrt(root) && draw.baseDistance >= 0.0
    requires -1.0 <= draw.cos <= 1.0 && -1.0 <= draw.sin <= 1.0
    ensures var o := WanderOffset(ctx, draw, root);
            -draw.baseDistance <= o.0 <= draw.baseDistance && -draw.baseDistance <= o.1 <= draw.baseDistance
  {
    var b := draw.baseDistance;
    var random := RandomVector(draw);
    RandomVectorWithinBase(draw);
    if |ctx.nearby| > 0 {
      var social := SocialVector(SocialSums(ctx, ctx.nearby), b, root);
      NearbySocialWithinBase(ctx, b, root);
      BlendWithinBase(social, random, b);
    }
  }

  lemma NearbySocialWithinBase(ctx: AgentContext, b: real, root: real -> real)
    requires IsSqrt(root) && b >= 0.0
    ensures var v := SocialVector(SocialSums(ctx, ctx.nearby), b, root);
            -b <= v.0 <= b && -b <= v.1 <= b
  {
    SocialSumsZero(ctx, ctx.nearby);
    SocialVectorWithinBase(SocialSums(ctx, ctx.nearby), b, root);
  }

  /** Weights summing to one keep a blend of two vectors within the bound of both. */
  lemma BlendWithinBase(social: (real, real), random: (real, real), b: real)
    requires -b <= social.0 <= b && -b <= social.1 <= b && -b <= random.0 <= b && -b <= random.1 <= b
    ensures var o := Blend(social, random);
            -b <= o.0 <= b && -b <= o.1 <= b
  {
  }

  /** The random vector moves at most the base distance along each axis. */
  lemma RandomVectorWithinBase(draw: WanderDraw)
    requires draw.baseDistance >= 0.0 && -1.0 <= draw.cos <= 1.0 && -1.0 <= draw.sin <= 1.0
    ensures var r := RandomVector(draw);
            -draw.baseDistance <= r.0 <= draw.baseDistance && -draw.baseDistance <= r.1 <= draw.baseDistance
  {
    var b := draw.baseDistance;
    RandomWithinBase(draw.cos, b);
    RandomWithinBase(draw.sin, b);
    assert RandomVector(draw).0 == draw.cos * b;
    assert RandomVector(draw).1 == draw.sin * b;
  }

  lemma RandomWithinBase(c: real, b: real)
    requires -1.0 <= c <= 1.0 && b >= 0.0
    ensures -b <= c * b <= b
  {
    assert (1.0 - c) * b >= 0.0 && (1.0 + c) * b >= 0.0;
  }

  /** The social vector never exceeds the base distance on either axis. */
  lemma SocialVectorWithinBase(sums: (real, real, real), b: real, root: real -> real)
    requires IsSqrt(root) && b >= 0.0 && (sums.2 <= 0.0 ==> sums.0 == 0.0 && sums.1 == 0.0)
    ensures var v := SocialVector(sums, b, root);
            -b <= v.0 <= b && -b <= v.1 <= b
  {
    if sums.2 > 0.0 {
      var nx, ny := sums.0 / sums.2, sums.1 / sums.2;
      if nx == 0.0 && ny == 0.0 {
        ZeroRescaled(nx, ny, b, root);
      } else {
        RescaledWithinBase(root, nx, ny, b);
      }
    }
  }

  lemma RescaledWithinBase(root: real -> real, nx: real, ny: real, b: real)
    requires IsSqrt(root) && (nx != 0.0 || ny != 0.0) && b >= 0.0
    ensures var v := Rescaled(nx, ny, b, root);
            -b <= v.0 <= b && -b <= v.1 <= b
  {
    var v := Rescaled(nx, ny, b, root);
    if b == 0.0 {
      MagnitudePositive(root, nx, ny);
    } else {
      RescaledFacts(root, nx, ny, b, v.0, v.1);
      SquareBound(v.0, v.1, b);
      SquareBound(v.1, v.0, b);
    }
  }

  lemma ZeroRescaled(nx: real, ny: real, b: real, root: real -> real)
    requires IsSqrt(root) && nx == 0.0 && ny == 0.0
    ensures Rescaled(nx, ny, b, root) == (0.0, 0.0)
  {
  }

  lemma SquareBound(x: real, y: real, b: real)
    requires b >= 0.0 && x * x + y * y == b * b
    ensures -b <= x <= b
  {
    var r := y * y;
    SquareNonNegative(y, r);
    if x > b {
      MulGreater(x, b);
    } else if x < -b {
      MulGreater(-x, b);
    }
  }

  lemma MulGreater(x: real, b: real)
    requires b >= 0.0 && x > b
    ensures x * x > b * b
  {
    assert x * x - b * b == (x - b) * (x + b);
    MulPositive(x - b, x + b);
  }

  /**
   * `calculate_social_wander_target`: the agent's position moved by the
   * wander offset, truncated and kept two cells inside the 60×40 map.
   */
  function WanderTarget(ctx: AgentContext, draw: WanderDraw, root: real -> real): (t: (int, int))
    ensures var o := WanderOffset(ctx, draw, root);
            2 <= t.0 <= MapWidth - 2 && 2 <= t.1 <= MapHeight - 2
            && (2 <= Trunc(ctx.x as real + o.0) <= MapWidth - 2 ==> t.0 == Trunc(ctx.x as real + o.0))
            && (2 <= Trunc(ctx.y as real + o.1) <= MapHeight - 2 ==> t.1 == Trunc(ctx.y as real + o.1))
  {
    var o := WanderOffset(ctx, draw, root);
    (ClampInt(Trunc(ctx.x as real + o.0), 2, MapWidth - 2),
     ClampInt(Trunc(ctx.y as real + o.1), 2, MapHeight - 2))
  }

  /**
   * `calculate_social_wander_target` as the source runs it: accumulate the
   * pulls, normalise and rescale them, blend with the random vector, then
   * truncate and clamp.
   */
  method CalculateSocialWanderTarget(ctx: AgentContext, draw: WanderDraw, root: real -> real) returns (t: (int, int))
    ensures t == WanderTarget(ctx, draw, root)
  {
    var dx, dy, totalWeight := SocialInfluence(ctx);
    var socialX, socialY := NormaliseSocial(dx, dy, totalWeight, draw.baseDistance, root);
    var randomX, randomY := draw.cos * draw.baseDistance, draw.sin * draw.baseDistance;
    assert randomX == RandomVector(draw).0 && randomY == RandomVector(draw).1;
    var finalX, finalY;
    if |ctx.nearby| == 0 {
      finalX, finalY := randomX, randomY;
    } else {
      finalX := socialX * SocialWanderInfluence + randomX * WanderRandomness;
      finalY := socialY * SocialWanderInfluence + randomY * WanderRandomness;
    }
    assert finalX == WanderOffset(ctx, draw, root).0 && finalY == WanderOffset(ctx, draw, root).1;
    t := (ClampInt(Trunc(ctx.x as real + finalX), 2, MapWidth - 2),
          ClampInt(Trunc(ctx.y as real + finalY), 2, MapHeight - 2));
  }

  /** The normalisation step of the wander target: divide by the total weight, then stretch to the base distance. */
  method NormaliseSocial(dx: real, dy: real, totalWeight: real, baseDistance: real, root: real -> real)
    returns (socialX: real, socialY: real)
    ensures socialX == SocialVector((dx, dy, totalWeight), baseDistance, root).0
    ensures socialY == SocialVector((dx, dy, totalWeight), baseDistance, root).1
  {
    socialX, socialY := dx, dy;
    if totalWeight > 0.0 {
      socialX, socialY := socialX / totalWeight, socialY / totalWeight;
      var magnitude := Magnitude(socialX, socialY, root);
      if magnitude > 0.0 {
        socialX, socialY := (socialX / magnitude) * baseDistance, (socialY / magnitude) * baseDistance;
      }
    }
  }

  // ---------------------------------------------------------------------
  // Candidate generation
  // ---------------------------------------------------------------------

  function Prefix8(s: string): string
  {
    if |s| <= 8 then s else s[..8]
  }

  /** The point five cells straight away from `nb`, kept inside [1,73]×[1,54]. */
  function FleePoint(ctx: AgentContext, nb: NearbyAvatar, root: real -> real): (p: (int, int))
    ensures 1 <= p.0 <= 73 && 1 <= p.1 <= 54
  {
    var dx := (ctx.x - nb.x) as real;
    var dy := (ctx.y - nb.y) as real;
    var dist := Max(1.0, root(dx * dx + dy * dy));
    (ClampInt(Trunc(ctx.x as real + (dx / dist) * 5.0), 1, 73),
     ClampInt(Trunc(ctx.y as real + (dy / dist) * 5.0), 1, 54))
  }

  /** What one nearby avatar contributes: avoid, talk, approach, or nothing. */
  function AvatarCandidate(ctx: AgentContext, nb: NearbyAvatar, root: real -> real): Option<CandidateAction>
  {
    var m := FindMemory(ctx.memories, nb.avatarId);
    if m.Some? && m.value.sentiment < -0.3 && nb.distance <= ConversationRadius + 4.0 then
      var p := FleePoint(ctx, nb, root);
      Some(Candidate(AvoidAvatar, Some(ActionTarget(AvatarTarget, Some(nb.avatarId),
        Some("away from " + Prefix8(nb.avatarId)), Some(p.0), Some(p.1)))))
    else if nb.distance <= ConversationRadius then
      var name := if Truthy(nb.displayName) then nb.displayName.value else "avatar " + Prefix8(nb.avatarId);
      Some(Candidate(InitiateConversation, Some(ActionTarget(AvatarTarget, Some(nb.avatarId),
        Some(name), Some(nb.x), Some(nb.y)))))
    else if nb.distance <= SocialApproachRadius then
      var who := if Truthy(nb.displayName) then nb.displayName.value else Prefix8(nb.avatarId);
      Some(Candidate(Move, Some(ActionTarget(AvatarTarget, Some(nb.avatarId),
        Some("towards " + who), Some(nb.x), Some(nb.y)))))
    else None
  }

  /** The per-avatar candidates, in the order of the nearby list. */
  function AvatarCandidates(ctx: AgentContext, avs: seq<NearbyAvatar>, root: real -> real): seq<CandidateAction>
  {
    if |avs| == 0 then []
    else
      var prev := AvatarCandidates(ctx, avs[..|avs| - 1], root);
      var c := AvatarCandidate(ctx, avs[|avs| - 1], root);
      if c.Some? then prev + [c.value] else prev
  }

  /** The full candidate list `generate_candidate_actions` builds. */
  function CandidateList(ctx: AgentContext, wander: (int, int), root: real -> real): seq<CandidateAction>
  {
    [Candidate(Idle, None), Candidate(Wander, Some(PositionAt(wander.0, wander.1)))]
    + (if !ctx.inConversation then AvatarCandidates(ctx, ctx.nearby, root) else [])
    + (if ctx.inConversation then [Candidate(LeaveConversation, None)] else [])
  }

  method GenerateCandidateActions(ctx: AgentContext, wander: (int, int), root: real -> real)
    returns (actions: seq<CandidateAction>)
    ensures actions == CandidateList(ctx, wander, root)
  {
    actions := [Candidate(Idle, None)];
    actions := actions + [Candidate(Wander, Some(PositionAt(wander.0, wander.1)))];
    if !ctx.inConversation {
      var i := 0;
      while i < |ctx.nearby|
        invariant 0 <= i <= |ctx.nearby|
        invariant actions == [Candidate(Idle, None), Candidate(Wander, Some(PositionAt(wander.0, wander.1)))]
                             + AvatarCandidates(ctx, ctx.nearby[..i], root)
      {
        assert ctx.nearby[..i + 1][..i] == ctx.nearby[..i];
        var c := AvatarCandidate(ctx, ctx.nearby[i], root);
        if c.Some? {
          actions := actions + [c.value];
        }
        i := i + 1;
      }
      assert ctx.nearby[..i] == ctx.nearby;
    }
    if ctx.inConversation {
      actions := actions + [Candidate(LeaveConversation, None)];
    }
  }

  /** The avatar candidates: at most one per avatar, each about an avatar, never about a location. */
  lemma {:induction false} AvatarCandidatesShape(ctx: AgentContext, avs: seq<NearbyAvatar>, root: real -> real)
    ensures var cs := AvatarCandidates(ctx, avs, root);
            |cs| <= |avs|
            && forall c :: c in cs ==>
                 c.action in {AvoidAvatar, InitiateConversation, Move}
                 && c.target.Some? && c.target.value.kind == AvatarTarget
                 && c.target.value.targetId.Some?
                 && (exists nb :: nb in avs && nb.avatarId == c.target.value.targetId.value
                                && AvatarCandidate(ctx, nb, root) == Some(c))
  {
    if |avs| > 0 {
      AvatarCandidatesShape(ctx, avs[..|avs| - 1], root);
      var cs := AvatarCandidates(ctx, avs, root);
      var prev := AvatarCandidates(ctx, avs[..|avs| - 1], root);
      forall c | c in cs
        ensures exists nb :: nb in avs && nb.avatarId == c.target.value.targetId.value
                             && AvatarCandidate(ctx, nb, root) == Some(c)
      {
        if c in prev {
          var nb :| nb in avs[..|avs| - 1] && nb.avatarId == c.target.value.targetId.value
                    && AvatarCandidate(ctx, nb, root) == Some(c);
          assert nb in avs;
        } else {
          assert AvatarCandidate(ctx, avs[|avs| - 1], root) == Some(c);
        }
      }
    }
  }

  /**
   * The radius rules behind one avatar's candidate: AVOID only for a
   * remembered dislike (sentiment < −0.3) within 19 cells, otherwise
   * INITIATE within 15 cells, otherwise MOVE within 30 cells, otherwise
   * nothing.
   */
  lemma AvatarCandidateRadius(ctx: AgentContext, nb: NearbyAvatar, root: real -> real)
    ensures var c := AvatarCandidate(ctx, nb, root);
            var m := FindMemory(ctx.memories, nb.avatarId);
            var disliked := m.Some? && m.value.sentiment < -0.3 && nb.distance <= 19.0;
            (c.Some? && c.value.action == AvoidAvatar <==> disliked)
            && (c.Some? && c.value.action == InitiateConversation <==> !disliked && nb.distance <= 15.0)
            && (c.Some? && c.value.action == Move <==> !disliked && 15.0 < nb.distance <= 30.0)
            && (c.None? <==> !disliked && nb.distance > 30.0)
  {
  }

  /**
   * The candidate list always starts with IDLE then WANDER (so it is never
   * empty), holds LEAVE exactly when the agent is in a conversation, holds
   * no avatar candidates while it is, and never holds a location action.
   */
  lemma CandidateListShape(ctx: AgentContext, wander: (int, int), root: real -> real)
    ensures var cs := CandidateList(ctx, wander, root);
            |cs| >= 2 && cs[0].action == Idle && cs[0].target.None?
            && cs[1].action == Wander && cs[1].target == Some(PositionAt(wander.0, wander.1))
            && ((exists i :: 0 <= i < |cs| && cs[i].action == LeaveConversation) <==> ctx.inConversation)
            && (forall i :: 0 <= i < |cs| ==> !IsLocationAction(cs[i].action))
            && (ctx.inConversation ==> |cs| == 3)
            && |cs| <= 2 + |ctx.nearby| + (if ctx.inConversation then 1 else 0)
  {
    var cs := CandidateList(ctx, wander, root);
    AvatarCandidatesShape(ctx, ctx.nearby, root);
    var avs := AvatarCandidates(ctx, ctx.nearby, root);
    if !ctx.inConversation {
      assert cs == [cs[0], cs[1]] + avs;
      forall i | 0 <= i < |cs| ensures cs[i].action != LeaveConversation && !IsLocationAction(cs[i].action) {
        if i >= 2 { assert cs[i] in avs; }
      }
    } else {
      assert cs[2].action == LeaveConversation;
    }
  }

  // ---------------------------------------------------------------------
  // Softmax selection
  // ---------------------------------------------------------------------

  function Sum(s: seq<real>): real
  {
    if |s| == 0 then 0.0 else Sum(s[..|s| - 1]) + s[|s| - 1]
  }

  function MaxOf(s: seq<real>): (m: real)
    requires |s| > 0
    ensures m in s && forall x :: x in s ==> x <= m
  {
    if |s| == 1 then s[0]
    else
      var rest := MaxOf(s[..|s| - 1]);
      assert forall x :: x in s ==> x in s[..|s| - 1] || x == s[|s| - 1];
      if s[|s| - 1] > rest then s[|s| - 1] else rest
  }

  predicate AllPositive(s: seq<real>)
  {
    forall i :: 0 <= i < |s| ==> s[i] > 0.0
  }

  /** The candidates' scores divided by the temperature. */
  function Scores(actions: seq<CandidateAction>): (s: seq<real>)
    ensures |s| == |actions|
  {
    seq(|actions|, i requires 0 <= i < |actions| => actions[i].utility / SoftmaxTemperature)
  }

  /** The softmax weights `exp(u/T − max)` of a list of candidates. */
  function ExpScores(actions: seq<CandidateAction>, exp: real -> real): (e: seq<real>)
    requires |actions| > 0
    requires forall v :: exp(v) > 0.0
    ensures |e| == |actions| && AllPositive(e)
  {
    var scores := Scores(actions);
    var top := MaxOf(scores);
    seq(|actions|, i requires 0 <= i < |actions| => exp(scores[i] - top))
  }

  function Normalise(e: seq<real>, total: real): (p: seq<real>)
    requires total != 0.0
    ensures |p| == |e|
  {
    seq(|e|, i requires 0 <= i < |e| => e[i] / total)
  }

  /** Probabilities: each weight over the sum of the weights. */
  function Probabilities(actions: seq<CandidateAction>, exp: real -> real): (p: seq<real>)
    requires |actions| > 0
    requires forall v :: exp(v) > 0.0
    ensures |p| == |actions|
  {
    var e := ExpScores(actions, exp);
    SumPositive(e);
    Normalise(e, Sum(e))
  }

  lemma {:induction false} SumPositive(e: seq<real>)
    requires AllPositive(e)
    ensures |e| > 0 ==> Sum(e) > 0.0
    ensures Sum(e) >= 0.0
  {
    if |e| > 0 { SumPositive(e[..|e| - 1]); }
  }

  lemma {:induction false} SumNormalise(e: seq<real>, total: real)
    requires total != 0.0
    ensures Sum(Normalise(e, total)) == Sum(e) / total
  {
    if |e| > 0 {
      var n := Normalise(e, total);
      assert n[..|n| - 1] == Normalise(e[..|e| - 1], total);
      SumNormalise(e[..|e| - 1], total);
    }
  }

  /** The running sum of `p` up to and including index `j`. */
  function Running(p: seq<real>, j: nat): real
    requires j < |p|
  {
    Sum(p[..j + 1])
  }

  /** The cumulative scan: the first index at or after `i` whose running sum covers `r`, else the last. */
  function CoverIndex(p: seq<real>, r: real, i: nat): (k: nat)
    requires 0 < |p| && i <= |p|
    ensures k < |p|
    decreases |p| - i
  {
    if i == |p| then |p| - 1
    else if r <= Running(p, i) then i
    else CoverIndex(p, r, i + 1)
  }

  /**
   * `softmax_select`: an empty list is an error, a single candidate is
   * returned without consulting the draw, and otherwise the first candidate
   * whose running probability covers the draw `r` (the last one if none does).
   */
  method SoftmaxSelect(actions: seq<CandidateAction>, exp: real -> real, r: real)
    returns (res: Result<CandidateAction, string>)
    requires forall v :: exp(v) > 0.0
    ensures |actions| == 0 <==> res.Failure?
    ensures |actions| == 1 ==> res == Success(actions[0])
    ensures |actions| > 1 ==> res == Success(actions[CoverIndex(Probabilities(actions, exp), r, 0)])
    ensures res.Success? ==> res.value in actions
  {
    if |actions| == 0 {
      return Failure("No actions to select from");
    }
    if |actions| == 1 {
      return Success(actions[0]);
    }
    var probabilities := Probabilities(actions, exp);
    var cumulative := 0.0;
    var i := 0;
    while i < |actions|
      invariant 0 <= i <= |actions|
      invariant cumulative == Sum(probabilities[..i])
      invariant CoverIndex(probabilities, r, 0) == CoverIndex(probabilities, r, i)
    {
      assert probabilities[..i + 1][..i] == probabilities[..i];
      cumulative := cumulative + probabilities[i];
      if r <= cumulative {
        return Success(actions[i]);
      }
      i := i + 1;
    }
    return Success(actions[|actions| - 1]);
  }

  lemma {:induction false} PrefixSumsIncrease(p: seq<real>, j: nat, k: nat)
    requires AllPositive(p) && j < k <= |p|
    ensures Sum(p[..j]) < Sum(p[..k])
    decreases k
  {
    assert p[..k][..k - 1] == p[..k - 1];
    if j < k - 1 {
      PrefixSumsIncrease(p, j, k - 1);
    }
  }

  lemma {:induction false} CoverFrom(p: seq<real>, r: real, i: nat, k: nat)
    requires 0 < |p| && i <= k < |p|
    requires forall j :: i <= j < k ==> Running(p, j) < r
    requires r <= Running(p, k)
    ensures CoverIndex(p, r, i) == k
    decreases k - i
  {
    if i < k {
      CoverFrom(p, r, i + 1, k);
    }
  }

  /** The first index whose running sum reaches r, which exists when the sum is 1 > r. */
  lemma FirstCover(p: seq<real>, r: real) returns (c: nat)
    requires 0 < |p| && Sum(p) == 1.0 && r < 1.0
    ensures c < |p| && r <= Running(p, c)
    ensures forall j :: 0 <= j < c ==> Running(p, j) < r
  {
    c := 0;
    while c + 1 < |p| && r > Running(p, c)
      invariant c < |p|
      invariant forall j :: 0 <= j < c ==> Running(p, j) < r
      decreases |p| - c
    {
      c := c + 1;
    }
    if c + 1 == |p| {
      assert p[..c + 1] == p;
    }
  }

  /**
   * With positive weights summing to 1 and a draw in [0, 1), the scan never
   * reaches its fallback: it picks candidate k exactly when the draw falls
   * in k's slice (P_{k-1}, P_k] of the running sums (slice 0 also takes
   * r = 0), so each candidate is chosen with its own probability.
   */
  lemma SelectionInterval(p: seq<real>, r: real, k: nat)
    requires AllPositive(p) && 0 < |p| && Sum(p) == 1.0
    requires 0.0 <= r < 1.0 && k < |p|
    ensures CoverIndex(p, r, 0) == k <==> (k == 0 || Running(p, k - 1) < r) && r <= Running(p, k)
  {
    var c := FirstCover(p, r);
    CoverFrom(p, r, 0, c);
    if c < k {
      if c + 1 < k { PrefixSumsIncrease(p, c + 1, k); }
      assert r <= Running(p, k - 1);
    } else if c > k {
      if k + 1 < c { PrefixSumsIncrease(p, k + 1, c); }
      assert Running(p, c - 1) < r;
      assert Running(p, k) < r;
    }
  }

  lemma NormalisePositive(e: seq<real>, t: real)
    requires AllPositive(e) && t > 0.0
    ensures AllPositive(Normalise(e, t))
  {
    var n := Normalise(e, t);
    forall i | 0 <= i < |n| ensures n[i] > 0.0 {
      assert n[i] == e[i] / t;
    }
  }

  /** Positive weights over their own sum are positive and sum to 1. */
  lemma NormaliseIsDistribution(e: seq<real>)
    requires AllPositive(e) && |e| > 0
    ensures Sum(e) > 0.0
    ensures AllPositive(Normalise(e, Sum(e)))
    ensures Sum(Normalise(e, Sum(e))) == 1.0
  {
    SumPositive(e);
    var t := Sum(e);
    SumNormalise(e, t);
    NormalisePositive(e, t);
    DivSelf(t);
  }

  lemma DivSelf(t: real)
    requires t > 0.0
    ensures t / t == 1.0
  {
  }

  /** The softmax weights are probabilities: positive and summing to 1. */
  lemma ProbabilitiesSumToOne(actions: seq<CandidateAction>, exp: real -> real)
    requires |actions| > 0
    requires forall v :: exp(v) > 0.0
    ensures AllPositive(Probabilities(actions, exp))
    ensures Sum(Probabilities(actions, exp)) == 1.0
  {
    NormaliseIsDistribution(ExpScores(actions, exp));
  }

  /** With an increasing `exp`, a candidate with higher utility gets a strictly larger share. */
  lemma SoftmaxPrefersHigher(actions: seq<CandidateAction>, exp: real -> real, i: nat, j: nat)
    requires forall v :: exp(v) > 0.0
    requires forall v, w :: v < w ==> exp(v) < exp(w)
    requires i < |actions| && j < |actions| && actions[i].utility < actions[j].utility
    ensures Probabilities(actions, exp)[i] < Probabilities(actions, exp)[j]
  {
    var e := ExpScores(actions, exp);
    ExpScoresIncrease(actions, exp, i, j);
    SumPositive(e);
    DivideIncreasing(e[i], e[j], Sum(e));
  }

  /** A higher utility gets a larger weight `exp(u/T − max)`. */
  lemma ExpScoresIncrease(actions: seq<CandidateAction>, exp: real -> real, i: nat, j: nat)
    requires forall v :: exp(v) > 0.0
    requires forall v, w :: v < w ==> exp(v) < exp(w)
    requires i < |actions| && j < |actions| && actions[i].utility < actions[j].utility
    ensures ExpScores(actions, exp)[i] < ExpScores(actions, exp)[j]
  {
    var scores := Scores(actions);
    var top := MaxOf(scores);
    DivideIncreasing(actions[i].utility, actions[j].utility, SoftmaxTemperature);
    assert scores[i] - top < scores[j] - top;
  }

  lemma DivideIncreasing(a: real, b: real, t: real)
    requires a < b && t > 0.0
    ensures a / t < b / t
  {
    assert b / t - a / t == (b - a) / t;
  }

  // ---------------------------------------------------------------------
  // Interrupts
  // ---------------------------------------------------------------------

  predicate FromPlayer(req: ConversationRequest)
  {
    GetOr(req.initiatorType, "ROBOT") == "PLAYER"
  }

  /** Does this request interrupt, given its draw? Players always do; others when the draw is below 0.7. */
  predicate Fires(req: ConversationRequest, draw: real)
  {
    FromPlayer(req) || draw < 0.7
  }

  function JoinRequest(req: ConversationRequest): (s: SelectedAction)
    ensures s.action == JoinConversation && s.duration.None?
  {
    SelectedAction(JoinConversation, Some(ActionTarget(AvatarTarget, req.initiatorId, None, None, None)),
                   if FromPlayer(req) then 20.0 else 10.0, None)
  }

  /** `check_for_interrupts`: scan requests in order; the draw of request i is `draws[i]`. */
  function CheckForInterrupts(reqs: seq<ConversationRequest>, draws: seq<real>): Option<SelectedAction>
    requires |draws| == |reqs|
  {
    if |reqs| == 0 then None
    else if FromPlayer(reqs[0]) then Some(JoinRequest(reqs[0]))
    else if draws[0] < 0.7 then Some(JoinRequest(reqs[0]))
    else CheckForInterrupts(reqs[1..], draws[1..])
  }

  /**
   * The first firing request wins: a PLAYER request with score 20, any
   * other with score 10; if none fires there is no interrupt.
   */
  lemma {:induction false} InterruptFirstFiring(reqs: seq<ConversationRequest>, draws: seq<real>)
    requires |draws| == |reqs|
    ensures (forall i :: 0 <= i < |reqs| ==> !Fires(reqs[i], draws[i])) <==> CheckForInterrupts(reqs, draws).None?
    ensures forall i :: 0 <= i < |reqs| && Fires(reqs[i], draws[i])
                        && (forall j :: 0 <= j < i ==> !Fires(reqs[j], draws[j]))
                        ==> CheckForInterrupts(reqs, draws) == Some(JoinRequest(reqs[i]))
  {
    if |reqs| > 0 {
      InterruptFirstFiring(reqs[1..], draws[1..]);
      if !Fires(reqs[0], draws[0]) {
        forall i | 0 <= i < |reqs| && Fires(reqs[i], draws[i]) && (forall j :: 0 <= j < i ==> !Fires(reqs[j], draws[j]))
          ensures CheckForInterrupts(reqs, draws) == Some(JoinRequest(reqs[i]))
        {
          assert i > 0;
          assert reqs[1..][i - 1] == reqs[i] && draws[1..][i - 1] == draws[i];
          assert forall j :: 0 <= j < i - 1 ==> !Fires(reqs[1..][j], draws[1..][j]) by {
            forall j | 0 <= j < i - 1 ensures !Fires(reqs[1..][j], draws[1..][j]) {
              assert reqs[1..][j] == reqs[j + 1] && draws[1..][j] == draws[j + 1];
            }
          }
        }
        if forall i :: 0 <= i < |reqs[1..]| ==> !Fires(reqs[1..][i], draws[1..][i]) {
          forall i | 0 <= i < |reqs| ensures !Fires(reqs[i], draws[i]) {
            if i > 0 { assert reqs[1..][i - 1] == reqs[i] && draws[1..][i - 1] == draws[i]; }
          }
        }
      }
    }
  }

  /** Request `i` is reached: no earlier request fired. */
  predicate Reached(reqs: seq<ConversationRequest>, draws: seq<real>, i: nat)
    requires |draws| == |reqs| && i <= |reqs|
  {
    forall j :: 0 <= j < i ==> !Fires(reqs[j], draws[j])
  }

  /**
   * A draw is consumed only when its request is reached and is not from a
   * player: draws that differ only at PLAYER requests, or only after the
   * first firing request, give the same outcome.
   */
  lemma {:induction false} InterruptDrawsUnread(reqs: seq<ConversationRequest>, draws: seq<real>, draws': seq<real>)
    requires |draws| == |reqs| == |draws'|
    requires forall i :: 0 <= i < |reqs| && !FromPlayer(reqs[i]) && Reached(reqs, draws, i) ==> draws[i] == draws'[i]
    ensures CheckForInterrupts(reqs, draws) == CheckForInterrupts(reqs, draws')
  {
    if |reqs| > 0 && !FromPlayer(reqs[0]) {
      assert Reached(reqs, draws, 0);
      if !(draws[0] < 0.7) {
        forall i | 0 <= i < |reqs| - 1 && !FromPlayer(reqs[1..][i]) && Reached(reqs[1..], draws[1..], i)
          ensures draws[1..][i] == draws'[1..][i]
        {
          assert Reached(reqs, draws, i + 1) by {
            forall j | 0 <= j < i + 1 ensures !Fires(reqs[j], draws[j]) {
              if j > 0 { assert reqs[1..][j - 1] == reqs[j] && draws[1..][j - 1] == draws[j]; }
            }
          }
          assert reqs[1..][i] == reqs[i + 1];
        }
        InterruptDrawsUnread(reqs[1..], draws[1..], draws'[1..]);
      }
    }
  }

  // ---------------------------------------------------------------------
  // Decision
  // ---------------------------------------------------------------------

  /** The duration table; actions missing from it take 5 seconds. */
  function ActionDuration(a: ActionType): real
  {
    match a
    case Idle => 0.5
    case Wander => 8.0
    case WalkToLocation => 5.0
    case InteractFood => 3.0
    case InteractKaraoke => 3.0
    case InteractRest => 3.0
    case InteractSocialHub => 3.0
    case InteractWanderPoint => 3.0
    case InitiateConversation => 25.0
    case JoinConversation => 25.0
    case LeaveConversation => 1.0
    case Move => 6.0
    case StandStill => 0.5
    case _ => 5.0
  }

  /** Every duration is positive and at most 25 s; AVOID, absent from the table, takes the default 5 s. */
  lemma DurationPositive(a: ActionType)
    ensures 0.0 < ActionDuration(a) <= 25.0
    ensures ActionDuration(AvoidAvatar) == 5.0
  {
  }

  function PositiveOnly(s: seq<CandidateAction>): (r: seq<CandidateAction>)
    ensures forall c :: c in r <==> c in s && c.utility > 0.0
    ensures |r| <= |s|
  {
    if |s| == 0 then []
    else
      var rest := PositiveOnly(s[..|s| - 1]);
      assert forall c :: c in s <==> c in s[..|s| - 1] || c == s[|s| - 1];
      if s[|s| - 1].utility > 0.0 then rest + [s[|s| - 1]] else rest
  }

  /** The candidates softmax chooses among: the positive ones if any, else all of them. */
  function Pool(scored: seq<CandidateAction>): (r: seq<CandidateAction>)
    ensures |scored| > 0 ==> |r| > 0
    ensures (exists c :: c in scored && c.utility > 0.0) ==> forall c :: c in r ==> c.utility > 0.0
    ensures forall c :: c in r ==> c in scored
  {
    var pos := PositiveOnly(scored);
    if |pos| > 0 then pos
    else
      assert |scored| > 0 ==> scored[0] in scored;
      scored
  }

  function Scored(cands: seq<CandidateAction>, ctx: AgentContext, now: real, jitter: nat -> real): (r: seq<CandidateAction>)
    ensures |r| == |cands|
  {
    seq(|cands|, i requires 0 <= i < |cands| => ScoreAction(cands[i], ctx, now, jitter(i)))
  }

  /** Everything the decision needs besides the context. */
  datatype DecisionInputs = DecisionInputs(
    now: real,
    interruptDraws: seq<real>,
    wanderDraw: WanderDraw,
    root: real -> real,
    jitter: nat -> real,
    exp: real -> real,
    pick: real)

  ghost predicate InputsFit(ctx: AgentContext, d: DecisionInputs)
  {
    |d.interruptDraws| == |ctx.pending| && forall v :: d.exp(v) > 0.0
  }

  /** The scored pool `make_decision` hands to softmax. */
  function DecisionPool(ctx: AgentContext, d: DecisionInputs): (pool: seq<CandidateAction>)
    ensures |pool| > 0
  {
    var w := WanderTarget(ctx, d.wanderDraw, d.root);
    CandidateListShape(ctx, w, d.root);
    Pool(Scored(CandidateList(ctx, w, d.root), ctx, d.now, d.jitter))
  }

  /** The decision `make_decision` returns, as a function of its inputs. */
  function Decision(ctx: AgentContext, d: DecisionInputs): SelectedAction
    requires InputsFit(ctx, d)
  {
    var interrupt := CheckForInterrupts(ctx.pending, d.interruptDraws);
    if interrupt.Some? then interrupt.value
    else
      var pool := DecisionPool(ctx, d);
      var chosen := if |pool| == 1 then pool[0] else pool[CoverIndex(Probabilities(pool, d.exp), d.pick, 0)];
      SelectedAction(chosen.action, chosen.target, chosen.utility, Some(ActionDuration(chosen.action)))
  }

  /** `make_decision`: interrupt first, else generate, score, filter and sample. */
  method MakeDecision(ctx: AgentContext, d: DecisionInputs) returns (sel: SelectedAction)
    requires InputsFit(ctx, d)
    ensures sel == Decision(ctx, d)
  {
    var interrupt := CheckForInterrupts(ctx.pending, d.interruptDraws);
    if interrupt.Some? {
      return interrupt.value;
    }
    var w := CalculateSocialWanderTarget(ctx, d.wanderDraw, d.root);
    var candidates := GenerateCandidateActions(ctx, w, d.root);
    var arr := new CandidateAction[|candidates|](i requires 0 <= i < |candidates| => candidates[i]);
    ScoreAllActions(arr, ctx, d.now, d.jitter);
    var scored := arr[..];
    assert scored == Scored(candidates, ctx, d.now, d.jitter);
    var positive := PositiveOnly(scored);
    if |positive| > 0 {
      scored := positive;
    }
    assert scored == DecisionPool(ctx, d);
    var selected := SoftmaxSelect(scored, d.exp, d.pick);
    sel := SelectedAction(selected.value.action, selected.value.target, selected.value.utility,
                          Some(ActionDuration(selected.value.action)));
  }

  /**
   * Without an interrupt the decision is one of the generated candidates,
   * scored; it has positive utility whenever some candidate does; and it
   * carries its positive table duration. With an interrupt it is a JOIN.
   */
  lemma DecisionProperties(ctx: AgentContext, d: DecisionInputs)
    requires InputsFit(ctx, d)
    ensures var sel := Decision(ctx, d);
            var w := WanderTarget(ctx, d.wanderDraw, d.root);
            var scored := Scored(CandidateList(ctx, w, d.root), ctx, d.now, d.jitter);
            (CheckForInterrupts(ctx.pending, d.interruptDraws).Some? ==> sel.action == JoinConversation)
            && (CheckForInterrupts(ctx.pending, d.interruptDraws).None? ==>
                  (exists c :: c in scored && c.action == sel.action && c.target == sel.target && c.utility == sel.utility)
                  && ((exists c :: c in scored && c.utility > 0.0) ==> sel.utility > 0.0)
                  && sel.duration == Some(ActionDuration(sel.action)) && sel.duration.value > 0.0)
  {
    var sel := Decision(ctx, d);
    DurationPositive(sel.action);
    if CheckForInterrupts(ctx.pending, d.interruptDraws).Some? {
      InterruptIsJoin(ctx.pending, d.interruptDraws);
    } else {
      var pool := DecisionPool(ctx, d);
      var k := if |pool| == 1 then 0 else CoverIndex(Probabilities(pool, d.exp), d.pick, 0);
      assert pool[k] in pool;
    }
  }

  lemma {:induction false} InterruptIsJoin(reqs: seq<ConversationRequest>, draws: seq<real>)
    requires |draws| == |reqs|
    ensures CheckForInterrupts(reqs, draws).Some? ==> CheckForInterrupts(reqs, draws).value.action == JoinConversation
  {
    if |reqs| > 0 { InterruptIsJoin(reqs[1..], draws[1..]); }
  }

  // ---------------------------------------------------------------------
  // Need updates
  // ---------------------------------------------------------------------

  /** The arithmetic of the time decay: energy refilled, hunger emptied, loneliness grows, mood eases. */
  function DecayedState(s: AgentState, elapsed: real): AgentState
  {
    var t := elapsed / 300.0;
    s.(energy := 1.0, hunger := 0.0,
       loneliness := Min(1.0, s.loneliness + LonelinessGrowth * t),
       mood := Max(0.3, s.mood * (1.0 - 0.005 * t)))
  }

  /**
   * `apply_state_decay`: the decayed values are validated when the new state
   * is built, so a result outside the field bounds is an error (`None`).
   */
  function ApplyStateDecay(s: AgentState, elapsed: real): (r: Option<AgentState>)
    ensures r.Some? ==> ValidState(r.value)
    ensures r.Some? ==> r.value.currentAction == s.currentAction && r.value.target == s.target
                        && r.value.startedAt == s.startedAt && r.value.expiresAt == s.expiresAt
                        && r.value.lastTick == s.lastTick
  {
    var d := DecayedState(s, elapsed);
    if ValidState(d) then Some(d) else None
  }

  lemma MoodFactorBound(m: real, f: real)
    requires -1.0 <= m <= 1.0 && f <= 1.0
    requires m >= 0.0 || f >= -1.0
    ensures m * f <= 1.0
  {
    if m >= 0.0 {
      if f >= 0.0 {
        assert m * f <= m * 1.0;
      } else {
        assert m * f <= 0.0;
      }
    } else {
      if f >= 0.0 {
        assert m * f <= 0.0;
      } else {
        var a, b := -m, -f;
        assert b * (1.0 - a) >= 0.0;
        assert m * f == a * b;
      }
    }
  }

  /**
   * Decay keeps a valid state valid when no time runs backwards and either
   * the mood is not negative or at most 120000 s have passed: then energy
   * is 1, hunger 0, loneliness has not dropped and mood is at least 0.3.
   */
  lemma DecayKeepsBounds(s: AgentState, elapsed: real)
    requires ValidState(s) && elapsed >= 0.0
    requires s.mood >= 0.0 || elapsed <= 120000.0
    ensures ApplyStateDecay(s, elapsed).Some?
    ensures var r := ApplyStateDecay(s, elapsed).value;
            r.energy == 1.0 && r.hunger == 0.0 && s.loneliness <= r.loneliness && r.mood >= 0.3
  {
    var t := elapsed / 300.0;
    MoodFactorBound(s.mood, 1.0 - 0.005 * t);
  }

  /**
   * The bound on mood needs the precondition: a mood of −1 left for
   * 200000 s decays to about 2.33, which the state refuses.
   */
  lemma DecayCanOverflowMood()
    ensures ApplyStateDecay(DefaultState().(mood := -1.0), 200000.0).None?
  {
    var d := DecayedState(DefaultState().(mood := -1.0), 200000.0);
    assert d.mood > 1.0;
  }

  function Effect(effects: map<string, real>, key: string): real
  {
    if key in effects then effects[key] else 0.0
  }

  /**
   * `apply_interaction_effects`: each need moves by its delta (a missing
   * key is 0) and is clamped to its range; nothing else changes.
   */
  function ApplyInteractionEffects(s: AgentState, effects: map<string, real>): (r: AgentState)
    ensures ValidState(r)
    ensures r.currentAction == s.currentAction && r.target == s.target && r.startedAt == s.startedAt
            && r.expiresAt == s.expiresAt && r.lastTick == s.lastTick
  {
    s.(energy := Clamp(s.energy + Effect(effects, "energy"), 0.0, 1.0),
       hunger := Clamp(s.hunger + Effect(effects, "hunger"), 0.0, 1.0),
       loneliness := Clamp(s.loneliness + Effect(effects, "loneliness"), 0.0, 1.0),
       mood := Clamp(s.mood + Effect(effects, "mood"), -1.0, 1.0))
  }

  /**
   * Effects move each need in the direction of its delta and never further
   * than the delta; an empty effect map leaves a valid state unchanged.
   */
  lemma EffectsDirection(s: AgentState, effects: map<string, real>)
    requires ValidState(s)
    ensures var r := ApplyInteractionEffects(s, effects);
            (Effect(effects, "energy") >= 0.0 ==> s.energy <= r.energy <= s.energy + Effect(effects, "energy"))
            && (Effect(effects, "energy") <= 0.0 ==> s.energy + Effect(effects, "energy") <= r.energy <= s.energy)
            && (Effect(effects, "mood") >= 0.0 ==> s.mood <= r.mood <= s.mood + Effect(effects, "mood"))
            && (Effect(effects, "mood") <= 0.0 ==> s.mood + Effect(effects, "mood") <= r.mood <= s.mood)
            && (Effect(effects, "loneliness") <= 0.0 ==> r.loneliness <= s.loneliness)
            && (Effect(effects, "hunger") <= 0.0 ==> r.hunger <= s.hunger)
    ensures ApplyInteractionEffects(s, map[]) == s
  {
  }
}
