/**
 * The records of the agent decision system: action and location tags,
 * personality, needs, social memory edges, action targets, candidate and
 * selected actions, nearby avatars, world locations and the decision
 * context. Field bounds that the records enforce on construction are the
 * `Valid` predicates; defaults are the `Default` constructors.
 */
module AgentModels {
  import opened Wrappers

  // ---------------------------------------------------------------------
  // Action and location tags
  // ---------------------------------------------------------------------

  datatype ActionType =
    | Idle | Wander | WalkToLocation
    | InteractFood | InteractKaraoke | InteractRest | InteractSocialHub | InteractWanderPoint
    | InitiateConversation | JoinConversation | LeaveConversation | AvoidAvatar
    | Move | StandStill

  /** The string value each action carries in storage and in responses. */
  function Tag(a: ActionType): string
  {
    match a
    case Idle => "idle"
    case Wander => "wander"
    case WalkToLocation => "walk_to_location"
    case InteractFood => "interact_food"
    case InteractKaraoke => "interact_karaoke"
    case InteractRest => "interact_rest"
    case InteractSocialHub => "interact_social_hub"
    case InteractWanderPoint => "interact_wander_point"
    case InitiateConversation => "initiate_conversation"
    case JoinConversation => "join_conversation"
    case LeaveConversation => "leave_conversation"
    case AvoidAvatar => "avoid_avatar"
    case Move => "move"
    case StandStill => "stand_still"
  }

  /** `ActionType(s)`: the action whose value is `s`, if any. */
  function ParseAction(s: string): (r: Option<ActionType>)
    ensures r.Some? ==> Tag(r.value) == s
  {
    if s == "idle" then Some(Idle)
    else if s == "wander" then Some(Wander)
    else if s == "walk_to_location" then Some(WalkToLocation)
    else if s == "interact_food" then Some(InteractFood)
    else if s == "interact_karaoke" then Some(InteractKaraoke)
    else if s == "interact_rest" then Some(InteractRest)
    else if s == "interact_social_hub" then Some(InteractSocialHub)
    else if s == "interact_wander_point" then Some(InteractWanderPoint)
    else if s == "initiate_conversation" then Some(InitiateConversation)
    else if s == "join_conversation" then Some(JoinConversation)
    else if s == "leave_conversation" then Some(LeaveConversation)
    else if s == "avoid_avatar" then Some(AvoidAvatar)
    else if s == "move" then Some(Move)
    else if s == "stand_still" then Some(StandStill)
    else None
  }

  /** Parsing a stored value and printing an action are inverse. */
  lemma ParseTagRoundTrip(a: ActionType, s: string)
    ensures ParseAction(Tag(a)) == Some(a)
    ensures ParseAction(s) == Some(a) ==> Tag(a) == s
  {
    match a
    case Idle =>
    case Wander =>
    case WalkToLocation =>
    case InteractFood =>
    case InteractKaraoke =>
    case InteractRest =>
    case InteractSocialHub =>
    case InteractWanderPoint =>
    case InitiateConversation =>
    case JoinConversation =>
    case LeaveConversation =>
    case AvoidAvatar =>
    case Move =>
    case StandStill =>
  }

  /** The five location activities. */
  predicate IsInteract(a: ActionType)
  {
    a in {InteractFood, InteractKaraoke, InteractRest, InteractSocialHub, InteractWanderPoint}
  }

  predicate StartsWith(s: string, prefix: string)
  {
    |prefix| <= |s| && s[..|prefix|] == prefix
  }

  /** `value.startswith('interact_')` singles out exactly the location activities. */
  lemma InteractPrefix(a: ActionType)
    ensures StartsWith(Tag(a), "interact_") <==> IsInteract(a)
  {
    match a
    case Idle =>
    case Wander =>
    case WalkToLocation =>
      assert Tag(a)[..|"interact_"|] != "interact_" by { assert Tag(a)[0] != 'i'; }
    case InitiateConversation =>
      assert Tag(a)[..|"interact_"|] != "interact_" by { assert Tag(a)[1] != 'n' || Tag(a)[2] != 't'; }
    case JoinConversation =>
      assert Tag(a)[..|"interact_"|] != "interact_" by { assert Tag(a)[0] != 'i'; }
    case LeaveConversation =>
      assert Tag(a)[..|"interact_"|] != "interact_" by { assert Tag(a)[0] != 'i'; }
    case AvoidAvatar =>
      assert Tag(a)[..|"interact_"|] != "interact_" by { assert Tag(a)[0] != 'i'; }
    case Move =>
    case StandStill =>
      assert Tag(a)[..|"interact_"|] != "interact_" by { assert Tag(a)[0] != 'i'; }
    case InteractFood =>
    case InteractKaraoke =>
    case InteractRest =>
    case InteractSocialHub =>
    case InteractWanderPoint =>
  }

  datatype LocationType = Food | Karaoke | RestArea | SocialHub | WanderPoint

  function LocationKey(t: LocationType): string
  {
    match t
    case Food => "food"
    case Karaoke => "karaoke"
    case RestArea => "rest_area"
    case SocialHub => "social_hub"
    case WanderPoint => "wander_point"
  }

  /** The activity a location offers once the agent has arrived. */
  function InteractFor(t: LocationType): (a: ActionType)
    ensures IsInteract(a)
  {
    match t
    case Food => InteractFood
    case Karaoke => InteractKaraoke
    case RestArea => InteractRest
    case SocialHub => InteractSocialHub
    case WanderPoint => InteractWanderPoint
  }

  /** Each location type leads to its own activity. */
  lemma InteractForInjective(t: LocationType, u: LocationType)
    ensures InteractFor(t) == InteractFor(u) ==> t == u
  {
  }

  // ---------------------------------------------------------------------
  // Personality
  // ---------------------------------------------------------------------

  datatype Personality = Personality(
    sociability: real,
    curiosity: real,
    agreeableness: real,
    energyBaseline: real,
    worldAffinities: map<string, real>,
    profileSummary: Option<string>,
    communicationStyle: Option<string>,
    interests: Option<seq<string>>,
    conversationTopics: Option<seq<string>>,
    personalityNotes: Option<string>)

  predicate InUnit(v: real) { 0.0 <= v <= 1.0 }

  /** Field bounds enforced when a personality is constructed. */
  predicate ValidPersonality(p: Personality)
  {
    InUnit(p.sociability) && InUnit(p.curiosity) && InUnit(p.agreeableness) && InUnit(p.energyBaseline)
  }

  /** Every location type at the neutral affinity 0.5. */
  function DefaultAffinities(): (m: map<string, real>)
    ensures m.Keys == {"food", "karaoke", "rest_area", "social_hub", "wander_point"}
    ensures forall k :: k in m ==> m[k] == 0.5
  {
    map["food" := 0.5, "karaoke" := 0.5, "rest_area" := 0.5, "social_hub" := 0.5, "wander_point" := 0.5]
  }

  /** A personality with every field left at its default. */
  function DefaultPersonality(): (p: Personality)
    ensures ValidPersonality(p)
    ensures p.sociability == p.curiosity == p.agreeableness == p.energyBaseline == 0.5
    ensures p.worldAffinities == DefaultAffinities()
  {
    Personality(0.5, 0.5, 0.5, 0.5, DefaultAffinities(), None, None, None, None, None)
  }

  /**
   * The stored form of `world_affinities`: missing, a JSON text (whose
   * decoding, if it succeeds, is given), or an already decoded mapping.
   */
  datatype RawAffinities = Null | JsonText(decoded: Option<map<string, real>>) | Decoded(m: map<string, real>)

  /** The `world_affinities` validator: absent or undecodable text falls back to the defaults. */
  function ParseWorldAffinities(raw: RawAffinities): (m: map<string, real>)
    ensures raw.Null? || (raw.JsonText? && raw.decoded.None?) ==> m == DefaultAffinities()
    ensures raw.JsonText? && raw.decoded.Some? ==> m == raw.decoded.value
    ensures raw.Decoded? ==> m == raw.m
  {
    match raw
    case Null => DefaultAffinities()
    case JsonText(d) => if d.Some? then d.value else DefaultAffinities()
    case Decoded(m) => m
  }

  // ---------------------------------------------------------------------
  // Action targets
  // ---------------------------------------------------------------------

  /** The closed set of target kinds. */
  datatype TargetKind = LocationTarget | AvatarTarget | PositionTarget

  function KindName(k: TargetKind): string
  {
    match k
    case LocationTarget => "location"
    case AvatarTarget => "avatar"
    case PositionTarget => "position"
  }

  function ParseKind(s: string): (r: Option<TargetKind>)
  {
    if s == "location" then Some(LocationTarget)
    else if s == "avatar" then Some(AvatarTarget)
    else if s == "position" then Some(PositionTarget)
    else None
  }

  /** A target type is accepted exactly when it is one of the three names. */
  lemma ParseKindExact(s: string)
    ensures ParseKind(s).Some? <==> s in {"location", "avatar", "position"}
    ensures ParseKind(s).Some? ==> KindName(ParseKind(s).value) == s
  {
  }

  datatype ActionTarget = ActionTarget(
    kind: TargetKind,
    targetId: Option<string>,
    name: Option<string>,
    x: Option<int>,
    y: Option<int>)

  function PositionAt(x: int, y: int): ActionTarget
  {
    ActionTarget(PositionTarget, None, None, Some(x), Some(y))
  }

  /** Python truthiness of an optional string: present and non-empty. */
  predicate Truthy(s: Option<string>)
  {
    s.Some? && s.value != ""
  }

  // ---------------------------------------------------------------------
  // Needs
  // ---------------------------------------------------------------------

  /** Timestamps are seconds on one clock; `None` is an unset column. */
  datatype AgentState = AgentState(
    energy: real,
    hunger: real,
    loneliness: real,
    mood: real,
    currentAction: Option<string>,
    target: Option<ActionTarget>,
    startedAt: Option<real>,
    expiresAt: Option<real>,
    lastTick: Option<real>)

  /** Field bounds enforced when a state is constructed. */
  predicate ValidState(s: AgentState)
  {
    InUnit(s.energy) && InUnit(s.hunger) && InUnit(s.loneliness) && -1.0 <= s.mood <= 1.0
  }

  /** A state with every field left at its default. */
  function DefaultState(): (s: AgentState)
    ensures ValidState(s)
    ensures s.energy == 0.8 && s.hunger == 0.3 && s.loneliness == 0.3 && s.mood == 0.5
    ensures s.currentAction == Some("idle") && s.target.None?
    ensures s.startedAt.None? && s.expiresAt.None? && s.lastTick.None?
  {
    AgentState(0.8, 0.3, 0.3, 0.5, Some("idle"), None, None, None, None)
  }

  predicate NeedsFood(s: AgentState) { s.hunger > 0.7 }

  predicate NeedsRest(s: AgentState) { s.energy < 0.2 }

  predicate NeedsSocialization(s: AgentState) { s.loneliness > 0.3 }

  /**
   * The need thresholds are strict: a state sitting exactly on a threshold
   * (hunger 0.7, energy 0.2, loneliness 0.3) needs nothing, and the default
   * state needs nothing either.
   */
  lemma NeedThresholdsStrict(s: AgentState)
    requires s.hunger <= 0.7 && s.energy >= 0.2 && s.loneliness <= 0.3
    ensures !NeedsFood(s) && !NeedsRest(s) && !NeedsSocialization(s)
    ensures !NeedsFood(DefaultState()) && !NeedsRest(DefaultState()) && !NeedsSocialization(DefaultState())
  {
  }

  // ---------------------------------------------------------------------
  // Social memory
  // ---------------------------------------------------------------------

  /** A directed relationship edge from one avatar to another. */
  datatype SocialMemory = SocialMemory(
    fromAvatarId: string,
    toAvatarId: string,
    sentiment: real,
    familiarity: real,
    interactionCount: int,
    lastInteraction: Option<real>,
    lastTopic: Option<string>,
    mutualInterests: Option<seq<string>>,
    historySummary: Option<string>,
    relationshipNotes: Option<string>)

  predicate ValidMemory(m: SocialMemory)
  {
    -1.0 <= m.sentiment <= 1.0 && InUnit(m.familiarity) && m.interactionCount >= 0
  }

  /** An edge with every optional field at its default. */
  function NewMemory(from: string, to: string): (m: SocialMemory)
    ensures ValidMemory(m)
    ensures m.sentiment == 0.0 && m.familiarity == 0.0 && m.interactionCount == 0
    ensures m.fromAvatarId == from && m.toAvatarId == to
  {
    SocialMemory(from, to, 0.0, 0.0, 0, None, None, None, None, None)
  }

  // ---------------------------------------------------------------------
  // Candidate and selected actions
  // ---------------------------------------------------------------------

  datatype CandidateAction = CandidateAction(
    action: ActionType,
    target: Option<ActionTarget>,
    utility: real,
    needSatisfaction: real,
    personalityAlignment: real,
    socialBias: real,
    worldAffinity: real,
    recencyPenalty: real,
    randomness: real)

  /** A freshly generated candidate: every score component starts at 0. */
  function Candidate(a: ActionType, t: Option<ActionTarget>): (c: CandidateAction)
    ensures c.action == a && c.target == t
    ensures c.utility == c.needSatisfaction == c.personalityAlignment == 0.0
    ensures c.socialBias == c.worldAffinity == c.recencyPenalty == c.randomness == 0.0
  {
    CandidateAction(a, t, 0.0, 0.0, 0.0, 0.0, 0.0, 0.0, 0.0)
  }

  datatype SelectedAction = SelectedAction(
    action: ActionType,
    target: Option<ActionTarget>,
    utility: real,
    duration: Option<real>)

  // ---------------------------------------------------------------------
  // World and context
  // ---------------------------------------------------------------------

  datatype NearbyAvatar = NearbyAvatar(
    avatarId: string,
    displayName: Option<string>,
    x: int,
    y: int,
    distance: real,
    isOnline: bool,
    sentiment: Option<real>,
    familiarity: Option<real>,
    lastInteraction: Option<real>)

  datatype WorldLocation = WorldLocation(
    id: string,
    name: string,
    kind: LocationType,
    x: int,
    y: int,
    effects: map<string, real>,
    cooldownSeconds: int,
    durationSeconds: int)

  /** A pending conversation request as the context lists it. */
  datatype ConversationRequest = ConversationRequest(
    initiatorId: Option<string>,
    initiatorName: Option<string>,
    initiatorType: Option<string>,
    x: int,
    y: int)

  datatype AgentContext = AgentContext(
    avatarId: string,
    x: int,
    y: int,
    personality: Personality,
    state: AgentState,
    memories: seq<SocialMemory>,
    nearby: seq<NearbyAvatar>,
    locations: seq<WorldLocation>,
    cooldowns: seq<string>,
    inConversation: bool,
    pending: seq<ConversationRequest>)

  /** The first memory edge towards `id` (`next(...)` over the list). */
  function FindMemory(ms: seq<SocialMemory>, id: string): (r: Option<SocialMemory>)
    ensures r.Some? ==> r.value in ms && r.value.toAvatarId == id
    ensures r.None? ==> forall i :: 0 <= i < |ms| ==> ms[i].toAvatarId != id
    ensures r.Some? ==> exists i :: 0 <= i < |ms| && ms[i] == r.value
                          && forall j :: 0 <= j < i ==> ms[j].toAvatarId != id
  {
    if |ms| == 0 then None
    else if ms[0].toAvatarId == id then Some(ms[0])
    else
      var r := FindMemory(ms[1..], id);
      assert r.Some? ==> exists i :: 0 <= i < |ms[1..]| && ms[1..][i] == r.value
                          && forall j :: 0 <= j < i ==> ms[1..][j].toAvatarId != id;
      if r.Some? then
        var i :| 0 <= i < |ms[1..]| && ms[1..][i] == r.value && forall j :: 0 <= j < i ==> ms[1..][j].toAvatarId != id;
        assert ms[i + 1] == r.value;
        r
      else r
  }

  /** The first nearby avatar with identifier `id`. */
  function FindAvatar(avs: seq<NearbyAvatar>, id: string): (r: Option<NearbyAvatar>)
    ensures r.Some? ==> r.value in avs && r.value.avatarId == id
    ensures r.None? ==> forall i :: 0 <= i < |avs| ==> avs[i].avatarId != id
    ensures r.Some? ==> exists i :: 0 <= i < |avs| && avs[i] == r.value
                          && forall j :: 0 <= j < i ==> avs[j].avatarId != id
  {
    if |avs| == 0 then None
    else if avs[0].avatarId == id then Some(avs[0])
    else
      var r := FindAvatar(avs[1..], id);
      if r.Some? then
        var i :| 0 <= i < |avs[1..]| && avs[1..][i] == r.value && forall j :: 0 <= j < i ==> avs[1..][j].avatarId != id;
        assert avs[i + 1] == r.value;
        r
      else r
  }

  /** The first world location with identifier `id`. */
  function FindLocation(locs: seq<WorldLocation>, id: string): (r: Option<WorldLocation>)
    ensures r.Some? ==> r.value in locs && r.value.id == id
    ensures r.None? ==> forall i :: 0 <= i < |locs| ==> locs[i].id != id
    ensures r.Some? ==> exists i :: 0 <= i < |locs| && locs[i] == r.value
                          && forall j :: 0 <= j < i ==> locs[j].id != id
  {
    if |locs| == 0 then None
    else if locs[0].id == id then Some(locs[0])
    else
      var r := FindLocation(locs[1..], id);
      if r.Some? then
        var i :| 0 <= i < |locs[1..]| && locs[1..][i] == r.value && forall j :: 0 <= j < i ==> locs[1..][j].id != id;
        assert locs[i + 1] == r.value;
        r
      else r
  }

  // ---------------------------------------------------------------------
  // Request bodies
  // ---------------------------------------------------------------------

  datatype SentimentUpdateRequest = SentimentUpdateRequest(
    fromAvatarId: string,
    toAvatarId: string,
    sentimentDelta: real,
    familiarityDelta: real,
    topic: Option<string>)

  predicate ValidSentimentUpdate(r: SentimentUpdateRequest)
  {
    -0.5 <= r.sentimentDelta <= 0.5 && 0.0 <= r.familiarityDelta <= 0.3
  }

  /** A request that leaves the familiarity delta at its default 0.1. */
  function SentimentUpdate(from: string, to: string, delta: real): (r: SentimentUpdateRequest)
    ensures r.familiarityDelta == 0.1 && r.topic.None?
    ensures ValidSentimentUpdate(r) <==> -0.5 <= delta <= 0.5
  {
    SentimentUpdateRequest(from, to, delta, 0.1, None)
  }

  datatype StateUpdateRequest = StateUpdateRequest(
    energy: Option<real>,
    hunger: Option<real>,
    loneliness: Option<real>,
    mood: Option<real>)
}
