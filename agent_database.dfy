/**
 * The pure parts of the agent store: reading a state row with its defaults,
 * the initial records, the social-memory upsert, the enrichment of nearby
 * avatars with remembered sentiment while the decision context is built,
 * and the shape of a pending conversation request.
 *
 * Rows are given as values; the queries that fetch them are not modelled.
 */
module AgentDatabase {
  import opened Wrappers
  import opened Numeric
  import opened AgentModels

  // ---------------------------------------------------------------------
  // Agent state rows
  // ---------------------------------------------------------------------

  /** A stored `agent_state` row; `None` is a column missing from the row. */
  datatype StateRow = StateRow(
    energy: Option<real>,
    hunger: Option<real>,
    loneliness: Option<real>,
    mood: Option<real>,
    currentAction: Option<string>,
    target: Option<ActionTarget>,
    startedAt: Option<real>,
    expiresAt: Option<real>,
    lastTick: Option<real>)

  /**
   * `get_state`: no row gives no state; a row's missing needs take their
   * defaults and a null action becomes "idle"; values outside the field
   * bounds are refused by validation.
   */
  function GetState(row: Option<StateRow>): (r: Result<Option<AgentState>, string>)
    ensures row.None? <==> r == Success(None)
    ensures r.Success? && r.value.Some? ==> ValidState(r.value.value)
  {
    if row.None? then Success(None)
    else
      var w := row.value;
      var s := AgentState(GetOr(w.energy, 0.8), GetOr(w.hunger, 0.3), GetOr(w.loneliness, 0.3), GetOr(w.mood, 0.5),
                          if w.currentAction.None? then Some("idle") else w.currentAction,
                          w.target, w.startedAt, w.expiresAt, w.lastTick);
      if ValidState(s) then Success(Some(s)) else Failure("agent_state row out of bounds")
  }

  /**
   * A row without any needs reads as the default state; a stored state read
   * back is itself, except that a null action reads as "idle".
   */
  lemma GetStateDefaults(w: StateRow, s: AgentState)
    ensures w.energy.None? && w.hunger.None? && w.loneliness.None? && w.mood.None? ==>
              GetState(Some(w)).Success? && GetState(Some(w)).value.Some?
              && var r := GetState(Some(w)).value.value;
                 r.energy == 0.8 && r.hunger == 0.3 && r.loneliness == 0.3 && r.mood == 0.5
                 && r.currentAction.Some? && (w.currentAction.None? ==> r.currentAction == Some("idle"))
    ensures ValidState(s) ==>
              GetState(Some(StateRow(Some(s.energy), Some(s.hunger), Some(s.loneliness), Some(s.mood),
                                     s.currentAction, s.target, s.startedAt, s.expiresAt, s.lastTick)))
              == Success(Some(if s.currentAction.None? then s.(currentAction := Some("idle")) else s))
  {
  }

  /** `generate_random_state`: every agent starts rested, fed, not lonely and happy. */
  function GenerateRandomState(): (s: AgentState)
    ensures ValidState(s)
    ensures s.energy == 1.0 && s.hunger == 0.0 && s.loneliness == 0.0 && s.mood == 1.0
    ensures s.currentAction == Some("idle") && s.target.None? && s.startedAt.None? && s.expiresAt.None?
    ensures s.lastTick.None?
  {
    DefaultState().(energy := 1.0, hunger := 0.0, loneliness := 0.0, mood := 1.0)
  }

  /** The personality used when no onboarding record exists: outgoing and energetic. */
  function FallbackPersonality(): (p: Personality)
    ensures ValidPersonality(p)
    ensures p.sociability == 0.85 && p.curiosity == 0.8 && p.agreeableness == 0.8 && p.energyBaseline == 0.85
    ensures p.worldAffinities.Keys == DefaultAffinities().Keys
    ensures p.worldAffinities["food"] == 0.8 && p.worldAffinities["karaoke"] == 0.85
            && p.worldAffinities["rest_area"] == 0.4 && p.worldAffinities["social_hub"] == 0.9
            && p.worldAffinities["wander_point"] == 0.75
  {
    var d := DefaultPersonality();
    d.(sociability := 0.85, curiosity := 0.8, agreeableness := 0.8, energyBaseline := 0.85,
       worldAffinities := map["food" := 0.8, "karaoke" := 0.85, "rest_area" := 0.4,
                              "social_hub" := 0.9, "wander_point" := 0.75])
  }

  /**
   * A stored list column (`interests`, `conversation_topics`): missing or
   * null, a JSON text (whose decoding, if it succeeds, is given), or a list.
   */
  datatype RawList = NoList | ListText(decoded: Option<seq<string>>) | ListValue(items: seq<string>)

  /** A stored `agent_personality` row, as onboarding writes it. */
  datatype PersonalityRow = PersonalityRow(
    sociability: Field<real>,
    curiosity: Field<real>,
    agreeableness: Field<real>,
    energyBaseline: Field<real>,
    worldAffinities: RawAffinities,
    profileSummary: Option<string>,
    communicationStyle: Option<string>,
    interests: RawList,
    conversationTopics: RawList,
    personalityNotes: Option<string>)

  /** A list column read back: JSON text that does not decode becomes the empty list. */
  function ReadList(raw: RawList): (l: Option<seq<string>>)
    ensures l.None? <==> raw.NoList?
    ensures raw.ListText? && raw.decoded.None? ==> l == Some([])
    ensures raw.ListText? && raw.decoded.Some? ==> l == raw.decoded
    ensures raw.ListValue? ==> l == Some(raw.items)
  {
    match raw
    case NoList => None
    case ListText(d) => if d.Some? then d else Some([])
    case ListValue(items) => Some(items)
  }

  /**
   * The personality a stored row describes, with the given affinities;
   * `None` when constructing it fails validation (a null trait, or one
   * outside [0,1]), which the source catches and answers with the fallback.
   */
  function FromRow(row: PersonalityRow, affinities: map<string, real>): (r: Option<Personality>)
    ensures r.Some? ==> ValidPersonality(r.value) && r.value.worldAffinities == affinities
  {
    var s := ReadField(row.sociability, 0.85);
    var c := ReadField(row.curiosity, 0.8);
    var a := ReadField(row.agreeableness, 0.8);
    var e := ReadField(row.energyBaseline, 0.85);
    if s.None? || c.None? || a.None? || e.None? then None
    else
      var p := Personality(s.value, c.value, a.value, e.value, affinities,
                           row.profileSummary, row.communicationStyle,
                           ReadList(row.interests), ReadList(row.conversationTopics), row.personalityNotes);
      if ValidPersonality(p) then Some(p) else None
  }

  /**
   * The affinities `generate_default_personality` reads from a row as the
   * code is written: `json` is bound in that function only by the imports
   * inside the two list branches, so JSON affinity text met when neither
   * list column was text raises a name error, which the bare `except`
   * turns into the neutral defaults.
   */
  function RowAffinitiesAsWritten(row: PersonalityRow): (m: map<string, real>)
    ensures !row.worldAffinities.JsonText? ==> m == ParseWorldAffinities(row.worldAffinities)
  {
    if row.worldAffinities.JsonText? && !row.interests.ListText? && !row.conversationTopics.ListText? then
      DefaultAffinities()
    else ParseWorldAffinities(row.worldAffinities)
  }

  /**
   * The JSON affinities of an onboarded row whose interests and topics were
   * both empty, and so stored as null, are lost as written.
   */
  lemma AffinitiesDroppedAsWritten()
    ensures var stored := map["food" := 0.9, "karaoke" := 0.1, "rest_area" := 0.5,
                              "social_hub" := 0.9, "wander_point" := 0.2];
            var row := PersonalityRow(Value(0.7), Value(0.6), Value(0.5), Value(0.4), JsonText(Some(stored)),
                                      None, None, NoList, NoList, None);
            RowAffinitiesAsWritten(row) == DefaultAffinities() && DefaultAffinities() != stored
  {
    var stored := map["food" := 0.9, "karaoke" := 0.1, "rest_area" := 0.5, "social_hub" := 0.9, "wander_point" := 0.2];
    assert stored["food"] == 0.9 && DefaultAffinities()["food"] == 0.5;
  }

  /**
   * `generate_default_personality` (as `generate_random_personality`): the
   * stored row when there is one and it validates, otherwise the fallback.
   * The row's affinities are decoded whatever form the list columns take.
   */
  function GenerateDefaultPersonality(stored: Option<PersonalityRow>): (p: Personality)
    ensures ValidPersonality(p)
    ensures stored.None? ==> p == FallbackPersonality()
  {
    if stored.None? then FallbackPersonality()
    else
      var fromRow := FromRow(stored.value, ParseWorldAffinities(stored.value.worldAffinities));
      if fromRow.Some? then fromRow.value else FallbackPersonality()
  }

  /**
   * A list column as onboarding and the conversation analysis write it: a
   * non-empty list as its JSON text, an empty or missing one as null.
   */
  function ListColumnText(l: Option<seq<string>>): (raw: RawList)
    ensures raw.NoList? <==> l.None? || |l.value| == 0
    ensures !raw.ListValue?
    ensures raw.ListText? ==> raw.decoded == l
  {
    if l.Some? && |l.value| > 0 then ListText(l) else NoList
  }

  /** The row `complete_onboarding` stores for a personality: traits, and affinities and lists as JSON text. */
  function OnboardedRow(p: Personality): PersonalityRow
  {
    PersonalityRow(Value(p.sociability), Value(p.curiosity), Value(p.agreeableness), Value(p.energyBaseline),
                   JsonText(Some(p.worldAffinities)), p.profileSummary, p.communicationStyle,
                   ListColumnText(p.interests), ListColumnText(p.conversationTopics), p.personalityNotes)
  }

  /**
   * A valid personality stored by onboarding is read back exactly,
   * affinities included, except that an empty list, stored as null, reads
   * back as no list.
   */
  lemma OnboardedRoundTrip(p: Personality)
    requires ValidPersonality(p)
    ensures var r := GenerateDefaultPersonality(Some(OnboardedRow(p)));
            r.(interests := p.interests, conversationTopics := p.conversationTopics) == p
            && r.interests == (if p.interests == Some([]) then None else p.interests)
            && r.conversationTopics == (if p.conversationTopics == Some([]) then None else p.conversationTopics)
    ensures p.interests != Some([]) && p.conversationTopics != Some([]) ==>
              GenerateDefaultPersonality(Some(OnboardedRow(p))) == p
  {
    var row := OnboardedRow(p);
    var q := p.(interests := ReadList(row.interests), conversationTopics := ReadList(row.conversationTopics));
    assert ValidPersonality(q);
    assert FromRow(row, p.worldAffinities) == Some(q);
  }

  /**
   * As written, an onboarded row keeps its affinities exactly when its
   * interests or its topics were stored as text, that is, were non-empty.
   */
  lemma OnboardedAffinitiesAsWritten(p: Personality)
    ensures var nonEmpty := (p.interests.Some? && |p.interests.value| > 0)
                            || (p.conversationTopics.Some? && |p.conversationTopics.value| > 0);
            RowAffinitiesAsWritten(OnboardedRow(p)) == if nonEmpty then p.worldAffinities else DefaultAffinities()
  {
  }

  /**
   * A row whose trait columns are all missing reads with the active
   * defaults 0.85, 0.8, 0.8, 0.85; a null trait or one outside [0,1] gives
   * the fallback personality.
   */
  lemma RowTraitDefaults(row: PersonalityRow)
    ensures row.sociability.Absent? && row.curiosity.Absent? && row.agreeableness.Absent? && row.energyBaseline.Absent?
            ==> var p := GenerateDefaultPersonality(Some(row));
                p.sociability == 0.85 && p.curiosity == 0.8 && p.agreeableness == 0.8 && p.energyBaseline == 0.85
                && p.worldAffinities == ParseWorldAffinities(row.worldAffinities)
    ensures row.sociability.Null? || (row.sociability.Value? && !InUnit(row.sociability.v))
            ==> GenerateDefaultPersonality(Some(row)) == FallbackPersonality()
  {
  }

  /**
   * `initialize_agent`: a given personality is kept; otherwise the stored
   * onboarding row is used when it validates, and the fallback when there
   * is none; the state is always the fresh one.
   */
  function InitializeAgent(personality: Option<Personality>, stored: Option<PersonalityRow>): (r: (Personality, AgentState))
    ensures personality.Some? ==> r.0 == personality.value
    ensures personality.None? && stored.None? ==> r.0 == FallbackPersonality()
    ensures personality.None? && stored.Some? ==> r.0 == GenerateDefaultPersonality(stored)
    ensures personality.None? ==> ValidPersonality(r.0)
    ensures r.1 == GenerateRandomState()
  {
    (if personality.Some? then personality.value else GenerateDefaultPersonality(stored), GenerateRandomState())
  }

  /**
   * Initialising an onboarded avatar without a personality keeps what
   * onboarding stored; only an empty list, stored as null, comes back as
   * no list.
   */
  lemma InitializeOnboarded(p: Personality)
    requires ValidPersonality(p)
    ensures var r := InitializeAgent(None, Some(OnboardedRow(p))).0;
            r.(interests := p.interests, conversationTopics := p.conversationTopics) == p
    ensures p.interests != Some([]) && p.conversationTopics != Some([]) ==>
              InitializeAgent(None, Some(OnboardedRow(p))).0 == p
  {
    OnboardedRoundTrip(p);
  }

  // ---------------------------------------------------------------------
  // Social memory
  // ---------------------------------------------------------------------

  /**
   * `update_social_memory` on one edge: an existing edge moves by the
   * deltas, clamped, counts one more interaction, and keeps its topic
   * unless a new one is given; a missing edge starts from sentiment 0.5.
   */
  function UpdateSocialMemory(existing: Option<SocialMemory>, from: string, to: string,
                              sentimentDelta: real, familiarityDelta: real,
                              topic: Option<string>, now: real): (m: SocialMemory)
    ensures m.lastInteraction == Some(now)
    ensures existing.Some? && ValidMemory(existing.value) ==> ValidMemory(m)
    ensures existing.None? ==> ValidMemory(m)
  {
    if existing.Some? then
      var e := existing.value;
      e.(sentiment := Clamp(e.sentiment + sentimentDelta, -1.0, 1.0),
         familiarity := Clamp(e.familiarity + familiarityDelta, 0.0, 1.0),
         interactionCount := e.interactionCount + 1,
         lastInteraction := Some(now),
         lastTopic := if Truthy(topic) then topic else e.lastTopic)
    else
      NewMemory(from, to).(sentiment := Clamp(0.5 + sentimentDelta, -1.0, 1.0),
                           familiarity := Clamp(familiarityDelta, 0.0, 1.0),
                           interactionCount := 1,
                           lastInteraction := Some(now),
                           lastTopic := topic)
  }

  /**
   * Updating an edge counts exactly one more interaction, moves sentiment
   * and familiarity by the deltas whenever that stays in range, replaces the
   * topic only when one is given, and leaves every other field alone.
   */
  lemma UpdateExistingEdge(e: SocialMemory, from: string, to: string, ds: real, df: real,
                           topic: Option<string>, now: real)
    requires ValidMemory(e)
    ensures var m := UpdateSocialMemory(Some(e), from, to, ds, df, topic, now);
            m.interactionCount == e.interactionCount + 1
            && (-1.0 <= e.sentiment + ds <= 1.0 ==> m.sentiment == e.sentiment + ds)
            && (0.0 <= e.familiarity + df <= 1.0 ==> m.familiarity == e.familiarity + df)
            && (ds >= 0.0 ==> m.sentiment >= e.sentiment) && (ds <= 0.0 ==> m.sentiment <= e.sentiment)
            && (df >= 0.0 ==> m.familiarity >= e.familiarity)
            && m.lastTopic == (if Truthy(topic) then topic else e.lastTopic)
            && m.fromAvatarId == e.fromAvatarId && m.toAvatarId == e.toAvatarId
            && m.mutualInterests == e.mutualInterests && m.historySummary == e.historySummary
            && m.relationshipNotes == e.relationshipNotes
  {
  }

  /** A first interaction creates an edge at 0.5 + Δs and familiarity Δf (both clamped), counted once. */
  lemma UpdateNewEdge(from: string, to: string, ds: real, df: real, topic: Option<string>, now: real)
    ensures var m := UpdateSocialMemory(None, from, to, ds, df, topic, now);
            m.fromAvatarId == from && m.toAvatarId == to && m.interactionCount == 1
            && m.sentiment == Clamp(0.5 + ds, -1.0, 1.0) && m.familiarity == Clamp(df, 0.0, 1.0)
            && m.lastTopic == topic
            && (-0.5 <= ds <= 0.5 ==> m.sentiment == 0.5 + ds)
            && (0.0 <= df <= 1.0 ==> m.familiarity == df)
  {
  }

  /** The upsert on an agent's outgoing edges, keyed by the other avatar's id. */
  function UpsertMemory(edges: map<string, SocialMemory>, from: string, to: string,
                        sentimentDelta: real, familiarityDelta: real,
                        topic: Option<string>, now: real): (r: map<string, SocialMemory>)
    ensures r.Keys == edges.Keys + {to}
    ensures forall k :: k in edges && k != to ==> r[k] == edges[k]
  {
    edges[to := UpdateSocialMemory(if to in edges then Some(edges[to]) else None,
                                   from, to, sentimentDelta, familiarityDelta, topic, now)]
  }

  /** Upserting keeps every edge valid. */
  lemma UpsertKeepsValid(edges: map<string, SocialMemory>, from: string, to: string,
                         ds: real, df: real, topic: Option<string>, now: real)
    requires forall k :: k in edges ==> ValidMemory(edges[k])
    ensures var r := UpsertMemory(edges, from, to, ds, df, topic, now);
            forall k :: k in r ==> ValidMemory(r[k])
  {
  }

  // ---------------------------------------------------------------------
  // Decision context
  // ---------------------------------------------------------------------

  /** The position of the last edge towards `id`, or -1 when there is none. */
  function LastIndex(ms: seq<SocialMemory>, id: string): (i: int)
    ensures -1 <= i < |ms|
    ensures i >= 0 ==> ms[i].toAvatarId == id && forall j :: i < j < |ms| ==> ms[j].toAvatarId != id
    ensures i < 0 ==> forall j :: 0 <= j < |ms| ==> ms[j].toAvatarId != id
  {
    if |ms| == 0 then -1
    else if ms[|ms| - 1].toAvatarId == id then |ms| - 1
    else
      var front := ms[..|ms| - 1];
      assert forall j :: 0 <= j < |front| ==> front[j] == ms[j];
      LastIndex(front, id)
  }

  /** The remembered edge the id → edge dictionary keeps: the last one listed for `id`. */
  function LastMemory(ms: seq<SocialMemory>, id: string): (r: Option<SocialMemory>)
    ensures r.Some? ==> r.value in ms && r.value.toAvatarId == id
    ensures r.None? <==> forall i :: 0 <= i < |ms| ==> ms[i].toAvatarId != id
    ensures r.Some? ==> exists i :: 0 <= i < |ms| && ms[i] == r.value
                          && forall j :: i < j < |ms| ==> ms[j].toAvatarId != id
  {
    var i := LastIndex(ms, id);
    if i < 0 then None else Some(ms[i])
  }

  predicate DistinctTargets(ms: seq<SocialMemory>)
  {
    forall i, j :: 0 <= i < j < |ms| ==> ms[i].toAvatarId != ms[j].toAvatarId
  }

  /**
   * With one edge per target, the dictionary's last edge and the scorer's
   * first match are the same edge.
   */
  lemma {:induction false} LastIsFirstWhenDistinct(ms: seq<SocialMemory>, id: string)
    requires DistinctTargets(ms)
    ensures LastMemory(ms, id) == FindMemory(ms, id)
  {
    if |ms| > 0 {
      var f := FindMemory(ms, id);
      var l := LastMemory(ms, id);
      if l.Some? {
        var i :| 0 <= i < |ms| && ms[i] == f.value && forall j :: 0 <= j < i ==> ms[j].toAvatarId != id;
        var k :| 0 <= k < |ms| && ms[k] == l.value;
        assert i == k;
      }
    }
  }

  /** One nearby avatar after enrichment: remembered sentiment, familiarity and last contact copied on. */
  function Enrich(nb: NearbyAvatar, m: Option<SocialMemory>): (r: NearbyAvatar)
    ensures m.None? ==> r == nb
    ensures m.Some? ==> r.sentiment == Some(m.value.sentiment) && r.familiarity == Some(m.value.familiarity)
                        && r.lastInteraction == m.value.lastInteraction
    ensures r.avatarId == nb.avatarId && r.displayName == nb.displayName && r.x == nb.x && r.y == nb.y
            && r.distance == nb.distance && r.isOnline == nb.isOnline
  {
    if m.Some? then
      nb.(sentiment := Some(m.value.sentiment), familiarity := Some(m.value.familiarity),
          lastInteraction := m.value.lastInteraction)
    else nb
  }

  /** The enrichment loop of `build_agent_context`, updating each nearby record in place. */
  method EnrichNearby(nearby: array<NearbyAvatar>, memories: seq<SocialMemory>)
    modifies nearby
    ensures forall i :: 0 <= i < nearby.Length ==> nearby[i] == Enrich(old(nearby[i]), LastMemory(memories, old(nearby[i]).avatarId))
  {
    var i := 0;
    while i < nearby.Length
      invariant 0 <= i <= nearby.Length
      invariant forall k :: 0 <= k < i ==> nearby[k] == Enrich(old(nearby[k]), LastMemory(memories, old(nearby[k]).avatarId))
      invariant forall k :: i <= k < nearby.Length ==> nearby[k] == old(nearby[k])
    {
      var m := LastMemory(memories, nearby[i].avatarId);
      if m.Some? {
        nearby[i] := nearby[i].(sentiment := Some(m.value.sentiment), familiarity := Some(m.value.familiarity),
                                lastInteraction := m.value.lastInteraction);
      }
      i := i + 1;
    }
  }

  /** A `user_positions` row: position and conversation state. */
  datatype PositionRow = PositionRow(x: int, y: int, conversationState: Option<string>)

  /** A `user_positions` row of an avatar asking this one to talk. */
  datatype RequestRow = RequestRow(userId: string, displayName: Option<string>, x: int, y: int, isOnline: Option<bool>)

  /** `get_pending_conversation_requests`: an online initiator is a player, anyone else a robot. */
  function PendingRequest(row: RequestRow): (r: ConversationRequest)
    ensures r.initiatorType == Some("PLAYER") <==> row.isOnline == Some(true)
    ensures r.initiatorType == Some("ROBOT") <==> row.isOnline != Some(true)
    ensures r.initiatorId == Some(row.userId) && r.initiatorName == row.displayName && r.x == row.x && r.y == row.y
  {
    ConversationRequest(Some(row.userId), row.displayName,
                        Some(if row.isOnline == Some(true) then "PLAYER" else "ROBOT"), row.x, row.y)
  }

  function PendingRequests(rows: seq<RequestRow>): (r: seq<ConversationRequest>)
    ensures |r| == |rows| && forall i :: 0 <= i < |rows| ==> r[i] == PendingRequest(rows[i])
  {
    seq(|rows|, i requires 0 <= i < |rows| => PendingRequest(rows[i]))
  }

  /** What `build_agent_context` had to create because it was missing. */
  datatype Created = Created(personality: bool, state: bool)

  /**
   * `build_agent_context`: nothing without a position; a missing personality
   * or state is created; nearby avatars are enriched from the memories; the
   * agent is in a conversation exactly when its position row says so.
   */
  method BuildAgentContext(avatarId: string, position: Option<PositionRow>, personality: Option<Personality>,
                           state: Option<AgentState>, memories: seq<SocialMemory>, nearby: seq<NearbyAvatar>,
                           locations: seq<WorldLocation>, cooldowns: seq<string>, requests: seq<RequestRow>)
    returns (ctx: Option<AgentContext>, created: Created)
    ensures position.None? <==> ctx.None?
    ensures position.None? ==> created == Created(false, false)
    ensures ctx.Some? ==>
              var c := ctx.value;
              c.avatarId == avatarId && c.x == position.value.x && c.y == position.value.y
              && c.personality == (if personality.Some? then personality.value else FallbackPersonality())
              && c.state == (if state.Some? then state.value else GenerateRandomState())
              && created == Created(personality.None?, state.None?)
              && c.memories == memories && c.locations == locations && c.cooldowns == cooldowns
              && |c.nearby| == |nearby|
              && (forall i :: 0 <= i < |nearby| ==> c.nearby[i] == Enrich(nearby[i], LastMemory(memories, nearby[i].avatarId)))
              && (c.inConversation <==> GetOr(position.value.conversationState, "IDLE") == "IN_CONVERSATION")
              && c.pending == PendingRequests(requests)
  {
    if position.None? {
      return None, Created(false, false);
    }
    var p := if personality.Some? then personality.value else FallbackPersonality();
    var s := if state.Some? then state.value else GenerateRandomState();
    var arr := new NearbyAvatar[|nearby|](i requires 0 <= i < |nearby| => nearby[i]);
    EnrichNearby(arr, memories);
    var conversationState := GetOr(position.value.conversationState, "IDLE");
    ctx := Some(AgentContext(avatarId, position.value.x, position.value.y, p, s, memories, arr[..],
                             locations, cooldowns, conversationState == "IN_CONVERSATION",
                             PendingRequests(requests)));
    created := Created(personality.None?, state.None?);
  }

  /** Enrichment touches only the remembered avatars, and only their three memory fields. */
  lemma EnrichOnlyRemembered(nb: NearbyAvatar, memories: seq<SocialMemory>)
    ensures (forall i :: 0 <= i < |memories| ==> memories[i].toAvatarId != nb.avatarId)
            ==> Enrich(nb, LastMemory(memories, nb.avatarId)) == nb
    ensures var r := Enrich(nb, LastMemory(memories, nb.avatarId));
            r == nb.(sentiment := r.sentiment, familiarity := r.familiarity, lastInteraction := r.lastInteraction)
  {
  }
}
