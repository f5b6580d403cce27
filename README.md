# SimLamp agent core, modelled in Dafny

SimLamp (the Identity-Matrix repository) is a small virtual world. Avatars are
either steered by their owner or, when the owner is offline, by an "agent" that
decides each tick what the avatar does next. This project models that decision
core and the pixel routines of the sprite pipeline, and proves properties of
the model:

- **Data model** (`agent_models.dfy`, `avatar_models.dfy`): agent personality,
  needs state, social-memory edges, action tags and targets, candidate
  actions, the avatar field validators and the default agent response. Each
  has its field ranges and defaults.
- **Utility engine** (`agent_engine.dfy`): candidate generation, the five
  scoring terms and their weighted sum, softmax selection by a cumulative
  draw, interrupts for pending conversation requests, action durations, need
  decay and interaction effects.
- **Store arithmetic** (`agent_database.dfy`): state defaults, fresh agents,
  the social-memory upsert, context enrichment of nearby avatars and
  pending-request mapping. Rows are values; queries are not modelled.
- **Tick worker** (`agent_worker.dfy`): a class `AgentRecord` holds the
  persisted state, position, memory edges and interaction log.
  `ExecuteAction` and `ProcessTick` update it in place. They are proved
  against pure step functions, whose properties are proved separately:
  activity continuation, walking, arrival, metadata refresh and result
  shaping.
- **Conversation policy** (`conversation.py` → `conversation.dfy`): the
  accept, initiate and end gates (each random draw is consumed only on the
  branch that reaches it), keyword sentiment, real-time mood updates,
  post-conversation effects, the detailed memory upsert and profile merging.
- **HTTP layer** (`main_api.dfy`, `onboarding.dfy`): the decision endpoint's
  precedence ladder, action-to-response mapping, random move targets with
  obstacle retries, the fallback decision, interest formulas, activity
  completion and the state patch; onboarding transcript and normalisation
  rules.
- **Sprite pipeline** (`raster.dfy`, `sprite_colours.dfy`,
  `sprite_removal.dfy`, `sprite_islands.dfy`, `sprite_frames.dfy`) and the
  tileset padder (`pad_tilesets.dfy`):
  - background classification;
  - the two in-place background-removal passes over an `array2`;
  - island counting by flood fill, with an explicit stack and a visited
    grid, proved to equal the number of large 4-connected components;
  - sheet validation, content-pixel listing, best-frame selection per
    direction, and the image-model fallback order;
  - rounding tileset sizes up to a multiple of 16.

Randomness, the clock, `exp`/`sqrt`/trigonometry, the language models and the
image heuristics are parameters of the model. Scores and needs are `real`s.
Python's `int()` on a float (truncation toward zero) is written out in
`Numeric.Trunc`. `numeric.dfy`, `text.dfy` and `wrappers.dfy` hold shared
helpers.

## Model

| member | source | states |
|---|---|---|
| AgentModels.ParseTagRoundTrip | Identity-Matrix/api/app/agent_models.py:15-32 | reading an action's stored value gives that action back, and a value that parses to an action is exactly that action's value |
| AgentModels.InteractPrefix | Identity-Matrix/api/app/agent_worker.py:301 | an action's value starts with "interact_" exactly when it is one of the five location activities |
| AgentModels.InteractFor | Identity-Matrix/api/app/agent_worker.py:124-131 | the activity started at a location of each type is a location activity |
| AgentModels.InteractForInjective | Identity-Matrix/api/app/agent_worker.py:124-131 | different location types start different activities |
| AgentModels.DefaultAffinities | Identity-Matrix/api/app/agent_models.py:55-64 | the default affinities have exactly the five location keys, each 0.5 |
| AgentModels.DefaultPersonality | Identity-Matrix/api/app/agent_models.py:47-64 | a personality left at its defaults is within the field bounds, with all four traits 0.5 and the default affinities |
| AgentModels.ParseWorldAffinities | Identity-Matrix/api/app/agent_models.py:73-84 | a missing value or undecodable JSON text falls back to the defaults; decodable text yields its decoding; an already decoded mapping is kept |
| AgentModels.ParseKindExact | Identity-Matrix/api/app/agent_models.py:196-203 | a target type is accepted exactly when it is "location", "avatar" or "position", and the accepted kind prints back as the same name |
| AgentModels.DefaultState | Identity-Matrix/api/app/agent_models.py:104-121 | the default state is within bounds, with energy 0.8, hunger 0.3, loneliness 0.3, mood 0.5, action "idle" and no target or timestamps |
| AgentModels.NeedThresholdsStrict | Identity-Matrix/api/app/agent_models.py:123-133 | the need tests are strict: a state exactly at hunger 0.7, energy 0.2 and loneliness 0.3 needs nothing, nor does the default state |
| AgentModels.NewMemory | Identity-Matrix/api/app/agent_models.py:140-155 | a new memory edge is valid, between the given avatars, with sentiment 0, familiarity 0 and no interactions |
| AgentModels.Candidate | Identity-Matrix/api/app/agent_models.py:205-216 | a new candidate keeps its action and target and every score component is 0 |
| AgentModels.FindMemory | Identity-Matrix/api/app/agent_engine.py:600-603 | the lookup returns the first listed edge towards the id, or nothing exactly when no edge points to the id |
| AgentModels.FindAvatar | Identity-Matrix/api/app/agent_engine.py:596-599 | the lookup returns a listed nearby avatar with the id, the first one with it, or nothing exactly when none has it |
| AgentModels.FindLocation | Identity-Matrix/api/app/agent_engine.py:605-608 | the lookup returns a listed location with the id, the first one with it, or nothing exactly when none has it |
| AgentModels.SentimentUpdate | Identity-Matrix/api/app/agent_models.py:318-323 | the familiarity delta defaults to 0.1, and the request is valid exactly when the sentiment delta lies in [-0.5, 0.5] |
| AgentDatabase.GetState | Identity-Matrix/api/app/agent_database.py:256-280 | no row gives no state; a state read from a row is within the field bounds (out-of-range values are a validation failure) |
| AgentDatabase.GetStateDefaults | Identity-Matrix/api/app/agent_database.py:262-270 | a row without needs reads as energy 0.8, hunger 0.3, loneliness 0.3, mood 0.5; a stored valid state reads back as itself, with a null action read as "idle" |
| AgentDatabase.GenerateRandomState | Identity-Matrix/api/app/agent_database.py:315-327 | a fresh agent starts valid with energy 1, hunger 0, loneliness 0, mood 1, idle, with no target, no start or expiry time and no last tick |
| AgentDatabase.FallbackPersonality | Identity-Matrix/api/app/agent_database.py:189-205 | the fallback personality is valid, with traits 0.85/0.8/0.8/0.85 and exactly the five affinities food 0.8, karaoke 0.85, rest area 0.4, social hub 0.9, wander point 0.75 |
| AgentDatabase.ReadList | Identity-Matrix/api/app/agent_database.py:145-159 | a missing or null list column reads as nothing, JSON text as its decoding or the empty list when it does not decode, and a list as itself |
| Wrappers.ReadField | Identity-Matrix/api/app/agent_database.py:174-177 | a missing field takes its default, a null one reads as nothing (so a null trait fails validation) and a value is kept |
| AgentDatabase.FromRow | Identity-Matrix/api/app/agent_database.py:172-184 | a stored row that builds a personality builds a valid one carrying the given affinities |
| AgentDatabase.RowAffinitiesAsWritten | Identity-Matrix/api/app/agent_database.py:161-170 | as written, affinities that are not JSON text are read as the model validator reads them |
| AgentDatabase.AffinitiesDroppedAsWritten | Identity-Matrix/api/app/agent_database.py:143-170 | as written, an onboarded row with JSON affinity text whose interests and topics were both empty, and so stored as null, loses its affinities to the 0.5 defaults |
| AgentDatabase.GenerateDefaultPersonality | Identity-Matrix/api/app/agent_database.py:128-208 | the personality is always valid, and is the fallback (0.85, 0.8, 0.8, 0.85 and its location map) when no row is stored |
| AgentDatabase.ListColumnText | Identity-Matrix/api/app/onboarding.py:440-441 | a non-empty list is stored as its JSON text, an empty or missing one as null, never as a list value |
| AgentDatabase.OnboardedRoundTrip | Identity-Matrix/api/app/agent_database.py:137-184 | a valid personality stored by onboarding, with affinities and non-empty lists as JSON text, is read back exactly; an empty list, stored as null, reads back as no list |
| AgentDatabase.OnboardedAffinitiesAsWritten | Identity-Matrix/api/app/agent_database.py:143-170 | as written, an onboarded row keeps its affinities exactly when its interests or topics were non-empty, and otherwise reads the 0.5 defaults |
| AgentDatabase.RowTraitDefaults | Identity-Matrix/api/app/agent_database.py:172-186 | missing trait columns read as 0.85, 0.8, 0.8, 0.85 with the row's affinities; a null or out-of-range sociability gives the fallback |
| AgentDatabase.InitializeAgent | Identity-Matrix/api/app/agent_database.py:787-798 | a given personality is kept; otherwise the stored onboarding personality is used, or the fallback when none is stored; either way it is valid, and the state is the fresh state |
| AgentDatabase.InitializeOnboarded | Identity-Matrix/api/app/agent_database.py:787-792 | initialising an onboarded avatar without a personality yields the onboarded personality, exactly when neither list was stored empty |
| AgentDatabase.UpdateSocialMemory | Identity-Matrix/api/app/agent_database.py:391-456 | the updated or created edge is valid and records the interaction time |
| AgentDatabase.UpdateExistingEdge | Identity-Matrix/api/app/agent_database.py:401-431 | an existing edge counts one more interaction, moves sentiment and familiarity by the deltas clamped to range, keeps its topic unless a new one is given, and changes nothing else |
| AgentDatabase.UpdateNewEdge | Identity-Matrix/api/app/agent_database.py:432-456 | a missing edge is created at sentiment 0.5 + delta and familiarity delta, both clamped, with one interaction and the given topic |
| AgentDatabase.UpsertMemory | Identity-Matrix/api/app/agent_database.py:391-456 | the update touches only the edge towards the other avatar, adding it when missing |
| AgentDatabase.UpsertKeepsValid | Identity-Matrix/api/app/agent_database.py:401-456 | upserting into a store of valid edges leaves every edge valid |
| AgentDatabase.LastMemory | Identity-Matrix/api/app/agent_database.py:660 | the dictionary built from the memory list keeps the last listed edge towards the id, and has none exactly when no edge points to it |
| AgentDatabase.LastIsFirstWhenDistinct | Identity-Matrix/api/app/agent_database.py:660 | with one edge per target, the dictionary's edge is the first match the scorer finds |
| AgentDatabase.Enrich | Identity-Matrix/api/app/agent_database.py:661-666 | a remembered avatar gets the edge's sentiment, familiarity and last interaction; identity and position are untouched; an unremembered one is unchanged |
| AgentDatabase.EnrichNearby | Identity-Matrix/api/app/agent_database.py:659-666 | after the loop every nearby record is its old value enriched from the dictionary's edge |
| AgentDatabase.EnrichOnlyRemembered | Identity-Matrix/api/app/agent_database.py:659-666 | an avatar without an edge is left as it was; otherwise only the three memory fields change |
| AgentDatabase.PendingRequest | Identity-Matrix/api/app/agent_database.py:703-712 | an initiator is a "PLAYER" exactly when its row says it is online and a "ROBOT" otherwise; id, name and position are copied |
| AgentDatabase.PendingRequests | Identity-Matrix/api/app/agent_database.py:694-713 | one request per row, in row order |
| AgentDatabase.BuildAgentContext | Identity-Matrix/api/app/agent_database.py:622-691 | no position gives no context; a missing personality or state is created (and reported as created); nearby avatars are enriched; the agent is in a conversation exactly when its position row says "IN_CONVERSATION" |
| AgentEngine.NeedMatchesTable | Identity-Matrix/api/app/agent_engine.py:85-146 | the ladder of need bonuses and penalties equals, for every action, a closed-form table in the agent's loneliness |
| AgentEngine.ActiveOutscoresIdle | Identity-Matrix/api/app/agent_engine.py:85-146 | for a valid state, every action other than idling, standing still and the location activities scores strictly above IDLE on need, and not below 0 |
| AgentEngine.PersonalityMatchesTable | Identity-Matrix/api/app/agent_engine.py:152-202 | the personality ladder equals a closed-form table of the four traits, and with traits in [0,1] the term lies in [0, 3.8] |
| AgentEngine.SociabilityFavoursConversation | Identity-Matrix/api/app/agent_engine.py:152-202 | raising only sociability strictly raises the personality term of starting or joining a conversation |
| AgentEngine.InterestBonus | Identity-Matrix/api/app/agent_engine.py:243-246 | the shared-interest bonus lies in [0, 0.4]: 0 without interests, 0.1 per interest below four |
| AgentEngine.SocialBiasNoTarget | Identity-Matrix/api/app/agent_engine.py:223-224 | without a target avatar the social term is 0 for every action |
| AgentEngine.SocialBiasStranger | Identity-Matrix/api/app/agent_engine.py:261-269 | an unremembered avatar is worth 0.4 to talk to, plus 0.2 when online, and biases no other action |
| AgentEngine.SocialBiasMonotone | Identity-Matrix/api/app/agent_engine.py:228-247 | for a remembered avatar the conversation term grows strictly with sentiment and with familiarity, and the interest bonus adds at most 0.4 |
| AgentEngine.SocialBiasAvoid | Identity-Matrix/api/app/agent_engine.py:249-258 | avoiding scores 1.5·\|sentiment\|, 0.5 more within 3 cells, 0.5 less for a sentiment below -0.5 |
| AgentEngine.WorldAffinityZero | Identity-Matrix/api/app/agent_engine.py:293-316 | no location, or an action not about a location, gives no affinity |
| AgentEngine.AffinityCurveShape | Identity-Matrix/api/app/agent_engine.py:298-314 | the affinity curve is non-decreasing, rises at most twice as fast as the affinity (no jumps at 0.3, 0.5, 0.7) and maps [0,1] into [-0.3, 1.2] |
| AgentEngine.RecencyShape | Identity-Matrix/api/app/agent_engine.py:323-351 | talking again h hours after the last talk costs 0.5·(1 − h/0.05) while h < 0.05 and nothing after, a location on cooldown costs 1 more, and the total lies in [0, 1.5] |
| AgentEngine.TargetLookup | Identity-Matrix/api/app/agent_engine.py:589-608 | no target finds nothing; a location is looked up only for a location target, an avatar and its memory only for an avatar target |
| AgentEngine.ScoreAction | Identity-Matrix/api/app/agent_engine.py:581-645 | scoring keeps the candidate's action and target |
| AgentEngine.UtilityComposition | Identity-Matrix/api/app/agent_engine.py:610-643 | the utility is need + personality + social − recency + 0.3·jitter; world affinity weighs 0, so the agent's location affinities and the candidate's old scores never change a score |
| AgentEngine.IdleNegativeWanderPositive | Identity-Matrix/api/app/agent_engine.py:581-645 | whenever the jitter is below 16 in size, IDLE scores below 0 and WANDER above 0 |
| AgentEngine.ScoreAllActions | Identity-Matrix/api/app/agent_engine.py:648-650 | every candidate is replaced by its own score, each with its own jitter draw |
| AgentEngine.InfluenceSign | Identity-Matrix/api/app/agent_engine.py:382-428 | a remembered avatar attracts exactly when liked and repels exactly when disliked; an unremembered one never repels |
| AgentEngine.SocialInfluence | Identity-Matrix/api/app/agent_engine.py:377-432 | the loop's sums equal the per-avatar sums of direction times pull and of \|pull\|, and the total weight is not negative |
| AgentEngine.SocialSumsZero | Identity-Matrix/api/app/agent_engine.py:377-432 | a total weight of zero means both pull sums are zero |
| AgentEngine.SocialVectorAlongPull | Identity-Matrix/api/app/agent_engine.py:434-443 | a non-zero pull with positive weight becomes a vector of exactly the base distance, parallel to the pull and pointing the same way |
| AgentEngine.NormaliseSocial | Identity-Matrix/api/app/agent_engine.py:434-443 | the normalisation step yields the social vector: the pull over the total weight stretched to the base distance, the raw pull when there is no weight |
| AgentEngine.LoneWanderIsRandom | Identity-Matrix/api/app/agent_engine.py:445-455 | with nobody nearby the offset is the base distance along the random angle |
| AgentEngine.WanderOffsetWithinBase | Identity-Matrix/api/app/agent_engine.py:434-459 | with a genuine cosine and sine, the blend of social and random vectors with weights 0.5 and 0.5 (lines 70-71) moves at most the base distance along each axis |
| AgentEngine.WanderTarget | Identity-Matrix/api/app/agent_engine.py:461-469 | the wander target stays two cells inside the 60×40 map and is the truncated moved position whenever that is already inside |
| AgentEngine.CalculateSocialWanderTarget | Identity-Matrix/api/app/agent_engine.py:358-469 | the step-by-step computation of accumulate, normalise, blend, truncate and clamp returns the wander target |
| AgentEngine.FleePoint | Identity-Matrix/api/app/agent_engine.py:516-524 | the point fled to lies in [1,73]×[1,54] |
| AgentEngine.GenerateCandidateActions | Identity-Matrix/api/app/agent_engine.py:476-573 | the generator's loop yields the candidate list |
| AgentEngine.AvatarCandidatesShape | Identity-Matrix/api/app/agent_engine.py:511-560 | each nearby avatar contributes at most one candidate, which is AVOID, INITIATE or MOVE aimed at that avatar |
| AgentEngine.AvatarCandidateRadius | Identity-Matrix/api/app/agent_engine.py:513-560 | AVOID exactly for a remembered dislike (sentiment < -0.3) within 19 cells; else INITIATE within 15 cells; else MOVE within 30; else nothing |
| AgentEngine.CandidateListShape | Identity-Matrix/api/app/agent_engine.py:476-573 | the list starts with IDLE then WANDER to the wander target, holds LEAVE exactly in a conversation (and then nothing else), never holds a location action and has at most one entry per nearby avatar besides these |
| AgentEngine.MaxOf | Identity-Matrix/api/app/agent_engine.py:673 | the maximum is one of the scores and no score exceeds it |
| AgentEngine.ExpScores | Identity-Matrix/api/app/agent_engine.py:670-675 | with a positive `exp` every softmax weight is positive, one per candidate |
| AgentEngine.SoftmaxSelect | Identity-Matrix/api/app/agent_engine.py:657-689 | an empty list is an error; one candidate is returned as is; otherwise the first candidate whose running probability reaches the draw (the last if none does); the result is always one of the candidates |
| AgentEngine.SelectionInterval | Identity-Matrix/api/app/agent_engine.py:680-689 | with positive probabilities summing to 1 and a draw in [0,1), candidate k is chosen exactly when the draw falls in its slice of the running sums, so the fallback is never reached |
| AgentEngine.ProbabilitiesSumToOne | Identity-Matrix/api/app/agent_engine.py:670-678 | the softmax probabilities are positive and sum to 1 |
| AgentEngine.SoftmaxPrefersHigher | Identity-Matrix/api/app/agent_engine.py:670-678 | with an increasing `exp`, a candidate of higher utility gets a strictly higher probability |
| AgentEngine.ExpScoresIncrease | Identity-Matrix/api/app/agent_engine.py:669-673 | with an increasing `exp`, a candidate of higher utility gets a strictly larger unnormalised weight |
| AgentEngine.JoinRequest | Identity-Matrix/api/app/agent_engine.py:722-739 | an accepted request becomes JOIN_CONVERSATION without a duration |
| AgentEngine.InterruptFirstFiring | Identity-Matrix/api/app/agent_engine.py:717-742 | there is no interrupt exactly when no request fires; otherwise the first firing request wins (a PLAYER always fires, any other when its draw is below 0.7) |
| AgentEngine.InterruptDrawsUnread | Identity-Matrix/api/app/agent_engine.py:717-742 | a draw is consumed only by a reached request not from a player: changing other draws changes nothing |
| AgentEngine.InterruptIsJoin | Identity-Matrix/api/app/agent_engine.py:717-742 | an interrupt is always JOIN_CONVERSATION |
| AgentEngine.DurationPositive | Identity-Matrix/api/app/agent_engine.py:788-812 | every duration is positive and at most 25 s; AVOID, missing from the table, takes the default 5 s |
| AgentEngine.PositiveOnly | Identity-Matrix/api/app/agent_engine.py:770 | the filter keeps exactly the candidates of positive utility |
| AgentEngine.Pool | Identity-Matrix/api/app/agent_engine.py:769-772 | the pool is never empty for a non-empty list, holds only positive candidates when some exist, and is drawn from the scored list |
| AgentEngine.MakeDecision | Identity-Matrix/api/app/agent_engine.py:749-785 | the method's steps compute the decision function |
| AgentEngine.DecisionProperties | Identity-Matrix/api/app/agent_engine.py:749-785 | an interrupt yields a JOIN; otherwise the decision is one of the scored candidates, positive whenever some candidate is, and carries its positive table duration |
| AgentEngine.ApplyStateDecay | Identity-Matrix/api/app/agent_engine.py:819-857 | a decayed state that is returned is valid and keeps action, target and timestamps |
| AgentEngine.DecayKeepsBounds | Identity-Matrix/api/app/agent_engine.py:830-841 | when time does not run backwards and the mood is not negative (or at most 120000 s pass), decay succeeds with energy 1, hunger 0, loneliness not lower and mood at least 0.3 |
| AgentEngine.DecayCanOverflowMood | Identity-Matrix/api/app/agent_engine.py:841-848 | a mood of -1 left for 200000 s decays past 1 and the state is refused |
| AgentEngine.ApplyInteractionEffects | Identity-Matrix/api/app/agent_engine.py:860-884 | the new state is valid and keeps action, target and timestamps |
| AgentEngine.EffectsDirection | Identity-Matrix/api/app/agent_engine.py:865-868 | each need moves in the direction of its delta and never further than it; an empty effect map leaves a valid state unchanged |
| AgentEngine.DecisionPool | Identity-Matrix/api/app/agent_engine.py:766-772 | the pool handed to the softmax is never empty: the positive-utility candidates when there are any, otherwise all scored candidates |
| AgentEngine.NormaliseIsDistribution | Identity-Matrix/api/app/agent_engine.py:676-677 | dividing positive weights by their sum gives positive probabilities summing to 1 |
| AgentEngine.FirstCover | Identity-Matrix/api/app/agent_engine.py:680-686 | for a draw below 1 some running sum reaches it, and there is a first such index |
| AgentEngine.PrefixSumsIncrease | Identity-Matrix/api/app/agent_engine.py:682-683 | with positive probabilities the running sums strictly increase |
| AgentEngine.Scored | Identity-Matrix/api/app/agent_engine.py:648-650 | scoring keeps one entry per candidate |
| AgentWorker.RecordInteraction | Identity-Matrix/api/app/agent_database.py:500-528 | a recorded visit names the location and ends its cooldown the location's cooldown seconds after it starts |
| AgentWorker.ActivitySeconds | Identity-Matrix/api/app/agent_worker.py:133-138 | an activity lasts between 5 and 8 whole seconds |
| AgentWorker.ActivitySecondsRange | Identity-Matrix/api/app/agent_worker.py:133-138 | for a draw in [-1, 1] the duration is int(6 + draw), between 5 and 7 |
| AgentWorker.StepWithinReach | Identity-Matrix/api/app/agent_worker.py:163-170 | a step scaled towards the target moves at most the reach along each axis |
| AgentWorker.TargetLocation | Identity-Matrix/api/app/agent_worker.py:108-115 | the location found for an action is the first listed location named by the action's truthy target id; there is none exactly when the target or its id is missing or falsy, or no listed location has that id |
| AgentWorker.AgentRecord.constructor | Identity-Matrix/api/app/agent_worker.py:323-353 | a new record holds the given state, position and memories and no visits |
| AgentWorker.AgentRecord.Apply | Identity-Matrix/api/app/agent_worker.py:75-316 | a step's writes: the new position if it moves, one more visit if it visits, the memory upsert if it greets; the state row is not touched |
| AgentWorker.AgentRecord.WalkTo | Identity-Matrix/api/app/agent_worker.py:108-170 | walking writes the walk step's position and visit and returns its state and result |
| AgentWorker.AgentRecord.Interact | Identity-Matrix/api/app/agent_worker.py:172-255 | an activity tick writes only its visit, never the position or memories |
| AgentWorker.AgentRecord.ExecuteAction | Identity-Matrix/api/app/agent_worker.py:75-316 | executing writes exactly the effects of the execution step and returns its state and result |
| AgentWorker.AgentRecord.ReleaseTickLock | Identity-Matrix/api/app/agent_database.py:596-598 | releasing the lock stamps the stored state's tick time and changes nothing else |
| AgentWorker.AgentRecord.ProcessTick | Identity-Matrix/api/app/agent_worker.py:323-556 | without the lock nothing changes and nothing is returned; with it, every path stamps the tick time, so the next tick decays only the time since this one; without a context or with a failing tick nothing else changes; otherwise the stored state, position, visits and memories are the tick's and the response is built from the new state |
| AgentWorker.ExecuteKeepsValid | Identity-Matrix/api/app/agent_worker.py:75-316 | executing any action keeps a valid state valid |
| AgentWorker.WanderStep | Identity-Matrix/api/app/agent_worker.py:94-106 | wandering costs 0.03 energy, adds 0.02 mood, and moves at most 3 cells per axis towards a target with coordinates (all the way when within 3) |
| AgentWorker.WalkStep | Identity-Matrix/api/app/agent_worker.py:108-170 | walking to a location more than 1 away moves at most 3 cells per axis and costs 0.02 energy, leaving the other needs |
| AgentWorker.WalkStepBound | Identity-Matrix/api/app/agent_worker.py:162-170 | a walk step moves within 3 cells per axis and applies the energy cost as an interaction effect |
| AgentWorker.WalkArrival | Identity-Matrix/api/app/agent_worker.py:120-152 | arriving (distance at most 1) starts the location's activity now, for 5 to 8 s, records a visit and leaves the needs alone |
| AgentWorker.ActivityInProgressStep | Identity-Matrix/api/app/agent_worker.py:182-215 | a running activity keeps its action and times and applies the location's effects scaled by one over its duration |
| AgentWorker.ActivityCompletedStep | Identity-Matrix/api/app/agent_worker.py:182-200 | an expired activity applies the full effects and returns the agent to idle with no target or times |
| AgentWorker.SocialEffects | Identity-Matrix/api/app/agent_worker.py:89-276 | starting a conversation greets the target (memory upsert) and lowers loneliness by 0.2 and energy by 0.05; joining lowers loneliness by 0.15 and adds 0.05 mood; idling adds 0.05 energy and 0.01 mood |
| AgentWorker.AvoidStep | Identity-Matrix/api/app/agent_worker.py:278-294 | avoiding moves at most 4 cells per axis, costs 0.03 energy and 0.05 mood |
| AgentWorker.AvoidStepBound | Identity-Matrix/api/app/agent_worker.py:278-294 | an avoid step moves within 4 cells per axis and applies its costs as interaction effects |
| AgentWorker.MetadataRules | Identity-Matrix/api/app/agent_worker.py:296-314 | after a plain success the state records the action and target; a new action starts now and expires after its duration only if it is an activity; a continued one keeps its times |
| AgentWorker.AgentRecord.RecordAction | Identity-Matrix/api/app/agent_worker.py:296-313 | the metadata update computes the specified rules (tag and target recorded, new actions start now, only activities with a duration expire) |
| AgentWorker.ActivityResultsKeepMetadata | Identity-Matrix/api/app/agent_worker.py:296-314 | other results keep the step's own metadata, and only location actions produce them |
| AgentWorker.TickSucceeds | Identity-Matrix/api/app/agent_worker.py:355-474 | with time not running backwards and a non-negative mood (or at most 120000 s elapsed) the tick succeeds and its state is valid |
| AgentWorker.ContinuedActivityStaysPut | Identity-Matrix/api/app/agent_worker.py:374-408 | an unexpired activity is continued at score 10 and stays in progress with the same action, target and times |
| AgentWorker.ExpiredActivityFallsThrough | Identity-Matrix/api/app/agent_worker.py:374-471 | once an activity has expired (and the agent is not walking) the tick makes a fresh decision |
| AgentWorker.ArrivalStartsActivity | Identity-Matrix/api/app/agent_worker.py:410-541 | a walk that has arrived starts the location's activity for 5 to 8 s, and the response reports that activity and its remaining time |
| AgentWorker.TickOutputShape | Identity-Matrix/api/app/agent_worker.py:520-548 | the response reports the state's action when set (else the decision's), the decision's score, and a remaining duration exactly when the activity has both times and has not expired |
| Conversation.KeywordSentiment | Identity-Matrix/api/app/conversation.py:116-150 | a message is rude exactly when its lower-cased text contains a rude word, and positive exactly when it contains no rude word but some positive word (rudeness wins) |
| Conversation.KeywordSentimentRanges | Identity-Matrix/api/app/conversation.py:128-150 | the keyword verdict stays in the documented ranges; rude lowers the receiver's mood and leaves the sender's, positive raises both, otherwise everything is zero |
| Conversation.KeywordSentimentIgnoresCase | Identity-Matrix/api/app/conversation.py:116-126 | the verdict depends only on the lower-cased message |
| Conversation.RudeBeforePositive | Identity-Matrix/api/app/conversation.py:128-144 | every message holding both a rude and a positive word (in any case) is rude, not positive, with sentiment −0.5 and receiver mood −0.10; "LOVE you, stupid" is such a message |
| Conversation.RealtimeMoodUpdate | Identity-Matrix/api/app/conversation.py:203-225 | changes below 0.001 succeed without a write; otherwise success needs a database and a stored state, and the written state differs from the stored one only in a mood clamped to [-1, 1] that equals old mood plus change when that is in range |
| Conversation.UpdateStateWithChanges | Identity-Matrix/api/app/conversation.py:1397-1468 | the state written after a conversation is valid and is the stored state (or a fresh random one) with the given stat deltas applied |
| Conversation.DefaultChangesDirection | Identity-Matrix/api/app/conversation.py:693-694 | the default deltas lower loneliness and energy, raise hunger and mood, each by at most its delta, and keep action and target |
| Conversation.DecideAccept | Identity-Matrix/api/app/conversation.py:1628-1725 | accepting uses at most three draws; without a database it always accepts; a stranger is accepted when the first draw is below 0.9; a familiar-starter reason needs familiarity above 0.5 or more than 3 interactions |
| Conversation.AcceptLadder | Identity-Matrix/api/app/conversation.py:1668-1725 | with a memory, the answer is yes exactly when the hostility check (sentiment below -0.3, draw below 0.7), the busy check (over 5 interactions, draw below 0.3) and the final 0.95 draw all let it through, each consuming the next draw |
| Conversation.DecideInitiate | Identity-Matrix/api/app/conversation.py:1726-1824 | initiating uses at most three draws; without a database it is yes exactly when the draw is below 0.7; a stranger needs a draw below 0.9; a greeting interest comes from the first three mutual interests and is non-empty |
| Conversation.InitiateLadder | Identity-Matrix/api/app/conversation.py:1775-1824 | with a memory, the answer is yes exactly when the hostility (-0.5, 0.5), busy (5, 0.3) and final 0.85 checks pass; a yes is a greeting, familiar for familiar partners and warm for positive ones |
| Conversation.EndProbability | Identity-Matrix/api/app/conversation.py:1874-1876 | the chance to end is capped at 0.8 and is at least 0.15 from three messages on |
| Conversation.EndProbabilityBelowCap | Identity-Matrix/api/app/conversation.py:1874-1876 | between 3 and 9 messages the chance is 0.15 plus 0.10 per message beyond three, never above 0.75 |
| Conversation.DecideEnd | Identity-Matrix/api/app/conversation.py:1825-2010 | at most one draw is consumed, exactly when there are at least three messages and either no database or fewer than ten; no farewell unless ending |
| Conversation.EndLadder | Identity-Matrix/api/app/conversation.py:1858-1942 | with a database: under three messages it ends exactly on a rude last message; from ten it always ends with a farewell; between, a draw under the probability ends with a farewell, and a missed draw without a model answer continues |
| Conversation.EndWithoutDatabase | Identity-Matrix/api/app/conversation.py:1845-1851 | without a database it ends exactly when there are at least three messages and the draw is below 0.2 |
| Conversation.GatesReadOnlyConsumedDraws | Identity-Matrix/api/app/conversation.py:1628-1900 | each decision depends only on the draws it reports as consumed |
| Conversation.ConversationScore | Identity-Matrix/api/app/conversation.py:871 | the memory's conversation score lies between 1 and 10 |
| Conversation.ConversationScoreShape | Identity-Matrix/api/app/conversation.py:871 | the score is monotone in sentiment, 5 at neutral, 10 from sentiment 1 and 1 at -0.8 or below |
| Conversation.TopicLine | Identity-Matrix/api/app/conversation.py:697 | the topic line is absent exactly when there are no topics |
| Conversation.ProcessConversationEnd | Identity-Matrix/api/app/conversation.py:653-680 | an empty transcript yields the empty-conversation result and a non-empty one without a database yields the database-unavailable error; the sentiment writes modelled are the individual-update fallback taken when the bidirectional RPC (line 1184) fails |
| Conversation.ConversationEndEffects | Identity-Matrix/api/app/conversation.py:653-917 | a processed conversation moves each directed sentiment by 0.15 times the analysed sentiment, bumps or creates both memory edges validly, writes valid states, scores in 1..10, and learns a profile only for a participant with player-controlled messages |
| Conversation.DetailedUpsert | Identity-Matrix/api/app/conversation.py:1045-1150 | the manual update that follows a failed update RPC (line 1075) stamps the interaction time and keeps or creates a valid memory |
| Conversation.DetailedExistingEdge | Identity-Matrix/api/app/conversation.py:1100-1125 | on an existing edge the numeric update matches the plain one, the history summary is appended after a separator, and mutual interests become the duplicate-free union of old and new |
| Conversation.DetailedNewEdge | Identity-Matrix/api/app/conversation.py:1126-1145 | a new edge starts from sentiment 0.5 plus delta and familiarity delta, clamped, with one interaction and the given topic, notes, summary and interests |
| Conversation.MergeCappedShape | Identity-Matrix/api/app/conversation.py:977 | merging lists keeps distinct elements from both, at most the cap, all of them when the union fits, and nothing only when both are empty |
| Conversation.CappedKeepsHead | Identity-Matrix/api/app/conversation.py:1012 | truncating a merged text keeps a prefix that fits the limit |
| Conversation.UpdatePersonalityProfile | Identity-Matrix/api/app/conversation.py:919-1044 | an empty profile writes nothing; an update needs an existing personality, a creation needs none and writes a valid one |
| Conversation.ProfileMergeText | Identity-Matrix/api/app/conversation.py:988-1024 | an update keeps the trait scores and affinities, caps summary, style and notes at 2000, 500 and 1000 characters, and keeps earlier summary and notes as prefixes when they fit |
| Conversation.ProfileMergeLists | Identity-Matrix/api/app/conversation.py:970-1003 | interests and topics become the distinct union of old and new entries, capped at 20 and 15, absent only when that union is empty |
| AvatarModels.ValidateAvatar | Identity-Matrix/api/app/models.py:10-13 | a new avatar is accepted exactly when its name has 1 to 100 characters, its colour (if given) is `#` and six hex digits, and its bio has at most 500 characters; the accepted avatar keeps name and bio and defaults the colour to `#000000` |
| AvatarModels.ValidateUpdate | Identity-Matrix/api/app/models.py:20-23 | an update is accepted exactly when each field that is present satisfies the same rule, and is then passed on unchanged |
| AvatarModels.ValidatorsAgree | Identity-Matrix/api/app/models.py:10-23 | the default colour is valid, an empty update is valid, and a complete avatar passes creation exactly when it passes as a full update |
| AvatarModels.ColorRejects | Identity-Matrix/api/app/models.py:12 | the colour rule rejects a missing `#`, a non-hex digit and a seventh digit, and accepts mixed-case hex |
| AvatarModels.DefaultResponse | Identity-Matrix/api/app/models.py:56-62 | a response defaults to MOVE with every optional field absent |
| AvatarModels.ResponsesFillOwnFields | Identity-Matrix/api/app/main.py:171-186 | each response kind sets only its own fields: move its target, stand-still its duration, a request its target entity, an answer its request id, accepting exactly when asked to |
| MainApi.MemoryOf | Identity-Matrix/api/app/main.py:458-465 | a social memory is only found with a database and a stored edge to that entity |
| MainApi.MaxX | Identity-Matrix/api/app/main.py:424-428 | the upper x bound of a random move is at least one beyond the margin of 2 |
| MainApi.MaxY | Identity-Matrix/api/app/main.py:424-428 | the upper y bound of a random move is at least one beyond the margin of 2 |
| MainApi.Candidate | Identity-Matrix/api/app/main.py:503-508 | a candidate target, truncated and clamped, lies inside the margins |
| MainApi.Obstacles | Identity-Matrix/api/app/main.py:511-515 | the obstacle set holds exactly the cells of the nearby entities |
| MainApi.SettleInBounds | Identity-Matrix/api/app/main.py:517-525 | the re-rolling loop keeps the target inside the margins |
| MainApi.SettleBlocked | Identity-Matrix/api/app/main.py:517-525 | the loop ends on a blocked cell only when every re-rolled candidate it tried was blocked |
| MainApi.MoveTargetProperties | Identity-Matrix/api/app/main.py:417-527 | a random move target is in bounds, and it is an obstacle only if the first target and all 99 re-rolls were obstacles |
| MainApi.MoveTargetFree | Identity-Matrix/api/app/main.py:511-520 | with no nearby entities the first clamped target is used |
| MainApi.RandomMoveTarget | Identity-Matrix/api/app/main.py:417-527 | the method's loop returns a MOVE to the specified target |
| MainApi.InterestToInitiate | Identity-Matrix/api/app/main.py:562-599 | the interest to start a conversation lies in [0, 1] |
| MainApi.InitiateInterestForm | Identity-Matrix/api/app/main.py:570-599 | with personality and state known it is the clamped sum of half the sociability, 0.4 times loneliness above 0.5, the memory's sentiment and familiarity terms and 0.2 for players; otherwise it is 0.3 plus noise within 0.2 |
| MainApi.PlayersPreferred | Identity-Matrix/api/app/main.py:588-590 | a player never draws less interest than a robot |
| MainApi.InterestToAccept | Identity-Matrix/api/app/main.py:602-634 | the interest to accept lies in [0, 1] and is 1 for players |
| MainApi.AcceptInterestForm | Identity-Matrix/api/app/main.py:610-634 | without a personality a robot's request gets 0.5 plus noise within 0.2; with one and no memory it is 0.6 times agreeableness plus 0.3, clamped |
| MainApi.HostileLowersAccept | Identity-Matrix/api/app/main.py:620-628 | a hostile memory never raises the interest to accept compared with a neutral one |
| MainApi.ShouldAct | Identity-Matrix/api/app/main.py:637-644 | interest 1 always acts and interest 0 never does |
| MainApi.ScanPeersEligible | Identity-Matrix/api/app/main.py:538-549 | the fallback scan only requests a peer that is a player or robot, not itself and idle, and requests nobody when no nearby entity is eligible |
| MainApi.FallbackProperties | Identity-Matrix/api/app/main.py:530-555 | in a conversation the fallback stands still for 0.5 s; otherwise it requests an eligible peer or moves in bounds, and with no eligible peer it takes the random move |
| MainApi.FallbackDecision | Identity-Matrix/api/app/main.py:530-555 | the method's loop gives the fallback decision specified |
| MainApi.SystemResult | Identity-Matrix/api/app/main.py:254-294 | the agent system's answer comes from one of three tick attempts and needs a database and an agent; none means all three failed |
| MainApi.TryTicks | Identity-Matrix/api/app/main.py:278-290 | the retry loop makes at most three attempts and returns the first successful tick |
| MainApi.TargetMove | Identity-Matrix/api/app/main.py:345-353 | a target becomes a MOVE exactly when it has both coordinates, and the move goes there |
| MainApi.TargetLocation | Identity-Matrix/api/app/main.py:354-361 | a location is looked up only with a database and a target id, and has that id |
| MainApi.InteractHold | Identity-Matrix/api/app/main.py:364-382 | standing still at a location never lasts more than a second per response |
| MainApi.FirstEligible | Identity-Matrix/api/app/main.py:388-396 | the peer picked is an eligible nearby entity, and none is picked only when none is eligible |
| MainApi.MapActionProperties | Identity-Matrix/api/app/main.py:296-415 | idle maps to a random move, unknown actions to nothing, joining or leaving to a 0.3 s stand, stand durations are at most 1 s, a targetless initiation requests an eligible peer, and a coordinate-less walk moves to a known location |
| MainApi.AnswerRequest | Identity-Matrix/api/app/main.py:106-164 | the answer to a pending request carries that request's id |
| MainApi.DecisionPrecedence | Identity-Matrix/api/app/main.py:92-252 | a pending request is answered first, declined within a second of its expiry and accepted without a database; in a conversation the agent stands for 0.5 s; during an activity it stands at most 1 s; without a database the fallback decides |
| MainApi.GetAgentDecision | Identity-Matrix/api/app/main.py:92-252 | the endpoint returns the specified decision |
| MainApi.Progress | Identity-Matrix/api/app/main.py:1424 | the progress is clamped into [0, 1] |
| MainApi.CompleteActivity | Identity-Matrix/api/app/main.py:1403-1505 | without a database the call fails with 503; otherwise it returns the completed state and the clamped progress |
| MainApi.ApplyEffects | Identity-Matrix/api/app/main.py:1468-1478 | the effects loop applies each effect scaled by progress, as specified |
| MainApi.ActivityBaseValid | Identity-Matrix/api/app/main.py:1435-1465 | the per-location restoration keeps a valid state valid |
| MainApi.ApplyFirstValid | Identity-Matrix/api/app/main.py:1468-1478 | applying clamped effects keeps a valid state valid |
| MainApi.CompletedStateProperties | Identity-Matrix/api/app/main.py:1428-1488 | a completed activity leaves a valid idle state without target; a full visit empties hunger at food, fills energy at a rest area, empties loneliness at a social hub and maxes mood at karaoke |
| MainApi.PartialRestoration | Identity-Matrix/api/app/main.py:1439-1454 | a partial food or social-hub visit scales hunger or loneliness by one minus the progress |
| MainApi.ItemsAsEffects | Identity-Matrix/api/app/main.py:1468-1478 | applying distinct effects one by one equals the interaction-effects update with the scaled deltas |
| MainApi.FirstAsEffects | Identity-Matrix/api/app/main.py:1468-1478 | the same holds for every prefix of the effects |
| MainApi.EffectStep | Identity-Matrix/api/app/main.py:1469-1478 | applying one more effect equals adding its key to the effect map |
| MainApi.PatchState | Identity-Matrix/api/app/main.py:972-994 | the state patch fails with 503 without a database and 404 without a stored state, and keeps a valid state valid |
| MainApi.PatchStateProperties | Identity-Matrix/api/app/main.py:984-992 | each given stat is clamped into its range and equals the request when already in range, missing stats, the action, its target and its start, expiry and tick times are unchanged |
| Onboarding.ChatTranscript | Identity-Matrix/api/app/onboarding.py:89-117 | a named conversation that does not exist fails with 404 and one owned by someone else with 403; without a name the latest conversation is resumed, or a fresh one is started with an empty transcript |
| Onboarding.ChatRules | Identity-Matrix/api/app/onboarding.py:119-213 | a successful reply saves the old transcript followed by the user message (unless it is the start marker) and the assistant reply; the status is completed exactly when the model called the end-interview tool |
| Onboarding.ChatFailureSavesNothing | Identity-Matrix/api/app/onboarding.py:81-182 | a failed model call saves nothing and leaves the interview active; without an AI client the call fails with 503 |
| Onboarding.NormaliseQuotes | Identity-Matrix/api/app/onboarding.py:350-356 | the owner quotes are padded with empty strings or cut to exactly three, keeping the given ones in order |
| Onboarding.Score | Identity-Matrix/api/app/onboarding.py:409-413 | a personality score is in [0, 1], 0.5 when missing and the given value when already in range |
| Onboarding.Affinities | Identity-Matrix/api/app/onboarding.py:420-429 | the world affinities have exactly the five location keys, each scored like a personality score |
| Onboarding.StyleStringOrder | Identity-Matrix/api/app/onboarding.py:387-398 | worked instances: all four parts present, none present, and only formality and tone present |
| Onboarding.StyleStringRule | Identity-Matrix/api/app/onboarding.py:387-398 | for every style, the string is the parts with a non-empty value, in the order formality, emoji usage, response length, tone, each as label and value, with ". " between neighbours; it is empty exactly when no part has a non-empty value |
| Onboarding.Column | Identity-Matrix/api/app/onboarding.py:438-442 | a text column is absent exactly when the text is empty, and otherwise is the text cut to the column's limit |
| Onboarding.ListColumn | Identity-Matrix/api/app/onboarding.py:440-441 | a list column is absent exactly when the list is empty, and otherwise is the list |
| Onboarding.HealthyState | Identity-Matrix/api/app/onboarding.py:455-473 | the onboarded avatar's state is fully healthy (energy 1, hunger 0, loneliness 0, mood 1); a new one is the fresh state, and an existing one keeps every other field (action, target, start, expiry, last tick) |
| Onboarding.Numbers | Identity-Matrix/api/app/onboarding.py:409-429 | the values read under the given keys are all numbers exactly when a result is given, and the result holds exactly those numbers |
| Onboarding.CompleteOnboardingProperties | Identity-Matrix/api/app/onboarding.py:217-493 | a parsed analysis writes a memory with score 10 and, unless its quotes are null, three quotes keeping the given ones; the personality and state are written exactly when every score and affinity read is a number, and then the personality is valid with defaults of 0.5, five affinities in range and capped texts, and the state healthy; a metadata failure after those writes reports 500 |
| Onboarding.MalformedAnalysis | Identity-Matrix/api/app/onboarding.py:344-476 | null quotes give the fixed memory, whose person summary becomes the profile; a null summary is stored as none and leaves the profile empty; a score or affinity that is not a number leaves personality and state unwritten |
| Onboarding.OnboardedReadBack | Identity-Matrix/api/app/onboarding.py:430-446 | the personality onboarding writes is read back exactly when the agent is initialised; as the affinity reader is written, its affinities survive only when some interests or topics were found |
| Onboarding.FailedAnalysis | Identity-Matrix/api/app/onboarding.py:358-478 | when the analysis fails the memory has the fixed summaries and no quotes, and no personality or state is written |
| PadTilesets.RoundUpBounds | Identity-Matrix/tools/pad-tilesets.py:22-23 | the padded size is a multiple of the 16-pixel tile, at least the original and less than one tile more, and unchanged when already aligned |
| PadTilesets.RoundUpLeast | Identity-Matrix/tools/pad-tilesets.py:22-23 | the padded size is the least tile multiple that fits the original |
| PadTilesets.RoundUpIdempotent | Identity-Matrix/tools/pad-tilesets.py:22-23 | rounding an already rounded size changes nothing |
| PadTilesets.PadImage | Identity-Matrix/tools/pad-tilesets.py:28-39 | a padded image is well formed |
| PadTilesets.PadImageProperties | Identity-Matrix/tools/pad-tilesets.py:28-39 | an image is left alone exactly when both sides are tile multiples; otherwise the padded image is aligned, grows by less than a tile each way, keeps every original pixel in place and is transparent elsewhere |
| PadTilesets.PadIdempotent | Identity-Matrix/tools/pad-tilesets.py:28-39 | padding a padded image leaves it alone |
| SpriteRemoval.FirstPassProperties | Identity-Matrix/image_gen/pipeline.py:533-567 | the first pass makes every opaque background pixel transparent, changes a pixel only by making an opaque removable pixel transparent, leaves transparent and non-removable pixels alone, and is idempotent |
| SpriteRemoval.FirstPassRemovesMoreThanBackground | Identity-Matrix/image_gen/pipeline.py:558-560 | the first pass removes cyan-green pixels that the background test used elsewhere keeps |
| SpriteRemoval.FirstPassGrid | Identity-Matrix/image_gen/pipeline.py:533-567 | the first pass keeps the image's shape and applies the per-pixel rule at every position |
| SpriteRemoval.RemoveBackgroundFirstPass | Identity-Matrix/image_gen/pipeline.py:533-567 | the in-place loop replaces every pixel by the first-pass rule applied to its old value |
| SpriteRemoval.TransparentNeighboursBound | Identity-Matrix/image_gen/pipeline.py:578-586 | the neighbour count is at most 8 and is the number of transparent pixels among the eight around the position |
| SpriteRemoval.SecondPassProperties | Identity-Matrix/image_gen/pipeline.py:569-591 | the fringe sweep only clears interior green-fringe pixels, reading neighbours already cleared earlier in the same sweep |
| SpriteRemoval.RowFromEvolves | Identity-Matrix/image_gen/pipeline.py:573-591 | sweeping the rest of a row only clears interior fringe pixels |
| SpriteRemoval.RowsFromEvolves | Identity-Matrix/image_gen/pipeline.py:572-591 | sweeping the remaining rows only clears interior fringe pixels |
| SpriteRemoval.StepEvolves | Identity-Matrix/image_gen/pipeline.py:574-591 | one step of the sweep only clears an interior fringe pixel |
| SpriteRemoval.CountTransparentNeighbours | Identity-Matrix/image_gen/pipeline.py:578-586 | the counting loops return the number of transparent neighbours in the current image |
| SpriteRemoval.SecondPassAt | Identity-Matrix/image_gen/pipeline.py:574-591 | one step clears the pixel exactly as the sweep's specification says |
| SpriteRemoval.RemoveBackgroundSecondPass | Identity-Matrix/image_gen/pipeline.py:569-591 | the in-place sweep leaves the image equal to the second pass applied to its old contents |
| SpriteRemoval.RemoveBackground | Identity-Matrix/image_gen/pipeline.py:506-591 | the array ends as the second pass applied to the first pass of its old contents |
| SpriteRemoval.RemoveBackgroundProperties | Identity-Matrix/image_gen/pipeline.py:533-591 | each pixel either keeps its value or becomes transparent; opaque background always goes, transparent pixels stay, and a cleared pixel was removable or an interior fringe pixel |
| SpriteIslands.Neighbours | Identity-Matrix/image_gen/pipeline.py:254-258 | a cell has exactly four neighbours, the 4-connected ones |
| SpriteIslands.ComponentSolid | Identity-Matrix/image_gen/pipeline.py:234-260 | an island holds only solid (non-background) pixels and contains its own solid root |
| SpriteIslands.ComponentClosed | Identity-Matrix/image_gen/pipeline.py:254-258 | an island holds every solid 4-neighbour of its pixels |
| SpriteIslands.ComponentOfMember | Identity-Matrix/image_gen/pipeline.py:234-260 | every pixel of an island has that same island |
| SpriteIslands.SpannedClosedIsComponent | Identity-Matrix/image_gen/pipeline.py:234-260 | a closed set of solid pixels all reachable from the root is exactly the root's island |
| SpriteIslands.FillDone | Identity-Matrix/image_gen/pipeline.py:239-260 | when the stack is empty the fill has marked solid unvisited pixels reachable from the start, every solid neighbour of them is marked, and it marked nothing exactly when the start was background or visited |
| SpriteIslands.FillStep | Identity-Matrix/image_gen/pipeline.py:240-258 | one pop either discards the cell, shrinking the stack, or marks one more unvisited pixel and pushes its neighbours |
| SpriteIslands.FloodFill | Identity-Matrix/image_gen/pipeline.py:234-260 | the fill marks a new set of solid pixels and returns its size; it is empty exactly when the start is background or visited, otherwise it contains the start, is reachable from it and closed under solid neighbours |
| SpriteIslands.FillIsComponent | Identity-Matrix/image_gen/pipeline.py:234-260 | what the fill marks from an unvisited solid pixel is exactly that pixel's island |
| SpriteIslands.ExtendPartition | Identity-Matrix/image_gen/pipeline.py:266-273 | adding a freshly filled island keeps the visited pixels partitioned into whole islands |
| SpriteIslands.LargeSetCount | Identity-Matrix/image_gen/pipeline.py:272-273 | the number of distinct large islands equals the counter's increments |
| SpriteIslands.PartitionCountsIslands | Identity-Matrix/image_gen/pipeline.py:262-275 | once every solid pixel is visited, the counter equals the number of islands of at least 100 pixels |
| SpriteIslands.FillIsland | Identity-Matrix/image_gen/pipeline.py:270-273 | filling from an unvisited solid pixel extends the partition by its island and counts it when large |
| SpriteIslands.VisitPixel | Identity-Matrix/image_gen/pipeline.py:268-273 | visiting a pixel keeps the partition and the count, and a solid pixel ends up visited |
| SpriteIslands.ScanRow | Identity-Matrix/image_gen/pipeline.py:267-273 | scanning a row keeps the partition and the count and visits every solid pixel in the row |
| SpriteIslands.CountSpriteIslands | Identity-Matrix/image_gen/pipeline.py:199-275 | the result is the number of 4-connected non-background regions with at least 100 pixels |
| SpriteIslands.ValidateSheet | Identity-Matrix/image_gen/pipeline.py:278-303 | a sheet under 256 pixels on a side is too small; otherwise it is valid exactly when it has 16 islands, and a wrong count reports the count found |
| SpriteFrames.GetSpritePixels | Identity-Matrix/image_gen/pipeline.py:610-648 | the result lists exactly the in-bounds non-background pixels, in row-major order |
| SpriteFrames.RowMajorUnique | Identity-Matrix/image_gen/pipeline.py:628-646 | two row-major lists of the same pixels are equal, so the list is determined by the content |
| SpriteFrames.CellBoxInside | Identity-Matrix/image_gen/pipeline.py:947-962 | each of the 16 cells lies inside the sheet and is a quarter of its width and height, rounded down |
| SpriteFrames.CellBoxesDisjoint | Identity-Matrix/image_gen/pipeline.py:957-962 | two different cells do not overlap |
| SpriteFrames.Survey | Identity-Matrix/image_gen/pipeline.py:955-976 | the survey lists 16 candidates, row by row, each with its row, column and cell |
| SpriteFrames.SurveyLayout | Identity-Matrix/image_gen/pipeline.py:957-976 | the candidate at position 4 times row plus column is that cell, scored 0.6 times confidence plus 0.4 times quality |
| SpriteFrames.SurveySheet | Identity-Matrix/image_gen/pipeline.py:955-976 | the nested loops build the specified survey |
| SpriteFrames.WithDirection | Identity-Matrix/image_gen/pipeline.py:980-984 | a direction's group holds exactly the candidates detected facing that way |
| SpriteFrames.WithDirectionAppend | Identity-Matrix/image_gen/pipeline.py:982-984 | appending a candidate extends only its own direction's group, at the end |
| SpriteFrames.GroupByDirection | Identity-Matrix/image_gen/pipeline.py:980-984 | the grouping loop has exactly the four view names as keys, each mapped to its direction's candidates in sheet order |
| SpriteFrames.InRow | Identity-Matrix/image_gen/pipeline.py:1002 | the row filter holds exactly the candidates of that row |
| SpriteFrames.InRowFirst | Identity-Matrix/image_gen/pipeline.py:1002 | the first candidate of a row is the first one met in sheet order |
| SpriteFrames.BestIndex | Identity-Matrix/image_gen/pipeline.py:994 | the index picked has the highest combined score, and is the first such index |
| SpriteFrames.ChooseProperties | Identity-Matrix/image_gen/pipeline.py:989-1003 | the frame chosen for a view is a candidate; if some candidate faces that way it faces that way with the highest score, otherwise it is the first column of the view's row |
| SpriteFrames.ChooseIsFirstBest | Identity-Matrix/image_gen/pipeline.py:992-995 | among a view's candidates the chosen one is the first with the highest score |
| SpriteFrames.PickFrame | Identity-Matrix/image_gen/pipeline.py:990-1003 | selecting one view gives the specified choice |
| SpriteFrames.PickFrames | Identity-Matrix/image_gen/pipeline.py:986-1006 | the selection loop appends one frame per view name and returns the specified choice for each view, in view order |
| SpriteFrames.BestFrames | Identity-Matrix/image_gen/pipeline.py:986-1006 | exactly four frames are chosen, one per view |
| SpriteFrames.ExtractBestSprites | Identity-Matrix/image_gen/pipeline.py:934-1006 | the extraction returns the best frames of the survey, front, left, right and back in that order |
| SpriteFrames.Without | Identity-Matrix/image_gen/pipeline.py:335 | the filtered list holds exactly the other models |
| SpriteFrames.WithoutOrder | Identity-Matrix/image_gen/pipeline.py:335 | filtering keeps the models in order and keeps them distinct |
| SpriteFrames.WithoutLength | Identity-Matrix/image_gen/pipeline.py:335 | filtering a distinct list drops one entry exactly when the model is in it |
| SpriteFrames.ModelsToTry | Identity-Matrix/image_gen/pipeline.py:333-337 | the models tried are the known models plus a non-empty preferred one |
| SpriteFrames.ModelsToTryOrder | Identity-Matrix/image_gen/pipeline.py:333-337 | the models tried are distinct; a non-empty preferred model comes first, followed by the known models in their priority order, and otherwise the priority list is tried as is |

## Findings

| source | as written | input that shows it | evidently intended | confidence | as-written member | corrected member |
|---|---|---|---|---|---|---|
| Identity-Matrix/api/app/agent_database.py:161-170 | `json.loads` at line 169 uses a name bound only by the `import json` statements inside the interests and topics branches (lines 149 and 157), so it raises a name error, swallowed by the bare `except`, unless one of those columns was text | an onboarded row with `world_affinities` stored as JSON text and `interests` and `conversation_topics` both empty (stored null) | the stored affinities are decoded and kept | high (not executed) | AgentDatabase.RowAffinitiesAsWritten, AgentDatabase.AffinitiesDroppedAsWritten, AgentDatabase.OnboardedAffinitiesAsWritten | AgentDatabase.GenerateDefaultPersonality, AgentDatabase.OnboardedRoundTrip |

## Left out

- Supabase/SQL I/O, RPC tick locks, FastAPI routing, authentication, uploads, logging and exception handlers are left out. A lock result, a lookup result or a database's presence is an input (`lockAcquired`, `database`, `Option` rows). The lock's release is modelled only by its effect on the stored state, the tick time stamped with the tick's own `now` (the database function's body and clock are not part of this model).
- Onboarding.Analysis: of the analyst's JSON, only missing and `null` summary and quote keys and scores or affinities that are not numbers are modelled. Other wrongly typed answers are not modelled (a string where a list or an object is expected, a `null` score map, affinity map or facts object). Those raise in one of the two handlers as well.
- Language-model and image-model calls are left out: OpenRouter chat, conversation analysis, the LLM branch of message sentiment and of the end gate, the onboarding interview and summary, and Gemini sheet generation. Their answers are inputs (`EndAnswer`, `ConversationAnalysis`, `Reply`, `Analysis`), and prompt text is not modelled.
- Greeting, decline and farewell wording is left out; only the tier and which list a line is picked from are modelled.
- `random.random`, `uniform`, `gauss` and `choice` become draw parameters (`nat -> real`, offsets, a pick index). `math.exp`, `sqrt`, `cos` and `sin` become function parameters with the needed positivity or a `dist` with `dist * dist == dx * dx + dy * dy`. `datetime.utcnow` and `time.time` become a `now` argument.
- Floating point is modelled as exact `real` arithmetic. Rounding in the source's float operations is not captured.
- PIL operations are left out: open, convert, crop, paste and save. The alpha erosion (`MinFilter`, three times) and the `GaussianBlur` at the end of `remove_background` (`Identity-Matrix/image_gen/pipeline.py:593-605`) are also left out. `SpriteRemoval.RemoveBackground` ends after the second pixel pass.
- `detect_sprite_direction` and `score_sprite_quality` are parameters of `SpriteFrames.ExtractBestSprites`. A frame is represented by its crop box.
- The social pull in `get_random_move_target` (`Identity-Matrix/api/app/main.py:434-500`) is reduced to a given offset. The model keeps the truncation, clamping and obstacle retries that follow it.
- `time.sleep` between decision attempts is left out; the three-attempt loop is modelled in `MainApi.TryTicks`.
- The retry loop over image models in `generate_sprite_sheet` is left out; only the order of models to try is modelled.
- `Text.Lower` lower-cases ASCII letters only; Python's `str.lower` also folds other alphabets.
- Conversation.MergeCappedShape: `list(set(...))[:cap]` has no defined order in Python, so the model keeps first occurrences. The contract fixes only the elements, distinctness and the size, not which elements survive the cap when the union is larger than it.
- Conversation.ProfileMergeLists: for the same reason it states the surviving interests and topics as a subset of the union of the stated size, not a particular selection.
- MainApi.InitiateInterestForm: the random fallback's noise is a given real `r` in [0, 1), so the stated range [0.1, 0.5) is for that draw.
- `database.py`, `supabase_client.py`, `debug/*.py`, `demo_agent.py` and `image_gen/__init__.py` are not part of this model.
- The `DecisionConfig` constants that no code reads (minimum/maximum conversation messages, end chance, critical thresholds) are not modelled.
