/**
 * Onboarding of a new user: the interview chat, which keeps a transcript
 * per onboarding conversation, and its completion, which turns the
 * interviewer's analysis into the user's first memory, the personality of
 * their agent and a healthy agent state.
 *
 * The interviewer and the analyst are language models; what they answer
 * is a parameter (`Reply`, `Analysis`), and `None` stands for a call that
 * failed or an answer that could not be parsed.
 */
module Onboarding {
  import opened Wrappers
  import opened Numeric
  import opened Text
  import opened AgentModels
  import opened AgentDatabase

  // ---------------------------------------------------------------------
  // The interview chat
  // ---------------------------------------------------------------------

  datatype Role = UserRole | AssistantRole

  datatype Message = Message(role: Role, content: string)

  /** A stored onboarding conversation. */
  datatype ConversationRow = ConversationRow(id: string, participant: string, transcript: seq<Message>)

  /** The interviewer's answer: the names of the tools it called and its text, if any. */
  datatype Reply = Reply(toolCalls: seq<string>, content: Option<string>)

  /** What the chat endpoint answers, and the transcript it saves (`None`: nothing is saved). */
  datatype ChatOutcome = ChatOutcome(response: string, conversationId: string, status: string, saved: Option<seq<Message>>)

  const StartMarker: string := "[START]"
  const EndTool: string := "end_interview"
  const ClosingLine: string := "Thanks! That's everything I needed. Enjoy the world!"
  const MissedLine: string := "Hmm, I didn't catch that."
  const TroubleLine: string := "I'm having a bit of trouble connecting to my brain right now. Can you say that again?"

  /** The transcript a turn starts from: the named conversation, the latest one, or a new empty one. */
  function ChatTranscript(userId: string, conversationId: Option<string>, byId: Option<ConversationRow>,
                          latest: Option<ConversationRow>, freshId: string): (r: Result<(string, seq<Message>), int>)
    ensures Truthy(conversationId) && byId.None? ==> r == Failure(404)
    ensures Truthy(conversationId) && byId.Some? && byId.value.participant != userId ==> r == Failure(403)
    ensures !Truthy(conversationId) ==> r.Success?
    ensures !Truthy(conversationId) && latest.None? ==> r == Success((freshId, []))
  {
    if Truthy(conversationId) then
      if byId.None? then Failure(404)
      else if byId.value.participant != userId then Failure(403)
      else Success((conversationId.value, byId.value.transcript))
    else if latest.Some? then Success((latest.value.id, latest.value.transcript))
    else Success((freshId, []))
  }

  /** The interviewer's tool calls include `end_interview`. */
  predicate CallsEnd(r: Reply)
  {
    exists i :: 0 <= i < |r.toolCalls| && r.toolCalls[i] == EndTool
  }

  /**
   * `chat_onboarding`: 503 without a model client; otherwise the user's
   * message (unless it is the start marker) and exactly one interviewer
   * message are appended and saved. A failed model call answers with an
   * apology and saves nothing.
   */
  function ChatOnboarding(clientOk: bool, userId: string, conversationId: Option<string>, byId: Option<ConversationRow>,
                          latest: Option<ConversationRow>, freshId: string, message: string,
                          reply: Option<Reply>): Result<ChatOutcome, int>
  {
    if !clientOk then Failure(503)
    else
      match ChatTranscript(userId, conversationId, byId, latest, freshId)
      case Failure(code) => Failure(code)
      case Success((id, before)) =>
        var transcript := if message != StartMarker then before + [Message(UserRole, message)] else before;
        if reply.None? then Success(ChatOutcome(TroubleLine, id, "active", None))
        else
          var completed := CallsEnd(reply.value);
          var text := if completed then ClosingLine
                      else if Truthy(reply.value.content) then reply.value.content.value else MissedLine;
          Success(ChatOutcome(text, id, if completed then "completed" else "active",
                              Some(transcript + [Message(AssistantRole, text)])))
  }

  /**
   * The transcript rules: the start marker is never stored, a real message
   * is stored as the user's, every answered turn stores exactly one
   * interviewer message (the response itself) after them, and the status is
   * "completed" exactly when the interviewer called `end_interview`.
   */
  lemma ChatRules(userId: string, conversationId: Option<string>, byId: Option<ConversationRow>,
                  latest: Option<ConversationRow>, freshId: string, message: string, reply: Reply)
    requires ChatTranscript(userId, conversationId, byId, latest, freshId).Success?
    ensures var before := ChatTranscript(userId, conversationId, byId, latest, freshId).value.1;
            var r := ChatOnboarding(true, userId, conversationId, byId, latest, freshId, message, Some(reply));
            r.Success? && r.value.saved.Some?
            && r.value.saved.value[..|before|] == before
            && |r.value.saved.value| == |before| + (if message == StartMarker then 1 else 2)
            && r.value.saved.value[|r.value.saved.value| - 1] == Message(AssistantRole, r.value.response)
            && (message != StartMarker ==> r.value.saved.value[|before|] == Message(UserRole, message))
            && (r.value.status == "completed" <==> CallsEnd(reply))
            && (r.value.status == "completed" || r.value.status == "active")
            && r.value.response != ""
  {
  }

  /** A failed model call leaves the stored transcript as it was and keeps the interview active. */
  lemma ChatFailureSavesNothing(userId: string, conversationId: Option<string>, byId: Option<ConversationRow>,
                                latest: Option<ConversationRow>, freshId: string, message: string)
    ensures var r := ChatOnboarding(true, userId, conversationId, byId, latest, freshId, message, None);
            r.Success? ==> r.value.saved.None? && r.value.status == "active"
    ensures ChatOnboarding(false, userId, conversationId, byId, latest, freshId, message, None) == Failure(503)
  {
  }

  // ---------------------------------------------------------------------
  // Completing the onboarding
  // ---------------------------------------------------------------------

  /** The parts of `communication_style`; an absent or empty part is left out. */
  datatype CommStyle = CommStyle(formality: Option<string>, emojiUsage: Option<string>,
                                 responseLength: Option<string>, tone: Option<string>)

  /** A score or affinity in the analyst's JSON: a number, or a value `float()` refuses (null, a word). */
  datatype ScoreValue = Number(r: real) | NotNumber

  /**
   * The analyst's JSON. The three summary keys may be missing or `null`;
   * lists and maps that were absent are empty; scores and affinities may
   * hold values that are not numbers.
   */
  datatype Analysis = Analysis(
    conversationSummary: Field<string>,
    personSummary: Field<string>,
    ownerQuotes: Field<seq<string>>,
    traits: seq<string>,
    interests: seq<string>,
    topics: seq<string>,
    style: CommStyle,
    scores: map<string, ScoreValue>,
    occupation: Option<string>,
    name: Option<string>,
    affinities: map<string, ScoreValue>)

  const ScoreKeys: set<string> := {"sociability", "curiosity", "agreeableness", "energy_baseline"}

  /**
   * What `float()` makes of the values under `keys`: the numbers, or `None`
   * when one of those values is not a number. Other keys are never read.
   */
  function Numbers(raw: map<string, ScoreValue>, keys: set<string>): (r: Option<map<string, real>>)
    ensures r.Some? <==> forall k :: k in keys && k in raw ==> raw[k].Number?
    ensures r.Some? ==> r.value.Keys == keys * raw.Keys && forall k :: k in r.value ==> r.value[k] == raw[k].r
  {
    if forall k :: k in keys && k in raw ==> raw[k].Number? then
      Some(map k | k in keys * raw.Keys :: raw[k].r)
    else None
  }

  /** Exactly three quotes: a short list is padded with empty strings, a long one cut to its first three. */
  function NormaliseQuotes(quotes: seq<string>): (r: seq<string>)
    ensures |r| == 3
    ensures |quotes| <= 3 ==> r[..|quotes|] == quotes && forall i :: |quotes| <= i < 3 ==> r[i] == ""
    ensures |quotes| >= 3 ==> r == quotes[..3]
  {
    if |quotes| < 3 then quotes + seq(3 - |quotes|, _ => "") else quotes[..3]
  }

  /** A personality score: absent means 0.5, and the value is clamped into [0, 1]. */
  function Score(scores: map<string, real>, key: string): (v: real)
    ensures InUnit(v)
    ensures key !in scores ==> v == 0.5
    ensures key in scores && InUnit(scores[key]) ==> v == scores[key]
  {
    Clamp(if key in scores then scores[key] else 0.5, 0.0, 1.0)
  }

  const LocationKeys: set<string> := {"food", "karaoke", "rest_area", "social_hub", "wander_point"}

  /** The five location affinities, each scored like a personality score; other keys are dropped. */
  function Affinities(raw: map<string, real>): (m: map<string, real>)
    ensures m.Keys == LocationKeys
    ensures forall k :: k in m ==> m[k] == Score(raw, k)
  {
    map k | k in LocationKeys :: Score(raw, k)
  }

  /** A labelled part of the style string, present when its value is a non-empty string. */
  function Part(heading: string, value: Option<string>): seq<string>
  {
    if Truthy(value) then [heading + value.value] else []
  }

  /** The style parts in the fixed order formality, emoji usage, response length, tone. */
  function StyleParts(c: CommStyle): seq<string>
  {
    Part("Formality: ", c.formality) + Part("Emoji usage: ", c.emojiUsage)
    + Part("Response length: ", c.responseLength) + Part("Tone: ", c.tone)
  }

  function StyleString(c: CommStyle): string
  {
    Join(StyleParts(c), ". ")
  }

  /**
   * The style string lists the present parts in their fixed order joined
   * by ". ", and is empty when no part is present.
   */
  lemma StyleStringOrder(f: string, e: string, l: string, t: string)
    requires f != "" && e != "" && l != "" && t != ""
    ensures StyleString(CommStyle(Some(f), Some(e), Some(l), Some(t))) ==
              "Formality: " + f + ". " + "Emoji usage: " + e + ". " + "Response length: " + l + ". " + "Tone: " + t
    ensures StyleString(CommStyle(None, None, None, None)) == ""
    ensures StyleString(CommStyle(Some(f), None, None, Some(t))) == "Formality: " + f + ". " + "Tone: " + t
  {
    var c := CommStyle(Some(f), Some(e), Some(l), Some(t));
    var ps := StyleParts(c);
    assert ps == ["Formality: " + f, "Emoji usage: " + e, "Response length: " + l, "Tone: " + t];
    assert ps[..3] == ["Formality: " + f, "Emoji usage: " + e, "Response length: " + l];
    assert ps[..3][..2] == ["Formality: " + f, "Emoji usage: " + e];
    assert ps[..3][..2][..1] == ["Formality: " + f];
    assert Join(ps[..3][..2], ". ") == "Formality: " + f + ". " + "Emoji usage: " + e;
    assert Join(ps[..3], ". ") == "Formality: " + f + ". " + "Emoji usage: " + e + ". " + "Response length: " + l;
    assert Join(ps, ". ") == Join(ps[..3], ". ") + ". " + "Tone: " + t;
    var c2 := CommStyle(Some(f), None, None, Some(t));
    var ps2 := StyleParts(c2);
    assert ps2 == ["Formality: " + f, "Tone: " + t];
    assert ps2[..1] == ["Formality: " + f];
    assert Join(ps2, ". ") == Join(ps2[..1], ". ") + ". " + "Tone: " + t;
  }

  /** The four labelled parts of a communication style, in the order the source checks them. */
  function Labelled(c: CommStyle): seq<(string, Option<string>)>
  {
    [("Formality: ", c.formality), ("Emoji usage: ", c.emojiUsage),
     ("Response length: ", c.responseLength), ("Tone: ", c.tone)]
  }

  /**
   * Sentences read from the front: a part whose value is missing or empty
   * is skipped, and ". " stands between two parts that are both written.
   */
  function Sentences(ls: seq<(string, Option<string>)>): string
  {
    if |ls| == 0 then ""
    else
      var rest := Sentences(ls[1..]);
      if !Truthy(ls[0].1) then rest
      else if rest == "" then ls[0].0 + ls[0].1.value
      else ls[0].0 + ls[0].1.value + ". " + rest
  }

  /** The parts that are written, one per labelled part with a non-empty value. */
  function Present(ls: seq<(string, Option<string>)>): (r: seq<string>)
    ensures forall i :: 0 <= i < |r| ==> r[i] != ""
  {
    if |ls| == 0 then [] else Part(ls[0].0, ls[0].1) + Present(ls[1..])
  }

  /**
   * The style string, for every style: the written parts in the order
   * formality, emoji usage, response length, tone, each as its label and
   * value, missing and empty values skipped, ". " between neighbours; it is
   * empty exactly when no part has a non-empty value.
   */
  lemma StyleStringRule(c: CommStyle)
    ensures StyleString(c) == Sentences(Labelled(c))
    ensures StyleString(c) == ""
            <==> !Truthy(c.formality) && !Truthy(c.emojiUsage) && !Truthy(c.responseLength) && !Truthy(c.tone)
  {
    var ls := Labelled(c);
    assert Present(ls[1..][1..][1..][1..]) == [];
    assert Present(ls[1..][1..][1..]) == Part("Tone: ", c.tone);
    assert Present(ls[1..][1..]) == Part("Response length: ", c.responseLength) + Part("Tone: ", c.tone);
    assert Present(ls[1..]) == Part("Emoji usage: ", c.emojiUsage) + Present(ls[1..][1..]);
    assert Present(ls) == Part("Formality: ", c.formality) + Present(ls[1..]);
    assert StyleParts(c) == Present(ls);
    JoinSentences(ls);
    SentencesEmpty(ls);
  }

  /** Joining the written parts with ". " reads them from the front. */
  lemma {:induction false} JoinSentences(ls: seq<(string, Option<string>)>)
    ensures Join(Present(ls), ". ") == Sentences(ls)
  {
    if |ls| > 0 {
      JoinSentences(ls[1..]);
      var rest := Present(ls[1..]);
      if !Truthy(ls[0].1) {
        assert Present(ls) == rest;
      } else {
        var p := ls[0].0 + ls[0].1.value;
        assert Present(ls) == [p] + rest;
        if |rest| == 0 {
          assert [p] + rest == [p];
        } else {
          JoinFirst(p, rest, ". ");
          JoinNonEmpty(rest, ". ");
        }
      }
    }
  }

  /** A join whose first part is not empty is not empty. */
  lemma {:induction false} JoinNonEmpty(parts: seq<string>, sep: string)
    requires |parts| > 0 && parts[0] != ""
    ensures Join(parts, sep) != ""
    ensures |Join(parts, sep)| >= |parts[0]|
    decreases |parts|
  {
    if |parts| > 1 {
      JoinNonEmpty(parts[..|parts| - 1], sep);
    }
  }

  /** The sentences are empty exactly when no value is written. */
  lemma {:induction false} SentencesEmpty(ls: seq<(string, Option<string>)>)
    ensures Sentences(ls) == "" <==> forall i :: 0 <= i < |ls| ==> !Truthy(ls[i].1)
  {
    if |ls| > 0 {
      SentencesEmpty(ls[1..]);
      assert forall i :: 1 <= i < |ls| ==> ls[i] == ls[1..][i - 1];
    }
  }

  /** `Traits: a, b`, then `. Occupation: …` and `. Preferred name: …` when those facts are present. */
  function NotesString(traits: seq<string>, occupation: Option<string>, name: Option<string>): string
  {
    var notes := if |traits| > 0 then "Traits: " + Join(traits, ", ") else "";
    var withJob := if Truthy(occupation) then notes + ". Occupation: " + occupation.value else notes;
    if Truthy(name) then withJob + ". Preferred name: " + name.value else withJob
  }

  /** A text column: the first `cap` characters, or nothing for an empty text. */
  function Column(s: string, cap: nat): (r: Option<string>)
    ensures s == "" <==> r.None?
    ensures r.Some? ==> |r.value| <= cap && |r.value| <= |s| && r.value == s[..|r.value|] && (|s| <= cap ==> r.value == s)
  {
    if s == "" then None else Some(Take(s, cap))
  }

  /** A list column: the list itself, or nothing for an empty list. */
  function ListColumn(xs: seq<string>): (r: Option<seq<string>>)
    ensures |xs| == 0 <==> r.None?
    ensures r.Some? ==> r.value == xs
  {
    if |xs| == 0 then None else Some(xs)
  }

  /** The personality row written for the user's agent, from the read scores and affinities. */
  function OnboardedPersonality(a: Analysis, scores: map<string, real>, affinities: map<string, real>,
                                personSummary: Option<string>): Personality
  {
    Personality(
      Score(scores, "sociability"), Score(scores, "curiosity"),
      Score(scores, "agreeableness"), Score(scores, "energy_baseline"),
      Affinities(affinities),
      if personSummary.Some? then Column(personSummary.value, 2000) else None,
      Column(StyleString(a.style), 500),
      ListColumn(a.interests),
      ListColumn(a.topics),
      Column(NotesString(a.traits, a.occupation, a.name), 1000))
  }

  /** The agent state after onboarding: a new healthy state, or the stored one with healthy needs. */
  function HealthyState(existing: Option<AgentState>): (s: AgentState)
    ensures ValidState(s)
    ensures s.energy == 1.0 && s.hunger == 0.0 && s.loneliness == 0.0 && s.mood == 1.0
    ensures existing.None? ==> s == GenerateRandomState()
    ensures existing.Some? ==> s.currentAction == existing.value.currentAction && s.target == existing.value.target
                               && s.startedAt == existing.value.startedAt
                               && s.expiresAt == existing.value.expiresAt && s.lastTick == existing.value.lastTick
    ensures existing.Some? ==> s == existing.value.(energy := 1.0, hunger := 0.0, loneliness := 0.0, mood := 1.0)
  {
    if existing.None? then GenerateRandomState()
    else existing.value.(energy := 1.0, hunger := 0.0, loneliness := 0.0, mood := 1.0)
  }

  /** The first memory of the user: the summaries, three quotes and the top score. */
  datatype MemoryRow = MemoryRow(conversationSummary: Option<string>, personSummary: Option<string>,
                                 ownerQuotes: seq<string>, score: int)

  /**
   * What completing the onboarding writes: the memory; and, when the
   * analysis was parsed, the personality and the healthy state.
   */
  datatype CompleteOutcome = CompleteOutcome(memory: MemoryRow, personality: Option<Personality>, state: Option<AgentState>, code: int)

  /**
   * `complete_onboarding`: 503 without a model client, 404 without the
   * conversation. The rows are written before the user's metadata is
   * marked, so a failed marking answers 500 with the rows in place.
   *
   * Two handlers shape the writes. When the analysis is missing, or its
   * quotes are `null` (whose length cannot be taken), the memory gets the
   * fixed summaries and no quotes. When the analysis is missing, or a score
   * or affinity that is read is not a number, neither the personality nor
   * the state is written. Null quotes alone still leave the personality and
   * state to be written, with the fixed person summary as its profile.
   */
  function CompleteOnboarding(clientOk: bool, conversationFound: bool, analysis: Option<Analysis>,
                              existingState: Option<AgentState>, metadataOk: bool): Result<CompleteOutcome, int>
  {
    if !clientOk then Failure(503)
    else if !conversationFound then Failure(404)
    else if analysis.None? then
      Success(CompleteOutcome(FallbackMemory(), None, None, if metadataOk then 200 else 500))
    else
      var a := analysis.value;
      var memory :=
        if a.ownerQuotes.Null? then FallbackMemory()
        else MemoryRow(ReadField(a.conversationSummary, "New user joined the world."),
                       ReadField(a.personSummary, "User completed onboarding."),
                       NormaliseQuotes(if a.ownerQuotes.Value? then a.ownerQuotes.v else []), 10);
      var scores := Numbers(a.scores, ScoreKeys);
      var affinities := Numbers(a.affinities, LocationKeys);
      var saved := scores.Some? && affinities.Some?;
      Success(CompleteOutcome(
        memory,
        if saved then Some(OnboardedPersonality(a, scores.value, affinities.value, memory.personSummary)) else None,
        if saved then Some(HealthyState(existingState)) else None,
        if metadataOk then 200 else 500))
  }

  /** The memory the first handler writes: fixed summaries, no quotes. */
  function FallbackMemory(): MemoryRow
  {
    MemoryRow(Some("User completed onboarding conversation."), Some("User completed onboarding."), [], 10)
  }

  /**
   * A parsed analysis yields, unless its quotes are `null`, exactly three
   * quotes that keep the analyst's first ones. The personality and the
   * state are written exactly when every score and affinity read is a
   * number, and then the personality is valid with scores defaulting to
   * 0.5, exactly the five location affinities in [0, 1] and text columns
   * within their caps, and the state is healthy and valid. A metadata
   * failure after those writes answers 500.
   */
  lemma CompleteOnboardingProperties(a: Analysis, existingState: Option<AgentState>)
    ensures var r := CompleteOnboarding(true, true, Some(a), existingState, true);
            r.Success? && r.value.code == 200 && r.value.memory.score == 10
            && (!a.ownerQuotes.Null? ==> |r.value.memory.ownerQuotes| == 3)
            && (a.ownerQuotes.Value? && |a.ownerQuotes.v| <= 3 ==>
                  r.value.memory.ownerQuotes[..|a.ownerQuotes.v|] == a.ownerQuotes.v)
            && (r.value.personality.Some? <==> Numbers(a.scores, ScoreKeys).Some? && Numbers(a.affinities, LocationKeys).Some?)
            && (r.value.state.Some? <==> r.value.personality.Some?)
    ensures var r := CompleteOnboarding(true, true, Some(a), existingState, true);
            r.value.personality.Some? ==>
              var p := r.value.personality.value;
              ValidPersonality(p)
              && ("sociability" !in a.scores ==> p.sociability == 0.5)
              && p.worldAffinities.Keys == LocationKeys
              && (forall k :: k in p.worldAffinities ==> InUnit(p.worldAffinities[k]))
              && (p.profileSummary.Some? ==> |p.profileSummary.value| <= 2000)
              && (p.communicationStyle.Some? ==> |p.communicationStyle.value| <= 500)
              && (p.personalityNotes.Some? ==> |p.personalityNotes.value| <= 1000)
              && ValidState(r.value.state.value) && r.value.state.value.energy == 1.0 && r.value.state.value.mood == 1.0
    ensures var r := CompleteOnboarding(true, true, Some(a), existingState, false);
            r.Success? && r.value.code == 500
            && (r.value.personality.Some? <==> Numbers(a.scores, ScoreKeys).Some? && Numbers(a.affinities, LocationKeys).Some?)
  {
  }

  /**
   * Answers of the wrong type: `null` quotes give the fixed memory, whose
   * person summary then becomes the profile; a `null` summary is stored as
   * no summary and leaves the profile empty; a score that is not a number
   * leaves both the personality and the state unwritten, while the memory
   * is still written.
   */
  lemma MalformedAnalysis(a: Analysis, existingState: Option<AgentState>, key: string)
    ensures var r := CompleteOnboarding(true, true, Some(a), existingState, true).value;
            a.ownerQuotes.Null? ==>
              r.memory == FallbackMemory()
              && (r.personality.Some? ==> r.personality.value.profileSummary == Some("User completed onboarding."))
    ensures var r := CompleteOnboarding(true, true, Some(a), existingState, true).value;
            !a.ownerQuotes.Null? && a.personSummary.Null? ==>
              r.memory.personSummary.None? && (r.personality.Some? ==> r.personality.value.profileSummary.None?)
    ensures var r := CompleteOnboarding(true, true, Some(a), existingState, true).value;
            !a.ownerQuotes.Null? && a.conversationSummary.Null? ==> r.memory.conversationSummary.None?
    ensures var r := CompleteOnboarding(true, true, Some(a), existingState, true).value;
            (key in ScoreKeys && key in a.scores && a.scores[key].NotNumber?)
            || (key in LocationKeys && key in a.affinities && a.affinities[key].NotNumber?)
            ==> r.personality.None? && r.state.None?
  {
  }

  /**
   * The personality onboarding writes is read back exactly when the agent
   * is initialised; as the affinity reader is written, its affinities
   * survive only when the analysis found some interests or topics.
   */
  lemma OnboardedReadBack(a: Analysis, existingState: Option<AgentState>)
    ensures var r := CompleteOnboarding(true, true, Some(a), existingState, true);
            r.Success? && r.value.personality.Some? ==>
              var p := r.value.personality.value;
              InitializeAgent(None, Some(OnboardedRow(p))).0 == p
              && RowAffinitiesAsWritten(OnboardedRow(p))
                 == if |a.interests| > 0 || |a.topics| > 0 then p.worldAffinities else DefaultAffinities()
  {
    var r := CompleteOnboarding(true, true, Some(a), existingState, true);
    CompleteOnboardingProperties(a, existingState);
    if r.Success? && r.value.personality.Some? {
      var p := r.value.personality.value;
      InitializeOnboarded(p);
      OnboardedAffinitiesAsWritten(p);
    }
  }

  /** A failed analysis writes the fallback memory with no quotes and touches neither personality nor state. */
  lemma FailedAnalysis(existingState: Option<AgentState>)
    ensures var r := CompleteOnboarding(true, true, None, existingState, true);
            r.Success? && r.value.memory == FallbackMemory() && r.value.memory.ownerQuotes == []
            && r.value.personality.None? && r.value.state.None?
            && r.value.code == 200
  {
  }
}
