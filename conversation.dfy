/**
 * The rule layer of the conversation system: the keyword fallback that
 * scores a single message, the accept / initiate / end gates (ladders of
 * thresholds over the stored relationship and random draws), the need and
 * mood updates that follow a conversation, the fallback upsert of a
 * detailed relationship edge, and the merge of what was learned about a
 * person into their personality row.
 *
 * Random draws are a function `draw` from the index of a `random.random()`
 * call to its value; every gate reports how many draws it consumed.
 */
module Conversation {
  import opened Wrappers
  import opened Numeric
  import opened Text
  import opened AgentModels
  import opened AgentEngine
  import opened AgentDatabase

  // ---------------------------------------------------------------------
  // Per-message sentiment (keyword fallback)
  // ---------------------------------------------------------------------

  const RudeWords: seq<string> :=
    ["hate", "stupid", "idiot", "dumb", "ugly", "loser", "shut up",
     "suck", "terrible", "worst", "annoying", "boring", "lame"]

  const PositiveWords: seq<string> :=
    ["love", "amazing", "awesome", "great", "wonderful", "fantastic",
     "beautiful", "fun", "happy", "thanks", "appreciate", "nice", "cool"]

  datatype MessageSentiment = MessageSentiment(
    sentiment: real,
    isRude: bool,
    isPositive: bool,
    receiverMoodChange: real,
    senderMoodChange: real)

  /**
   * `analyze_message_sentiment` without a language model: a rude word
   * anywhere in the lower-cased message makes it rude, whatever positive
   * words it also holds; otherwise a positive word makes it positive.
   */
  function KeywordSentiment(message: string): (r: MessageSentiment)
    ensures r.isRude <==> ContainsAny(Lower(message), RudeWords)
    ensures r.isPositive <==> !ContainsAny(Lower(message), RudeWords) && ContainsAny(Lower(message), PositiveWords)
  {
    var text := Lower(message);
    if ContainsAny(text, RudeWords) then MessageSentiment(-0.5, true, false, -0.10, 0.0)
    else if ContainsAny(text, PositiveWords) then MessageSentiment(0.5, false, true, 0.05, 0.03)
    else MessageSentiment(0.0, false, false, 0.0, 0.0)
  }

  /**
   * The fallback stays inside the ranges the language-model prompt asks
   * for (receiver −0.15..0.10, sender −0.05..0.05), rude and positive
   * exclude each other, and every change has the sign of the sentiment.
   */
  lemma KeywordSentimentRanges(message: string)
    ensures var r := KeywordSentiment(message);
            -1.0 <= r.sentiment <= 1.0
            && -0.15 <= r.receiverMoodChange <= 0.10 && -0.05 <= r.senderMoodChange <= 0.05
            && !(r.isRude && r.isPositive)
            && (r.isRude ==> r.sentiment < 0.0 && r.receiverMoodChange < 0.0 && r.senderMoodChange == 0.0)
            && (r.isPositive ==> r.sentiment > 0.0 && r.receiverMoodChange > 0.0 && r.senderMoodChange > 0.0)
            && (!r.isRude && !r.isPositive ==> r == MessageSentiment(0.0, false, false, 0.0, 0.0))
  {
  }

  /** Lower-casing twice is lower-casing once. */
  lemma LowerIdempotent(s: string)
    ensures Lower(Lower(s)) == Lower(s)
  {
  }

  /** Letter case never matters to the fallback. */
  lemma KeywordSentimentIgnoresCase(message: string)
    ensures KeywordSentiment(Lower(message)) == KeywordSentiment(message)
  {
    LowerIdempotent(message);
  }

  /**
   * A rude word wins over a positive one in the same message, whatever the
   * case: any such message scores as rude, and "LOVE you, stupid" is one.
   */
  lemma RudeBeforePositive(m: string)
    ensures ContainsAny(Lower(m), RudeWords) && ContainsAny(Lower(m), PositiveWords)
            ==> var r := KeywordSentiment(m);
                r.isRude && !r.isPositive && r.sentiment == -0.5 && r.receiverMoodChange == -0.10
    ensures ContainsAny(Lower("LOVE you, stupid"), PositiveWords)
    ensures KeywordSentiment("LOVE you, stupid").isRude
    ensures !KeywordSentiment("LOVE you, stupid").isPositive
  {
    var s := "LOVE you, stupid";
    var m := Lower(s);
    assert s[0] == 'L';
    assert s[1] == 'O';
    assert s[2] == 'V';
    assert s[3] == 'E';
    assert m[..4] == "love";
    assert OccursAt(m, PositiveWords[0], 0);
    assert m[10..16] == "stupid";
    assert OccursAt(m, RudeWords[1], 10);
  }

  // ---------------------------------------------------------------------
  // Mood and need updates
  // ---------------------------------------------------------------------

  /** What `apply_realtime_mood_update` reports and writes. */
  datatype MoodUpdate = MoodUpdate(ok: bool, written: Option<AgentState>)

  /**
   * `apply_realtime_mood_update`: a change below 0.001 in size is ignored
   * and reported as success; otherwise the stored mood moves by the change,
   * clamped to [−1, 1], and nothing else in the state changes. Without a
   * database or a stored state nothing is written and the call fails.
   */
  function RealtimeMoodUpdate(database: bool, stored: Option<AgentState>, moodChange: real): (r: MoodUpdate)
    ensures r.ok <==> Abs(moodChange) < 0.001 || (database && stored.Some?)
    ensures r.written.Some? <==> Abs(moodChange) >= 0.001 && database && stored.Some?
    ensures r.written.Some? ==>
              -1.0 <= r.written.value.mood <= 1.0
              && r.written.value == stored.value.(mood := r.written.value.mood)
              && (-1.0 <= stored.value.mood + moodChange <= 1.0 ==> r.written.value.mood == stored.value.mood + moodChange)
  {
    if Abs(moodChange) < 0.001 then MoodUpdate(true, None)
    else if !database || stored.None? then MoodUpdate(false, None)
    else
      var s := stored.value;
      MoodUpdate(true, Some(s.(mood := Max(-1.0, Min(1.0, s.mood + moodChange)))))
  }

  /**
   * `update_agent_state_with_changes`: a missing state is first created as
   * a fresh agent's; then each need moves by its delta (a missing key is 0)
   * and is clamped to its range — the same arithmetic as applying a
   * location's interaction effects.
   */
  function UpdateStateWithChanges(stored: Option<AgentState>, changes: map<string, real>): (s: AgentState)
    ensures ValidState(s)
    ensures s == ApplyInteractionEffects(if stored.Some? then stored.value else GenerateRandomState(), changes)
  {
    var base := if stored.Some? then stored.value else GenerateRandomState();
    var de := if "energy" in changes then changes["energy"] else 0.0;
    var dh := if "hunger" in changes then changes["hunger"] else 0.0;
    var dl := if "loneliness" in changes then changes["loneliness"] else 0.0;
    var dm := if "mood" in changes then changes["mood"] else 0.0;
    base.(energy := Max(0.0, Min(1.0, base.energy + de)),
          hunger := Max(0.0, Min(1.0, base.hunger + dh)),
          loneliness := Max(0.0, Min(1.0, base.loneliness + dl)),
          mood := Max(-1.0, Min(1.0, base.mood + dm)))
  }

  /** The changes assumed when the analysis gives none. */
  const DefaultStateChanges: map<string, real> :=
    map["energy" := -0.05, "hunger" := 0.03, "loneliness" := -0.10, "mood" := 0.05]

  /**
   * With the default changes a conversation never makes anyone lonelier,
   * less hungry, more rested or sadder, and moves no need by more than its
   * delta.
   */
  lemma DefaultChangesDirection(stored: AgentState)
    requires ValidState(stored)
    ensures var s := UpdateStateWithChanges(Some(stored), DefaultStateChanges);
            stored.loneliness - 0.10 <= s.loneliness <= stored.loneliness
            && stored.energy - 0.05 <= s.energy <= stored.energy
            && stored.hunger <= s.hunger <= stored.hunger + 0.03
            && stored.mood <= s.mood <= stored.mood + 0.05
            && s.currentAction == stored.currentAction && s.target == stored.target
  {
    EffectsDirection(stored, DefaultStateChanges);
    assert Effect(DefaultStateChanges, "hunger") == 0.03;
  }

  // ---------------------------------------------------------------------
  // The accept, initiate and end gates
  // ---------------------------------------------------------------------

  /** A gate's decision, why it was taken, and how many draws it consumed. */
  datatype Gate<R> = Gate(yes: bool, reason: R, draws: nat)

  datatype AcceptReason =
    | AcceptNoDatabase | NewPersonWelcome | NewPersonBusy | NegativeSentiment
    | TalkedTooMuch | FamiliarStarter | CasualStarter | RareDecline

  /**
   * `decide_accept_conversation`: a stranger is accepted on a draw below
   * 0.9; with a stored edge, sentiment below −0.3 declines on a draw below
   * 0.7, more than five interactions decline on a draw below 0.3, and what
   * survives is accepted on a draw below 0.95, with a familiar greeting
   * when familiarity exceeds 0.5 or there were more than three interactions.
   */
  function DecideAccept(database: bool, memory: Option<SocialMemory>, draw: nat -> real): (g: Gate<AcceptReason>)
    ensures g.draws <= 3
    ensures !database ==> g.yes && g.draws == 0
    ensures database && memory.None? ==> g.draws == 1 && (g.yes <==> draw(0) < 0.9)
    ensures g.yes ==> g.reason in {AcceptNoDatabase, NewPersonWelcome, FamiliarStarter, CasualStarter}
    ensures g.reason == FamiliarStarter ==>
              memory.Some? && (memory.value.familiarity > 0.5 || memory.value.interactionCount > 3)
  {
    if !database then Gate(true, AcceptNoDatabase, 0)
    else if memory.None? then
      if draw(0) < 0.9 then Gate(true, NewPersonWelcome, 1) else Gate(false, NewPersonBusy, 1)
    else
      var m := memory.value;
      if m.sentiment < -0.3 && draw(0) < 0.7 then Gate(false, NegativeSentiment, 1)
      else
        var i: nat := if m.sentiment < -0.3 then 1 else 0;
        if m.interactionCount > 5 && draw(i) < 0.3 then Gate(false, TalkedTooMuch, i + 1)
        else
          var j: nat := if m.interactionCount > 5 then i + 1 else i;
          if draw(j) < 0.95 then
            Gate(true, if m.familiarity > 0.5 || m.interactionCount > 3 then FamiliarStarter else CasualStarter, j + 1)
          else Gate(false, RareDecline, j + 1)
  }

  /**
   * With a stored edge, the request is accepted exactly when no decline
   * fires: not (sentiment < −0.3 and its draw < 0.7), not (count > 5 and its
   * draw < 0.3), and the last draw is below 0.95. A friendly edge that is
   * not talked out spends one draw.
   */
  lemma AcceptLadder(m: SocialMemory, draw: nat -> real)
    ensures var g := DecideAccept(true, Some(m), draw);
            var hostile := m.sentiment < -0.3;
            var busy := m.interactionCount > 5;
            var i := if hostile then 1 else 0;
            var j := if busy then i + 1 else i;
            (g.yes <==> !(hostile && draw(0) < 0.7) && !(busy && draw(i) < 0.3) && draw(j) < 0.95)
            && (!hostile && !busy ==> g.draws == 1)
            && (hostile && draw(0) < 0.7 ==> !g.yes && g.draws == 1)
  {
  }

  datatype Starter = FamiliarGreeting | WarmGreeting | PlainGreeting

  datatype InitiateReason =
    | InitiateNoDatabase | WalkingAround | NewPersonGreeting | Exploring
    | NotFeelingIt | ExploreABit | Greeting(style: Starter, interest: Option<string>)

  /**
   * `decide_initiate_conversation`: without a database it initiates on a
   * draw below 0.7, a stranger on one below 0.9; with a stored edge,
   * sentiment below −0.5 skips on a draw below 0.5, more than five
   * interactions skip on one below 0.3, and the rest initiates on one below
   * 0.85. The greeting is familiar, warm or plain, and may offer one of the
   * first three mutual interests (picked by `interestPick`) when that
   * interest is a non-empty string.
   */
  function DecideInitiate(database: bool, memory: Option<SocialMemory>, draw: nat -> real, interestPick: nat)
    : (g: Gate<InitiateReason>)
    ensures g.draws <= 3 && (database || g.draws == 1)
    ensures !database ==> (g.yes <==> draw(0) < 0.7)
    ensures database && memory.None? ==> g.draws == 1 && (g.yes <==> draw(0) < 0.9)
    ensures g.reason.Greeting? && g.reason.interest.Some? ==>
              memory.Some? && memory.value.mutualInterests.Some?
              && g.reason.interest.value in Take(memory.value.mutualInterests.value, 3)
              && g.reason.interest.value != ""
  {
    if !database then
      if draw(0) < 0.7 then Gate(true, InitiateNoDatabase, 1) else Gate(false, WalkingAround, 1)
    else if memory.None? then
      if draw(0) < 0.9 then Gate(true, NewPersonGreeting, 1) else Gate(false, Exploring, 1)
    else
      var m := memory.value;
      if m.sentiment < -0.5 && draw(0) < 0.5 then Gate(false, NotFeelingIt, 1)
      else
        var i: nat := if m.sentiment < -0.5 then 1 else 0;
        if m.interactionCount > 5 && draw(i) < 0.3 then Gate(false, ExploreABit, i + 1)
        else
          var j: nat := if m.interactionCount > 5 then i + 1 else i;
          if draw(j) < 0.85 then
            var style := if m.familiarity > 0.5 || m.interactionCount > 3 then FamiliarGreeting
                         else if m.sentiment > 0.0 then WarmGreeting
                         else PlainGreeting;
            var first := if m.mutualInterests.Some? then Take(m.mutualInterests.value, 3) else [];
            var interest := if |first| > 0 && first[interestPick % |first|] != "" then Some(first[interestPick % |first|])
                            else None;
            Gate(true, Greeting(style, interest), j + 1)
          else Gate(false, WalkingAround, j + 1)
  }

  /**
   * With a stored edge, initiating happens exactly when no skip fires and
   * the last draw is below 0.85; a familiar edge always gets the familiar
   * greeting style.
   */
  lemma InitiateLadder(m: SocialMemory, draw: nat -> real, interestPick: nat)
    ensures var g := DecideInitiate(true, Some(m), draw, interestPick);
            var hostile := m.sentiment < -0.5;
            var busy := m.interactionCount > 5;
            var i := if hostile then 1 else 0;
            var j := if busy then i + 1 else i;
            (g.yes <==> !(hostile && draw(0) < 0.5) && !(busy && draw(i) < 0.3) && draw(j) < 0.85)
            && (g.yes ==> g.reason.Greeting?)
            && (g.yes && (m.familiarity > 0.5 || m.interactionCount > 3) ==> g.reason.style == FamiliarGreeting)
            && (g.yes && m.familiarity <= 0.5 && m.interactionCount <= 3 && m.sentiment > 0.0 ==> g.reason.style == WarmGreeting)
  {
  }

  /** What the language model said about ending, when it was asked. */
  datatype EndAnswer = NoClient | ModelFailed | ModelAnswer(shouldEnd: bool, farewell: Option<string>)

  datatype EndReason = EndNoDatabase | RudeMessage | LongEnough | NaturalEnding | GettingLong | ModelDecided | KeepTalking

  datatype EndVerdict = EndVerdict(end: bool, farewell: Option<string>, reason: EndReason, draws: int)

  /** `min(0.15 + 0.1·(n − 3), 0.8)`: the chance of a natural ending after `n` messages. */
  function EndProbability(n: nat): (p: real)
    ensures p <= 0.8
    ensures n >= 3 ==> 0.15 <= p
  {
    Min(0.15 + (n as real - 3.0) * 0.10, 0.8)
  }

  /** Before the forced end at ten messages the 0.8 cap never applies. */
  lemma EndProbabilityBelowCap(n: nat)
    requires 3 <= n < 10
    ensures EndProbability(n) == 0.15 + (n as real - 3.0) * 0.10 <= 0.75
  {
  }

  function Pick(options: seq<string>, k: nat): string
    requires |options| > 0
  {
    options[k % |options|]
  }

  function LongFarewells(partner: string): seq<string>
  {
    ["Hey " + partner + ", I should get going! Great chat!",
     "Gotta run, catch you later " + partner + "!",
     "Nice talking to you " + partner + "! See you around!",
     "I'm gonna walk around for a bit. Talk later!"]
  }

  function NaturalFarewells(partner: string): seq<string>
  {
    ["Anyway, gotta run! Talk later " + partner + "!",
     "Alright, gonna walk around. See ya!",
     "Nice chat! Catch you later!",
     "I'm gonna explore a bit. Talk soon!",
     "Good talk! See you around!"]
  }

  /**
   * `decide_end_conversation` over `n` messages so far. `lastRude` is the
   * sentiment verdict on the partner's last message, `answer` what the
   * language model returned, and `pick` chooses among the farewells.
   */
  function DecideEnd(database: bool, n: nat, lastRude: bool, answer: EndAnswer, partner: string,
                     draw: nat -> real, pick: nat): (v: EndVerdict)
    ensures 0 <= v.draws <= 1
    ensures !v.end ==> v.farewell.None?
    ensures v.draws == 1 <==> n >= 3 && (!database || n < 10)
  {
    if !database then
      if n >= 3 && draw(0) < 0.2 then EndVerdict(true, Some("Gotta run, talk later!"), EndNoDatabase, 1)
      else EndVerdict(false, None, KeepTalking, if n >= 3 then 1 else 0)
    else if n < 3 then
      if lastRude then EndVerdict(true, Some("I don't appreciate that. Bye."), RudeMessage, 0)
      else EndVerdict(false, None, KeepTalking, 0)
    else
      var p := EndProbability(n);
      if n >= 10 then EndVerdict(true, Some(Pick(LongFarewells(partner), pick)), LongEnough, 0)
      else if draw(0) < p then EndVerdict(true, Some(Pick(NaturalFarewells(partner), pick)), NaturalEnding, 1)
      else
        match answer
        case NoClient =>
          if n > 20 then EndVerdict(true, Some("Hey, I should get going. Talk later!"), GettingLong, 1)
          else EndVerdict(false, None, KeepTalking, 1)
        case ModelFailed => EndVerdict(false, None, KeepTalking, 1)
        case ModelAnswer(e, f) => EndVerdict(e, if e then f else None, ModelDecided, 1)
  }

  /**
   * The end gate's ladder: with a database, fewer than three messages end
   * only on a rude last message, ten or more always end with a farewell,
   * and in between a draw below 0.15 + 0.1·(n − 3) ends the conversation.
   * The "getting long" fallback for more than twenty messages can never be
   * reached, because ten messages already force the end.
   */
  lemma EndLadder(n: nat, lastRude: bool, answer: EndAnswer, partner: string, draw: nat -> real, pick: nat)
    ensures var v := DecideEnd(true, n, lastRude, answer, partner, draw, pick);
            (n < 3 ==> (v.end <==> lastRude))
            && (n >= 10 ==> v.end && v.farewell.Some?)
            && (3 <= n < 10 && draw(0) < 0.15 + (n as real - 3.0) * 0.10 ==> v.end && v.farewell.Some?)
            && (3 <= n < 10 && draw(0) >= 0.15 + (n as real - 3.0) * 0.10 && !answer.ModelAnswer? ==> !v.end)
            && v.reason != GettingLong
  {
    if 3 <= n < 10 {
      EndProbabilityBelowCap(n);
    }
  }

  /** Without a database the conversation ends only after three messages, on a draw below 0.2. */
  lemma EndWithoutDatabase(n: nat, lastRude: bool, answer: EndAnswer, partner: string, draw: nat -> real, pick: nat)
    ensures var v := DecideEnd(false, n, lastRude, answer, partner, draw, pick);
            v.end <==> n >= 3 && draw(0) < 0.2
  {
  }

  /**
   * A draw is consumed only when its branch is reached: two draw streams
   * that agree on the draws a gate consumed give the same decision.
   */
  lemma GatesReadOnlyConsumedDraws(database: bool, memory: Option<SocialMemory>, n: nat, lastRude: bool,
                                   answer: EndAnswer, partner: string, d1: nat -> real, d2: nat -> real, k: nat)
    ensures (forall i :: 0 <= i < DecideAccept(database, memory, d1).draws ==> d1(i) == d2(i)) ==>
              DecideAccept(database, memory, d1) == DecideAccept(database, memory, d2)
    ensures (forall i :: 0 <= i < DecideInitiate(database, memory, d1, k).draws ==> d1(i) == d2(i)) ==>
              DecideInitiate(database, memory, d1, k) == DecideInitiate(database, memory, d2, k)
    ensures (forall i :: 0 <= i < DecideEnd(database, n, lastRude, answer, partner, d1, k).draws ==> d1(i) == d2(i)) ==>
              DecideEnd(database, n, lastRude, answer, partner, d1, k) == DecideEnd(database, n, lastRude, answer, partner, d2, k)
  {
  }

  // ---------------------------------------------------------------------
  // After a conversation
  // ---------------------------------------------------------------------

  /** `int(5 + 5·s)` clamped to 1..10: the score stored with each memory. */
  function ConversationScore(sentiment: real): (score: int)
    ensures 1 <= score <= 10
  {
    ClampInt(Trunc(5.0 + sentiment * 5.0), 1, 10)
  }

  lemma TruncMonotone(x: real, y: real)
    requires x <= y
    ensures Trunc(x) <= Trunc(y)
  {
  }

  /**
   * The score is monotone in sentiment, neutral sentiment scores 5, full
   * sentiment scores 10, and anything at or below −0.8 scores 1.
   */
  lemma ConversationScoreShape(s: real, t: real)
    ensures s <= t ==> ConversationScore(s) <= ConversationScore(t)
    ensures ConversationScore(0.0) == 5
    ensures s >= 1.0 ==> ConversationScore(s) == 10
    ensures s <= -0.8 ==> ConversationScore(s) == 1
  {
    if s <= t {
      TruncMonotone(5.0 + s * 5.0, 5.0 + t * 5.0);
    }
  }

  /** One message of a transcript, as far as the end processing looks at it. */
  datatype TranscriptMessage = TranscriptMessage(senderId: Option<string>, isPlayerControlled: bool)

  /** What was learned about one participant; a missing key is `None`. */
  datatype PersonProfile = PersonProfile(
    personalityTraits: Option<seq<string>>,
    revealedInfo: Option<string>,
    moodInConversation: Option<string>,
    communicationStyle: Option<string>,
    interests: Option<seq<string>>)

  /** A profile dict is truthy when it holds any key. */
  predicate ProfileGiven(p: Option<PersonProfile>)
  {
    p.Some? && p.value != PersonProfile(None, None, None, None, None)
  }

  /** The analysis of a finished conversation; a key it did not return is `None`. */
  datatype ConversationAnalysis = ConversationAnalysis(
    summary: Option<string>,
    sentimentA: Option<real>,
    sentimentB: Option<real>,
    topics: Option<seq<string>>,
    profileA: Option<PersonProfile>,
    profileB: Option<PersonProfile>,
    mutualInterests: Option<seq<string>>,
    relationshipNotes: Option<string>,
    historySummary: Option<string>,
    stateChangesA: Option<map<string, real>>,
    stateChangesB: Option<map<string, real>>,
    familiarityIncrease: Option<real>)

  /** The participant sent at least one message typed by a player. */
  predicate HasPlayerMessage(transcript: seq<TranscriptMessage>, participant: string)
  {
    exists i :: 0 <= i < |transcript| && transcript[i].senderId == Some(participant) && transcript[i].isPlayerControlled
  }

  /** `", ".join(topics[:5])`, or nothing for no topics. */
  function TopicLine(topics: seq<string>): (t: Option<string>)
    ensures t.None? <==> |topics| == 0
  {
    if |topics| == 0 then None else Some(Join(Take(topics, 5), ", "))
  }

  /** The writes `process_conversation_end` makes, in terms of their values. */
  datatype EndOutcome =
    | EmptyConversation
    | DatabaseUnavailable
    | Processed(
        summary: string,
        sentimentChangeA: real,
        sentimentChangeB: real,
        learnA: bool,
        learnB: bool,
        edgeAB: SocialMemory,
        edgeBA: SocialMemory,
        stateA: AgentState,
        stateB: AgentState,
        scoreA: int,
        scoreB: int)

  /**
   * `process_conversation_end`. The relationship edges follow the manual
   * upsert the code falls back to; the stored states and edges before the
   * call are inputs, as is the analysis.
   */
  function ProcessConversationEnd(transcript: seq<TranscriptMessage>, a: string, b: string, database: bool,
                                  analysis: ConversationAnalysis,
                                  storedA: Option<AgentState>, storedB: Option<AgentState>,
                                  edgeAB: Option<SocialMemory>, edgeBA: Option<SocialMemory>, now: real)
    : (r: EndOutcome)
    ensures |transcript| == 0 <==> r.EmptyConversation?
    ensures r.DatabaseUnavailable? <==> |transcript| > 0 && !database
  {
    if |transcript| == 0 then EmptyConversation
    else if !database then DatabaseUnavailable
    else
      var summary := GetOr(analysis.summary, "Had a conversation");
      var sa := GetOr(analysis.sentimentA, 0.0);
      var sb := GetOr(analysis.sentimentB, 0.0);
      var topic := TopicLine(GetOr(analysis.topics, []));
      var mutual := GetOr(analysis.mutualInterests, []);
      var history := GetOr(analysis.historySummary, summary);
      var familiarity := GetOr(analysis.familiarityIncrease, 0.05);
      Processed(
        summary, sa * 0.15, sb * 0.15,
        ProfileGiven(analysis.profileA) && HasPlayerMessage(transcript, a),
        ProfileGiven(analysis.profileB) && HasPlayerMessage(transcript, b),
        DetailedUpsert(edgeAB, a, b, sa * 0.15, familiarity, topic, Some(mutual), analysis.relationshipNotes, Some(history), now),
        DetailedUpsert(edgeBA, b, a, sb * 0.15, familiarity, topic, Some(mutual), analysis.relationshipNotes, Some(history), now),
        UpdateStateWithChanges(storedA, GetOr(analysis.stateChangesA, DefaultStateChanges)),
        UpdateStateWithChanges(storedB, GetOr(analysis.stateChangesB, DefaultStateChanges)),
        ConversationScore(sa), ConversationScore(sb))
  }

  /**
   * After a non-empty conversation: each side's sentiment moves by 0.15 of
   * its analysed sentiment (so by at most 0.15 for sentiment in [−1, 1]),
   * each edge counts one more interaction and stays in range, both states
   * stay valid, the scores lie in 1..10, and a profile is learned only from
   * a participant who typed at least one message as a player.
   */
  lemma ConversationEndEffects(transcript: seq<TranscriptMessage>, a: string, b: string,
                               analysis: ConversationAnalysis,
                               storedA: Option<AgentState>, storedB: Option<AgentState>,
                               edgeAB: Option<SocialMemory>, edgeBA: Option<SocialMemory>, now: real)
    requires |transcript| > 0
    requires edgeAB.Some? ==> ValidMemory(edgeAB.value)
    requires edgeBA.Some? ==> ValidMemory(edgeBA.value)
    ensures var r := ProcessConversationEnd(transcript, a, b, true, analysis, storedA, storedB, edgeAB, edgeBA, now);
            var sa := GetOr(analysis.sentimentA, 0.0);
            r.Processed?
            && r.sentimentChangeA == 0.15 * sa
            && (-1.0 <= sa <= 1.0 ==> -0.15 <= r.sentimentChangeA <= 0.15)
            && ValidMemory(r.edgeAB) && ValidMemory(r.edgeBA)
            && (edgeAB.Some? ==> r.edgeAB.interactionCount == edgeAB.value.interactionCount + 1)
            && (edgeAB.None? ==> r.edgeAB.interactionCount == 1)
            && ValidState(r.stateA) && ValidState(r.stateB)
            && 1 <= r.scoreA <= 10 && 1 <= r.scoreB <= 10
            && (r.learnA ==> HasPlayerMessage(transcript, a))
            && (r.learnB ==> HasPlayerMessage(transcript, b))
  {
    var sa := GetOr(analysis.sentimentA, 0.0);
    if -1.0 <= sa <= 1.0 {
      assert -0.15 <= 0.15 * sa <= 0.15;
    }
  }

  // ---------------------------------------------------------------------
  // The detailed relationship edge
  // ---------------------------------------------------------------------

  /** Appending a conversation summary to the running history. */
  function AppendSummary(history: Option<string>, summary: string): string
  {
    if Truthy(history) then history.value + "\n---\n" + summary else summary
  }

  /**
   * The manual fallback of `update_social_memory_detailed`, seen from
   * `from` toward `to`. An existing edge: sentiment and familiarity move by
   * the deltas and are clamped, the count grows by one, topic and notes are
   * replaced only when given, a given summary is appended to the history,
   * and given mutual interests are merged as a set. A new edge starts at
   * sentiment 0.5 + Δ, familiarity Δ, count 1.
   */
  function DetailedUpsert(existing: Option<SocialMemory>, from: string, to: string,
                          sentimentDelta: real, familiarityDelta: real, topic: Option<string>,
                          mutualInterests: Option<seq<string>>, notes: Option<string>,
                          summary: Option<string>, now: real): (m: SocialMemory)
    ensures m.lastInteraction == Some(now)
    ensures existing.Some? && ValidMemory(existing.value) ==> ValidMemory(m)
    ensures existing.None? ==> ValidMemory(m)
  {
    var given := mutualInterests.Some? && |mutualInterests.value| > 0;
    if existing.Some? then
      var e := existing.value;
      e.(sentiment := Max(-1.0, Min(1.0, e.sentiment + sentimentDelta)),
         familiarity := Max(0.0, Min(1.0, e.familiarity + familiarityDelta)),
         interactionCount := e.interactionCount + 1,
         lastInteraction := Some(now),
         lastTopic := if Truthy(topic) then topic else e.lastTopic,
         relationshipNotes := if Truthy(notes) then notes else e.relationshipNotes,
         historySummary := if Truthy(summary) then Some(AppendSummary(e.historySummary, summary.value))
                           else e.historySummary,
         mutualInterests := if given then Some(Dedup(GetOr(e.mutualInterests, []) + mutualInterests.value))
                            else e.mutualInterests)
    else
      SocialMemory(from, to, Max(-1.0, Min(1.0, 0.5 + sentimentDelta)), Max(0.0, Min(1.0, familiarityDelta)),
                   1, Some(now), topic, Some(if given then mutualInterests.value else []), summary, notes)
  }

  /**
   * Updating an existing edge: the numbers agree with the plain social
   * memory upsert, the old history is kept as a prefix, and the mutual
   * interests become the union of old and new, each listed once.
   */
  lemma DetailedExistingEdge(e: SocialMemory, from: string, to: string, ds: real, df: real, topic: Option<string>,
                             mutual: seq<string>, notes: Option<string>, summary: Option<string>, now: real)
    ensures var m := DetailedUpsert(Some(e), from, to, ds, df, topic, Some(mutual), notes, summary, now);
            var plain := UpdateSocialMemory(Some(e), from, to, ds, df, topic, now);
            m.sentiment == plain.sentiment && m.familiarity == plain.familiarity
            && m.interactionCount == plain.interactionCount && m.lastTopic == plain.lastTopic
            && m.fromAvatarId == e.fromAvatarId && m.toAvatarId == e.toAvatarId
            && (Truthy(summary) && Truthy(e.historySummary) ==>
                  m.historySummary.Some? && StartsWith(m.historySummary.value, e.historySummary.value + "\n---\n"))
            && (!Truthy(summary) ==> m.historySummary == e.historySummary)
            && (|mutual| > 0 ==>
                  m.mutualInterests.Some? && Distinct(m.mutualInterests.value)
                  && Elements(m.mutualInterests.value) == Elements(GetOr(e.mutualInterests, [])) + Elements(mutual))
            && (|mutual| == 0 ==> m.mutualInterests == e.mutualInterests)
  {
    var before := GetOr(e.mutualInterests, []);
    assert Elements(before + mutual) == Elements(before) + Elements(mutual);
    if Truthy(summary) && Truthy(e.historySummary) {
      var h := e.historySummary.value + "\n---\n";
      assert AppendSummary(e.historySummary, summary.value) == h + summary.value;
      assert (h + summary.value)[..|h|] == h;
    }
  }

  /** A new edge starts from 0.5 + Δ sentiment and count 1, keeping the given text as is. */
  lemma DetailedNewEdge(from: string, to: string, ds: real, df: real, topic: Option<string>,
                        mutual: Option<seq<string>>, notes: Option<string>, summary: Option<string>, now: real)
    ensures var m := DetailedUpsert(None, from, to, ds, df, topic, mutual, notes, summary, now);
            m.fromAvatarId == from && m.toAvatarId == to
            && m.sentiment == Clamp(0.5 + ds, -1.0, 1.0) && m.familiarity == Clamp(df, 0.0, 1.0)
            && m.interactionCount == 1 && m.lastTopic == topic
            && m.historySummary == summary && m.relationshipNotes == notes
            && m.mutualInterests == Some(if mutual.Some? then mutual.value else [])
  {
  }

  // ---------------------------------------------------------------------
  // The personality profile
  // ---------------------------------------------------------------------

  /** The observations `update_personality_profile` puts into one summary line. */
  function ProfileParts(p: PersonProfile): seq<string>
  {
    (if p.personalityTraits.Some? && |p.personalityTraits.value| > 0
     then ["Personality: " + Join(Take(p.personalityTraits.value, 5), ", ")] else [])
    + (if Truthy(p.revealedInfo) then ["Background: " + p.revealedInfo.value] else [])
    + (if Truthy(p.moodInConversation) then ["Typical mood: " + p.moodInConversation.value] else [])
  }

  function ProfileSummary(p: PersonProfile): Option<string>
  {
    var parts := ProfileParts(p);
    if |parts| == 0 then None else Some(Join(parts, ". "))
  }

  /** The note recorded about observed traits. */
  function TraitNote(p: PersonProfile): Option<string>
  {
    if p.personalityTraits.Some? && |p.personalityTraits.value| > 0
    then Some("Observed traits: " + Join(p.personalityTraits.value, ", "))
    else None
  }

  /** An empty string or list becomes NULL when written. */
  function NonEmpty<T>(s: seq<T>): Option<seq<T>>
  {
    if |s| == 0 then None else Some(s)
  }

  /** `list(set(a + b))[:cap]`. */
  function MergeCapped(a: seq<string>, b: seq<string>, cap: nat): seq<string>
  {
    Take(Dedup(a + b), cap)
  }

  /**
   * A capped merge lists distinct values of the union, as many as the
   * union has up to the cap, and all of them when the union fits.
   */
  lemma MergeCappedShape(a: seq<string>, b: seq<string>, cap: nat)
    requires cap > 0
    ensures var r := MergeCapped(a, b, cap);
            var union := Elements(a) + Elements(b);
            Distinct(r) && Elements(r) <= union
            && |r| == Min(|union| as real, cap as real) as int
            && (|r| == 0 <==> |union| == 0)
            && (|union| <= cap ==> Elements(r) == union)
  {
    assert Elements(a + b) == Elements(a) + Elements(b);
    DedupCard(a + b);
    TakeDistinct(Dedup(a + b), cap);
  }

  /** `(head + tail)[:cap]` keeps `head` in front whenever `head` fits. */
  lemma CappedKeepsHead(head: string, tail: string, cap: nat)
    requires |head| <= cap
    ensures StartsWith(Take(head + tail, cap), head)
  {
    assert (head + tail)[..|head|] == head;
    assert Take(head + tail, cap)[..|head|] == head;
  }

  /** The stored summary after appending a new observation. */
  function MergedSummary(stored: string, summary: Option<string>): string
  {
    if Truthy(summary) then
      if stored != "" then stored + "\n\n[Latest observation]: " + summary.value else summary.value
    else stored
  }

  /** The stored notes after adding a trait note. */
  function MergedNotes(stored: Option<string>, note: Option<string>): Option<string>
  {
    if note.Some? then
      if Truthy(stored) then Some(Take(stored.value + "; " + note.value, 1000)) else note
    else stored
  }

  datatype ProfileWrite = NoProfile | UpdatedProfile(row: Personality) | CreatedProfile(row: Personality)

  /**
   * `update_personality_profile`: merge what was learned about a person
   * into their stored personality, or create the row with neutral traits.
   */
  function UpdatePersonalityProfile(existing: Option<Personality>, profile: PersonProfile): (w: ProfileWrite)
    ensures w.NoProfile? <==> profile == PersonProfile(None, None, None, None, None)
    ensures w.UpdatedProfile? ==> existing.Some?
    ensures w.CreatedProfile? ==> existing.None? && ValidPersonality(w.row)
  {
    if profile == PersonProfile(None, None, None, None, None) then NoProfile
    else
      var summary := ProfileSummary(profile);
      var interests := GetOr(profile.interests, []);
      if existing.Some? then
        var cur := existing.value;
        var merged := MergedSummary(GetOr(cur.profileSummary, ""), summary);
        var style := if Truthy(profile.communicationStyle) then profile.communicationStyle else cur.communicationStyle;
        UpdatedProfile(cur.(
          profileSummary := if merged != "" then Some(Take(merged, 2000)) else None,
          communicationStyle := if Truthy(style) then Some(Take(style.value, 500)) else None,
          interests := NonEmpty(MergeCapped(GetOr(cur.interests, []), interests, 20)),
          conversationTopics := NonEmpty(MergeCapped(GetOr(cur.conversationTopics, []), interests, 15)),
          personalityNotes := MergedNotes(cur.personalityNotes, TraitNote(profile))))
      else
        CreatedProfile(DefaultPersonality().(
          profileSummary := if Truthy(summary) then Some(Take(summary.value, 2000)) else None,
          communicationStyle := if Truthy(profile.communicationStyle)
                                then Some(Take(profile.communicationStyle.value, 500)) else None,
          interests := NonEmpty(interests)))
  }

  /**
   * Merging text into an existing row: the summary is cut to 2000
   * characters and keeps the old summary in front of the new observation,
   * the style is cut to 500, and notes are joined with "; " and cut to 1000
   * characters, keeping the old notes in front; the numeric traits and
   * affinities stay as they were.
   */
  lemma ProfileMergeText(cur: Personality, profile: PersonProfile)
    requires profile != PersonProfile(None, None, None, None, None)
    ensures var w := UpdatePersonalityProfile(Some(cur), profile);
            w.UpdatedProfile?
            && w.row.sociability == cur.sociability && w.row.curiosity == cur.curiosity
            && w.row.agreeableness == cur.agreeableness && w.row.energyBaseline == cur.energyBaseline
            && w.row.worldAffinities == cur.worldAffinities
            && (w.row.profileSummary.Some? ==> |w.row.profileSummary.value| <= 2000)
            && (Truthy(cur.profileSummary) && |cur.profileSummary.value| <= 2000 ==>
                  w.row.profileSummary.Some? && StartsWith(w.row.profileSummary.value, cur.profileSummary.value))
            && (w.row.communicationStyle.Some? ==> |w.row.communicationStyle.value| <= 500)
            && (Truthy(cur.personalityNotes) && TraitNote(profile).Some? ==>
                  |w.row.personalityNotes.value| <= 1000
                  && (|cur.personalityNotes.value| <= 1000 ==>
                        StartsWith(w.row.personalityNotes.value, cur.personalityNotes.value)))
            && (TraitNote(profile).None? ==> w.row.personalityNotes == cur.personalityNotes)
  {
    var summary := ProfileSummary(profile);
    if Truthy(cur.profileSummary) && |cur.profileSummary.value| <= 2000 {
      var o := cur.profileSummary.value;
      if Truthy(summary) {
        CappedKeepsHead(o, "\n\n[Latest observation]: " + summary.value, 2000);
        assert o + "\n\n[Latest observation]: " + summary.value == o + ("\n\n[Latest observation]: " + summary.value);
      } else {
        CappedKeepsHead(o, "", 2000);
        assert o + "" == o;
      }
    }
    if Truthy(cur.personalityNotes) && TraitNote(profile).Some? && |cur.personalityNotes.value| <= 1000 {
      var o := cur.personalityNotes.value;
      CappedKeepsHead(o, "; " + TraitNote(profile).value, 1000);
      assert o + "; " + TraitNote(profile).value == o + ("; " + TraitNote(profile).value);
    }
  }

  /**
   * Merging lists into an existing row: interests and topics are distinct
   * values from the union of the stored and the new interests, at most 20
   * and 15 of them, all of them when the union is that small, and NULL
   * exactly when the union is empty.
   */
  lemma ProfileMergeLists(cur: Personality, profile: PersonProfile)
    requires profile != PersonProfile(None, None, None, None, None)
    ensures var w := UpdatePersonalityProfile(Some(cur), profile);
            var union := Elements(GetOr(cur.interests, [])) + Elements(GetOr(profile.interests, []));
            var topicUnion := Elements(GetOr(cur.conversationTopics, [])) + Elements(GetOr(profile.interests, []));
            w.UpdatedProfile?
            && (w.row.interests.None? <==> |union| == 0)
            && (w.row.interests.Some? ==>
                  Distinct(w.row.interests.value) && Elements(w.row.interests.value) <= union
                  && |w.row.interests.value| == Min(|union| as real, 20.0) as int
                  && (|union| <= 20 ==> Elements(w.row.interests.value) == union))
            && (w.row.conversationTopics.None? <==> |topicUnion| == 0)
            && (w.row.conversationTopics.Some? ==>
                  Distinct(w.row.conversationTopics.value) && Elements(w.row.conversationTopics.value) <= topicUnion
                  && |w.row.conversationTopics.value| == Min(|topicUnion| as real, 15.0) as int
                  && (|topicUnion| <= 15 ==> Elements(w.row.conversationTopics.value) == topicUnion))
  {
    var interests := GetOr(profile.interests, []);
    MergeCappedShape(GetOr(cur.interests, []), interests, 20);
    MergeCappedShape(GetOr(cur.conversationTopics, []), interests, 15);
  }
}
