/**
 * The HTTP layer of the robot agents: the decision endpoint that turns a
 * robot's request into one response (answer a pending request, hold still
 * in a conversation or an activity, follow the utility-based decision, or
 * fall back to random behaviour), the random move target, the interest
 * scores of the fallback, the activity-completion endpoint and the admin
 * state patch.
 *
 * The database is a flag plus the rows it would return; every random
 * number is a parameter (`draw` for `random.random()`, `offset` and
 * `retry` for the move target's uniform draws).
 */
module MainApi {
  import opened Wrappers
  import opened Numeric
  import opened AgentModels
  import opened AgentEngine
  import opened AgentDatabase
  import opened AgentWorker
  import opened Conversation
  import opened AvatarModels

  // ---------------------------------------------------------------------
  // The request
  // ---------------------------------------------------------------------

  /** A pending conversation request; `expiresAtMs` is in milliseconds and 0 counts as unset. */
  datatype PendingRequest = PendingRequest(requestId: Option<string>, initiatorId: string, expiresAtMs: Option<real>)

  /** A nearby entity as the client reports it; a missing key is `None`. */
  datatype NearbyEntity = NearbyEntity(
    kind: Option<string>,
    entityId: Option<string>,
    x: Option<int>,
    y: Option<int>,
    conversationState: Option<string>)

  /** `AgentRequest`: where the robot is, what it sees, and what is waiting for it. */
  datatype AgentRequest = AgentRequest(
    robotId: string,
    x: int,
    y: int,
    mapWidth: int,
    mapHeight: int,
    nearby: seq<NearbyEntity>,
    conversationState: Option<string>,
    pending: seq<PendingRequest>)

  /** What the database would answer about the robot, or nothing when it is unavailable. */
  datatype Knowledge = Knowledge(
    database: bool,
    personality: Option<Personality>,
    state: Option<AgentState>,
    memories: map<string, SocialMemory>,
    locations: seq<WorldLocation>)

  /** The robot's stored edge towards `other`, when the database is there. */
  function MemoryOf(k: Knowledge, other: string): (m: Option<SocialMemory>)
    ensures m.Some? ==> k.database && other in k.memories
  {
    if k.database && other in k.memories then Some(k.memories[other]) else None
  }

  /** Another player or robot. */
  predicate Peer(req: AgentRequest, e: NearbyEntity)
  {
    (e.kind == Some("PLAYER") || e.kind == Some("ROBOT")) && e.entityId != Some(req.robotId)
  }

  /** An entity whose conversation state is set and not "IDLE" is busy; a missing one counts as idle. */
  predicate Busy(e: NearbyEntity)
  {
    Truthy(e.conversationState) && e.conversationState.value != "IDLE"
  }

  predicate Eligible(req: AgentRequest, e: NearbyEntity)
  {
    Peer(req, e) && !Busy(e)
  }

  // ---------------------------------------------------------------------
  // The random move target
  // ---------------------------------------------------------------------

  const Margin: int := 2

  function MaxX(req: AgentRequest): (m: int)
    ensures m >= Margin + 1
  {
    if Margin + 1 > req.mapWidth - Margin - 1 then Margin + 1 else req.mapWidth - Margin - 1
  }

  function MaxY(req: AgentRequest): (m: int)
    ensures m >= Margin + 1
  {
    if Margin + 1 > req.mapHeight - Margin - 1 then Margin + 1 else req.mapHeight - Margin - 1
  }

  /** A zero coordinate counts as unknown and is replaced by the middle of the range. */
  function CurrentX(req: AgentRequest): int
  {
    if req.x != 0 then req.x else MaxX(req) / 2
  }

  function CurrentY(req: AgentRequest): int
  {
    if req.y != 0 then req.y else MaxY(req) / 2
  }

  predicate InBounds(req: AgentRequest, p: (int, int))
  {
    Margin <= p.0 <= MaxX(req) && Margin <= p.1 <= MaxY(req)
  }

  /** The current position moved by an offset, truncated toward zero and clamped into the bounds. */
  function Candidate(req: AgentRequest, offset: (real, real)): (p: (int, int))
    ensures InBounds(req, p)
  {
    (ClampInt(Trunc(CurrentX(req) as real + offset.0), Margin, MaxX(req)),
     ClampInt(Trunc(CurrentY(req) as real + offset.1), Margin, MaxY(req)))
  }

  /** The cell an entity occupies; a missing coordinate is −1. */
  function Cell(e: NearbyEntity): (int, int)
  {
    (GetOr(e.x, -1), GetOr(e.y, -1))
  }

  /** The cells occupied by the first `n` entities. */
  function Obstacles(es: seq<NearbyEntity>): (cells: set<(int, int)>)
    ensures forall i :: 0 <= i < |es| ==> Cell(es[i]) in cells
    ensures forall c :: c in cells ==> exists i :: 0 <= i < |es| && Cell(es[i]) == c
  {
    if |es| == 0 then {}
    else
      var rest := Obstacles(es[..|es| - 1]);
      assert forall i :: 0 <= i < |es| - 1 ==> es[..|es| - 1][i] == es[i];
      rest + {Cell(es[|es| - 1])}
  }

  /**
   * The retry loop from check `k` on: a free target is kept; a blocked one
   * is replaced by the candidate of the `k`-th retry offset. After the
   * hundredth check the last replacement is returned unchecked.
   */
  function Settle(req: AgentRequest, t: (int, int), retry: nat -> (real, real), k: nat): (int, int)
    decreases 100 - k
  {
    if k >= 100 || t !in Obstacles(req.nearby) then t
    else Settle(req, Candidate(req, retry(k)), retry, k + 1)
  }

  /**
   * `get_random_move_target`, given the blended social and random offset
   * (`offset`) and the hundred retry offsets drawn from [−10, 10]².
   */
  function MoveTarget(req: AgentRequest, offset: (real, real), retry: nat -> (real, real)): (int, int)
  {
    Settle(req, Candidate(req, offset), retry, 0)
  }

  lemma {:induction false} SettleInBounds(req: AgentRequest, t: (int, int), retry: nat -> (real, real), k: nat)
    requires InBounds(req, t)
    ensures InBounds(req, Settle(req, t, retry, k))
    decreases 100 - k
  {
    if k < 100 && t in Obstacles(req.nearby) {
      SettleInBounds(req, Candidate(req, retry(k)), retry, k + 1);
    }
  }

  /** A target that ends on an obstacle was blocked at every check from `k` on. */
  lemma {:induction false} SettleBlocked(req: AgentRequest, t: (int, int), retry: nat -> (real, real), k: nat)
    requires k <= 100
    requires Settle(req, t, retry, k) in Obstacles(req.nearby)
    ensures k < 100 ==> t in Obstacles(req.nearby)
    ensures forall j :: k <= j < 99 ==> Candidate(req, retry(j)) in Obstacles(req.nearby)
    decreases 100 - k
  {
    if k < 100 {
      SettleBlocked(req, Candidate(req, retry(k)), retry, k + 1);
    }
  }

  /**
   * The move target lies in [2, max(3, W − 3)] × [2, max(3, H − 3)], and it
   * lands on an entity's cell only if the first candidate and the first 99
   * retries were all blocked.
   */
  lemma MoveTargetProperties(req: AgentRequest, offset: (real, real), retry: nat -> (real, real))
    ensures InBounds(req, MoveTarget(req, offset, retry))
    ensures MoveTarget(req, offset, retry) in Obstacles(req.nearby) ==>
              Candidate(req, offset) in Obstacles(req.nearby)
              && forall j :: 0 <= j < 99 ==> Candidate(req, retry(j)) in Obstacles(req.nearby)
  {
    SettleInBounds(req, Candidate(req, offset), retry, 0);
    if MoveTarget(req, offset, retry) in Obstacles(req.nearby) {
      SettleBlocked(req, Candidate(req, offset), retry, 0);
    }
  }

  /** With no entity around, the first candidate is taken. */
  lemma MoveTargetFree(req: AgentRequest, offset: (real, real), retry: nat -> (real, real))
    requires |req.nearby| == 0
    ensures MoveTarget(req, offset, retry) == Candidate(req, offset)
  {
  }

  /** The obstacle set built entity by entity, then the retry loop run on it. */
  method RandomMoveTarget(req: AgentRequest, offset: (real, real), retry: nat -> (real, real)) returns (r: AgentResponse)
    ensures r == MoveResponse(MoveTarget(req, offset, retry).0, MoveTarget(req, offset, retry).1)
  {
    var obstacles: set<(int, int)> := {};
    for i := 0 to |req.nearby|
      invariant obstacles == Obstacles(req.nearby[..i])
    {
      assert req.nearby[..i + 1][..i] == req.nearby[..i];
      obstacles := obstacles + {Cell(req.nearby[i])};
    }
    assert req.nearby[..|req.nearby|] == req.nearby;
    var t := Candidate(req, offset);
    var k := 0;
    var settled := false;
    while k < 100 && !settled
      invariant 0 <= k <= 100
      invariant Settle(req, t, retry, k) == MoveTarget(req, offset, retry)
      invariant settled ==> t !in obstacles
      decreases 100 - k, !settled
    {
      if t !in obstacles {
        settled := true;
      } else {
        t := Candidate(req, retry(k));
        k := k + 1;
      }
    }
    r := MoveResponse(t.0, t.1);
  }

  // ---------------------------------------------------------------------
  // Interest scores of the fallback
  // ---------------------------------------------------------------------

  /** The personality-based score needs the database, a personality and a state. */
  predicate KnowsSelf(k: Knowledge)
  {
    k.database && k.personality.Some? && k.state.Some?
  }

  function MemoryBonus(m: Option<SocialMemory>): real
  {
    if m.Some? then m.value.sentiment * 0.2 + m.value.familiarity * 0.1 else 0.0
  }

  /**
   * `calculate_ai_interest_to_initiate`: from personality, loneliness above
   * one half, the stored edge and a preference for players; otherwise a
   * random score around 0.3 (`r` is the one draw it uses).
   */
  function InterestToInitiate(k: Knowledge, targetId: string, targetType: string, r: real): (v: real)
    ensures 0.0 <= v <= 1.0
  {
    if KnowsSelf(k) then
      var base := k.personality.value.sociability * 0.5;
      var lonely := if k.state.value.loneliness > 0.5 then (k.state.value.loneliness - 0.5) * 0.4 else 0.0;
      var player := if targetType == "PLAYER" then 0.2 else 0.0;
      Clamp(base + lonely + MemoryBonus(MemoryOf(k, targetId)) + player, 0.0, 1.0)
    else Clamp(0.3 + (r - 0.5) * 2.0 * 0.2, 0.0, 1.0)
  }

  /** The score is the clamped sum of its terms, or a random score in [0.1, 0.5]. */
  lemma InitiateInterestForm(k: Knowledge, targetId: string, targetType: string, r: real)
    requires 0.0 <= r < 1.0
    ensures KnowsSelf(k) ==>
              var p := k.personality.value;
              var L := k.state.value.loneliness;
              var m := MemoryOf(k, targetId);
              InterestToInitiate(k, targetId, targetType, r) ==
                Clamp(0.5 * p.sociability + 0.4 * Max(0.0, L - 0.5)
                      + (if m.Some? then 0.2 * m.value.sentiment + 0.1 * m.value.familiarity else 0.0)
                      + (if targetType == "PLAYER" then 0.2 else 0.0), 0.0, 1.0)
    ensures !KnowsSelf(k) ==> 0.1 <= InterestToInitiate(k, targetId, targetType, r) < 0.5
  {
  }

  /** A player is preferred: never less interest than in a robot with the same edge. */
  lemma PlayersPreferred(k: Knowledge, targetId: string, r: real)
    ensures InterestToInitiate(k, targetId, "ROBOT", r) <= InterestToInitiate(k, targetId, "PLAYER", r)
  {
  }

  /**
   * `calculate_ai_interest_to_accept`: a player is always welcome; a robot
   * is scored from agreeableness and the stored edge, with a penalty below
   * sentiment −0.3; otherwise a random score around 0.5.
   */
  function InterestToAccept(k: Knowledge, initiatorId: string, initiatorType: string, r: real): (v: real)
    ensures 0.0 <= v <= 1.0
    ensures initiatorType == "PLAYER" ==> v == 1.0
  {
    if initiatorType == "PLAYER" then 1.0
    else if k.database && k.personality.Some? then
      var m := MemoryOf(k, initiatorId);
      var base := k.personality.value.agreeableness * 0.6 + 0.3;
      var social := if m.Some? then m.value.sentiment * 0.2 - (if m.value.sentiment < -0.3 then 0.3 else 0.0) else 0.0;
      Clamp(base + social, 0.0, 1.0)
    else Clamp(0.5 + (r - 0.5) * 2.0 * 0.2, 0.0, 1.0)
  }

  /** Without the database or a personality the accept score is random in [0.3, 0.7). */
  lemma AcceptInterestForm(k: Knowledge, initiatorId: string, initiatorType: string, r: real)
    requires 0.0 <= r < 1.0
    ensures initiatorType != "PLAYER" && !(k.database && k.personality.Some?) ==>
              0.3 <= InterestToAccept(k, initiatorId, initiatorType, r) < 0.7
    ensures initiatorType != "PLAYER" && k.database && k.personality.Some? && initiatorId !in k.memories ==>
              InterestToAccept(k, initiatorId, initiatorType, r) ==
                Clamp(0.6 * k.personality.value.agreeableness + 0.3, 0.0, 1.0)
  {
  }

  /** A hostile edge (sentiment below −0.3) lowers the accept score below what a neutral edge gives. */
  lemma HostileLowersAccept(k: Knowledge, initiatorId: string, r: real)
    requires k.database && k.personality.Some? && initiatorId in k.memories
    requires k.memories[initiatorId].sentiment < -0.3
    ensures var neutral := k.(memories := k.memories[initiatorId := k.memories[initiatorId].(sentiment := 0.0)]);
            InterestToAccept(k, initiatorId, "ROBOT", r) <= InterestToAccept(neutral, initiatorId, "ROBOT", r)
  {
  }

  /** `should_ai_initiate` / `should_ai_accept`: a fresh draw below the score. */
  function ShouldAct(interest: real, r: real): (yes: bool)
    ensures interest >= 1.0 && r < 1.0 ==> yes
    ensures interest <= 0.0 && r >= 0.0 ==> !yes
  {
    r < interest
  }

  // ---------------------------------------------------------------------
  // The fallback decision
  // ---------------------------------------------------------------------

  /** The random draws the interest score of the entity at position `d` uses. */
  function InterestDraws(k: Knowledge): nat
  {
    if KnowsSelf(k) then 0 else 1
  }

  /**
   * The fallback's scan from entity `i` on, with draws consumed from `d`:
   * each eligible entity costs its interest draws plus one for the
   * decision; the first one chosen is returned.
   */
  function ScanPeers(req: AgentRequest, k: Knowledge, draw: nat -> real, i: nat, d: nat): (r: Option<Option<string>>)
    decreases |req.nearby| - i
  {
    if i >= |req.nearby| then None
    else
      var e := req.nearby[i];
      if !Eligible(req, e) then ScanPeers(req, k, draw, i + 1, d)
      else
        var interest := InterestToInitiate(k, GetOr(e.entityId, ""), GetOr(e.kind, "ROBOT"), draw(d));
        var d' := d + InterestDraws(k);
        if ShouldAct(interest, draw(d')) then Some(e.entityId) else ScanPeers(req, k, draw, i + 1, d' + 1)
  }

  /** A chosen entity is an eligible one at or after `i`; with none eligible, none is chosen. */
  lemma {:induction false} ScanPeersEligible(req: AgentRequest, k: Knowledge, draw: nat -> real, i: nat, d: nat)
    ensures ScanPeers(req, k, draw, i, d).Some? ==>
              exists j :: i <= j < |req.nearby| && Eligible(req, req.nearby[j])
                          && req.nearby[j].entityId == ScanPeers(req, k, draw, i, d).value
    ensures (forall j :: i <= j < |req.nearby| ==> !Eligible(req, req.nearby[j])) ==>
              ScanPeers(req, k, draw, i, d).None?
    decreases |req.nearby| - i
  {
    if i < |req.nearby| {
      var e := req.nearby[i];
      var d' := d + InterestDraws(k);
      ScanPeersEligible(req, k, draw, i + 1, d);
      ScanPeersEligible(req, k, draw, i + 1, d' + 1);
    }
  }

  /** The conversation state is set and not "IDLE". */
  predicate InSomeConversation(req: AgentRequest)
  {
    Truthy(req.conversationState) && req.conversationState.value != "IDLE"
  }

  /** `get_fallback_decision` as a value. */
  function Fallback(req: AgentRequest, k: Knowledge, draw: nat -> real, offset: (real, real), retry: nat -> (real, real)): AgentResponse
  {
    if InSomeConversation(req) then StandStillResponse(0.5)
    else
      match ScanPeers(req, k, draw, 0, 0)
      case Some(id) => RequestConversation(id)
      case None => MoveResponse(MoveTarget(req, offset, retry).0, MoveTarget(req, offset, retry).1)
  }

  /**
   * The fallback holds still in any conversation, otherwise requests a
   * conversation only with an eligible (idle, other) player or robot, and
   * otherwise moves inside the bounds.
   */
  lemma FallbackProperties(req: AgentRequest, k: Knowledge, draw: nat -> real, offset: (real, real), retry: nat -> (real, real))
    ensures var r := Fallback(req, k, draw, offset, retry);
            (InSomeConversation(req) ==> r == StandStillResponse(0.5))
            && (!InSomeConversation(req) ==>
                  (r.action == "REQUEST_CONVERSATION" ==>
                     exists j :: 0 <= j < |req.nearby| && Eligible(req, req.nearby[j]) && r.targetEntityId == req.nearby[j].entityId)
                  && (r.action != "REQUEST_CONVERSATION" ==>
                        r.action == "MOVE" && InBounds(req, (r.targetX.value, r.targetY.value))))
            && ((forall j :: 0 <= j < |req.nearby| ==> !Eligible(req, req.nearby[j])) && !InSomeConversation(req) ==>
                  r == MoveResponse(MoveTarget(req, offset, retry).0, MoveTarget(req, offset, retry).1))
  {
    ScanPeersEligible(req, k, draw, 0, 0);
    MoveTargetProperties(req, offset, retry);
  }

  /** The entity scan as a loop over the nearby entities, then the random move. */
  method FallbackDecision(req: AgentRequest, k: Knowledge, draw: nat -> real, offset: (real, real), retry: nat -> (real, real))
    returns (r: AgentResponse)
    ensures r == Fallback(req, k, draw, offset, retry)
  {
    if InSomeConversation(req) {
      return StandStillResponse(0.5);
    }
    var d: nat := 0;
    for i := 0 to |req.nearby|
      invariant ScanPeers(req, k, draw, i, d) == ScanPeers(req, k, draw, 0, 0)
    {
      var e := req.nearby[i];
      if Eligible(req, e) {
        var interest := InterestToInitiate(k, GetOr(e.entityId, ""), GetOr(e.kind, "ROBOT"), draw(d));
        d := d + InterestDraws(k);
        if ShouldAct(interest, draw(d)) {
          return RequestConversation(e.entityId);
        }
        d := d + 1;
      }
    }
    r := RandomMoveTarget(req, offset, retry);
  }

  // ---------------------------------------------------------------------
  // The utility-based decision and its mapping to a response
  // ---------------------------------------------------------------------

  /**
   * `try_agent_decision_system`'s tick: without the database nothing; a
   * robot without a personality or state is initialised first (and nothing
   * comes back if that fails); then the first of up to three ticks that
   * returns a result.
   */
  function SystemResult(database: bool, hasAgent: bool, initOk: bool, tick: nat -> Option<TickResult>): (r: Option<TickResult>)
    ensures r.Some? ==> database && (hasAgent || initOk) && exists j :: 0 <= j < 3 && tick(j) == r
    ensures database && (hasAgent || initOk) && r.None? ==> forall j :: 0 <= j < 3 ==> tick(j).None?
  {
    if !database || (!hasAgent && !initOk) then None
    else if tick(0).Some? then tick(0)
    else if tick(1).Some? then tick(1)
    else tick(2)
  }

  /** The retry loop: at most three ticks, stopping at the first result. */
  method TryTicks(database: bool, hasAgent: bool, initOk: bool, tick: nat -> Option<TickResult>)
    returns (result: Option<TickResult>, attempts: nat)
    ensures result == SystemResult(database, hasAgent, initOk, tick)
    ensures attempts <= 3
    ensures result.Some? ==> attempts >= 1 && result == tick(attempts - 1)
    ensures forall j :: 0 <= j < attempts - 1 ==> tick(j).None?
  {
    if !database || (!hasAgent && !initOk) {
      return None, 0;
    }
    result := None;
    attempts := 0;
    while attempts < 3 && result.None?
      invariant 0 <= attempts <= 3
      invariant forall j :: 0 <= j < attempts ==> tick(j).None? || (j == attempts - 1 && result == tick(j))
      invariant result.Some? ==> attempts >= 1 && result == tick(attempts - 1)
      invariant result.None? ==> forall j :: 0 <= j < attempts ==> tick(j).None?
    {
      result := tick(attempts);
      attempts := attempts + 1;
    }
  }

  /** The move a target asks for, when it has both coordinates. */
  function TargetMove(t: Option<ActionTarget>): (r: Option<AgentResponse>)
    ensures r.Some? <==> t.Some? && t.value.x.Some? && t.value.y.Some?
    ensures r.Some? ==> r.value == MoveResponse(t.value.x.value, t.value.y.value)
  {
    if t.Some? && t.value.x.Some? && t.value.y.Some? then Some(MoveResponse(t.value.x.value, t.value.y.value)) else None
  }

  /** The location a target names, looked up only when the database is there. */
  function TargetLocation(k: Knowledge, t: Option<ActionTarget>): (r: Option<WorldLocation>)
    ensures r.Some? ==> k.database && t.Some? && Truthy(t.value.targetId) && r.value.id == t.value.targetId.value
  {
    if t.Some? && Truthy(t.value.targetId) && k.database then FindLocation(k.locations, t.value.targetId.value)
    else None
  }

  /** How long an interaction holds still: the worker's duration, else the location's, else 30, capped at one second. */
  function InteractHold(result: TickResult, k: Knowledge): (d: real)
    ensures d <= 1.0
  {
    var given := result.duration;
    var seconds :=
      if given.Some? && given.value > 0.0 then given.value
      else
        var loc := TargetLocation(k, result.target);
        if loc.Some? then loc.value.durationSeconds as real else 30.0;
    Min(seconds, 1.0)
  }

  /** The first idle player or robot other than the robot itself. */
  function FirstEligible(req: AgentRequest, es: seq<NearbyEntity>): (r: Option<NearbyEntity>)
    ensures r.Some? ==> r.value in es && Eligible(req, r.value)
    ensures r.None? ==> forall i :: 0 <= i < |es| ==> !Eligible(req, es[i])
  {
    if |es| == 0 then None
    else if Eligible(req, es[0]) then Some(es[0])
    else FirstEligible(req, es[1..])
  }

  /**
   * `map_agent_action_to_response`; `randomMove` is the random move target
   * used when the action does not say where to go. `None` sends the
   * decision to the fallback.
   */
  function MapActionToResponse(result: TickResult, req: AgentRequest, k: Knowledge, randomMove: (int, int)): Option<AgentResponse>
  {
    var a := ParseAction(result.action);
    var t := result.target;
    var random := MoveResponse(randomMove.0, randomMove.1);
    if a == Some(Idle) || a == Some(StandStill) then Some(random)
    else if a == Some(Wander) then (if TargetMove(t).Some? then TargetMove(t) else Some(random))
    else if a == Some(WalkToLocation) then
      if TargetMove(t).Some? then TargetMove(t)
      else
        var loc := TargetLocation(k, t);
        if loc.Some? then Some(MoveResponse(loc.value.x, loc.value.y)) else None
    else if a.Some? && IsInteract(a.value) then Some(StandStillResponse(InteractHold(result, k)))
    else if a == Some(InitiateConversation) then
      if t.Some? && Truthy(t.value.targetId) then Some(RequestConversation(t.value.targetId))
      else
        var e := FirstEligible(req, req.nearby);
        if e.Some? then Some(RequestConversation(e.value.entityId)) else None
    else if a == Some(JoinConversation) || a == Some(LeaveConversation) then Some(StandStillResponse(0.3))
    else if a == Some(AvoidAvatar) || a == Some(Move) then TargetMove(t)
    else None
  }

  /**
   * The mapping, action by action: idle and standing become a random move;
   * an interaction holds still at most a second; a conversation request
   * goes to the named target or to an eligible entity; an unknown action
   * yields nothing.
   */
  lemma MapActionProperties(result: TickResult, req: AgentRequest, k: Knowledge, randomMove: (int, int))
    ensures var r := MapActionToResponse(result, req, k, randomMove);
            (result.action == "idle" || result.action == "stand_still" ==> r == Some(MoveResponse(randomMove.0, randomMove.1)))
            && (ParseAction(result.action).None? ==> r.None?)
            && (result.action == "join_conversation" || result.action == "leave_conversation" ==> r == Some(StandStillResponse(0.3)))
            && (r.Some? && r.value.action == "STAND_STILL" ==> r.value.duration.value <= 1.0)
            && (result.action == "initiate_conversation" && r.Some? && !(result.target.Some? && Truthy(result.target.value.targetId)) ==>
                  exists i :: 0 <= i < |req.nearby| && Eligible(req, req.nearby[i]) && r.value.targetEntityId == req.nearby[i].entityId)
            && (result.action == "walk_to_location" && r.Some? && TargetMove(result.target).None? ==>
                  k.database && exists l :: l in k.locations && r.value == MoveResponse(l.x, l.y))
  {
    var a := ParseAction(result.action);
    if result.action == "initiate_conversation" {
      MapInitiateTarget(result, req, k, randomMove);
    }
    if result.action == "walk_to_location" {
      assert a == Some(WalkToLocation);
    }
    if result.action == "join_conversation" {
      assert a == Some(JoinConversation);
    }
    if result.action == "leave_conversation" {
      assert a == Some(LeaveConversation);
    }
  }

  /** Without a named target, a conversation is started with an eligible nearby entity. */
  lemma MapInitiateTarget(result: TickResult, req: AgentRequest, k: Knowledge, randomMove: (int, int))
    requires result.action == "initiate_conversation"
    ensures var r := MapActionToResponse(result, req, k, randomMove);
            r.Some? && !(result.target.Some? && Truthy(result.target.value.targetId)) ==>
              exists i :: 0 <= i < |req.nearby| && Eligible(req, req.nearby[i]) && r.value.targetEntityId == req.nearby[i].entityId
  {
    assert ParseAction(result.action) == Some(InitiateConversation);
    var e := FirstEligible(req, req.nearby);
    if e.Some? {
      var i :| 0 <= i < |req.nearby| && req.nearby[i] == e.value;
    }
  }

  // ---------------------------------------------------------------------
  // The decision endpoint
  // ---------------------------------------------------------------------

  /** The answer to the first pending request: a timed-out request is declined, else the accept gate decides. */
  function AnswerRequest(p: PendingRequest, nowMs: real, accepted: bool): (r: AgentResponse)
    ensures r.requestId == p.requestId
  {
    var expires := p.expiresAtMs;
    if expires.Some? && expires.value != 0.0 && nowMs >= expires.value - 1000.0 then Answer(false, p.requestId)
    else Answer(accepted, p.requestId)
  }

  /** The stored state says the robot is inside a location activity that has not expired. */
  predicate InActivity(k: Knowledge, now: real)
  {
    k.database && k.state.Some? && k.state.value.expiresAt.Some?
    && now < k.state.value.expiresAt.value
    && StartsWith(GetOr(k.state.value.currentAction, "idle"), "interact_")
  }

  /** Hold still for what is left of the activity, checking again after at most a second. */
  function ActivityHold(k: Knowledge, now: real): real
    requires InActivity(k, now)
  {
    Min(Min(k.state.value.expiresAt.value - now, 5.0), 1.0)
  }

  /**
   * Everything one decision depends on besides the request: the database
   * view, the clock (milliseconds for requests, seconds for the activity),
   * whether the robot has or can get an agent, the ticks of the decision
   * system and the random numbers.
   */
  datatype World = World(
    k: Knowledge,
    nowMs: real,
    now: real,
    hasAgent: bool,
    initOk: bool,
    tick: nat -> Option<TickResult>,
    draw: nat -> real,
    offset: (real, real),
    retry: nat -> (real, real))

  /** `get_agent_decision` as a value: the precedence of its branches. */
  function Decision(req: AgentRequest, w: World): AgentResponse
  {
    var moveTo := MoveTarget(req, w.offset, w.retry);
    if |req.pending| > 0 then
      var p := req.pending[0];
      AnswerRequest(p, w.nowMs, DecideAccept(w.k.database, MemoryOf(w.k, p.initiatorId), w.draw).yes)
    else if req.conversationState == Some("IN_CONVERSATION") then StandStillResponse(0.5)
    else if req.conversationState == Some("WALKING_TO_CONVERSATION") || req.conversationState == Some("PENDING_REQUEST") then StandStillResponse(0.3)
    else if InActivity(w.k, w.now) then StandStillResponse(ActivityHold(w.k, w.now))
    else
      var system := SystemResult(w.k.database, w.hasAgent, w.initOk, w.tick);
      var mapped := if system.Some? then MapActionToResponse(system.value, req, w.k, moveTo) else None;
      if mapped.Some? then mapped.value else Fallback(req, w.k, w.draw, w.offset, w.retry)
  }

  /**
   * The precedence of the decision: only the first pending request is
   * answered and a request within a second of expiry is declined; a
   * conversation holds still; an activity holds still for at most a
   * second; a robot that cannot reach the database always falls back.
   */
  lemma DecisionPrecedence(req: AgentRequest, w: World)
    ensures var r := Decision(req, w);
            (|req.pending| > 0 ==> r.requestId == req.pending[0].requestId
                                   && (r.action == "ACCEPT_CONVERSATION" || r.action == "REJECT_CONVERSATION"))
            && ((|req.pending| > 0 && req.pending[0].expiresAtMs.Some? && req.pending[0].expiresAtMs.value != 0.0
                 && w.nowMs >= req.pending[0].expiresAtMs.value - 1000.0) ==> r.action == "REJECT_CONVERSATION")
            && ((|req.pending| > 0 && !w.k.database && (req.pending[0].expiresAtMs.None? || req.pending[0].expiresAtMs.value == 0.0))
                ==> r.action == "ACCEPT_CONVERSATION")
            && (|req.pending| == 0 && req.conversationState == Some("IN_CONVERSATION") ==> r == StandStillResponse(0.5))
            && (|req.pending| == 0 && InActivity(w.k, w.now) && !InSomeConversation(req) ==>
                  r.action == "STAND_STILL" && 0.0 < r.duration.value <= 1.0)
            && (|req.pending| == 0 && !InSomeConversation(req) && !w.k.database ==>
                  r == Fallback(req, w.k, w.draw, w.offset, w.retry))
  {
  }

  /**
   * The endpoint: the branches in order, the retry loop of the decision
   * system, and the fallback's scan.
   */
  method GetAgentDecision(req: AgentRequest, w: World) returns (r: AgentResponse)
    ensures r == Decision(req, w)
  {
    if |req.pending| > 0 {
      var p := req.pending[0];
      var gate := DecideAccept(w.k.database, MemoryOf(w.k, p.initiatorId), w.draw);
      return AnswerRequest(p, w.nowMs, gate.yes);
    }
    if req.conversationState == Some("IN_CONVERSATION") {
      return StandStillResponse(0.5);
    }
    if req.conversationState == Some("WALKING_TO_CONVERSATION") || req.conversationState == Some("PENDING_REQUEST") {
      return StandStillResponse(0.3);
    }
    if InActivity(w.k, w.now) {
      return StandStillResponse(ActivityHold(w.k, w.now));
    }
    var system, _ := TryTicks(w.k.database, w.hasAgent, w.initOk, w.tick);
    if system.Some? {
      var mapped := MapActionToResponse(system.value, req, w.k, MoveTarget(req, w.offset, w.retry));
      if mapped.Some? {
        return mapped.value;
      }
    }
    r := FallbackDecision(req, w.k, w.draw, w.offset, w.retry);
  }

  // ---------------------------------------------------------------------
  // Completing an activity
  // ---------------------------------------------------------------------

  /** The need a location type restores, fully or in proportion to the progress. */
  function ActivityBase(s: AgentState, locationType: string, p: real, full: bool): AgentState
  {
    if locationType == "food" then
      s.(hunger := if full then 0.0 else Max(0.0, s.hunger * (1.0 - p)), mood := Min(1.0, s.mood + 0.1 * p))
    else if locationType == "rest_area" then
      s.(energy := if full then 1.0 else Min(1.0, s.energy + (1.0 - s.energy) * p), mood := Min(1.0, s.mood + 0.1 * p))
    else if locationType == "social_hub" then
      s.(loneliness := if full then 0.0 else Max(0.0, s.loneliness * (1.0 - p)), mood := Min(1.0, s.mood + 0.1 * p))
    else if locationType == "karaoke" then
      s.(mood := if full then 1.0 else Min(1.0, s.mood + (1.0 - s.mood) * p),
         loneliness := Max(0.0, s.loneliness - 0.3 * p))
    else if locationType == "wander_point" then
      s.(mood := Min(1.0, s.mood + 0.1 * p), energy := Max(0.0, s.energy - 0.05 * p))
    else s
  }

  /** One custom effect, scaled by the progress and clamped; an unknown stat is ignored. */
  function ApplyItem(s: AgentState, stat: string, delta: real): AgentState
  {
    if stat == "hunger" then s.(hunger := Clamp(s.hunger + delta, 0.0, 1.0))
    else if stat == "energy" then s.(energy := Clamp(s.energy + delta, 0.0, 1.0))
    else if stat == "loneliness" then s.(loneliness := Clamp(s.loneliness + delta, 0.0, 1.0))
    else if stat == "mood" then s.(mood := Clamp(s.mood + delta, -1.0, 1.0))
    else s
  }

  /** The first `n` custom effects in the order they are listed, each scaled by the progress. */
  function ApplyFirst(s: AgentState, items: seq<(string, real)>, n: nat, p: real): AgentState
    requires n <= |items|
  {
    if n == 0 then s
    else ApplyItem(ApplyFirst(s, items, n - 1, p), items[n - 1].0, items[n - 1].1 * p)
  }

  /** All the custom effects. */
  function ApplyItems(s: AgentState, items: seq<(string, real)>, p: real): AgentState
  {
    ApplyFirst(s, items, |items|, p)
  }

  /** The requested progress clamped to [0, 1]. */
  function Progress(requested: real): (p: real)
    ensures 0.0 <= p <= 1.0
  {
    Clamp(requested, 0.0, 1.0)
  }

  /** `complete_activity` as a value: the restored state, now idle with no target. */
  function CompletedState(stored: Option<AgentState>, locationType: string, effects: seq<(string, real)>,
                          requested: real, full: bool): AgentState
  {
    var s := if stored.Some? then stored.value else GenerateRandomState();
    var p := Progress(requested);
    ApplyItems(ActivityBase(s, locationType, p, full), effects, p).(currentAction := Some("idle"), target := None)
  }

  /**
   * The endpoint: 503 without the database; otherwise the base restoration
   * and the custom effects, applied field by field, and the new state with
   * the clamped progress.
   */
  method CompleteActivity(database: bool, stored: Option<AgentState>, locationType: string,
                          effects: seq<(string, real)>, requested: real, full: bool)
    returns (r: Result<(AgentState, real), int>)
    ensures !database ==> r == Failure(503)
    ensures database ==> r == Success((CompletedState(stored, locationType, effects, requested, full), Progress(requested)))
  {
    if !database {
      return Failure(503);
    }
    var p := Progress(requested);
    var s := if stored.Some? then stored.value else GenerateRandomState();
    s := ActivityBase(s, locationType, p, full);
    s := ApplyEffects(s, effects, p);
    s := s.(currentAction := Some("idle"), target := None);
    r := Success((s, p));
  }

  /** The custom effects loop: each known stat moves by its delta times the progress, clamped. */
  method ApplyEffects(start: AgentState, effects: seq<(string, real)>, p: real) returns (s: AgentState)
    ensures s == ApplyItems(start, effects, p)
  {
    s := start;
    for i := 0 to |effects|
      invariant s == ApplyFirst(start, effects, i, p)
    {
      assert ApplyFirst(start, effects, i + 1, p) == ApplyItem(ApplyFirst(start, effects, i, p), effects[i].0, effects[i].1 * p);
      s := ApplyItem(s, effects[i].0, effects[i].1 * p);
    }
  }

  lemma ScaleUnit(v: real, p: real)
    requires 0.0 <= v <= 1.0 && 0.0 <= p <= 1.0
    ensures 0.0 <= v * p <= v && 0.0 <= v * (1.0 - p) <= v
  {
  }

  lemma ScaleRoom(v: real, p: real)
    requires -1.0 <= v <= 1.0 && 0.0 <= p <= 1.0
    ensures 0.0 <= (1.0 - v) * p <= 1.0 - v
  {
  }

  /** Each location type keeps the needs in their ranges. */
  lemma ActivityBaseValid(s: AgentState, locationType: string, p: real, full: bool)
    requires ValidState(s) && 0.0 <= p <= 1.0
    ensures ValidState(ActivityBase(s, locationType, p, full))
  {
    if locationType == "food" {
      ScaleUnit(s.hunger, p);
    } else if locationType == "rest_area" {
      ScaleRoom(s.energy, p);
    } else if locationType == "social_hub" {
      ScaleUnit(s.loneliness, p);
    } else if locationType == "karaoke" {
      ScaleRoom(s.mood, p);
    }
  }

  lemma {:induction false} ApplyFirstValid(s: AgentState, items: seq<(string, real)>, n: nat, p: real)
    requires ValidState(s) && n <= |items|
    ensures ValidState(ApplyFirst(s, items, n, p))
  {
    if n > 0 {
      ApplyFirstValid(s, items, n - 1, p);
    }
  }

  /**
   * Completing an activity leaves every need in range and the robot idle;
   * a full completion with no custom effects empties hunger at food,
   * fills energy at a rest area, empties loneliness at a social hub and
   * fills mood at karaoke.
   */
  lemma CompletedStateProperties(stored: Option<AgentState>, locationType: string, effects: seq<(string, real)>,
                                 requested: real, full: bool)
    requires stored.Some? ==> ValidState(stored.value)
    ensures var r := CompletedState(stored, locationType, effects, requested, full);
            ValidState(r) && r.currentAction == Some("idle") && r.target.None?
    ensures |effects| == 0 && full ==>
              var r := CompletedState(stored, locationType, effects, requested, full);
              (locationType == "food" ==> r.hunger == 0.0)
              && (locationType == "rest_area" ==> r.energy == 1.0)
              && (locationType == "social_hub" ==> r.loneliness == 0.0)
              && (locationType == "karaoke" ==> r.mood == 1.0)
  {
    var s := if stored.Some? then stored.value else GenerateRandomState();
    var p := Progress(requested);
    ActivityBaseValid(s, locationType, p, full);
    ApplyFirstValid(ActivityBase(s, locationType, p, full), effects, |effects|, p);
  }

  /** Partial progress at food or a social hub removes that share of the need. */
  lemma PartialRestoration(s: AgentState, effects: seq<(string, real)>, requested: real)
    requires ValidState(s) && |effects| == 0
    ensures CompletedState(Some(s), "food", effects, requested, false).hunger == s.hunger * (1.0 - Progress(requested))
    ensures CompletedState(Some(s), "social_hub", effects, requested, false).loneliness == s.loneliness * (1.0 - Progress(requested))
  {
    ScaleUnit(s.hunger, Progress(requested));
    ScaleUnit(s.loneliness, Progress(requested));
  }

  predicate DistinctKeys(items: seq<(string, real)>)
  {
    forall i, j :: 0 <= i < j < |items| ==> items[i].0 != items[j].0
  }

  /** The first `n` effect items as a dict, each delta scaled by the progress. */
  function ScaledFirst(items: seq<(string, real)>, n: nat, p: real): map<string, real>
    requires n <= |items|
  {
    if n == 0 then map[] else ScaledFirst(items, n - 1, p)[items[n - 1].0 := items[n - 1].1 * p]
  }

  /** Only the keys among the first `n` items are in the map. */
  lemma {:induction false} ScaledFirstKeys(items: seq<(string, real)>, n: nat, p: real, key: string)
    requires n <= |items|
    requires forall i :: 0 <= i < n ==> items[i].0 != key
    ensures key !in ScaledFirst(items, n, p)
  {
    if n > 0 {
      ScaledFirstKeys(items, n - 1, p, key);
    }
  }

  lemma ClampInRange(v: real, lo: real, hi: real)
    requires lo <= v <= hi
    ensures Clamp(v + 0.0, lo, hi) == v
  {
  }

  /**
   * The custom effects of a dict (distinct keys) applied one by one to a
   * valid state give the same result as applying the scaled dict at once
   * with `apply_interaction_effects`: their order does not matter.
   */
  lemma ItemsAsEffects(s: AgentState, items: seq<(string, real)>, p: real)
    requires ValidState(s) && DistinctKeys(items)
    ensures ApplyItems(s, items, p) == ApplyInteractionEffects(s, ScaledFirst(items, |items|, p))
  {
    FirstAsEffects(s, items, |items|, p);
  }

  lemma {:induction false} FirstAsEffects(s: AgentState, items: seq<(string, real)>, n: nat, p: real)
    requires ValidState(s) && DistinctKeys(items) && n <= |items|
    ensures ApplyFirst(s, items, n, p) == ApplyInteractionEffects(s, ScaledFirst(items, n, p))
  {
    if n == 0 {
      EmptyEffects(s);
    } else {
      FirstAsEffects(s, items, n - 1, p);
      ScaledFirstKeys(items, n - 1, p, items[n - 1].0);
      EffectStep(s, ScaledFirst(items, n - 1, p), items[n - 1].0, items[n - 1].1 * p);
    }
  }

  lemma EmptyEffects(s: AgentState)
    requires ValidState(s)
    ensures ApplyInteractionEffects(s, map[]) == s
  {
    ClampInRange(s.energy, 0.0, 1.0);
    ClampInRange(s.hunger, 0.0, 1.0);
    ClampInRange(s.loneliness, 0.0, 1.0);
    ClampInRange(s.mood, -1.0, 1.0);
  }

  /** Applying one more key after a map without it is applying the extended map. */
  lemma EffectStep(s: AgentState, m: map<string, real>, key: string, delta: real)
    requires ValidState(s) && key !in m
    ensures ApplyItem(ApplyInteractionEffects(s, m), key, delta) == ApplyInteractionEffects(s, m[key := delta])
  {
    var m' := m[key := delta];
    if key == "hunger" {
      assert Effect(m', "hunger") == delta;
      ClampInRange(s.hunger, 0.0, 1.0);
    } else if key == "energy" {
      assert Effect(m', "energy") == delta;
      ClampInRange(s.energy, 0.0, 1.0);
    } else if key == "loneliness" {
      assert Effect(m', "loneliness") == delta;
      ClampInRange(s.loneliness, 0.0, 1.0);
    } else if key == "mood" {
      assert Effect(m', "mood") == delta;
      ClampInRange(s.mood, -1.0, 1.0);
    }
    assert forall n :: n != key ==> Effect(m', n) == Effect(m, n);
  }

  // ---------------------------------------------------------------------
  // The admin state patch
  // ---------------------------------------------------------------------

  /**
   * `update_agent_state`: 503 without the database, 404 without a stored
   * state, otherwise each given need clamped into its range.
   */
  function PatchState(database: bool, stored: Option<AgentState>, u: StateUpdateRequest): (r: Result<AgentState, int>)
    ensures !database ==> r == Failure(503)
    ensures database && stored.None? ==> r == Failure(404)
    ensures r.Success? ==> ValidState(stored.value) ==> ValidState(r.value)
  {
    if !database then Failure(503)
    else if stored.None? then Failure(404)
    else
      var s := stored.value;
      Success(s.(energy := if u.energy.Some? then Clamp(u.energy.value, 0.0, 1.0) else s.energy,
                 hunger := if u.hunger.Some? then Clamp(u.hunger.value, 0.0, 1.0) else s.hunger,
                 loneliness := if u.loneliness.Some? then Clamp(u.loneliness.value, 0.0, 1.0) else s.loneliness,
                 mood := if u.mood.Some? then Clamp(u.mood.value, -1.0, 1.0) else s.mood))
  }

  /**
   * A given value lands in its range and equals the value when already in
   * range; a field not given keeps the stored value; nothing but the four
   * needs changes.
   */
  lemma PatchStateProperties(s: AgentState, u: StateUpdateRequest)
    ensures var r := PatchState(true, Some(s), u);
            r.Success?
            && (u.energy.Some? ==> 0.0 <= r.value.energy <= 1.0 && (InUnit(u.energy.value) ==> r.value.energy == u.energy.value))
            && (u.energy.None? ==> r.value.energy == s.energy)
            && (u.hunger.Some? ==> 0.0 <= r.value.hunger <= 1.0 && (InUnit(u.hunger.value) ==> r.value.hunger == u.hunger.value))
            && (u.hunger.None? ==> r.value.hunger == s.hunger)
            && (u.loneliness.Some? ==> 0.0 <= r.value.loneliness <= 1.0 && (InUnit(u.loneliness.value) ==> r.value.loneliness == u.loneliness.value))
            && (u.loneliness.None? ==> r.value.loneliness == s.loneliness)
            && (u.mood.Some? ==> -1.0 <= r.value.mood <= 1.0 && (-1.0 <= u.mood.value <= 1.0 ==> r.value.mood == u.mood.value))
            && (u.mood.None? ==> r.value.mood == s.mood)
            && r.value.currentAction == s.currentAction && r.value.target == s.target
            && r.value.startedAt == s.startedAt && r.value.expiresAt == s.expiresAt && r.value.lastTick == s.lastTick
  {
  }
}
