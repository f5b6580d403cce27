/**
 * The agent tick: executing a selected action (need deltas, bounded steps,
 * starting, continuing and completing location activities, and the rules
 * for refreshing the action metadata) and the per-tick precedence between
 * continuing an activity, finishing a walk and deciding afresh.
 *
 * The stored records of one agent (its state row, its position, its
 * outgoing social memories and its recorded world interactions) are the
 * fields of `AgentRecord`; the clock is `now`, the uniform draw for an
 * activity's length is `u`, and the square root is `root`.
 */
module AgentWorker {
  import opened Wrappers
  import opened Numeric
  import opened AgentModels
  import opened AgentEngine
  import opened AgentDatabase

  /** The result strings of `execute_action`: "success" and the three activity results. */
  datatype ExecResult = Succeeded | ArrivedStartedActivity | ActivityInProgress | ActivityCompleted

  /** A recorded visit to a world location; the location is on cooldown until `cooldownUntil`. */
  datatype Interaction = Interaction(locationId: string, kind: LocationType, startedAt: real, cooldownUntil: real)

  function RecordInteraction(loc: WorldLocation, now: real): (i: Interaction)
    ensures i.locationId == loc.id && i.cooldownUntil - i.startedAt == loc.cooldownSeconds as real
  {
    Interaction(loc.id, loc.kind, now, now + loc.cooldownSeconds as real)
  }

  /** A fresh activity lasts `int(6 + u)` seconds, kept within [5, 8]. */
  function ActivitySeconds(u: real): (d: int)
    ensures 5 <= d <= 8
  {
    ClampInt(Trunc(6.0 + u), 5, 8)
  }

  /** For a uniform draw in [-1, 1] the clamp never bites and the length is 5, 6 or 7 seconds. */
  lemma ActivitySecondsRange(u: real)
    requires -1.0 <= u <= 1.0
    ensures ActivitySeconds(u) == Trunc(6.0 + u)
    ensures 5 <= ActivitySeconds(u) <= 7
  {
  }

  function SquaredDistance(dx: int, dy: int): (r: real)
    ensures r >= (dx * dx) as real && r >= (dy * dy) as real
  {
    (dx * dx + dy * dy) as real
  }

  /** One axis of a capped move: `pos + int(delta · min(1, reach / dist))`. */
  function ScaledStep(pos: int, delta: int, reach: real, dist: real): int
    requires dist > 0.0
  {
    pos + Trunc(delta as real * Min(1.0, reach / dist))
  }

  lemma AbsBelowRoot(a: real, d: real)
    requires a >= 0.0 && d > 0.0 && a * a <= d * d
    ensures a <= d
  {
  }

  lemma MulNonNegative(a: real, b: real)
    requires a >= 0.0 && b >= 0.0
    ensures a * b >= 0.0
  {
  }

  lemma ScaledProduct(a: real, dist: real, reach: real)
    requires 0.0 <= a <= dist && dist > 0.0 && reach > 0.0
    ensures 0.0 <= a * Min(1.0, reach / dist) <= reach
  {
    var k := reach / dist;
    assert k > 0.0;
    assert k * dist == reach;
    if k < 1.0 {
      assert a * k <= dist * k;
    } else {
      MulNonNegative(k - 1.0, dist);
      assert reach - dist == (k - 1.0) * dist;
    }
  }

  /** A signed offset scaled by `min(1, reach / dist)` stays within `reach` when it is no longer than `dist`. */
  lemma ScaledWithin(delta: real, dist: real, reach: real)
    requires dist > 0.0 && reach > 0.0 && delta * delta <= dist * dist
    ensures -reach <= delta * Min(1.0, reach / dist) <= reach
  {
    var m := Min(1.0, reach / dist);
    if delta >= 0.0 {
      AbsBelowRoot(delta, dist);
      ScaledProduct(delta, dist, reach);
    } else {
      assert (-delta) * (-delta) == delta * delta;
      AbsBelowRoot(-delta, dist);
      ScaledProduct(-delta, dist, reach);
      assert delta * m == -((-delta) * m);
    }
  }

  /**
   * A capped move never goes further than `reach` along an axis when the
   * distance it divides by is at least that axis' offset.
   */
  lemma StepWithinReach(pos: int, delta: int, reach: int, dist: real)
    requires reach > 0 && dist > 0.0 && (delta * delta) as real <= dist * dist
    ensures pos - reach <= ScaledStep(pos, delta, reach as real, dist) <= pos + reach
  {
    assert (delta as real) * (delta as real) == (delta * delta) as real;
    ScaledWithin(delta as real, dist, reach as real);
    TruncBounded(delta as real * Min(1.0, reach as real / dist), reach);
  }

  // ---------------------------------------------------------------------
  // Executing an action
  // ---------------------------------------------------------------------

  /** The location an action targets, when its target names one that exists. */
  function TargetLocation(ctx: AgentContext, action: SelectedAction): (l: Option<WorldLocation>)
    ensures l.Some? ==> action.target.Some? && Truthy(action.target.value.targetId)
                        && l.value in ctx.locations && l.value.id == action.target.value.targetId.value
    ensures l.None? <==> action.target.None? || !Truthy(action.target.value.targetId)
                         || forall i :: 0 <= i < |ctx.locations| ==> ctx.locations[i].id != action.target.value.targetId.value
    ensures l.Some? ==> exists i :: 0 <= i < |ctx.locations| && ctx.locations[i] == l.value
                          && forall j :: 0 <= j < i ==> ctx.locations[j].id != action.target.value.targetId.value
  {
    if action.target.Some? && Truthy(action.target.value.targetId)
    then FindLocation(ctx.locations, action.target.value.targetId.value)
    else None
  }

  /** Starting an activity: tag, target renamed to the location, start now, expiry after 5–8 s. */
  function StartActivity(s: AgentState, a: ActionType, target: ActionTarget, loc: WorldLocation,
                         now: real, u: real): AgentState
  {
    s.(currentAction := Some(Tag(a)), target := Some(target.(name := Some(loc.name))),
       startedAt := Some(now), expiresAt := Some(now + ActivitySeconds(u) as real))
  }

  /** The effect map scaled by `f`. */
  function Scale(effects: map<string, real>, f: real): (r: map<string, real>)
    ensures r.Keys == effects.Keys
  {
    map k | k in effects :: effects[k] * f
  }

  /** An action branch's outcome: the new state, the result, and the writes it asks for. */
  datatype Step = Step(
    state: AgentState,
    result: ExecResult,
    moveTo: Option<(int, int)>,
    visit: Option<Interaction>,
    greeted: Option<string>)

  /** An action that only changes needs. */
  function PlainStep(s: AgentState, effects: map<string, real>): Step
  {
    Step(ApplyInteractionEffects(s, effects), Succeeded, None, None, None)
  }

  /** WANDER: energy −0.03, mood +0.02, and a step of at most 3 per axis toward the target. */
  function WanderEffect(ctx: AgentContext, t: Option<ActionTarget>): Step
  {
    var e := PlainStep(ctx.state, map["energy" := -0.03, "mood" := 0.02]);
    if t.Some? && t.value.x.Some? && t.value.y.Some? then
      e.(moveTo := Some((ctx.x + ClampInt(t.value.x.value - ctx.x, -3, 3),
                         ctx.y + ClampInt(t.value.y.value - ctx.y, -3, 3))))
    else e
  }

  /** WALK_TO_LOCATION toward a known location: arrive within 1, else step at most 3 per axis. */
  function WalkEffect(ctx: AgentContext, t: ActionTarget, l: WorldLocation, now: real, u: real, root: real -> real): Step
  {
    var dist := root(SquaredDistance(l.x - ctx.x, l.y - ctx.y));
    if dist <= 1.0 then
      Step(StartActivity(ctx.state, InteractFor(l.kind), t, l, now, u), ArrivedStartedActivity,
           None, Some(RecordInteraction(l, now)), None)
    else
      PlainStep(ctx.state, map["energy" := -0.02]).(
        moveTo := Some((ScaledStep(ctx.x, l.x - ctx.x, 3.0, dist), ScaledStep(ctx.y, l.y - ctx.y, 3.0, dist))))
  }

  /** An `interact_*` action at a known location: complete, progress, or start the activity. */
  function InteractEffect(ctx: AgentContext, a: ActionType, t: ActionTarget, l: WorldLocation, now: real, u: real): Step
  {
    var s := ctx.state;
    if s.expiresAt.Some? then
      if now >= s.expiresAt.value then
        var s' := ApplyInteractionEffects(s, l.effects);
        Step(s'.(currentAction := Some("idle"), target := None, startedAt := None, expiresAt := None),
             ActivityCompleted, None, None, None)
      else
        var total := if s.startedAt.Some? then s.expiresAt.value - s.startedAt.value else 0.0;
        Step(if s.startedAt.Some? && total > 0.0 then ApplyInteractionEffects(s, Scale(l.effects, 1.0 / total)) else s,
             ActivityInProgress, None, None, None)
    else
      Step(StartActivity(s, a, t, l, now, u), ArrivedStartedActivity, None, Some(RecordInteraction(l, now)), None)
  }

  /** AVOID_AVATAR: step at most 4 per axis toward the flee point; energy −0.03, mood −0.05. */
  function AvoidEffect(ctx: AgentContext, t: Option<ActionTarget>, root: real -> real): Step
  {
    if t.Some? && t.value.x.Some? && t.value.y.Some? then
      var dx := t.value.x.value - ctx.x;
      var dy := t.value.y.value - ctx.y;
      var dist := Max(1.0, root(SquaredDistance(dx, dy)));
      PlainStep(ctx.state, map["energy" := -0.03, "mood" := -0.05]).(
        moveTo := Some((ScaledStep(ctx.x, dx, 4.0, dist), ScaledStep(ctx.y, dy, 4.0, dist))))
    else Step(ctx.state, Succeeded, None, None, None)
  }

  /** What executing an action does before the metadata rules. */
  function ActionStep(ctx: AgentContext, action: SelectedAction, now: real, u: real, root: real -> real): Step
  {
    var s := ctx.state;
    var a := action.action;
    var t := action.target;
    var loc := TargetLocation(ctx, action);
    if a == Idle then PlainStep(s, map["energy" := 0.05, "mood" := 0.01])
    else if a == Wander then WanderEffect(ctx, t)
    else if a == WalkToLocation then
      if loc.Some? then WalkEffect(ctx, t.value, loc.value, now, u, root) else Step(s, Succeeded, None, None, None)
    else if IsInteract(a) then
      if loc.Some? then InteractEffect(ctx, a, t.value, loc.value, now, u) else Step(s, Succeeded, None, None, None)
    else if a == InitiateConversation then
      if t.Some? && Truthy(t.value.targetId) then
        PlainStep(s, map["loneliness" := -0.2, "energy" := -0.05]).(greeted := t.value.targetId)
      else Step(s, Succeeded, None, None, None)
    else if a == JoinConversation then PlainStep(s, map["loneliness" := -0.15, "mood" := 0.05])
    else if a == AvoidAvatar then AvoidEffect(ctx, t, root)
    else Step(s, Succeeded, None, None, None)
  }

  /**
   * The metadata rules after a plain action: record the tag and target;
   * for a tag the state was not already in, start now, and expire after the
   * action's duration for an activity or never for anything else.
   */
  function WithMetadata(s: AgentState, action: SelectedAction, now: real): AgentState
  {
    var tag := Tag(action.action);
    var s' := s.(currentAction := Some(tag), target := action.target);
    if s.currentAction == Some(tag) then s'
    else if !IsInteract(action.action) then s'.(startedAt := Some(now), expiresAt := None)
    else if action.duration.Some? && action.duration.value != 0.0 then
      s'.(startedAt := Some(now), expiresAt := Some(now + action.duration.value))
    else s'.(startedAt := Some(now))
  }

  /** `execute_action`, with the metadata rules applied only to a plain "success". */
  function Execute(ctx: AgentContext, action: SelectedAction, now: real, u: real, root: real -> real): Step
  {
    var st := ActionStep(ctx, action, now, u, root);
    if st.result == Succeeded then st.(state := WithMetadata(st.state, action, now)) else st
  }

  // ---------------------------------------------------------------------
  // The tick
  // ---------------------------------------------------------------------

  /** Seconds since the last tick, five minutes when there was none. */
  function Elapsed(s: AgentState, now: real): real
  {
    if s.lastTick.Some? then now - s.lastTick.value else 300.0
  }

  const InteractTags: set<string> :=
    {"interact_rest", "interact_food", "interact_karaoke", "interact_social_hub", "interact_wander_point"}

  function LocationTargetOf(l: WorldLocation): (t: ActionTarget)
    ensures t.kind == LocationTarget && t.targetId == Some(l.id)
  {
    ActionTarget(LocationTarget, Some(l.id), Some(l.name), Some(l.x), Some(l.y))
  }

  /** An unexpired activity at a location that still exists is continued, committed with score 10. */
  function Continuation(ctx: AgentContext, now: real): Option<SelectedAction>
  {
    var s := ctx.state;
    if s.currentAction.Some? && s.currentAction.value in InteractTags && s.target.Some?
       && Truthy(s.target.value.targetId) && s.expiresAt.Some? && now < s.expiresAt.value then
      var loc := FindLocation(ctx.locations, s.target.value.targetId.value);
      var a := ParseAction(s.currentAction.value);
      if loc.Some? && a.Some? then
        Some(SelectedAction(a.value, Some(LocationTargetOf(loc.value)), 10.0, Some(loc.value.durationSeconds as real)))
      else None
    else None
  }

  /** An unfinished walk keeps walking (score 5); on arrival it becomes the location's activity (score 10). */
  function WalkOn(ctx: AgentContext, root: real -> real): Option<SelectedAction>
  {
    var s := ctx.state;
    if s.currentAction == Some("walk_to_location") && s.target.Some? && Truthy(s.target.value.targetId) then
      var loc := FindLocation(ctx.locations, s.target.value.targetId.value);
      if loc.Some? then
        var l := loc.value;
        if root(SquaredDistance(l.x - ctx.x, l.y - ctx.y)) > 1.0 then
          Some(SelectedAction(WalkToLocation, Some(LocationTargetOf(l)), 5.0, None))
        else
          Some(SelectedAction(InteractFor(l.kind), Some(LocationTargetOf(l)), 10.0, Some(l.durationSeconds as real)))
      else None
    else None
  }

  /** The action a tick executes: continuation, then walk, then a fresh decision. */
  function TickAction(ctx: AgentContext, now: real, d: DecisionInputs): SelectedAction
    requires InputsFit(ctx, d)
  {
    var c := Continuation(ctx, now);
    if c.Some? then c.value
    else
      var w := WalkOn(ctx, d.root);
      if w.Some? then w.value else Decision(ctx, d)
  }

  /** The tick on a built context: decay (which may fail validation), pick, execute. */
  function Tick(ctx: AgentContext, now: real, u: real, d: DecisionInputs): Option<(Step, SelectedAction)>
    requires InputsFit(ctx, d)
  {
    var decayed := ApplyStateDecay(ctx.state, Elapsed(ctx.state, now));
    if decayed.None? then None
    else
      var c := ctx.(state := decayed.value);
      var action := TickAction(c, now, d);
      Some((Execute(c, action, now, u, d.root), action))
  }

  /** The dictionary a tick returns. */
  datatype TickResult = TickResult(
    avatarId: string,
    action: string,
    target: Option<ActionTarget>,
    score: real,
    duration: Option<real>,
    energy: real,
    hunger: real,
    loneliness: real,
    mood: real)

  /** The reported action is the state's own; the duration is what is left before expiry, if any. */
  function TickOutput(avatarId: string, action: SelectedAction, s: AgentState, now: real): TickResult
  {
    var duration :=
      if s.expiresAt.Some? && s.startedAt.Some? then
        var left := s.expiresAt.value - now;
        if left < 0.0 then None else Some(left)
      else None;
    TickResult(avatarId, if Truthy(s.currentAction) then s.currentAction.value else Tag(action.action),
               if s.target.Some? then s.target else action.target,
               action.utility, duration, s.energy, s.hunger, s.loneliness, s.mood)
  }

  /** The stored state after `update_state`: every written column replaced, the tick time kept. */
  function StoredState(old_: AgentState, written: AgentState): AgentState
  {
    written.(lastTick := old_.lastTick)
  }

  class AgentRecord {
    var state: AgentState
    var x: int
    var y: int
    var memories: map<string, SocialMemory>
    var interactions: seq<Interaction>

    constructor (state: AgentState, x: int, y: int, memories: map<string, SocialMemory>)
      ensures this.state == state && this.x == x && this.y == y && this.memories == memories
      ensures interactions == []
    {
      this.state := state;
      this.x := x;
      this.y := y;
      this.memories := memories;
      interactions := [];
    }

    /** Moves the stored position and logs the branch's writes. */
    method Apply(e: Step, avatarId: string, now: real)
      modifies this
      ensures (x, y) == (if e.moveTo.Some? then e.moveTo.value else (old(x), old(y)))
      ensures interactions == old(interactions) + (if e.visit.Some? then [e.visit.value] else [])
      ensures memories == (if e.greeted.Some?
                           then UpsertMemory(old(memories), avatarId, e.greeted.value, 0.05, 0.1, None, now)
                           else old(memories))
      ensures state == old(state)
    {
      if e.moveTo.Some? {
        x, y := e.moveTo.value.0, e.moveTo.value.1;
      }
      if e.visit.Some? {
        interactions := interactions + [e.visit.value];
      }
      if e.greeted.Some? {
        memories := UpsertMemory(memories, avatarId, e.greeted.value, 0.05, 0.1, None, now);
      }
    }

    /** The WALK_TO_LOCATION branch for a location that exists. */
    method WalkTo(ctx: AgentContext, t: ActionTarget, loc: WorldLocation, now: real, u: real, root: real -> real)
      returns (st: AgentState, result: ExecResult)
      modifies this
      ensures var e := WalkEffect(ctx, t, loc, now, u, root);
              st == e.state && result == e.result
              && (x, y) == (if e.moveTo.Some? then e.moveTo.value else (old(x), old(y)))
              && interactions == old(interactions) + (if e.visit.Some? then [e.visit.value] else [])
      ensures memories == old(memories) && state == old(state)
    {
      var dx := loc.x - ctx.x;
      var dy := loc.y - ctx.y;
      var dist := root(SquaredDistance(dx, dy));
      if dist <= 1.0 {
        st := StartActivity(ctx.state, InteractFor(loc.kind), t, loc, now, u);
        interactions := interactions + [RecordInteraction(loc, now)];
        result := ArrivedStartedActivity;
      } else {
        x := ScaledStep(ctx.x, dx, 3.0, dist);
        y := ScaledStep(ctx.y, dy, 3.0, dist);
        st := ApplyInteractionEffects(ctx.state, map["energy" := -0.02]);
        result := Succeeded;
      }
    }

    /** The `interact_*` branch for a location that exists. */
    method Interact(ctx: AgentContext, a: ActionType, t: ActionTarget, loc: WorldLocation, now: real, u: real)
      returns (st: AgentState, result: ExecResult)
      modifies this
      ensures var e := InteractEffect(ctx, a, t, loc, now, u);
              st == e.state && result == e.result
              && interactions == old(interactions) + (if e.visit.Some? then [e.visit.value] else [])
              && e.moveTo.None? && e.greeted.None?
      ensures x == old(x) && y == old(y) && memories == old(memories) && state == old(state)
    {
      st := ctx.state;
      if ctx.state.expiresAt.Some? {
        var expires := ctx.state.expiresAt.value;
        if now >= expires {
          st := ApplyInteractionEffects(st, loc.effects);
          st := st.(currentAction := Some("idle"), target := None, startedAt := None, expiresAt := None);
          result := ActivityCompleted;
        } else {
          var started := ctx.state.startedAt;
          if started.Some? {
            var total := expires - started.value;
            if total > 0.0 {
              st := ApplyInteractionEffects(st, Scale(loc.effects, 1.0 / total));
            }
          }
          result := ActivityInProgress;
        }
      } else {
        st := StartActivity(st, a, t, loc, now, u);
        interactions := interactions + [RecordInteraction(loc, now)];
        result := ArrivedStartedActivity;
      }
    }

    /**
     * `execute_action`: returns the new state and the result, moves the
     * stored position, records a world interaction or upserts the memory of
     * the greeted avatar as the action requires, and writes nothing else.
     */
    method ExecuteAction(ctx: AgentContext, action: SelectedAction, now: real, u: real, root: real -> real)
      returns (st: AgentState, result: ExecResult)
      modifies this
      ensures var e := Execute(ctx, action, now, u, root);
              st == e.state && result == e.result
              && (x, y) == (if e.moveTo.Some? then e.moveTo.value else (old(x), old(y)))
              && interactions == old(interactions) + (if e.visit.Some? then [e.visit.value] else [])
              && memories == (if e.greeted.Some?
                              then UpsertMemory(old(memories), ctx.avatarId, e.greeted.value, 0.05, 0.1, None, now)
                              else old(memories))
      ensures state == old(state)
    {
      st := ctx.state;
      result := Succeeded;
      var a := action.action;
      var t := action.target;
      if a == Idle {
        st := ApplyInteractionEffects(st, map["energy" := 0.05, "mood" := 0.01]);
      } else if a == Wander {
        var e := WanderEffect(ctx, t);
        st := e.state;
        Apply(e, ctx.avatarId, now);
      } else if a == WalkToLocation {
        var loc := TargetLocation(ctx, action);
        if loc.Some? {
          st, result := WalkTo(ctx, t.value, loc.value, now, u, root);
        }
      } else if IsInteract(a) {
        var loc := TargetLocation(ctx, action);
        if loc.Some? {
          st, result := Interact(ctx, a, t.value, loc.value, now, u);
        }
      } else if a == InitiateConversation {
        if t.Some? && Truthy(t.value.targetId) {
          st := ApplyInteractionEffects(st, map["loneliness" := -0.2, "energy" := -0.05]);
          memories := UpsertMemory(memories, ctx.avatarId, t.value.targetId.value, 0.05, 0.1, None, now);
        }
      } else if a == JoinConversation {
        st := ApplyInteractionEffects(st, map["loneliness" := -0.15, "mood" := 0.05]);
      } else if a == AvoidAvatar {
        var e := AvoidEffect(ctx, t, root);
        st := e.state;
        Apply(e, ctx.avatarId, now);
      }
      assert st == ActionStep(ctx, action, now, u, root).state;
      if result == Succeeded {
        st := RecordAction(st, action, now);
      }
    }

    /**
     * The metadata update after a plain success: record the action's tag
     * and target; a tag the state was not already in starts now, and an
     * activity with a non-zero duration expires after it.
     */
    static method RecordAction(s: AgentState, action: SelectedAction, now: real) returns (st: AgentState)
      ensures st == WithMetadata(s, action, now)
    {
      var a := action.action;
      var isNew := s.currentAction != Some(Tag(a));
      var isActivity := StartsWith(Tag(a), "interact_");
      InteractPrefix(a);
      st := s.(currentAction := Some(Tag(a)), target := action.target);
      if isNew {
        st := st.(startedAt := Some(now));
        if isActivity && action.duration.Some? && action.duration.value != 0.0 {
          st := st.(expiresAt := Some(now + action.duration.value));
        } else if !isActivity {
          st := st.(expiresAt := None);
        }
      }
    }

    /** `release_tick_lock`: the lock is released and the tick time stamped, nothing else changes. */
    method ReleaseTickLock(now: real)
      modifies this
      ensures state == old(state).(lastTick := Some(now))
      ensures x == old(x) && y == old(y) && memories == old(memories) && interactions == old(interactions)
    {
      state := state.(lastTick := Some(now));
    }

    /**
     * `process_agent_tick`: without the lock nothing happens; once the lock
     * is held every path releases it, which stamps the tick time. Without a
     * context, or when the decayed state fails validation, nothing else is
     * written; otherwise the chosen action is executed, the new state
     * stored, and the post-execution action reported.
     */
    method ProcessTick(lockAcquired: bool, context: Option<AgentContext>, now: real, u: real, d: DecisionInputs)
      returns (r: Option<TickResult>)
      requires context.Some? ==> InputsFit(context.value, d)
      modifies this
      ensures !lockAcquired ==> r.None? && unchanged(this)
      ensures lockAcquired ==> state.lastTick == Some(now) && forall later :: Elapsed(state, later) == later - now
      ensures lockAcquired && (context.None? || Tick(context.value, now, u, d).None?) ==>
                r.None? && state == old(state).(lastTick := Some(now))
                && x == old(x) && y == old(y) && memories == old(memories) && interactions == old(interactions)
      ensures lockAcquired && context.Some? && Tick(context.value, now, u, d).Some? ==>
                var out := Tick(context.value, now, u, d).value;
                var e := out.0;
                r == Some(TickOutput(context.value.avatarId, out.1, e.state, now))
                && state == StoredState(old(state), e.state).(lastTick := Some(now))
                && (x, y) == (if e.moveTo.Some? then e.moveTo.value else (old(x), old(y)))
                && interactions == old(interactions) + (if e.visit.Some? then [e.visit.value] else [])
                && memories == (if e.greeted.Some?
                                then UpsertMemory(old(memories), context.value.avatarId, e.greeted.value, 0.05, 0.1, None, now)
                                else old(memories))
    {
      if !lockAcquired {
        return None;
      }
      if context.None? {
        ReleaseTickLock(now);
        return None;
      }
      var ctx := context.value;
      var decayed := ApplyStateDecay(ctx.state, Elapsed(ctx.state, now));
      if decayed.None? {
        ReleaseTickLock(now);
        return None;
      }
      ctx := ctx.(state := decayed.value);
      var action: SelectedAction;
      var continued := Continuation(ctx, now);
      if continued.Some? {
        action := continued.value;
      } else {
        var walking := WalkOn(ctx, d.root);
        if walking.Some? {
          action := walking.value;
        } else {
          action := MakeDecision(ctx, d);
        }
      }
      var newState, result := ExecuteAction(ctx, action, now, u, d.root);
      state := StoredState(state, newState);
      ReleaseTickLock(now);
      r := Some(TickOutput(ctx.avatarId, action, newState, now));
    }
  }

  // ---------------------------------------------------------------------
  // Properties of execution
  // ---------------------------------------------------------------------

  /** Executing any action from a valid state leaves a valid state. */
  lemma ExecuteKeepsValid(ctx: AgentContext, action: SelectedAction, now: real, u: real, root: real -> real)
    requires ValidState(ctx.state)
    ensures ValidState(Execute(ctx, action, now, u, root).state)
  {
    ActionStepKeepsValid(ctx, action, now, u, root);
  }

  lemma ActionStepKeepsValid(ctx: AgentContext, action: SelectedAction, now: real, u: real, root: real -> real)
    requires ValidState(ctx.state)
    ensures ValidState(ActionStep(ctx, action, now, u, root).state)
  {
    var a := action.action;
    var loc := TargetLocation(ctx, action);
    if a == WalkToLocation && loc.Some? {
      WalkEffectKeepsValid(ctx, action.target.value, loc.value, now, u, root);
    } else if IsInteract(a) && loc.Some? {
      InteractEffectKeepsValid(ctx, a, action.target.value, loc.value, now, u);
    }
  }

  lemma WalkEffectKeepsValid(ctx: AgentContext, t: ActionTarget, l: WorldLocation, now: real, u: real, root: real -> real)
    requires ValidState(ctx.state)
    ensures ValidState(WalkEffect(ctx, t, l, now, u, root).state)
  {
  }

  lemma InteractEffectKeepsValid(ctx: AgentContext, a: ActionType, t: ActionTarget, l: WorldLocation, now: real, u: real)
    requires ValidState(ctx.state)
    ensures ValidState(InteractEffect(ctx, a, t, l, now, u).state)
  {
  }

  /** WANDER: each axis moves by the offset to the target, capped at 3; energy −0.03, mood +0.02. */
  lemma WanderStep(ctx: AgentContext, action: SelectedAction, now: real, u: real, root: real -> real)
    requires action.action == Wander
    ensures var e := Execute(ctx, action, now, u, root);
            e.result == Succeeded && e.visit.None? && e.greeted.None?
            && e.state.energy == Clamp(ctx.state.energy - 0.03, 0.0, 1.0)
            && e.state.mood == Clamp(ctx.state.mood + 0.02, -1.0, 1.0)
            && (e.moveTo.Some? <==> action.target.Some? && action.target.value.x.Some? && action.target.value.y.Some?)
            && (e.moveTo.Some? ==>
                  ctx.x - 3 <= e.moveTo.value.0 <= ctx.x + 3 && ctx.y - 3 <= e.moveTo.value.1 <= ctx.y + 3
                  && (-3 <= action.target.value.x.value - ctx.x <= 3 ==> e.moveTo.value.0 == action.target.value.x.value)
                  && (-3 <= action.target.value.y.value - ctx.y <= 3 ==> e.moveTo.value.1 == action.target.value.y.value))
  {
  }

  /**
   * WALK_TO_LOCATION away from the location (distance > 1): each axis steps
   * at most 3 cells and energy drops by 0.02; nothing is recorded.
   */
  lemma WalkStep(ctx: AgentContext, action: SelectedAction, now: real, u: real, root: real -> real)
    requires IsSqrt(root) && action.action == WalkToLocation && ValidState(ctx.state)
    requires TargetLocation(ctx, action).Some?
    requires var l := TargetLocation(ctx, action).value;
             root(SquaredDistance(l.x - ctx.x, l.y - ctx.y)) > 1.0
    ensures var e := Execute(ctx, action, now, u, root);
            e.result == Succeeded && e.moveTo.Some? && e.visit.None?
            && ctx.x - 3 <= e.moveTo.value.0 <= ctx.x + 3 && ctx.y - 3 <= e.moveTo.value.1 <= ctx.y + 3
            && e.state.energy == Clamp(ctx.state.energy - 0.02, 0.0, 1.0)
            && e.state.mood == ctx.state.mood && e.state.hunger == ctx.state.hunger
            && e.state.loneliness == ctx.state.loneliness
  {
    var l := TargetLocation(ctx, action).value;
    var w := WalkEffect(ctx, action.target.value, l, now, u, root);
    assert ActionStep(ctx, action, now, u, root) == w;
    WalkStepBound(ctx, action.target.value, l, now, u, root);
    assert Execute(ctx, action, now, u, root) == w.(state := WithMetadata(w.state, action, now));
  }

  /** The walking branch itself: each axis moves at most 3 cells when the root is a square root. */
  lemma WalkStepBound(ctx: AgentContext, t: ActionTarget, l: WorldLocation, now: real, u: real, root: real -> real)
    requires IsSqrt(root) && root(SquaredDistance(l.x - ctx.x, l.y - ctx.y)) > 1.0
    ensures var e := WalkEffect(ctx, t, l, now, u, root);
            e.result == Succeeded && e.moveTo.Some? && e.visit.None? && e.greeted.None?
            && ctx.x - 3 <= e.moveTo.value.0 <= ctx.x + 3 && ctx.y - 3 <= e.moveTo.value.1 <= ctx.y + 3
            && e.state == ApplyInteractionEffects(ctx.state, map["energy" := -0.02])
  {
    var dx, dy := l.x - ctx.x, l.y - ctx.y;
    var dist := root(SquaredDistance(dx, dy));
    assert dist * dist == SquaredDistance(dx, dy);
    StepWithinReach(ctx.x, dx, 3, dist);
    StepWithinReach(ctx.y, dy, 3, dist);
  }

  /**
   * WALK_TO_LOCATION within distance 1: the location's activity starts now
   * and expires 5 to 8 seconds later, the target is renamed to the
   * location, the visit is recorded with its cooldown, and no need changes.
   */
  lemma WalkArrival(ctx: AgentContext, action: SelectedAction, now: real, u: real, root: real -> real)
    requires action.action == WalkToLocation && TargetLocation(ctx, action).Some?
    requires var l := TargetLocation(ctx, action).value;
             root(SquaredDistance(l.x - ctx.x, l.y - ctx.y)) <= 1.0
    ensures var l := TargetLocation(ctx, action).value;
            var e := Execute(ctx, action, now, u, root);
            e.result == ArrivedStartedActivity && e.moveTo.None?
            && e.state.currentAction == Some(Tag(InteractFor(l.kind))) && StartsWith(Tag(InteractFor(l.kind)), "interact_")
            && e.state.target == Some(action.target.value.(name := Some(l.name)))
            && e.state.startedAt == Some(now)
            && e.state.expiresAt.Some? && now + 5.0 <= e.state.expiresAt.value <= now + 8.0
            && e.visit == Some(RecordInteraction(l, now))
            && e.state.energy == ctx.state.energy && e.state.hunger == ctx.state.hunger
            && e.state.loneliness == ctx.state.loneliness && e.state.mood == ctx.state.mood
  {
    var l := TargetLocation(ctx, action).value;
    InteractPrefix(InteractFor(l.kind));
  }

  /**
   * An activity before its expiry applies the location effects scaled by
   * 1/(expiry − start), however much time has passed, and leaves the action
   * fields as they were.
   */
  lemma ActivityInProgressStep(ctx: AgentContext, action: SelectedAction, now: real, u: real, root: real -> real)
    requires IsInteract(action.action) && TargetLocation(ctx, action).Some?
    requires ctx.state.expiresAt.Some? && now < ctx.state.expiresAt.value
    ensures var e := Execute(ctx, action, now, u, root);
            var s := ctx.state;
            e.result == ActivityInProgress && e.moveTo.None? && e.visit.None? && e.greeted.None?
            && e.state.currentAction == s.currentAction && e.state.target == s.target
            && e.state.startedAt == s.startedAt && e.state.expiresAt == s.expiresAt
            && (s.startedAt.Some? && s.expiresAt.value - s.startedAt.value > 0.0 ==>
                  e.state == ApplyInteractionEffects(s, Scale(TargetLocation(ctx, action).value.effects,
                                                             1.0 / (s.expiresAt.value - s.startedAt.value))))
            && (s.startedAt.None? ==> e.state == s)
  {
  }

  /** An activity at or past its expiry applies the full effects once and returns the agent to idle. */
  lemma ActivityCompletedStep(ctx: AgentContext, action: SelectedAction, now: real, u: real, root: real -> real)
    requires IsInteract(action.action) && TargetLocation(ctx, action).Some?
    requires ctx.state.expiresAt.Some? && now >= ctx.state.expiresAt.value
    ensures var e := Execute(ctx, action, now, u, root);
            var full := ApplyInteractionEffects(ctx.state, TargetLocation(ctx, action).value.effects);
            e.result == ActivityCompleted && e.moveTo.None? && e.visit.None?
            && e.state.currentAction == Some("idle") && e.state.target.None?
            && e.state.startedAt.None? && e.state.expiresAt.None?
            && e.state.energy == full.energy && e.state.hunger == full.hunger
            && e.state.loneliness == full.loneliness && e.state.mood == full.mood
  {
  }

  /**
   * The social actions: INITIATE with a target costs loneliness 0.2 and
   * energy 0.05 and upserts the memory of the target (+0.05 sentiment,
   * +0.1 familiarity); JOIN costs loneliness 0.15 and lifts mood 0.05;
   * IDLE restores energy 0.05 and mood 0.01. None of them moves.
   */
  lemma SocialEffects(ctx: AgentContext, action: SelectedAction, now: real, u: real, root: real -> real)
    requires action.action in {InitiateConversation, JoinConversation, Idle}
    ensures var e := Execute(ctx, action, now, u, root);
            var s := ctx.state;
            e.result == Succeeded && e.moveTo.None? && e.visit.None?
            && (action.action == InitiateConversation && action.target.Some? && Truthy(action.target.value.targetId) ==>
                  e.greeted == action.target.value.targetId
                  && e.state.loneliness == Clamp(s.loneliness - 0.2, 0.0, 1.0)
                  && e.state.energy == Clamp(s.energy - 0.05, 0.0, 1.0))
            && (action.action == JoinConversation ==>
                  e.greeted.None? && e.state.loneliness == Clamp(s.loneliness - 0.15, 0.0, 1.0)
                  && e.state.mood == Clamp(s.mood + 0.05, -1.0, 1.0))
            && (action.action == Idle ==>
                  e.greeted.None? && e.state.energy == Clamp(s.energy + 0.05, 0.0, 1.0)
                  && e.state.mood == Clamp(s.mood + 0.01, -1.0, 1.0))
  {
  }

  /** AVOID: at most 4 cells per axis toward the flee point, energy −0.03 and mood −0.05. */
  lemma AvoidStep(ctx: AgentContext, action: SelectedAction, now: real, u: real, root: real -> real)
    requires IsSqrt(root) && action.action == AvoidAvatar
    requires action.target.Some? && action.target.value.x.Some? && action.target.value.y.Some?
    ensures var e := Execute(ctx, action, now, u, root);
            e.result == Succeeded && e.moveTo.Some? && e.visit.None? && e.greeted.None?
            && ctx.x - 4 <= e.moveTo.value.0 <= ctx.x + 4 && ctx.y - 4 <= e.moveTo.value.1 <= ctx.y + 4
            && e.state.energy == Clamp(ctx.state.energy - 0.03, 0.0, 1.0)
            && e.state.mood == Clamp(ctx.state.mood - 0.05, -1.0, 1.0)
  {
    assert ActionStep(ctx, action, now, u, root) == AvoidEffect(ctx, action.target, root);
    AvoidStepBound(ctx, action.target.value, root);
  }

  /** The fleeing branch itself: each axis moves at most 4 cells when the root is a square root. */
  lemma AvoidStepBound(ctx: AgentContext, t: ActionTarget, root: real -> real)
    requires IsSqrt(root) && t.x.Some? && t.y.Some?
    ensures var e := AvoidEffect(ctx, Some(t), root);
            e.result == Succeeded && e.moveTo.Some? && e.visit.None? && e.greeted.None?
            && ctx.x - 4 <= e.moveTo.value.0 <= ctx.x + 4 && ctx.y - 4 <= e.moveTo.value.1 <= ctx.y + 4
            && e.state == ApplyInteractionEffects(ctx.state, map["energy" := -0.03, "mood" := -0.05])
  {
    var dx, dy := t.x.value - ctx.x, t.y.value - ctx.y;
    var sq := SquaredDistance(dx, dy);
    CappedMoveBound(ctx.x, ctx.y, dx, dy, root(sq));
  }

  /** Both axes of a move capped at 4 cells stay within 4 cells, given the exact distance. */
  lemma CappedMoveBound(x: int, y: int, dx: int, dy: int, rt: real)
    requires rt >= 0.0 && rt * rt == SquaredDistance(dx, dy)
    ensures x - 4 <= ScaledStep(x, dx, 4.0, Max(1.0, rt)) <= x + 4
    ensures y - 4 <= ScaledStep(y, dy, 4.0, Max(1.0, rt)) <= y + 4
  {
    var dist := Max(1.0, rt);
    RootBelowDistance(SquaredDistance(dx, dy), rt);
    StepWithinReach(x, dx, 4, dist);
    StepWithinReach(y, dy, 4, dist);
  }

  /** Rounding a square root up to at least 1 keeps its square above the radicand. */
  lemma RootBelowDistance(v: real, rt: real)
    requires v >= 0.0 && rt >= 0.0 && rt * rt == v
    ensures Max(1.0, rt) * Max(1.0, rt) >= v
  {
    var dist := Max(1.0, rt);
    assert dist * dist >= dist * rt;
    assert dist * rt >= rt * rt;
  }

  /**
   * After a plain action the state carries the action's tag and target.
   * The timestamps are kept when the tag is unchanged; otherwise the action
   * starts now, and expires after its duration if it is an activity with a
   * non-zero duration, never if it is not an activity.
   */
  lemma MetadataRules(ctx: AgentContext, action: SelectedAction, now: real, u: real, root: real -> real)
    requires ActionStep(ctx, action, now, u, root).result == Succeeded
    ensures var pre := ActionStep(ctx, action, now, u, root).state;
            var e := Execute(ctx, action, now, u, root);
            var tag := Tag(action.action);
            e.state.currentAction == Some(tag) && e.state.target == action.target
            && (pre.currentAction == Some(tag) ==> e.state.startedAt == pre.startedAt && e.state.expiresAt == pre.expiresAt)
            && (pre.currentAction != Some(tag) ==>
                  e.state.startedAt == Some(now)
                  && (!StartsWith(tag, "interact_") ==> e.state.expiresAt.None?)
                  && (StartsWith(tag, "interact_") && action.duration.Some? && action.duration.value != 0.0 ==>
                        e.state.expiresAt == Some(now + action.duration.value)))
            && e.state.energy == pre.energy && e.state.hunger == pre.hunger
            && e.state.loneliness == pre.loneliness && e.state.mood == pre.mood
  {
    InteractPrefix(action.action);
  }

  /** The three activity results never pass through the metadata rules. */
  lemma ActivityResultsKeepMetadata(ctx: AgentContext, action: SelectedAction, now: real, u: real, root: real -> real)
    requires ActionStep(ctx, action, now, u, root).result != Succeeded
    ensures Execute(ctx, action, now, u, root) == ActionStep(ctx, action, now, u, root)
    ensures IsLocationAction(action.action)
  {
  }

  // ---------------------------------------------------------------------
  // Properties of the tick
  // ---------------------------------------------------------------------

  /**
   * The tick fails only when the decayed state is refused; from a valid
   * state whose last tick is not in the future and whose mood is not
   * negative (or the gap is at most 120000 s) it always succeeds and
   * stores a valid state.
   */
  lemma TickSucceeds(ctx: AgentContext, now: real, u: real, d: DecisionInputs)
    requires InputsFit(ctx, d) && ValidState(ctx.state)
    requires ctx.state.lastTick.None? || ctx.state.lastTick.value <= now
    requires ctx.state.mood >= 0.0 || Elapsed(ctx.state, now) <= 120000.0
    ensures Tick(ctx, now, u, d).Some?
    ensures ValidState(Tick(ctx, now, u, d).value.0.state)
  {
    DecayKeepsBounds(ctx.state, Elapsed(ctx.state, now));
    var c := ctx.(state := ApplyStateDecay(ctx.state, Elapsed(ctx.state, now)).value);
    ExecuteKeepsValid(c, TickAction(c, now, d), now, u, d.root);
  }

  /**
   * An unexpired activity at a known location is continued: the tick
   * reports it in progress and leaves its tag, target and timestamps alone.
   */
  lemma ContinuedActivityStaysPut(ctx: AgentContext, now: real, d: DecisionInputs)
    requires InputsFit(ctx, d) && Continuation(ctx, now).Some?
    ensures var a := TickAction(ctx, now, d);
            var e := Execute(ctx, a, now, 0.0, d.root);
            IsInteract(a.action) && a.utility == 10.0
            && e.result == ActivityInProgress && e.moveTo.None? && e.visit.None?
            && e.state.currentAction == ctx.state.currentAction && e.state.target == ctx.state.target
            && e.state.startedAt == ctx.state.startedAt && e.state.expiresAt == ctx.state.expiresAt
  {
    var s := ctx.state;
    var a := TickAction(ctx, now, d);
    var tag := s.currentAction.value;
    ParseTagRoundTrip(a.action, tag);
    assert IsInteract(a.action) by {
      InteractPrefix(a.action);
      assert tag[..9] == "interact_" by {
        assert tag in InteractTags;
      }
    }
    assert TargetLocation(ctx, a).Some?;
  }

  /**
   * An activity whose expiry has passed is not continued; unless the agent
   * is walking, the tick makes a fresh decision instead.
   */
  lemma ExpiredActivityFallsThrough(ctx: AgentContext, now: real, d: DecisionInputs)
    requires InputsFit(ctx, d)
    requires ctx.state.expiresAt.Some? && now >= ctx.state.expiresAt.value
    requires ctx.state.currentAction != Some("walk_to_location")
    ensures TickAction(ctx, now, d) == Decision(ctx, d)
  {
  }

  /**
   * A walk within distance 1 of its location turns into the location's
   * activity, which then starts (the walk left no expiry) with a 5–8 s
   * expiry and is reported under its `interact_` tag.
   */
  lemma ArrivalStartsActivity(ctx: AgentContext, now: real, u: real, d: DecisionInputs)
    requires InputsFit(ctx, d) && Continuation(ctx, now).None?
    requires WalkOn(ctx, d.root).Some? && WalkOn(ctx, d.root).value.action != WalkToLocation
    requires ctx.state.expiresAt.None?
    ensures var a := TickAction(ctx, now, d);
            var e := Execute(ctx, a, now, u, d.root);
            IsInteract(a.action) && e.result == ArrivedStartedActivity
            && e.state.currentAction == Some(Tag(a.action))
            && e.state.expiresAt.Some? && now + 5.0 <= e.state.expiresAt.value <= now + 8.0
            && TickOutput(ctx.avatarId, a, e.state, now).action == Tag(a.action)
            && TickOutput(ctx.avatarId, a, e.state, now).duration == Some(e.state.expiresAt.value - now)
  {
    var a := TickAction(ctx, now, d);
    assert a == WalkOn(ctx, d.root).value;
    var l := FindLocation(ctx.locations, ctx.state.target.value.targetId.value).value;
    assert a.action == InteractFor(l.kind) && a.target == Some(LocationTargetOf(l));
    assert TargetLocation(ctx, a) == Some(l);
    var st := InteractEffect(ctx, a.action, a.target.value, l, now, u);
    assert st.result == ArrivedStartedActivity;
    assert ActionStep(ctx, a, now, u, d.root) == st;
  }

  /**
   * The reported duration is the time left before expiry and is never
   * negative; the reported action is the state's own when it has one.
   */
  lemma TickOutputShape(avatarId: string, action: SelectedAction, s: AgentState, now: real)
    ensures var o := TickOutput(avatarId, action, s, now);
            (o.duration.Some? <==> s.expiresAt.Some? && s.startedAt.Some? && s.expiresAt.value >= now)
            && (o.duration.Some? ==> o.duration.value == s.expiresAt.value - now && o.duration.value >= 0.0)
            && (Truthy(s.currentAction) ==> o.action == s.currentAction.value)
            && (!Truthy(s.currentAction) ==> o.action == Tag(action.action))
            && o.score == action.utility
  {
  }
}
