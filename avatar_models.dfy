/**
 * The avatar records of the public API and the response a robot's
 * decision is serialised into: field validators for creating and
 * patching an avatar, and the response defaults.
 */
module AvatarModels {
  import opened Wrappers

  // ---------------------------------------------------------------------
  // Field validators
  // ---------------------------------------------------------------------

  /** A name holds between 1 and 100 characters. */
  predicate ValidName(name: string)
  {
    1 <= |name| <= 100
  }

  predicate HexDigit(c: char)
  {
    '0' <= c <= '9' || 'a' <= c <= 'f' || 'A' <= c <= 'F'
  }

  /** `^#[0-9A-Fa-f]{6}$`: a '#' followed by exactly six hex digits. */
  predicate ValidColor(color: string)
  {
    |color| == 7 && color[0] == '#' && forall i :: 1 <= i < 7 ==> HexDigit(color[i])
  }

  /** A bio is absent or at most 500 characters. */
  predicate ValidBio(bio: Option<string>)
  {
    bio.None? || |bio.value| <= 500
  }

  const DefaultColor: string := "#000000"

  /** The fields of a new avatar. */
  datatype AvatarBase = AvatarBase(name: string, color: string, bio: Option<string>)

  /** A patch of an avatar: every field may be left out. */
  datatype AvatarUpdate = AvatarUpdate(name: Option<string>, color: Option<string>, bio: Option<string>)

  datatype FieldError = BadName | BadColor | BadBio

  /**
   * Validating a new avatar: a missing colour takes the default, and the
   * first field that breaks its constraint is reported.
   */
  function ValidateAvatar(name: string, color: Option<string>, bio: Option<string>): (r: Result<AvatarBase, FieldError>)
    ensures r.Success? <==> ValidName(name) && (color.None? || ValidColor(color.value)) && ValidBio(bio)
    ensures r.Success? ==> r.value.name == name && r.value.bio == bio
                           && r.value.color == (if color.Some? then color.value else DefaultColor)
  {
    var c := if color.Some? then color.value else DefaultColor;
    if !ValidName(name) then Failure(BadName)
    else if !ValidColor(c) then Failure(BadColor)
    else if !ValidBio(bio) then Failure(BadBio)
    else Success(AvatarBase(name, c, bio))
  }

  /** Validating a patch: each field that is present obeys the same constraint as on creation. */
  function ValidateUpdate(u: AvatarUpdate): (r: Result<AvatarUpdate, FieldError>)
    ensures r.Success? <==> (u.name.None? || ValidName(u.name.value))
                            && (u.color.None? || ValidColor(u.color.value)) && ValidBio(u.bio)
    ensures r.Success? ==> r.value == u
  {
    if u.name.Some? && !ValidName(u.name.value) then Failure(BadName)
    else if u.color.Some? && !ValidColor(u.color.value) then Failure(BadColor)
    else if !ValidBio(u.bio) then Failure(BadBio)
    else Success(u)
  }

  /**
   * The default colour is valid, the empty patch is valid, and a patch
   * carrying every field of a valid avatar is valid: the two validators
   * agree on the constraints.
   */
  lemma ValidatorsAgree(a: AvatarBase)
    ensures ValidColor(DefaultColor)
    ensures ValidateUpdate(AvatarUpdate(None, None, None)).Success?
    ensures ValidateAvatar(a.name, Some(a.color), a.bio).Success? <==>
              ValidateUpdate(AvatarUpdate(Some(a.name), Some(a.color), a.bio)).Success?
  {
  }

  /** Colours that look close but are refused: no '#', a non-hex digit, a seventh digit. */
  lemma ColorRejects()
    ensures !ValidColor("0000000")
    ensures !ValidColor("#00000g")
    ensures !ValidColor("#0000000")
    ensures ValidColor("#a1B2c3")
  {
    assert "#00000g"[6] == 'g';
  }

  // ---------------------------------------------------------------------
  // The decision response
  // ---------------------------------------------------------------------

  /** `AgentResponse`: the action with the optional fields that go with it. */
  datatype AgentResponse = AgentResponse(
    action: string,
    targetX: Option<int>,
    targetY: Option<int>,
    targetEntityId: Option<string>,
    requestId: Option<string>,
    duration: Option<real>)

  /** Every field defaults to absent and the action to "MOVE". */
  function DefaultResponse(): (r: AgentResponse)
    ensures r.action == "MOVE"
    ensures r.targetX.None? && r.targetY.None? && r.targetEntityId.None? && r.requestId.None? && r.duration.None?
  {
    AgentResponse("MOVE", None, None, None, None, None)
  }

  function MoveResponse(x: int, y: int): AgentResponse
  {
    DefaultResponse().(targetX := Some(x), targetY := Some(y))
  }

  function StandStillResponse(duration: real): AgentResponse
  {
    DefaultResponse().(action := "STAND_STILL", duration := Some(duration))
  }

  function RequestConversation(target: Option<string>): AgentResponse
  {
    DefaultResponse().(action := "REQUEST_CONVERSATION", targetEntityId := target)
  }

  /** ACCEPT_ or REJECT_CONVERSATION for a request; the reason text is not part of the response model. */
  function Answer(accept: bool, requestId: Option<string>): AgentResponse
  {
    DefaultResponse().(action := if accept then "ACCEPT_CONVERSATION" else "REJECT_CONVERSATION",
                       requestId := requestId)
  }

  /** Each response fills only the fields of its own action; the rest keep their defaults. */
  lemma ResponsesFillOwnFields(x: int, y: int, d: real, target: Option<string>, accept: bool, request: Option<string>)
    ensures var m := MoveResponse(x, y);
            m.action == "MOVE" && m.targetX == Some(x) && m.targetY == Some(y) && m.duration.None?
            && m.targetEntityId.None? && m.requestId.None?
    ensures var s := StandStillResponse(d);
            s.action == "STAND_STILL" && s.duration == Some(d) && s.targetX.None? && s.targetY.None?
            && s.targetEntityId.None? && s.requestId.None?
    ensures var q := RequestConversation(target);
            q.targetEntityId == target && q.targetX.None? && q.duration.None? && q.requestId.None?
    ensures var a := Answer(accept, request);
            a.requestId == request && a.targetX.None? && a.duration.None? && a.targetEntityId.None?
            && (a.action == "ACCEPT_CONVERSATION" <==> accept)
  {
  }
}
