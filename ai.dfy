/** The AI footer: the optional call to the AI task action, the two reply
    shapes the text is looked for in, and the footer or error label drawn. */
module Ai {
  import opened Common
  import opened Render
  import opened Config

  /** The `service_response` value: a dictionary with optional `response`
      and `data` texts, or something without `get` (null or a non-dictionary). */
  datatype ServiceResponse = ServiceFields(response: Option<string>, data: Option<string>) | NotAServiceDict

  /** The `attributes` value of an entity state: absent (read as `{}`), a
      dictionary with an optional `response` text, or something without `get`. */
  datatype Attributes = NoAttributes | AttributeFields(response: Option<string>) | NotAnAttributeDict

  /** An element of a list reply: an entity-state dictionary, or something without `get`. */
  datatype ListItem = EntityState(entityId: Option<string>, attributes: Attributes) | NotAStateDict

  /** The decoded JSON reply of the AI task action. */
  datatype AiData =
    | NullData                       // JSON null
    | ServiceDict(service: ServiceResponse) // a dictionary holding "service_response"
    | OtherDict                      // a dictionary without "service_response"
    | StateList(items: seq<ListItem>) // a list of updated entity states
    | OtherValue                     // any other JSON value

  const AvgCharWidth: int := 11
  const AiUnavailable: Draw := CenteredText(ImgHeight - 40, "AI Task Unavailable")

  /** The wrap width: as many average-width characters as fit in the canvas
      width less 60 pixels of padding. */
  function WrapWidth(): (w: nat)
    ensures w * AvgCharWidth <= ImgWidth - 60 < (w + 1) * AvgCharWidth
  {
    (ImgWidth - 60) / AvgCharWidth
  }

  /** Whether a list element is the state of the configured entity; reading
      `entity_id` of an element without `get` raises. */
  function MatchesEntity(item: ListItem, entity: string): (r: Result<bool, Error>)
    ensures r.Failure? <==> item.NotAStateDict?
    ensures r.Success? ==> (r.value <==> item.entityId == Some(entity))
  {
    match item
    case NotAStateDict => Failure(BadShape)
    case EntityState(id, _) => Success(id == Some(entity))
  }

  /** `next(s for s in items if s.get("entity_id") == entity)`: the position of
      the first matching state, scanning in order and raising at an element
      without `get` met before any match. */
  function FirstMatching(items: seq<ListItem>, entity: string): (r: Result<Option<nat>, Error>)
    ensures r.Success? && r.value.Some? ==>
      r.value.value < |items| && MatchesEntity(items[r.value.value], entity) == Success(true) &&
      forall k :: 0 <= k < r.value.value ==> MatchesEntity(items[k], entity) == Success(false)
    ensures r.Success? && r.value.None? ==>
      forall k :: 0 <= k < |items| ==> MatchesEntity(items[k], entity) == Success(false)
    ensures r.Failure? ==> (r.error == BadShape &&
      exists j :: 0 <= j < |items| && items[j] == NotAStateDict &&
        forall k :: 0 <= k < j ==> MatchesEntity(items[k], entity) == Success(false))
  {
    if items == [] then Success(None)
    else
      match MatchesEntity(items[0], entity)
      case Failure(e) => Failure(e)
      case Success(true) => Success(Some(0))
      case Success(false) =>
        match FirstMatching(items[1..], entity)
        case Failure(e) =>
          var j :| 0 <= j < |items[1..]| && items[1..][j] == NotAStateDict &&
            forall k :: 0 <= k < j ==> MatchesEntity(items[1..][k], entity) == Success(false);
          assert items[j + 1] == NotAStateDict;
          assert forall k :: 1 <= k < j + 1 ==> items[k] == items[1..][k - 1];
          Failure(e)
        case Success(None) => Success(None)
        case Success(Some(k)) => Success(Some(k + 1))
  }

  /** The text found in a reply: `response or data` of a service response;
      the `response` attribute of the first state of the configured entity;
      nothing for any other reply. A field without `get` raises. */
  function ExtractText(data: AiData, entity: string): (r: Result<Option<string>, Error>)
    ensures r.Failure? ==> r.error == BadShape
    ensures data.NullData? || data.OtherDict? || data.OtherValue? ==> r == Success(None)
    ensures data == ServiceDict(NotAServiceDict) ==> r.Failure?
    ensures data.StateList? && FirstMatching(data.items, entity).Failure? ==> r.Failure?
    ensures data.StateList? && FirstMatching(data.items, entity) == Success(None) ==> r == Success(None)
    ensures data.StateList? && FirstMatching(data.items, entity).Success? && FirstMatching(data.items, entity).value.Some? ==>
      var a := data.items[FirstMatching(data.items, entity).value.value].attributes;
      (a.NoAttributes? ==> r == Success(None)) &&
      (a.NotAnAttributeDict? ==> r.Failure?) &&
      (a.AttributeFields? ==> r == Success(a.response))
  {
    match data
    case ServiceDict(NotAServiceDict) => Failure(BadShape)
    case ServiceDict(ServiceFields(response, fallback)) =>
      Success(if Truthy(response) then response else fallback)
    case StateList(items) =>
      (match FirstMatching(items, entity)
       case Failure(e) => Failure(e)
       case Success(None) => Success(None)
       case Success(Some(k)) =>
         match items[k].attributes
         case NoAttributes => Success(None)
         case NotAnAttributeDict => Failure(BadShape)
         case AttributeFields(response) => Success(response))
    case _ => Success(None)
  }

  /** A service response yields its `response` when that is a non-empty text,
      and its `data` otherwise. */
  lemma ServiceResponseText(response: Option<string>, fallback: Option<string>, entity: string)
    ensures Truthy(response) ==> ExtractText(ServiceDict(ServiceFields(response, fallback)), entity) == Success(response)
    ensures !Truthy(response) ==> ExtractText(ServiceDict(ServiceFields(response, fallback)), entity) == Success(fallback)
  {
  }

  /** A list reply yields the `response` attribute of the first state whose
      `entity_id` is the configured entity, when all states before it are dictionaries. */
  lemma EntityStateText(items: seq<ListItem>, entity: string, k: nat, response: Option<string>)
    requires k < |items| && items[k].EntityState? && items[k].entityId == Some(entity)
    requires items[k].attributes == AttributeFields(response)
    requires forall i :: 0 <= i < k ==> items[i].EntityState? && items[i].entityId != Some(entity)
    ensures ExtractText(StateList(items), entity) == Success(response)
  {
  }

  /** The body of the AI block's `try`: skipped unless both AI settings are
      set; a reply with no text is an error unless the reply itself is null. */
  function AiAttempt(cfg: Settings, reply: Result<AiData, Error>): (r: Result<seq<Draw>, Interrupted>)
    ensures r.Failure? ==> r.error.drawn == []
    ensures r.Success? ==> |r.value| <= 1
    ensures r.Success? && r.value != [] ==> AiEnabled(cfg) && r.value[0].WrappedFooter? && r.value[0].text != []
  {
    match AiTaskRequest(cfg)
    case None => Success([])
    case Some(request) =>
      match Fetch(request, reply)
      case Failure(e) => Failure(Interrupted([], e))
      case Success(data) =>
        match ExtractText(data, cfg.aiEntityId.value)
        case Failure(e) => Failure(Interrupted([], e))
        case Success(text) =>
          if Truthy(text) then Success([WrappedFooter(WrapWidth(), text.value)])
          else if data.NullData? then Success([])
          else Failure(Interrupted([], NoAiText))
  }

  /** The AI block as drawn, its `except` included. */
  function AiBlock(cfg: Settings, reply: Result<AiData, Error>): (drawn: seq<Draw>)
    ensures |drawn| <= 1
  {
    Settle(AiAttempt(cfg, reply), AiUnavailable)
  }

  /** Without both AI settings nothing is requested and nothing is drawn. */
  lemma AiGating(cfg: Settings, reply: Result<AiData, Error>)
    ensures !AiEnabled(cfg) ==> AiBlock(cfg, reply) == []
    ensures AiEnabled(cfg) && !Truthy(cfg.haToken) ==> AiBlock(cfg, reply) == [AiUnavailable]
  {
  }

  /** What the AI block draws once the reply is in: the footer with the found
      text, wrapped at the computed width; nothing for a null reply; the error
      label for a failed call, a malformed field or a reply without text. */
  lemma AiOutcome(cfg: Settings, reply: Result<AiData, Error>)
    requires AiEnabled(cfg) && Truthy(cfg.haToken)
    ensures reply.Failure? ==> AiBlock(cfg, reply) == [AiUnavailable]
    ensures reply.Success? ==>
      var found := ExtractText(reply.value, cfg.aiEntityId.value);
      (found.Failure? ==> AiBlock(cfg, reply) == [AiUnavailable]) &&
      (found.Success? && Truthy(found.value) ==>
         AiBlock(cfg, reply) == [WrappedFooter(WrapWidth(), found.value.value)]) &&
      (found.Success? && !Truthy(found.value) && reply.value.NullData? ==> AiBlock(cfg, reply) == []) &&
      (found.Success? && !Truthy(found.value) && !reply.value.NullData? ==> AiBlock(cfg, reply) == [AiUnavailable])
  {
  }

  /** A dictionary without "service_response" and any non-list, non-dictionary
      value hold no text, so they draw the error label. */
  lemma UnrecognisedReply(cfg: Settings, data: AiData)
    requires AiEnabled(cfg) && Truthy(cfg.haToken)
    requires data.OtherDict? || data.OtherValue?
    ensures AiBlock(cfg, Success(data)) == [AiUnavailable]
  {
  }
}
