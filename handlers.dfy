/**
  What each request handler of the skill does, as functions of the history
  before the event, the event, and the outcome of the remote generation call;
  the first-match dispatch over the handlers; and the history across any
  sequence of events.
 */
module Handlers {
  import opened Wrappers
  import opened Py
  import opened Reply
  import opened Conversation

  const SYSTEM_TEXT: string :=
    "Você será minha assistente de I.A. Te daria comandos e iremos interagir conforme lhe orientar e treinar."
  const ERROR_SPEECH: string :=
    "Desculpe, houve um erro ao processar sua solicitação. Por favor, tente novamente."
  const LAUNCH_SUFFIX: string := " Como posso te ajudar?"
  const CHAT_REPROMPT: string := "Alguma outra pergunta?"
  const GOODBYE_SPEECH: string := "Goodbye!"
  const CATCH_ALL_SPEECH: string := "Sorry, I had trouble doing what you asked. Please try again."

  // ----- incoming requests and the handlers' predicates -----

  /** A slot's value is null when the platform filled nothing in. */
  datatype Slot = Slot(value: Option<string>)

  datatype Intent = Intent(name: string, slots: map<string, Slot>)

  /** The request inside the platform's envelope: its type name and, for an
      intent request, the intent. */
  datatype Request = Request(requestType: string, intent: Option<Intent>)

  predicate IsRequestType(req: Request, requestType: string) {
    req.requestType == requestType
  }

  predicate IsIntentName(req: Request, name: string) {
    IsRequestType(req, "IntentRequest") && req.intent.Some? && req.intent.value.name == name
  }

  predicate LaunchCanHandle(req: Request) {
    IsRequestType(req, "LaunchRequest")
  }

  predicate ChatCanHandle(req: Request) {
    IsIntentName(req, "ChatIntent")
  }

  predicate CancelOrStopCanHandle(req: Request) {
    IsIntentName(req, "AMAZON.CancelIntent") || IsIntentName(req, "AMAZON.StopIntent")
  }

  datatype HandlerKind = LaunchHandler | ChatHandler | CancelOrStopHandler

  predicate CanHandle(k: HandlerKind, req: Request) {
    match k
    case LaunchHandler => LaunchCanHandle(req)
    case ChatHandler => ChatCanHandle(req)
    case CancelOrStopHandler => CancelOrStopCanHandle(req)
  }

  /** The request handlers in the order they are registered. */
  const REQUEST_HANDLERS: seq<HandlerKind> := [LaunchHandler, ChatHandler, CancelOrStopHandler]

  /** Index of the first handler in `hs` that can handle `req`. */
  function FirstMatch(hs: seq<HandlerKind>, req: Request): (r: Option<nat>)
    ensures r.Some? ==> r.value < |hs| && CanHandle(hs[r.value], req)
    ensures r.Some? ==> forall j :: 0 <= j < r.value ==> !CanHandle(hs[j], req)
    ensures r.None? ==> forall j :: 0 <= j < |hs| ==> !CanHandle(hs[j], req)
  {
    if hs == [] then None
    else if CanHandle(hs[0], req) then Some(0)
    else match FirstMatch(hs[1..], req)
      case None => None
      case Some(i) => Some(i + 1)
  }

  /** The handler chosen for a request, or None when the platform finds none. */
  function Dispatch(req: Request): (r: Option<HandlerKind>)
    ensures r.Some? ==> r.value in REQUEST_HANDLERS && CanHandle(r.value, req)
    ensures r.None? <==> !LaunchCanHandle(req) && !ChatCanHandle(req) && !CancelOrStopCanHandle(req)
  {
    match FirstMatch(REQUEST_HANDLERS, req)
    case None =>
      assert !CanHandle(REQUEST_HANDLERS[0], req) && !CanHandle(REQUEST_HANDLERS[1], req)
          && !CanHandle(REQUEST_HANDLERS[2], req);
      None
    case Some(i) => Some(REQUEST_HANDLERS[i])
  }

  /** First match in registration order: each handler is chosen exactly when
      it can handle the request and no earlier one can. */
  lemma DispatchOrder(req: Request)
    ensures Dispatch(req) == Some(LaunchHandler) <==> LaunchCanHandle(req)
    ensures Dispatch(req) == Some(ChatHandler) <==> !LaunchCanHandle(req) && ChatCanHandle(req)
    ensures Dispatch(req) == Some(CancelOrStopHandler) <==>
              !LaunchCanHandle(req) && !ChatCanHandle(req) && CancelOrStopCanHandle(req)
    ensures Dispatch(req) == None <==>
              !LaunchCanHandle(req) && !ChatCanHandle(req) && !CancelOrStopCanHandle(req)
  {
    var m := FirstMatch(REQUEST_HANDLERS, req);
    if m.Some? {
      assert m.value == 0 || m.value == 1 || m.value == 2;
    } else {
      assert !CanHandle(REQUEST_HANDLERS[0], req) && !CanHandle(REQUEST_HANDLERS[1], req)
          && !CanHandle(REQUEST_HANDLERS[2], req);
    }
  }

  /** No request is claimed by two handlers, so the order never decides. */
  lemma HandlersExclusive(req: Request)
    ensures !(LaunchCanHandle(req) && ChatCanHandle(req))
    ensures !(LaunchCanHandle(req) && CancelOrStopCanHandle(req))
    ensures !(ChatCanHandle(req) && CancelOrStopCanHandle(req))
  {
  }

  // ----- one handler call -----

  /** What the remote generation call returned: a decoded body, or a
      `requests` exception (transport failure, error status, undecodable body). */
  datatype Remote = Success(body: Json) | RequestError

  /** The call as the handler sees it once the body is read: the call failed,
      or it returned and reading `text` out of the body gave a value or raised. */
  datatype Received = CallFailed | Replied(text: Result<Json, Exception>)

  function Receive(remote: Remote): Received {
    match remote
    case RequestError => CallFailed
    case Success(body) => Replied(ExtractReplyText(body))
  }

  /** What the skill says, and what it says again if the user stays silent. */
  datatype Response = Response(speech: string, reprompt: Option<string>)

  /** A handler call: the history afterwards, the response or the exception
      that escaped the handler, and the `contents` sent to the remote call. */
  datatype Turn = Turn(history: seq<Message>, out: Result<Response, Exception>, sent: Option<seq<Message>>)

  function SystemMessage(): Message {
    UserMessage(Str(SYSTEM_TEXT))
  }

  function QueryText(slot: Slot): Json {
    match slot.value
    case Some(s) => Str(s)
    case None => Null
  }

  /** The launch handler. It ignores the history it finds, always sends the
      system message alone, and leaves either no history (the call failed or
      reading the reply raised) or the system message and one model message. */
  function LaunchTurn(received: Received): (r: Turn)
    ensures r.sent == Some([SystemMessage()])
    ensures r.history == [] <==> !(received.Replied? && received.text.Ok?)
    ensures received.Replied? && received.text.Ok? ==>
              r.history == [SystemMessage(), ModelMessage(received.text.value)]
    ensures received.Replied? && received.text.Ok? && received.text.value.Str? ==>
              var speech := received.text.value.chars + LAUNCH_SUFFIX;
              r.out == Ok(Response(speech, Some(speech)))
    ensures received.Replied? && received.text.Ok? && !received.text.value.Str? ==> r.out == Raise(TypeError)
    ensures WellFormed(r.history)
  {
    var sent := Some([SystemMessage()]);
    match received
    case CallFailed => Turn([], Ok(Response(ERROR_SPEECH, Some(ERROR_SPEECH))), sent)
    case Replied(reply) =>
      match reply
      case Raise(e) => Turn([], Raise(e), sent)
      case Ok(text) =>
        var h := [SystemMessage(), ModelMessage(text)];
        if text.Str? then
          var speech := text.chars + LAUNCH_SUFFIX;
          Turn(h, Ok(Response(speech, Some(speech))), sent)
        else
          // `text + "..."` on a value that is not a string
          Turn(h, Raise(TypeError), sent)
  }

  /** The chat handler. Without a `query` slot it raises before it touches
      anything. Otherwise it sends the trimmed history followed by the user
      message, and keeps the trimmed history, extended by the user message and
      the reply only when a reply was read. Whatever it answers, it re-prompts
      with the follow-up question. */
  function ChatTurn(h: seq<Message>, intent: Intent, received: Received): (r: Turn)
    ensures "query" !in intent.slots ==> r == Turn(h, Raise(KeyError), None)
    ensures "query" in intent.slots ==>
      var user := UserMessage(QueryText(intent.slots["query"]));
      && r.sent == Some(Trim(h) + [user])
      && r.history == Trim(h) + (if received.Replied? && received.text.Ok?
                                 then [user, ModelMessage(received.text.value)] else [])
    ensures r.out.Ok? ==> r.out.value.reprompt == Some(CHAT_REPROMPT)
  {
    if "query" !in intent.slots then Turn(h, Raise(KeyError), None)
    else
      var user := UserMessage(QueryText(intent.slots["query"]));
      var trimmed := Trim(h);
      var sent := Some(trimmed + [user]);
      match received
      case CallFailed => Turn(trimmed, Ok(Response(ERROR_SPEECH, Some(CHAT_REPROMPT))), sent)
      case Replied(reply) =>
        match reply
        case Raise(e) => Turn(trimmed, Raise(e), sent)
        case Ok(text) =>
          var h' := trimmed + [user, ModelMessage(text)];
          if text.Str? then Turn(h', Ok(Response(text.chars, Some(CHAT_REPROMPT))), sent)
          // the response builder speaks nothing for a null
          else if text.Null? then Turn(h', Ok(Response("", Some(CHAT_REPROMPT))), sent)
          else Turn(h', Raise(SpeechNotString), sent)
  }

  /** The cancel/stop handler: a farewell and no re-prompt. */
  function CancelOrStopResponse(): Response {
    Response(GOODBYE_SPEECH, None)
  }

  /** The exception handler, which catches everything. */
  function CatchAllResponse(): Response {
    Response(CATCH_ALL_SPEECH, Some(CATCH_ALL_SPEECH))
  }

  lemma LaunchOnSuccess(body: Json, text: string)
    requires ExtractReplyText(body) == Ok(Str(text))
    ensures var t := LaunchTurn(Receive(Success(body)));
      && t.history == [SystemMessage(), ModelMessage(Str(text))]
      && t.out == Ok(Response(text + LAUNCH_SUFFIX, Some(text + LAUNCH_SUFFIX)))
      && t.sent == Some([SystemMessage()])
  {
  }

  /** An exception while the reply is read escapes launch, with the history
      already reset. */
  lemma LaunchOnReplyRaises(body: Json)
    requires ExtractReplyText(body).Raise?
    ensures var t := LaunchTurn(Receive(Success(body)));
      && t.history == []
      && t.out == Raise(ExtractReplyText(body).error)
  {
  }

  lemma LaunchOnRequestError()
    ensures var t := LaunchTurn(Receive(RequestError));
      && t.history == []
      && t.out == Ok(Response(ERROR_SPEECH, Some(ERROR_SPEECH)))
      && t.sent == Some([SystemMessage()])
  {
  }

  lemma ChatOnSuccess(h: seq<Message>, intent: Intent, body: Json, text: string)
    requires "query" in intent.slots
    requires ExtractReplyText(body) == Ok(Str(text))
    ensures var t := ChatTurn(h, intent, Receive(Success(body)));
      && t.history == Trim(h) + [UserMessage(QueryText(intent.slots["query"])), ModelMessage(Str(text))]
      && t.out == Ok(Response(text, Some(CHAT_REPROMPT)))
  {
  }

  /** A null reply text is recorded and spoken as nothing. */
  lemma ChatOnNullText(h: seq<Message>, intent: Intent, body: Json)
    requires "query" in intent.slots
    requires ExtractReplyText(body) == Ok(Null)
    ensures var t := ChatTurn(h, intent, Receive(Success(body)));
      && t.history == Trim(h) + [UserMessage(QueryText(intent.slots["query"])), ModelMessage(Null)]
      && t.out == Ok(Response("", Some(CHAT_REPROMPT)))
  {
  }

  /** An exception while the reply is read escapes the handler: the trim has
      taken effect and nothing is appended. */
  lemma ChatOnReplyRaises(h: seq<Message>, intent: Intent, body: Json)
    requires "query" in intent.slots
    requires ExtractReplyText(body).Raise?
    ensures var t := ChatTurn(h, intent, Receive(Success(body)));
      && t.history == Trim(h)
      && t.out == Raise(ExtractReplyText(body).error)
      && t.sent == Some(Trim(h) + [UserMessage(QueryText(intent.slots["query"]))])
  {
  }

  /** A failed call keeps the trim but appends nothing. */
  lemma ChatOnRequestError(h: seq<Message>, intent: Intent)
    requires "query" in intent.slots
    ensures var t := ChatTurn(h, intent, Receive(RequestError));
      && t.history == Trim(h)
      && t.out == Ok(Response(ERROR_SPEECH, Some(CHAT_REPROMPT)))
  {
  }

  /** Without a `query` slot the handler raises before it touches anything. */
  lemma ChatMissingSlot(h: seq<Message>, intent: Intent, received: Received)
    requires "query" !in intent.slots
    ensures ChatTurn(h, intent, received) == Turn(h, Raise(KeyError), None)
  {
  }

  /** A chat turn grows the history by exactly two only when it succeeds after
      a history below the threshold; at the threshold it restarts from the
      last `MAX_HISTORY` entries. */
  lemma {:induction false} ChatGrowth(h: seq<Message>, intent: Intent, received: Received)
    requires WellFormed(h) && "query" in intent.slots
    ensures var t := ChatTurn(h, intent, received);
      |t.history| == |Trim(h)| + (if received.Replied? && received.text.Ok? then 2 else 0)
    ensures |h| < 2 * MAX_HISTORY ==> |Trim(h)| == |h|
    ensures |h| == 2 * MAX_HISTORY ==> |Trim(h)| == MAX_HISTORY
  {
  }

  // ----- events in sequence -----

  /** One event: the incoming request and what its remote call would return. */
  datatype Event = Event(request: Request, remote: Remote)

  /** The skill's state and output after one event. */
  datatype Outcome = Outcome(history: seq<Message>, response: Response, sent: Option<seq<Message>>)

  /** An exception escaping a handler is answered by the catch-all handler;
      the history and the contents sent are what the handler left. */
  function Finish(t: Turn): (r: Outcome)
    ensures r.history == t.history && r.sent == t.sent
    ensures t.out.Ok? ==> r.response == t.out.value
    ensures t.out.Raise? ==> r.response == CatchAllResponse()
  {
    match t.out
    case Ok(r) => Outcome(t.history, r, t.sent)
    case Raise(_) => Outcome(t.history, CatchAllResponse(), t.sent)
  }

  /** The Launch or Chat handler's call for an event routed to it. */
  function HandlerTurn(h: seq<Message>, ev: Event): Turn
    requires Dispatch(ev.request) == Some(LaunchHandler) || Dispatch(ev.request) == Some(ChatHandler)
  {
    if Dispatch(ev.request) == Some(LaunchHandler) then LaunchTurn(Receive(ev.remote))
    else ChatTurn(h, ev.request.intent.value, Receive(ev.remote))
  }

  /** One event. Only the Launch and Chat handlers call the service or change
      the history. */
  function Step(h: seq<Message>, ev: Event): (r: Outcome)
    ensures (r.history != h || r.sent.Some?) ==>
              Dispatch(ev.request) == Some(LaunchHandler) || Dispatch(ev.request) == Some(ChatHandler)
  {
    match Dispatch(ev.request)
    case None => Outcome(h, CatchAllResponse(), None)
    case Some(CancelOrStopHandler) => Outcome(h, CancelOrStopResponse(), None)
    case Some(_) => Finish(HandlerTurn(h, ev))
  }

  /** The history after the events, in order, starting from `h`: the last
      event is handled on the history the earlier ones left. */
  function Run(h: seq<Message>, events: seq<Event>): (r: seq<Message>)
    ensures |events| > 0 ==> r == Step(Run(h, events[..|events| - 1]), events[|events| - 1]).history
    decreases |events|
  {
    if events == [] then h
    else
      var rest := events[1..];
      assert |rest| > 0 ==> events[..|events| - 1][1..] == rest[..|rest| - 1];
      assert events[..|events| - 1] == [] ==> events[|events| - 1] == events[0];
      Run(Step(h, events[0]).history, rest)
  }

  /** When the chosen handler raises, the catch-all answers, and the history
      and the contents sent are what the handler left. */
  lemma StepHandlerRaises(h: seq<Message>, ev: Event)
    requires Dispatch(ev.request) == Some(LaunchHandler) || Dispatch(ev.request) == Some(ChatHandler)
    requires HandlerTurn(h, ev).out.Raise?
    ensures Step(h, ev) == Outcome(HandlerTurn(h, ev).history, CatchAllResponse(), HandlerTurn(h, ev).sent)
  {
  }

  /** Cancel/stop and unhandled requests leave the history as it was. */
  lemma StepWithoutCall(h: seq<Message>, ev: Event)
    requires Dispatch(ev.request) == None || Dispatch(ev.request) == Some(CancelOrStopHandler)
    ensures Step(h, ev).history == h && Step(h, ev).sent == None
    ensures Dispatch(ev.request) == None ==> Step(h, ev).response == CatchAllResponse()
    ensures Dispatch(ev.request) == Some(CancelOrStopHandler) ==>
              Step(h, ev).response == Response(GOODBYE_SPEECH, None)
  {
  }

  /** A chat turn keeps the history well formed, and what it sends alternates,
      has odd length and ends with the new user message. */
  lemma {:induction false} ChatTurnWellFormed(h: seq<Message>, intent: Intent, received: Received)
    requires WellFormed(h)
    ensures WellFormed(ChatTurn(h, intent, received).history)
    ensures ChatTurn(h, intent, received).sent.Some? ==>
      var s := ChatTurn(h, intent, received).sent.value;
      Alternates(s) && |s| % 2 == 1 && |s| <= 2 * MAX_HISTORY - 1 && s[|s| - 1].role == User
  {
    var t := ChatTurn(h, intent, received);
    if "query" in intent.slots {
      var q := QueryText(intent.slots["query"]);
      TrimWellFormed(h);
      ChatContentsShape(h, q);
      assert t.sent == Some(Trim(h) + [UserMessage(q)]);
      match received
      case CallFailed =>
        assert t.history == Trim(h);
      case Replied(r) =>
        if r.Ok? {
          AppendTurnWellFormed(Trim(h), q, r.value);
          assert t.history == Trim(h) + [UserMessage(q), ModelMessage(r.value)];
        } else {
          assert t.history == Trim(h);
        }
    }
  }

  /** Each event keeps the history well formed, and whatever is sent to the
      remote call alternates, has odd length and ends with a user message. */
  lemma {:induction false} StepKeepsWellFormed(h: seq<Message>, ev: Event)
    requires WellFormed(h)
    ensures WellFormed(Step(h, ev).history)
    ensures Step(h, ev).sent.Some? ==>
      var s := Step(h, ev).sent.value;
      Alternates(s) && |s| % 2 == 1 && |s| <= 2 * MAX_HISTORY - 1 && s[|s| - 1].role == User
  {
    DispatchOrder(ev.request);
    var received := Receive(ev.remote);
    match Dispatch(ev.request)
    case None =>
    case Some(CancelOrStopHandler) =>
    case Some(LaunchHandler) =>
      var t := LaunchTurn(received);
      assert Step(h, ev).history == t.history && Step(h, ev).sent == t.sent;
    case Some(ChatHandler) =>
      var t := ChatTurn(h, ev.request.intent.value, received);
      ChatTurnWellFormed(h, ev.request.intent.value, received);
      assert Step(h, ev).history == t.history && Step(h, ev).sent == t.sent;
  }

  /** From any well-formed history, every sequence of events keeps it well formed. */
  lemma {:induction false} RunKeepsWellFormed(h: seq<Message>, events: seq<Event>)
    requires WellFormed(h)
    ensures WellFormed(Run(h, events))
    decreases |events|
  {
    if events != [] {
      StepKeepsWellFormed(h, events[0]);
      RunKeepsWellFormed(Step(h, events[0]).history, events[1..]);
    }
  }

  /** Starting from the initial empty history, after any sequence of events the
      history has even length at most `2 * MAX_HISTORY` and alternates user,
      model, ... starting with user. */
  lemma HistoryInvariant(events: seq<Event>)
    ensures var h := Run([], events);
      && |h| % 2 == 0 && |h| <= 2 * MAX_HISTORY
      && forall i :: 0 <= i < |h| ==> h[i].role == (if i % 2 == 0 then User else Model)
  {
    RunKeepsWellFormed([], events);
  }
}
