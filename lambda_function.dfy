/**
  The skill's process-wide state: the conversation history, updated in place
  by the launch and chat handlers, and the entry point that routes one
  request to the first handler that accepts it.
 */
module LambdaFunction {
  import opened Wrappers
  import opened Py
  import opened Reply
  import opened Conversation
  import opened Handlers

  class Skill {
    /** The module-level conversation history. */
    var history: seq<Message>

    ghost predicate Valid()
      reads this
    {
      WellFormed(history)
    }

    /** The history starts out empty when the module is loaded. */
    constructor ()
      ensures history == [] && Valid()
    {
      history := [];
    }

    /** The launch handler: reset the history, ask the service to reply to
        the system message, and on success record both messages. */
    method Launch(remote: Remote) returns (out: Result<Response, Exception>, sent: seq<Message>)
      modifies this
      ensures LaunchTurn(Receive(remote)) == Turn(history, out, Some(sent))
      ensures Valid()
    {
      history := [];
      var system := SystemMessage();
      sent := [system];
      match remote {
        case RequestError =>
          out := Ok(Response(ERROR_SPEECH, Some(ERROR_SPEECH)));
        case Success(body) =>
          var text :- ExtractReplyText(body);
          history := history + [system, ModelMessage(text)];
          if text.Str? {
            var speech := text.chars + LAUNCH_SUFFIX;
            out := Ok(Response(speech, Some(speech)));
          } else {
            out := Raise(TypeError);
          }
      }
    }

    /** The chat handler: read the query, trim the history, send the history
        and the query, and on success record the query and the reply. */
    method Chat(intent: Intent, remote: Remote) returns (out: Result<Response, Exception>, sent: Option<seq<Message>>)
      requires Valid()
      modifies this
      ensures ChatTurn(old(history), intent, Receive(remote)) == Turn(history, out, sent)
      ensures Valid()
    {
      ChatTurnWellFormed(history, intent, Receive(remote));
      sent := None;
      if "query" !in intent.slots {
        out := Raise(KeyError);
        return;
      }
      var user := UserMessage(QueryText(intent.slots["query"]));
      if |history| >= MAX_HISTORY * 2 {
        history := LastN(history, MAX_HISTORY);
      }
      sent := Some(history + [user]);
      match remote {
        case RequestError =>
          out := Ok(Response(ERROR_SPEECH, Some(CHAT_REPROMPT)));
        case Success(body) =>
          var text :- ExtractReplyText(body);
          history := history + [user, ModelMessage(text)];
          if text.Str? {
            out := Ok(Response(text.chars, Some(CHAT_REPROMPT)));
          } else if text.Null? {
            out := Ok(Response("", Some(CHAT_REPROMPT)));
          } else {
            out := Raise(SpeechNotString);
          }
      }
    }

    /** One request: the first registered handler that accepts it runs, and
        any exception that escapes it, or a request no handler accepts, is
        answered by the catch-all handler. */
    method Handle(request: Request, remote: Remote) returns (response: Response, sent: Option<seq<Message>>)
      requires Valid()
      modifies this
      ensures Step(old(history), Event(request, remote)) == Outcome(history, response, sent)
      ensures Valid()
    {
      ghost var before := history;
      DispatchOrder(request);
      var handler := Dispatch(request);
      match handler {
        case None =>
          response, sent := CatchAllResponse(), None;
        case Some(LaunchHandler) =>
          var out, contents := Launch(remote);
          response, sent := if out.Ok? then out.value else CatchAllResponse(), Some(contents);
        case Some(ChatHandler) =>
          var out, contents := Chat(request.intent.value, remote);
          response, sent := if out.Ok? then out.value else CatchAllResponse(), contents;
        case Some(CancelOrStopHandler) =>
          response, sent := CancelOrStopResponse(), None;
      }
      StepKeepsWellFormed(before, Event(request, remote));
    }
  }
}
