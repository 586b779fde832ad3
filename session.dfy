/**
 * The interactive chat loop of a resumed conversation: prompt, append the user
 * message, generate a reply, append it, until end of input or an interrupt.
 */
module Session {
  import opened Messages
  import opened Truncation
  import opened Chat

  /** One answer to the prompt: a line of text (an empty line reads as ""), or
      end of input / Ctrl+C at the prompt. Running out of inputs reads as the latter. */
  datatype Input = Line(text: string) | EndOfInput

  function UserMessage(text: string): Message
  {
    Message(UserRole, text)
  }

  function AssistantMessage(text: string): Message
  {
    Message(AssistantRole, text)
  }

  /** The in-memory history when the loop ends, from the loaded history and the
      inputs given to the prompt. An interrupt while awaiting the backend leaves
      the user message of that turn in place. */
  function Converse(count: TokenCounter, backend: Backend, model: string,
                    history: seq<Message>, inputs: seq<Input>): (r: seq<Message>)
    ensures |history| <= |r| <= |history| + 2 * |inputs|
    ensures r[..|history|] == history
    decreases |inputs|
  {
    if |inputs| == 0 || inputs[0].EndOfInput? then history
    else
      var asked := history + [UserMessage(inputs[0].text)];
      match Respond(count, backend, model, asked)
      case KeyboardInterrupt => asked
      case Text(reply) =>
        var r := Converse(count, backend, model, asked + [AssistantMessage(reply)], inputs[1..]);
        assert r[..|history|] == r[..|asked| + 1][..|history|];
        r
  }

  /** Message `i` of the added part belongs to turn `(i - |history|) / 2`: the
      user message holds that turn's input line, and the assistant message that
      follows it holds the reply generated from the history up to it. */
  lemma {:induction false} ConverseTurn(count: TokenCounter, backend: Backend, model: string,
                                        history: seq<Message>, inputs: seq<Input>, i: nat)
    requires |history| <= i < |Converse(count, backend, model, history, inputs)|
    ensures var r := Converse(count, backend, model, history, inputs);
      var t := (i - |history|) / 2;
      && t < |inputs| && inputs[t].Line?
      && ((i - |history|) % 2 == 0 ==> r[i] == UserMessage(inputs[t].text))
      && ((i - |history|) % 2 == 1 ==>
            Respond(count, backend, model, r[..i]).Text?
            && r[i] == AssistantMessage(Respond(count, backend, model, r[..i]).text))
    decreases |inputs|
  {
    var r := Converse(count, backend, model, history, inputs);
    var asked := history + [UserMessage(inputs[0].text)];
    match Respond(count, backend, model, asked)
    case KeyboardInterrupt =>
      assert i == |history|;
    case Text(reply) =>
      var next := asked + [AssistantMessage(reply)];
      assert r == Converse(count, backend, model, next, inputs[1..]);
      if i < |next| {
        assert r[i] == r[..|next|][i] == next[i];
        if i == |history| + 1 {
          assert r[..i] == r[..|next|][..i];
          assert r[..i] == asked;
        }
      } else {
        ConverseTurn(count, backend, model, next, inputs[1..], i);
        assert inputs[1..][(i - |next|) / 2] == inputs[(i - |history|) / 2];
      }
  }

  /** Why the loop stopped: after a whole number of turns the next input was end
      of input (or there was none); after an odd number of messages the backend
      call for the last user message was interrupted. */
  lemma {:induction false} ConverseStops(count: TokenCounter, backend: Backend, model: string,
                                         history: seq<Message>, inputs: seq<Input>)
    ensures var r := Converse(count, backend, model, history, inputs);
      var added := |r| - |history|;
      && (added % 2 == 1 ==> Respond(count, backend, model, r).KeyboardInterrupt?)
      && (added % 2 == 0 && added / 2 < |inputs| ==> inputs[added / 2].EndOfInput?)
    decreases |inputs|
  {
    if |inputs| > 0 && inputs[0].Line? {
      var asked := history + [UserMessage(inputs[0].text)];
      match Respond(count, backend, model, asked)
      case KeyboardInterrupt =>
      case Text(reply) =>
        var next := asked + [AssistantMessage(reply)];
        ConverseStops(count, backend, model, next, inputs[1..]);
        var r := Converse(count, backend, model, history, inputs);
        var added := |r| - |history|;
        if added % 2 == 0 && added / 2 < |inputs| {
          assert inputs[1..][(|r| - |next|) / 2] == inputs[added / 2];
        }
    }
  }

  /** End of input at the first prompt adds nothing. */
  lemma EndOfInputAddsNothing(count: TokenCounter, backend: Backend, model: string,
                              history: seq<Message>, rest: seq<Input>)
    ensures Converse(count, backend, model, history, [EndOfInput] + rest) == history
  {
  }

  /** The loop of `continue_conversation` over the prompt inputs. */
  method ChatLoop(chat: ChatManager, loaded: seq<Message>, inputs: seq<Input>) returns (messages: seq<Message>)
    ensures messages == Converse(chat.tokenCount, chat.complete, chat.model, loaded, inputs)
  {
    messages := loaded;
    var i := 0;
    while i < |inputs|
      invariant 0 <= i <= |inputs|
      invariant Converse(chat.tokenCount, chat.complete, chat.model, messages, inputs[i..])
             == Converse(chat.tokenCount, chat.complete, chat.model, loaded, inputs)
      decreases |inputs| - i
    {
      if inputs[i].EndOfInput? {
        return;
      }
      messages := messages + [UserMessage(inputs[i].text)];
      var reply := chat.GenerateResponse(messages);
      if reply.KeyboardInterrupt? {
        return;
      }
      messages := messages + [AssistantMessage(reply.text)];
      assert inputs[i..][1..] == inputs[i + 1..];
      i := i + 1;
    }
  }
}
