/**
 * The commands: start a new conversation, continue one, delete one. Each
 * command builds its own chat manager over the shared conversations directory.
 */
module Cli {
  import opened Messages
  import opened Truncation
  import opened Storage
  import opened Chat
  import opened Session

  const SystemPrompt: string := "You are a helpful AI assistant in a CLI interface."

  function SystemMessage(): Message
  {
    Message(SystemRole, SystemPrompt)
  }

  /** The history a session on `model` saves, given the loaded history. */
  function SessionHistory(env: Environment, model: string, loaded: seq<Message>, inputs: seq<Input>): seq<Message>
  {
    Converse(env.encodingFor(model), env.backend, model, loaded, inputs)
  }

  /** `continue_conversation`: a missing key or an empty (or absent) conversation
      returns before the loop and saves nothing; otherwise the full, untruncated
      history is saved once when the loop ends, however it ends. The command
      itself always runs on the default model. */
  method ContinueConversation(store: ConversationStore, env: Environment, name: string,
                              inputs: seq<Input>, model: string := DefaultModel)
    modifies store
    ensures var loaded := Load(old(store.files), name);
      if ResolveApiKey(None, env.openaiApiKey).Failure? || loaded == [] then
        store.files == old(store.files)
      else
        store.files == Save(old(store.files), name, SessionHistory(env, model, loaded, inputs))
  {
    if ResolveApiKey(None, env.openaiApiKey).Failure? {
      return;
    }
    var chat := new ChatManager(None, env, model, store);
    var messages := chat.LoadConversation(name);
    if messages == [] {
      return;
    }
    messages := ChatLoop(chat, messages, inputs);
    chat.SaveConversation(name, messages);
  }

  /** The given name unless it is missing or empty, else the timestamp. */
  function ConversationName(name: Option<string>, timestamp: string): (conv: string)
    ensures name.Some? && name.value != "" ==> conv == name.value
    ensures !(name.Some? && name.value != "") ==> conv == timestamp
  {
    if name.Some? && name.value != "" then name.value else timestamp
  }

  /** `create_new_conversation` as written: it seeds the conversation with the
      system message, overwriting any record of that name, and then continues
      it on the default model whatever model was asked for. */
  method CreateNewConversationAsWritten(store: ConversationStore, env: Environment, model: string,
                                        name: Option<string>, timestamp: string, inputs: seq<Input>)
    returns (created: Option<string>)
    modifies store
    ensures ResolveApiKey(None, env.openaiApiKey).Failure? ==>
      created == None && store.files == old(store.files)
    ensures ResolveApiKey(None, env.openaiApiKey).Success? ==>
      && created == Some(ConversationName(name, timestamp))
      && store.files == Save(old(store.files), created.value,
                             SessionHistory(env, DefaultModel, [SystemMessage()], inputs))
  {
    if ResolveApiKey(None, env.openaiApiKey).Failure? {
      return None;
    }
    var chat := new ChatManager(None, env, model, store);
    var convName := ConversationName(name, timestamp);
    chat.SaveConversation(convName, [SystemMessage()]);
    ContinueConversation(store, env, convName, inputs);
    created := Some(convName);
  }

  /** `create_new_conversation` with the chosen model carried into the session. */
  method CreateNewConversation(store: ConversationStore, env: Environment, model: string,
                               name: Option<string>, timestamp: string, inputs: seq<Input>)
    returns (created: Option<string>)
    modifies store
    ensures ResolveApiKey(None, env.openaiApiKey).Failure? ==>
      created == None && store.files == old(store.files)
    ensures ResolveApiKey(None, env.openaiApiKey).Success? ==>
      && created == Some(ConversationName(name, timestamp))
      && store.files == Save(old(store.files), created.value,
                             SessionHistory(env, model, [SystemMessage()], inputs))
  {
    if ResolveApiKey(None, env.openaiApiKey).Failure? {
      return None;
    }
    var chat := new ChatManager(None, env, model, store);
    var convName := ConversationName(name, timestamp);
    chat.SaveConversation(convName, [SystemMessage()]);
    ContinueConversation(store, env, convName, inputs, model);
    created := Some(convName);
  }

  /** A new conversation ended at the first prompt is exactly the system message. */
  lemma NewConversationSeed(env: Environment, model: string, rest: seq<Input>)
    ensures SessionHistory(env, model, [SystemMessage()], [EndOfInput] + rest) == [SystemMessage()]
    ensures SessionHistory(env, model, [SystemMessage()], []) == [SystemMessage()]
  {
  }

  /** A backend that answers with the name of the model it was asked for. */
  function EchoModel(): Backend
  {
    (m: string, ms: seq<Message>) => Completed(m)
  }

  /** `new --model gpt-4` followed by one line: as written, the saved reply comes
      from the default model; with the model carried through it comes from gpt-4. */
  lemma ModelOptionIgnored(home: string, key: string)
    ensures var env := Environment(home, Some(key), (m: string) => ((ms: seq<Message>) => 0), EchoModel());
      && SessionHistory(env, DefaultModel, [SystemMessage()], [Line("hello")])
         == [SystemMessage(), UserMessage("hello"), AssistantMessage("gpt-3.5-turbo")]
      && SessionHistory(env, "gpt-4", [SystemMessage()], [Line("hello")])
         == [SystemMessage(), UserMessage("hello"), AssistantMessage("gpt-4")]
  {
  }

  /** Every reply saved by a session comes from the session's model: the
      assistant message after user message `i` is the model's reply (or its
      error text) to the history up to that user message. */
  lemma SessionRepliesComeFromModel(env: Environment, model: string, loaded: seq<Message>,
                                    inputs: seq<Input>, i: nat)
    requires |loaded| <= i < |SessionHistory(env, model, loaded, inputs)|
    requires (i - |loaded|) % 2 == 1
    ensures var r := SessionHistory(env, model, loaded, inputs);
      var c := env.backend(model, Truncate(env.encodingFor(model), r[..i], DefaultMaxTokens));
      && (c.Completed? ==> r[i] == AssistantMessage(c.text))
      && (c.Raised? ==> r[i] == AssistantMessage(ErrorPrefix + c.error))
      && !c.Interrupted?
  {
    ConverseTurn(env.encodingFor(model), env.backend, model, loaded, inputs, i);
  }

  datatype DeleteOutcome = Deleted | NotFound | ConfigError(message: string)

  /** `delete_conversation`: removes the file when it exists and reports "not
      found" otherwise. A missing key is raised from the manager's construction
      and not caught. */
  method DeleteConversation(store: ConversationStore, env: Environment, name: string)
    returns (outcome: DeleteOutcome)
    modifies store
    ensures ResolveApiKey(None, env.openaiApiKey).Failure? ==>
      outcome == ConfigError(NoApiKeyMessage) && store.files == old(store.files)
    ensures ResolveApiKey(None, env.openaiApiKey).Success? ==>
      && (outcome == Deleted <==> FileName(name) in old(store.files))
      && (outcome == NotFound <==> FileName(name) !in old(store.files))
      && store.files == Delete(old(store.files), name)
  {
    var key := ResolveApiKey(None, env.openaiApiKey);
    if key.Failure? {
      return ConfigError(key.error);
    }
    // Building the manager is only the key check; the file is the one at
    // `chat.GetConversationPath(name)`, which the store keys by file name.
    var chat := new ChatManager(None, env, DefaultModel, store);
    var file := FileName(name);
    if file in store.files {
      store.files := store.files - {file};
      outcome := Deleted;
    } else {
      outcome := NotFound;
    }
  }
}
