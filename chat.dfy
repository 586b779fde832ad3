/**
 * The chat manager: configuration, the conversation store it works on, context
 * truncation and the fail-soft call to the completion backend.
 */
module Chat {
  import opened Messages
  import opened Truncation
  import opened Storage

  /** What awaiting the backend can end in: a completion text, a raised error
      (network, quota, malformed response) with its text, or a keyboard interrupt. */
  datatype Completion = Completed(text: string) | Raised(error: string) | Interrupted

  /** The backend: given the model name and the request messages, one completion. */
  type Backend = (string, seq<Message>) -> Completion

  /** What `generate_response` hands back: a reply text, or the keyboard
      interrupt it lets through (it is not an `Exception`). */
  datatype Response = Text(text: string) | KeyboardInterrupt

  /** The process environment the client depends on: the home directory, the
      `OPENAI_API_KEY` variable, the tokenizer for each model and the backend. */
  datatype Environment = Environment(
    home: string,
    openaiApiKey: Option<string>,
    encodingFor: string -> TokenCounter,
    backend: Backend)

  const DefaultModel: string := "gpt-3.5-turbo"
  const ErrorPrefix: string := "Error generating response: "
  const NoApiKeyMessage: string := "No OpenAI API key found. Set OPENAI_API_KEY environment variable."

  /** The key argument if it is a non-empty string, else the environment's;
      an empty or missing key is the configuration error. */
  function ResolveApiKey(apiKey: Option<string>, envKey: Option<string>): (r: Result<string, string>)
    ensures r.Success? <==> (apiKey.Some? && apiKey.value != "") || (envKey.Some? && envKey.value != "")
    ensures r.Success? ==> r.value != ""
    ensures r.Success? && apiKey.Some? && apiKey.value != "" ==> r.value == apiKey.value
    ensures r.Success? && !(apiKey.Some? && apiKey.value != "") ==> r == Success(envKey.value)
    ensures r.Failure? ==> r.error == NoApiKeyMessage
  {
    var key := if apiKey.Some? && apiKey.value != "" then apiKey else envKey;
    if key.Some? && key.value != "" then Success(key.value) else Failure(NoApiKeyMessage)
  }

  /** The reply for a message list: the backend is asked with the truncated list;
      an error becomes the reply text behind a fixed prefix. */
  function Respond(count: TokenCounter, backend: Backend, model: string, messages: seq<Message>): (r: Response)
    ensures var c := backend(model, Truncate(count, messages, DefaultMaxTokens));
      && (c.Completed? ==> r == Text(c.text))
      && (c.Raised? ==> r == Text(ErrorPrefix + c.error))
      && (c.Interrupted? <==> r.KeyboardInterrupt?)
  {
    match backend(model, Truncate(count, messages, DefaultMaxTokens))
    case Completed(text) => Text(text)
    case Raised(error) => Text(ErrorPrefix + error)
    case Interrupted => KeyboardInterrupt
  }

  /** The error reply carries the error text after the prefix. */
  lemma ErrorReplyCarriesError(count: TokenCounter, backend: Backend, model: string, messages: seq<Message>)
    requires backend(model, Truncate(count, messages, DefaultMaxTokens)).Raised?
    ensures var r := Respond(count, backend, model, messages);
      r.Text? && |r.text| >= |ErrorPrefix| && r.text[..|ErrorPrefix|] == ErrorPrefix
      && r.text[|ErrorPrefix|..] == backend(model, Truncate(count, messages, DefaultMaxTokens)).error
  {
  }

  /** The prefix does not set error replies apart: a completion that happens to
      start with it reads the same as a failure. */
  lemma ErrorReplyAmbiguous(count: TokenCounter, model: string, messages: seq<Message>, error: string)
    ensures Respond(count, (m: string, ms: seq<Message>) => Completed(ErrorPrefix + error), model, messages)
         == Respond(count, (m: string, ms: seq<Message>) => Raised(error), model, messages)
  {
  }

  /** The conversations directory, shared by every manager created in a process. */
  class ConversationStore {
    /** The entries of the directory by file name, with the messages each holds. */
    var files: Files

    constructor (files: Files)
      ensures this.files == files
    {
      this.files := files;
    }
  }

  /** `ChatManager`: set up once from the environment; only the store it
      points at changes afterwards. */
  class ChatManager {
    const apiKey: string
    const model: string
    const home: string
    const store: ConversationStore
    const tokenCount: TokenCounter
    const complete: Backend

    /** Construction fails with the configuration error when no key is found;
        callers check `ResolveApiKey` first. */
    constructor (apiKey: Option<string>, env: Environment, model: string, store: ConversationStore)
      requires ResolveApiKey(apiKey, env.openaiApiKey).Success?
      ensures this.apiKey == ResolveApiKey(apiKey, env.openaiApiKey).value
      ensures this.model == model && this.home == env.home && this.store == store
      ensures this.tokenCount == env.encodingFor(model) && this.complete == env.backend
    {
      this.apiKey := ResolveApiKey(apiKey, env.openaiApiKey).value;
      this.model := model;
      this.home := env.home;
      this.store := store;
      this.tokenCount := env.encodingFor(model);
      this.complete := env.backend;
    }

    /** The file path of a conversation. */
    function GetConversationPath(name: string): (path: string)
      ensures |name| > 0 && name[0] == '/' ==> path == name + ".json"
      ensures !(|name| > 0 && name[0] == '/') ==> path == ConversationsDir(home) + "/" + name + ".json"
    {
      ConversationPathShape(home, name);
      JoinPath(ConversationsDir(home), FileName(name))
    }

    /** The names of the saved conversations. */
    method ListConversations() returns (names: set<string>)
      ensures names == ListNames(store.files.Keys)
    {
      names := ListNames(store.files.Keys);
    }

    /** Writes the whole list over the conversation's file. */
    method SaveConversation(name: string, messages: seq<Message>)
      modifies store
      ensures store.files == Save(old(store.files), name, messages)
    {
      store.files := store.files[FileName(name) := messages];
    }

    /** Reads a conversation back; a missing file gives the empty list. */
    method LoadConversation(name: string) returns (messages: seq<Message>)
      ensures messages == Load(store.files, name)
    {
      if FileName(name) in store.files {
        messages := store.files[FileName(name)];
      } else {
        messages := [];
      }
    }

    /** Drops the message at index 1 while the list is over budget and longer than one. */
    method TruncateContext(messages: seq<Message>, maxTokens: int := DefaultMaxTokens) returns (r: seq<Message>)
      ensures r == Truncate(tokenCount, messages, maxTokens)
    {
      r := messages;
      while tokenCount(r) > maxTokens
        invariant Truncate(tokenCount, r, maxTokens) == Truncate(tokenCount, messages, maxTokens)
        decreases |r|
      {
        if |r| > 1 {
          r := r[..1] + r[2..];
        } else {
          break;
        }
      }
    }

    /** Truncates a copy of the history, asks the backend and turns an error
        into the reply text. The caller's list is a value and stays as it was. */
    method GenerateResponse(messages: seq<Message>) returns (r: Response)
      ensures r == Respond(tokenCount, complete, model, messages)
    {
      var truncated := TruncateContext(messages);
      var c := complete(model, truncated);
      match c
      case Completed(text) => r := Text(text);
      case Raised(error) => r := Text(ErrorPrefix + error);
      case Interrupted => r := KeyboardInterrupt;
    }
  }
}
