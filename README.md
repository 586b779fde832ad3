# ai_cli conversation core, modelled in Dafny

`ai_cli` is a terminal chat client. It keeps each conversation with a
language-model backend as a `<name>.json` file under
`~/.ai_cli/conversations`. A resumed or new conversation runs as an
interactive loop. Before each backend request, the message list is truncated
to a token budget. This project models that core and proves its properties:

- **Truncation** (module `Truncation`, and `Chat.ChatManager.TruncateContext`).
  The message at index 1 is dropped while the list is over budget and longer
  than one message. The result is the first message followed by a suffix of
  the rest. It fits the budget or has at most one message. The drop point is
  the first one that fits, and these facts determine the result
  (`TruncateUnique`).
- **Responses** (`Chat.Respond`, `Chat.ChatManager.GenerateResponse`). The
  backend is asked with the truncated copy. A raised error becomes the reply
  `"Error generating response: " + error`. A keyboard interrupt is not an
  `Exception`, so it passes through.
- **The store** (module `Storage`, class `Chat.ConversationStore`). The
  directory is a map from file name to messages. Save overwrites the file,
  load gives `[]` for a missing file, and delete removes the file. Names are
  listed by splitting off the extension the way `os.path.splitext` does, so a
  name made only of dots (such as `.`) is listed under its file name
  (`..json`). A name with any other character round-trips.
- **The session** (module `Session`). The chat loop is `ChatLoop`, proved
  against the function `Converse`. The loaded history is kept as a prefix.
  Each completed turn adds the input line as a user message and then the reply
  generated from the history up to that line. The loop stops at end of input,
  or at an interrupt while waiting for the backend, which leaves one trailing
  user message.
- **The commands** (module `Cli`). `continue_conversation` does nothing when
  the API key is missing or the loaded conversation is empty. Otherwise it
  saves the full history once, when the loop ends. `create_new_conversation`
  seeds a record with the system prompt and overwrites any record of that name.
  `delete_conversation` reports "not found" separately from "deleted".
- **History display** (module `Display`). It shows the last `n` non-system
  messages (`xs[-n:]`; for `n = 0` that is all of them). User messages are
  labelled "You" and every other role "AI".

The tokenizer (`tiktoken` over `json.dumps`) is a parameter of type
`seq<Message> -> nat`. The OpenAI client is a parameter
`(model, messages) -> Completion`. Both come from the `Environment` value,
together with the home directory and `OPENAI_API_KEY`. The clock is a
`timestamp` string parameter. Prompt answers are a `seq<Input>`; running out
of inputs reads as end of input.

Notable behaviours of the code:

- Creating a conversation under an existing name overwrites that record.
- Loading a missing conversation gives `[]`, so a missing record looks the
  same as an empty one.
- Saves are plain writes, with no temporary file and no atomic replace.
- The history is saved only when the loop ends.
- Truncation keeps index 0 whatever its role, and it can stop at a single
  message that is still over budget.
- A real reply that starts with the error prefix reads the same as an error
  reply (`Chat.ErrorReplyAmbiguous`).

## Model

| member | source | states |
|---|---|---|
| `Truncation.Truncate` | src/ai_cli/chat.py:64-71 | the result is never longer than the input, is empty only for an empty input, keeps the first message, and fits the budget unless at most one message is left |
| `Truncation.TruncateKeepsSuffix` | src/ai_cli/chat.py:66-68 | the result is the first message followed by the input from some index on, so kept messages keep their order and only the oldest after the first are dropped |
| `Truncation.TruncateIsGreedy` | src/ai_cli/chat.py:66-68 | every list with fewer messages dropped was still over budget |
| `Truncation.TruncateWithinBudgetUnchanged` | src/ai_cli/chat.py:66 | a list within budget is returned unchanged |
| `Truncation.TruncateUnique` | src/ai_cli/chat.py:64-71 | the first drop point that fits (or leaves one message) is exactly what truncation returns |
| `Chat.ChatManager.TruncateContext` | src/ai_cli/chat.py:64-71 | the loop that pops index 1 computes `Truncate` with the manager's tokenizer, for any budget (default 3000) |
| `Chat.ResolveApiKey` | src/ai_cli/chat.py:20-23 | a non-empty key argument wins, otherwise the environment's key; an empty or missing key is the "No OpenAI API key found" error |
| `Chat.ChatManager.constructor` | src/ai_cli/chat.py:13-33 | a manager exists only for a resolved key and takes its model, tokenizer, backend and directory from the environment |
| `Chat.ChatManager.GetConversationPath` | src/ai_cli/chat.py:32-37 | the path is the conversations directory, `/`, the name and `.json`, or the name plus `.json` when the name is absolute |
| `Storage.ConversationPathShape` | src/ai_cli/chat.py:32-37 | the same path shape, for the `os.path.join` model on its own |
| `Storage.FileName` | src/ai_cli/chat.py:37 | the file name ends in `.json` and starts with the name |
| `Storage.FileNameInjective` | src/ai_cli/chat.py:37 | distinct names give distinct files |
| `Storage.RootOfJsonFile` | src/ai_cli/chat.py:42 | for a `.json` entry, splitting the extension removes `.json` exactly when a non-dot character precedes it |
| `Storage.NameRoundTrip` | src/ai_cli/chat.py:37-45 | splitting the extension off a conversation's file name gives the name back if and only if the name has a non-dot character |
| `Storage.SavedNameIsListed` | src/ai_cli/chat.py:41-45 | a saved conversation whose name has a non-dot character appears in the listing under its name |
| `Storage.DotNameListedAsFileName` | src/ai_cli/chat.py:41-45 | a saved conversation whose name is only dots is listed under its file name instead |
| `Storage.ListedNameOrigin` | src/ai_cli/chat.py:41-45 | every listed name is a stored conversation's name, or a `.json` entry with an all-dot stem listed whole |
| `Chat.ChatManager.ListConversations` | src/ai_cli/chat.py:39-45 | the listing is the stems of the directory's `.json` entries |
| `Chat.ChatManager.SaveConversation` | src/ai_cli/chat.py:47-52 | the conversation's file is overwritten with the whole list and no other entry changes |
| `Chat.ChatManager.LoadConversation` | src/ai_cli/chat.py:54-62 | the stored list is returned, or `[]` when the file is missing |
| `Storage.LoadAfterSave` | src/ai_cli/chat.py:47-62 | a load after a save returns exactly the saved list |
| `Storage.SaveIdempotent` | src/ai_cli/chat.py:47-51 | saving the same list twice leaves the same directory as saving it once |
| `Storage.SaveKeepsOthers` | src/ai_cli/chat.py:47-62 | saving one conversation does not change what another name loads |
| `Storage.LoadAbsentIsEmpty` | src/ai_cli/chat.py:57-62 | a missing conversation loads as `[]`, the same as one stored empty |
| `Storage.LoadAfterDelete` | src/ai_cli/cli.py:116-119 | after a delete the file is gone and a load gives `[]` |
| `Chat.Respond` | src/ai_cli/chat.py:77-92 | a completion is passed through, a raised error becomes the prefix followed by the error text, and only an interrupt gives no text |
| `Chat.ChatManager.GenerateResponse` | src/ai_cli/chat.py:77-92 | the reply is `Respond` on the manager's tokenizer, backend and model, over a truncated copy of the given list |
| `Chat.ErrorReplyCarriesError` | src/ai_cli/chat.py:91-92 | on failure the reply starts with "Error generating response: " and the rest of it is exactly the error text |
| `Chat.ErrorReplyAmbiguous` | src/ai_cli/chat.py:89-92 | a completion that starts with the prefix reads the same as a failure |
| `Session.Converse` | src/ai_cli/cli.py:83-107 | the history at loop exit keeps the loaded history as a prefix and adds at most two messages per input |
| `Session.ConverseTurn` | src/ai_cli/cli.py:90-100 | each added message belongs to one input line: the user message holds the line, and the assistant message after it holds the reply generated from the history up to that line |
| `Session.ConverseStops` | src/ai_cli/cli.py:84-103 | an odd number of added messages means the backend call for the last user message was interrupted; an even number means the next input was end of input, or there was none |
| `Session.EndOfInputAddsNothing` | src/ai_cli/cli.py:85-88 | end of input at the prompt adds no message |
| `Session.ChatLoop` | src/ai_cli/cli.py:82-103 | the appending loop over the prompt inputs computes `Converse` for the manager's configuration |
| `Cli.ContinueConversation` | src/ai_cli/cli.py:64-111 | a missing key or an empty loaded conversation saves nothing; otherwise only the conversation's record changes, and it becomes the full, untruncated session history |
| `Cli.ConversationName` | src/ai_cli/cli.py:12 | a given non-empty name is used, otherwise the timestamp |
| `Cli.CreateNewConversationAsWritten` | src/ai_cli/cli.py:6-28 | a missing key gives no conversation and no change; otherwise the record (overwritten if present) is the session history seeded with the system prompt, run on the default model |
| `Cli.CreateNewConversation` | src/ai_cli/cli.py:6-28 | the same, but the session runs on the model the user chose |
| `Cli.NewConversationSeed` | src/ai_cli/cli.py:15-20 | a new conversation ended at the first prompt is exactly the one system message "You are a helpful AI assistant in a CLI interface." |
| `Cli.ModelOptionIgnored` | src/ai_cli/cli.py:9-23 | with a backend that echoes its model, `new --model gpt-4` saves a reply from gpt-3.5-turbo as written, and one from gpt-4 when the model is carried through |
| `Cli.SessionRepliesComeFromModel` | src/ai_cli/cli.py:94-100 | every saved assistant message is the session model's completion, or its error text, for the history up to the user message before it |
| `Cli.DeleteConversation` | src/ai_cli/cli.py:113-122 | an existing record is removed and reported as deleted; a missing one is reported as not found and nothing changes; a missing key is the uncaught configuration error |
| `Display.Label` | src/ai_cli/cli.py:48 | the label is "You" exactly for role `user`, and "AI" for every other role |
| `Display.NonSystem` | src/ai_cli/cli.py:43 | a message is kept exactly when it is in the input and its role is not `system` |
| `Display.NonSystemAppend` | src/ai_cli/cli.py:43 | the filter distributes over concatenation, so order and repeats are kept |
| `Display.TakeLast` | src/ai_cli/cli.py:44 | `xs[-n:]` is the last `min(n, len)` elements for `n >= 1`, all of `xs` for `n = 0`, and `xs` minus its first `min(-n, len)` elements for `n < 0` |
| `Display.ShowLastConversationHistory` | src/ai_cli/cli.py:30-50 | an empty list prints only "No conversation history found."; otherwise a header, one labelled line per shown message, and a footer |
| `Display.ShownIsLastNonSystem` | src/ai_cli/cli.py:43-44 | for `n >= 1` the display shows exactly the last `min(n, count)` non-system messages, in order |
| `Display.ZeroCountShowsAll` | src/ai_cli/cli.py:44 | a count of 0 shows every non-system message |

## Left out

- Printing and prompting (click, rich) are not modelled: status lines, the history display's output device, and the "Conversation saved" and "not found" messages. `Display` models what is shown; the commands' contracts say only what is saved or returned.
- File I/O and JSON are not modelled: `os.makedirs`, `open`, `json.dump`, `json.load`, `os.listdir` and `os.remove` become map operations, with serialisation assumed lossless. A malformed file is not modelled. Its `json.JSONDecodeError` escapes `load_conversation`, which catches only `FileNotFoundError`. `continue_conversation` then catches it as a `ValueError`, prints it and returns without saving.
- The tokenizer is the `TokenCounter` parameter. `tiktoken.encoding_for_model` failing for an unknown model name (an uncaught error) is not modelled.
- Chat.Respond: the tokenizer is total, so the error path through it is not modelled. `tokenizer.encode` raises a `ValueError` on a disallowed special token such as `<|endoftext|>` in a message. That happens inside `generate_response`'s `try`, so the reply becomes "Error generating response: ...". The user message stays in the history, so every later reply in that conversation is also that error.
- The OpenAI request is the `Backend` parameter. A completion whose content is `None` is not modelled: completions are always strings.
- Keyboard interrupts are modelled only at the prompt and while awaiting the backend. click's `prompt` may re-raise end of input or Ctrl+C as its own `Abort` error (click is not part of this model). That path reaches the same `finally` save, so the saved history is the same, but the process exit differs.
- Chat.ChatManager.ListConversations: returns a set, so the order of `os.listdir` and repeated stems (such as `..json` next to `..json.json`) are not captured.
- Chat.ChatManager.TruncateContext: works on a value instead of popping the caller's list in place. The only caller passes `messages.copy()`, so the in-place update is not observable.
- Names containing `/` are not modelled as separate locations. They address files in subdirectories, or outside the directory when absolute. `GetConversationPath` gives their path, but the store map keys every conversation by its file name in one directory.
- The home directory is the `home` field of `Environment`, taken without a trailing separator. `os.path.expanduser` is not modelled.
- The `list` command in `cli.py` and the click dispatcher in `__main__.py` are printing and dispatch around `ListConversations` and the other commands; they are not modelled.
- Cli.ContinueConversation: has an extra `model` parameter that defaults to `gpt-3.5-turbo`. The source command always builds its manager with that default; the parameter is there for the corrected `CreateNewConversation`.

## Findings

| source | as written | input that shows it | evidently intended | confidence | as-written member | corrected member |
|---|---|---|---|---|---|---|
| src/ai_cli/cli.py:23 | `create_new_conversation` calls `continue_conversation(conv_name)`, which builds `ChatManager()` with the default model (cli.py:67), so the session never uses the model given to `new` | `new --model gpt-4`, then the line "hello": the request goes to gpt-3.5-turbo | the session runs on the model the user chose | not executed; high | `Cli.CreateNewConversationAsWritten`, `Cli.ModelOptionIgnored` | `Cli.CreateNewConversation`, `Cli.SessionRepliesComeFromModel` |
