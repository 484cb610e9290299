# Chat backend message handling, modelled in Dafny

This project models the request handlers of a small chat backend
(`backend/server.js`). The backend keeps two collections: conversations and
their messages. A send validates the request and reads the conversation's
history. It builds a context for an external completion provider: a fixed system
instruction, the history, then the new utterance. It stores the user's message,
calls the provider, and stores the reply. When the call throws, the stored reply
is a fixed fallback text. The send then returns the re-read transcript. Other
handlers create, list, rename and delete conversations and list a conversation's
messages.

The store is the class `Server.ChatStore`. It has two `seq` fields,
`conversations` and `messages`. The position in a sequence stands for creation
time, so "sorted by `createdAt`" is sequence order. Each handler is a method that
changes these fields in the same steps the route does. The pure parts are
functions with lemmas: request validation and titles (`Requests`), trimming as
JavaScript's `trim()` does it (`Text`), the store queries (`Documents`), the
context (`Context`) and the reply text (`Reply`).

The completion provider is a parameter of `Send`. It is a function from the turn
list it is sent to a `Completion`, which is `Completed(content)` or `Failed`. So
`Send`'s contract can say which context the provider received. It is the context
built from the history read before the user's message was stored.

A request field is an `Option<string>`. JavaScript counts an absent field and the
empty string as false, and `Requests.Present` captures that. Conversation
identifiers come from the store. `CreateConversation` takes the new identifier as
a parameter and requires that no conversation already has it.

Two behaviours of the code differ from what one might expect, and the model
follows the code:
- One might expect a blank title to default to "New chat". The code
  (`title || "New chat"`, backend/server.js:56) keeps a title made only of
  spaces as given. `Requests.DefaultTitle` does the same.
- One might expect a rename of an unknown id to answer "not found". The code answers
  `null` with success. `RenameConversation` returns `Ok(None)`.

## Model

| member | source | states |
|---|---|---|
| Text.Trim | backend/server.js:110 | `trim()`: the result has no white space at either end, is no longer than the input, and is empty exactly when the input is all white space |
| Text.TrimStripsSurroundingSpace | backend/server.js:210 | independent description of `trim()`: any white space around a string with no white space at its ends is removed, and that string is returned unchanged |
| Text.TrimIdempotent | backend/server.js:210 | trimming a trimmed title changes nothing |
| Documents.MessagesOf | backend/server.js:88-90 | the query returns only messages of the asked conversation, all of them drawn from the store, and every message of that conversation appears |
| Documents.MessagesOfConcat | backend/server.js:122-124 | the query keeps store (insertion) order: the query over `a + b` is the query over `a` followed by the query over `b` |
| Documents.WithoutConversation | backend/server.js:226 | `deleteMany` keeps exactly the messages whose conversation id differs |
| Documents.DeleteIsolation | backend/server.js:226 | after the cascade the deleted conversation has no messages, and every other conversation's messages are the same list in the same order |
| Documents.Find | backend/server.js:208 | lookup by id gives the first position holding that id, or None exactly when no conversation has it |
| Documents.ConversationsExcept | backend/server.js:227 | `findByIdAndDelete` keeps exactly the conversations whose id differs: every kept one was stored before and has another id, and every stored one with another id is kept |
| Documents.DeleteRemovesOne | backend/server.js:227 | with unique ids, delete removes exactly the one conversation found by id, or nothing when none has it, and keeps the others in order |
| Documents.ExceptKeepsUnique | backend/server.js:227 | deleting keeps conversation ids unique |
| Documents.NewestFirst | backend/server.js:40 | conversations sorted newest first: the i-th result is the i-th most recently created |
| Context.Speaker | backend/server.js:137 | a stored role maps to "user" exactly when it is "user", and otherwise to "assistant" |
| Context.HistoryTurns | backend/server.js:136-139 | one turn per prior message, same order, speaker mapped, content copied unchanged |
| Context.BuildContext | backend/server.js:127-141 | context length is history length + 2; the first turn is the fixed system turn; then the mapped history; the last turn is the new user utterance; no later turn speaks as "system" |
| Context.ContextNeverTruncates | backend/server.js:136-139 | history is never truncated: a longer history's context starts with all of a shorter one's turns |
| Reply.FallbackReply | backend/server.js:168-171 | the fallback is the fixed prefix, the user's content verbatim, then the fixed suffix |
| Reply.FallbackRoundTrip | backend/server.js:168-171 | the user's content can be read back exactly from the fallback reply |
| Reply.FallbackContentExact | backend/server.js:168-171 | a text that reads back as the fallback for some content is exactly that fallback, so the template is injective |
| Reply.ReplyText | backend/server.js:152-172 | a failed call yields the fallback for the user's content; a completed call yields its content, or the empty string when it has none |
| Requests.Error.Description | backend/server.js:110-119 | each validation text (also the title text at line 205) is a non-empty phrase followed by " is required"; `DescriptionsDistinct` gives each error its own text |
| Requests.DescriptionsDistinct | backend/server.js:110-119 | the three validation texts (content, conversation id, and title at line 205) are pairwise different |
| Requests.ValidateSend | backend/server.js:110-119 | a send is accepted exactly when the content is present and not all white space and the conversation id is present; the content check comes first; the content passes on untrimmed |
| Requests.ValidateListing | backend/server.js:82-86 | listing messages is accepted exactly when the conversation id is present |
| Requests.DefaultTitle | backend/server.js:55-57 | the title is kept whenever it is a non-empty string, white space only included; otherwise it is "New chat"; it is never empty |
| Requests.RenameTitle | backend/server.js:204-210 | a rename is rejected exactly when the title is missing or all white space; otherwise the stored title is its trim, which is non-empty |
| Requests.RenameStable | backend/server.js:204-210 | renaming with an already stored title stores that same title again |
| Server.SendTouchesOneConversation | backend/server.js:144-185 | a send's two appends extend its own conversation's transcript by the user message then the reply, and leave every other conversation's transcript as it was |
| Server.SecondSendSeesFirst | backend/server.js:122-141 | after one send, the next send's context holds that send's user message and reply, in order, just before the new utterance |
| Server.ChatStore.ListConversations | backend/server.js:38-41 | all conversations, newest first |
| Server.ChatStore.CreateConversation | backend/server.js:51-57 | appends one conversation with the fresh id and the defaulted title; messages unchanged; ids stay unique |
| Server.ChatStore.ListMessages | backend/server.js:77-92 | a missing conversation id is an error; otherwise the conversation's messages in insertion order |
| Server.ChatStore.AppendMessage | backend/server.js:144-148 | `Message.create` appends exactly one message after all stored ones |
| Server.ChatStore.Send | backend/server.js:100-192 | a rejected send stores nothing and returns the validation error; an accepted one (even for an unknown conversation) appends exactly the user message then the reply computed from the provider's answer to the context of the history read before the append, and returns the re-read transcript, which equals the prior history plus those two messages |
| Server.ChatStore.RenameConversation | backend/server.js:199-214 | a blank title is rejected with nothing changed; an unknown id returns no conversation with nothing changed; otherwise only the conversation with that id gets the trimmed title and is returned |
| Server.ChatStore.DeleteConversation | backend/server.js:222-229 | removes that conversation's messages and then the conversation, keeps everything else in order, and keeps ids unique |

## Left out

- The HTTP layer (Express setup, CORS, environment configuration, status codes, JSON bodies): a route that can answer 400 returns a `Result`, the others return their value (or nothing); the text of a 400 answer is `Error.Description`.
- The database connection and query mechanics: `find`, `sort`, `create`, `deleteMany` and the `findById…` calls are operations on sequences; `createdAt` is the sequence position.
- Store failures (the 500 answers): a write that fails after the user message is stored, which would leave it without a reply, is not modelled.
- The provider client, its model name, temperature and token cap: the call is the `complete` parameter. A response without a `choices` array would throw and so reach the fallback; the model has only `Completed` and `Failed`.
- Logging to the console.
- Concurrent requests: each handler runs to completion before the next, so the race where two sends read the same history is not modelled.
- Message and conversation `_id` values other than the conversation id, and `updatedAt`.
- Request fields that are not strings are outside the model's domain, since a field is an `Option<string>`. The code casts some of them (a number or boolean title on create is stored as its text; a repeated `conversationId` query parameter becomes an array that the store matches against every element) and answers 500 for others (a non-string content or rename title, on which `.trim()` throws).
- Ids the database cannot cast to an identifier (the code answers 500).
- `backend/models/Message.js` is not part of this model; the message role is free text, as the context builder treats it, and the schema is assumed to accept any content string, the empty reply included. A schema that required a non-empty content would reject the empty reply, and the user message would then stay without its reply.
- White space is the fixed set of ECMAScript WhiteSpace and LineTerminator code points; Unicode category data beyond that set is not consulted.
- The user interface (`frontend/src/App.jsx`).
