# Session bookkeeping of the Ragoût Telegram RAG bot, in Dafny

The bot answers questions about uploaded documents. It keeps three
registries, each keyed by user:

- the **document registry** of `main.py`: `user_documents` maps a user key
  (the decimal text of the Telegram user id) to a table from document id to
  `{name, text}`;
- the **conversation registry** of `gpt.py` (class `GPT`): `messages` maps a
  user to a message history, and `retry_delay` is a single delay shared by all
  users;
- the **vector registry** of `storage.py` (class `VectorStorage`): `vectors`
  maps a storage key to a similarity index. Per-user documents are stored
  under `"{user}_{id}"`, and the shared book under `"book"`.

The model has six modules:

- `Text`: `join` and its inverse `split`, plus substring search.
- `Decimal`: `str(n)` and `int(t)`.
- `Wrappers`: `Option`.
- `Gpt`: class `GPT`, `make_rag`, the retry policy.
- `Storage`: class `VectorStorage`.
- `Bot`: the document registry, the lookups and replies of `main.py`, and class `Bot`, which holds the module-level state. Its handlers drive the other two registries.

`Scenarios` runs the handlers over several events, using only their
contracts.

External services are parameters:

- **Chat model.** Each attempt of `ask` consumes the next `Completion` of a
  supplied sequence: a `Reply`, or a `Failure` carrying the exception's text.
  A failure counts as a rate limit exactly when its text contains `"429"`.
- **Embedding service.** Indexing receives an `Embedding` outcome.
- **Splitter and similarity search.** These are function-valued constants of
  the storage object.
- **Download and extraction.** An upload receives what these produced:
  `None` when either raised.
- **`time.sleep`.** `Ask` returns the list of delays it would have slept.

Delays are natural numbers in seconds. `reset` installs 1.

Behaviour of the code worth knowing:

- **Failed indexing.** The record is committed first (`main.py:74`) and
  indexed afterwards (`main.py:75`). If indexing fails, the record stays.
- **Reset.** Only the storage key equal to the user key is reset
  (`main.py:111`, `storage.py:79-80`). Indexes are only ever stored under
  `"book"` and `"{user}_{id}"`, and neither is a user key
  (`Bot.UserKeyIsNotBook`, `Bot.DocKeyIsNotUserKey`). So a reset deletes no
  index at all, and the user's document indexes survive it.
- **No chunks.** When the search returns no chunks, `retrieve` returns the
  empty string.
- **Selection.** Choosing a document only echoes its name. Nothing is stored.
- **Shared delay.** `ask` for a user with no history calls `reset`, which
  also sets the shared delay back to 1 for everybody.
- **Startup retry.** `initialize_storage_with_book` catches every exception,
  so its retry decorator never retries. Startup is one attempt.

## Model

| member | source | states |
|---|---|---|
| `Text.JoinPositions` | storage.py:67 | `sep.join(parts)` holds part i at its offset (the lengths of the earlier parts plus one separator after each) and a separator right after every part but the last; with `Join`'s length (the parts' total plus one separator between neighbours, empty for no parts) this fixes every character |
| `Text.JoinOffsetOrder` | storage.py:67 | in the joined text, part i and the separator after it end before any later part starts |
| `Text.SplitJoin` | main.py:57 | splitting on a one-character separator undoes the join when no part contains the separator, so the joined lines can be read back one by one |
| `Text.ContainsIff` | gpt.py:55 | the substring test `"429" in str(e)` holds exactly when the pattern occurs at some position of the text |
| `Decimal.Format` | main.py:63 | `str(n)` of a natural number is a non-empty digit string without a leading zero |
| `Decimal.ParseFormat` | main.py:98 | `int(str(n)) == n` |
| `Decimal.FormatInjective` | main.py:75 | distinct numbers have distinct decimal texts |
| `Decimal.ParseLeadingZero` | main.py:98 | `int("0" + t) == int(t)` for a digit string `t` |
| `Storage.VectorStorage.constructor` | storage.py:26-36 | a new storage has no keys and keeps the given splitter and search |
| `Storage.VectorStorage.NewStorage` | storage.py:38-50 | on success, `key` maps to the index of the split text, replacing any previous one; on an embedding error the error is returned and nothing changes; every other key is unchanged |
| `Storage.VectorStorage.Retrieve` | storage.py:52-67 | `None` exactly when the key is absent; otherwise the search's chunks joined by single spaces: chunk i at its offset, a space after each chunk but the last, and the length the chunks' total plus one space between neighbours; reads state only |
| `Storage.RetrieveKeepsOrder` | storage.py:66-67 | the retrieved text keeps the search's order, with no re-ranking: for any chunks i < j, chunk i and the space after it end before chunk j starts, whatever the chunks contain |
| `Storage.VectorStorage.Reset` | storage.py:69-80 | removes exactly `key`; does nothing when `key` is absent; all other keys and values are unchanged |
| `Storage.ResetTwice` | storage.py:79-80 | resetting a key twice leaves the same registry as resetting it once |
| `Gpt.MakeRagRoundTrip` | gpt.py:68-77 | `make_rag(c)` is the fixed prefix, then `c`, then the fixed suffix, and `c` can be read back from the prompt |
| `Gpt.MakeRagContains` | gpt.py:68-77 | the prompt contains the document text |
| `Gpt.RetryCount` | gpt.py:52-58 | the number of attempts `ask` retries: every earlier outcome is a rate limit, and the outcome at that index is not |
| `Gpt.BackoffIsPower` | gpt.py:56-57 | doubling the delay `k` times multiplies it by 2^k |
| `Gpt.SleepsAreBackoff` | gpt.py:56-58 | over k retries, sleep j waits the starting delay doubled j times, that is d * 2^j |
| `Gpt.QueriesAreQuery` | gpt.py:51-58 | every message the retries append before the reply is the user's query |
| `Gpt.GPT.constructor` | gpt.py:29-39 | no histories, and the delay given |
| `Gpt.GPT.NewRag` | gpt.py:41-46 | the user's history becomes exactly System, Human(`make_rag(c)`), AI, and `c` can be read back from the second message; other users and the delay are unchanged |
| `Gpt.GPT.Reset` | gpt.py:63-65 | the user's history becomes the single system message; the shared delay becomes 1; other users are unchanged |
| `Gpt.GPT.Ask` | gpt.py:48-61 | a user without a history is reset first; with k the number of leading rate limits, the result is the reply or the error of attempt k; the delay is the starting delay doubled k times; the k delays slept are the starting delay doubled 0, 1, ..., k-1 times; the history gains k+1 copies of the query and then the reply if there is one, so a non-429 error leaves the queries in place and adds no reply; other users are unchanged |
| `Bot.UserKeyIsNotBook` | main.py:63 | no user key is `"book"`, so a reset never deletes the shared book |
| `Bot.DocKeyIsNotBook` | main.py:75 | no document key is `"book"` |
| `Bot.DocKeyIsNotUserKey` | main.py:75 | a document key `"{u}_{i}"` is never a user key, so `storage.reset(user)` cannot delete it |
| `Bot.DocKeyInjective` | main.py:75 | distinct (user, document id) pairs get distinct storage keys, so an upload never overwrites another user's index |
| `Bot.AddDocument` | main.py:71-74 | the new id, "number of documents", is not yet used; afterwards the table has one more entry and its ids are still exactly 0..n |
| `Bot.Lines` | main.py:57 | line i of the list is `"{i+1}: {i}"`: the 1-based number and the document id, not the file name |
| `Bot.ListDocuments` | main.py:55-57 | empty exactly when the user has no documents, including a user with no entry; otherwise its newline-separated lines are exactly one per document, numbered from 1 in id order |
| `Bot.SelectDocument` | main.py:84-91 | the "no documents" reply exactly when the user has no entry or an empty table; otherwise the header line followed by one line per document |
| `Bot.ProcessSelection` | main.py:96-103 | a digit string is accepted exactly when `int(t) - 1` is an existing id of the user, and then the reply names that document; any other number, "0" included, is an invalid selection; it is a function, so state is never changed |
| `Bot.SelectListedDocument` | main.py:95-101 | the number printed on a line of the list selects that line's document |
| `Bot.ZeroIsInvalid` | main.py:98-103 | "0" is always an invalid selection |
| `Bot.LeadingZeroSelection` | main.py:98 | "0" + t selects the same as t |
| `Bot.Bot.constructor` | main.py:14-28 | start-up with no documents and no histories, delay 1; `"book"` is indexed exactly when its text was read and indexing succeeded |
| `Bot.Bot.HandleDocument` | main.py:62-79 | extraction failure: nothing changes, failure reply. Otherwise the record goes under id "number of the user's documents", other users are untouched, and `new_storage` runs with key `"{u}_{id}"`. If indexing then fails, the record stays and the reply is the failure reply; otherwise the reply names the file. The ids stay 0..n-1, and every storage key stays `"book"` or some `"{a}_{i}"` |
| `Bot.Bot.ResetUserData` | main.py:108-113 | the user has no document entry; the history is one system message; the delay is 1; storage is reset at the key `u` only, and since no index is ever stored under a user key the vector registry is exactly as before, so indexes under `"{u}_{i}"` and `"book"` remain; other users are untouched |
| `Scenarios.UploadUploadResetUpload` | main.py:71-112 | upload, upload, reset, upload gives the ids {0}, {0, 1}, {}, {0} |
| `Scenarios.NotesScenario` | main.py:55-103 | after uploading "notes.pdf" the list is "1: 0", "1" selects "notes.pdf", and "6" is an invalid selection |
| `Scenarios.OneDocumentList` | main.py:55-57 | with one document the list is the single line "1: 0" |
| `Scenarios.OneDocumentChosen` | main.py:96-101 | with one document "1" selects it |
| `Scenarios.OneDocumentRefused` | main.py:96-103 | with one document "6" is refused |
| `Scenarios.IndexingFailureKeepsRecord` | main.py:70-79 | the upload is reported as failed, yet the record 0 is kept with no index, and the next upload gets id 1 |
| `Scenarios.ResetLeavesDocumentIndex` | main.py:108-113 | after reset the user has no documents, but the index under `"{u}_0"` and the book remain |
| `Scenarios.AskAfterTwoRateLimits` | gpt.py:48-65 | for a new user: two 429 errors, then a reply, give sleeps of 1 and 2, a final delay of 4, and a history of the system message, three copies of the query and the reply |
| `Scenarios.AskOtherError` | gpt.py:52-59 | a non-429 error is raised at once: no sleep, the delay is unchanged, one query is appended and no reply |
| `Scenarios.SharedDelay` | gpt.py:39-58 | after one user's rate limit, the next user's first wait is doubled; that user's question leaves the first user's history unchanged |

## Left out

- Telegram: handler decorators, polling, `get_file`, `download_file`, the `/start` and `/help` replies, and `reply_to` delivery and its failures. Each handler returns its reply text instead; Markdown parse mode is not modelled.
- File extension, PDF parsing and charset detection, and reading `book.pdf`: their result is an `Option<string>` parameter.
- The chat model, the embedding service, FAISS and the text splitter are external services. The chat model is a sequence of outcomes that does not depend on the history sent. The embedding service is an outcome parameter. The splitter and the search are function constants.
- `retrieve` does not model exceptions raised by the similarity search.
- `time.sleep` and real-valued delays: the delays are natural numbers, so an initial delay such as 0.5 cannot be expressed.
- Logging.
- `Gpt.GPT.Ask` requires that the chat model eventually returns something other than a 429 error. Otherwise the source recurses without returning, and Python's recursion limit is not modelled.
- `Bot.ProcessSelection`: `str.isdigit` also accepts non-ASCII digits, on some of which `int` raises. The model accepts ASCII digits only.
- `Bot.ListDocuments` and `Bot.SelectDocument` require the user's ids to be exactly 0..n-1. Every handler keeps this (`Bot.Bot.Valid`). A Python dict iterates in insertion order, and ids are only ever added as "number of documents", so under this invariant that order is id order.
- User ids are natural numbers (Telegram user ids are positive), and the document file name is always a string.
