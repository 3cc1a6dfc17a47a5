# Saras AI FAQ chat widget — a verified model

This project models the core of an FAQ assistant widget. A host page
(`FAQPage.js`) embeds the FAQ site in a frame, holds the chat history and a
`showChat` flag, and relays `scrollToFAQ` window messages into the frame. A
chat dialog (`ChatDialog.js`) submits queries to a search service. It turns
each outcome into exactly one assistant turn: the top three matches with
numbered source entries, a "no match" notice, or an error notice. A click on
a source entry closes the panel and asks the frame to scroll. The search
service (`app.py`) flattens the FAQ file into a collection with positional
ids, formats the vector store's answer into records, and sorts them by
descending similarity.

Modules, one per source file, plus shared pieces:

- `Wrappers` (wrappers.dfy): `Option` and `Result`.
- `Messages` (messages.dfy): the shapes all parts share. These are turns
  (`Message`), matches, citations, the frame message `ScrollToFAQ` and the
  log of effects the page performs (`Effect`).
- `Host` (host.dfy), for `FAQPage.js`: class `FaqPage` with its state fields,
  and the message handler as the pure function `HandleMessage`.
- `Chat` (chat.dfy), for `ChatDialog.js`:
  - the `trim()` guard, `slice(0, 3)`, the index-numbered source entries and
    the outcome-to-turn shaping, as functions;
  - class `ChatDialog`, whose `HandleSearch` and `CloseChat` are proved
    against those functions.
- `Widget` (widget.dfy), for the render of `FAQPage.js`: class `App`. Its
  invariant says the dialog is mounted exactly while `showChat` holds. It
  also says the dialog's list equals the page's history, and the history is
  the greeting followed by alternating user/assistant turns.
- `Backend` (backend.dfy), for `app.py` without its libraries: flattening,
  columns and ids, result formatting, and the stable descending sort.
- `Pipeline` (pipeline.dfy): the sorted response as the dialog shows it.

Each `handleSearch` call is modelled as one atomic step. The search outcome
is a parameter: an HTTP status with the parsed match list, or a thrown
exception with its message. The frame posts go to a log. The vector store's
answer is an input (`QueryResult`).

The model follows the code, including where it is less careful than such a
widget is usually described:

- there is no reject-while-pending guard, no persistence of the history, and
  no two-phase visibility animation;
- the relay re-posts a `scrollToFAQ` from any sender, the frame included;
- a message whose `data` is `null` or `undefined` makes the handler throw a
  TypeError (`Threw`) instead of being silently dropped.

## Model

| member | source | states |
|---|---|---|
| `Chat.TrimStart` | frontend/src/components/ChatDialog.js:34 | the result is empty or does not start with white space |
| `Chat.TrimEnd` | frontend/src/components/ChatDialog.js:34 | the result is empty or does not end with white space |
| `Chat.TrimStartIsSuffix` | frontend/src/components/ChatDialog.js:34 | trimming the start leaves a suffix of the query, and the prefix it removes is all white space |
| `Chat.TrimEndIsPrefix` | frontend/src/components/ChatDialog.js:34 | trimming the end leaves a prefix of the query, and the suffix it removes is all white space |
| `Chat.BlankIffAllWhiteSpace` | frontend/src/components/ChatDialog.js:34 | `!query.trim()` holds exactly when every character of the query is JavaScript white space |
| `Chat.Take` | frontend/src/components/ChatDialog.js:57 | `slice(0, n)` keeps `min(n, len)` elements, the first ones, in the order received |
| `Chat.CitationsFrom` | frontend/src/components/ChatDialog.js:72-85 | one source entry per match, in order; entry `i` carries match `i`'s category and question and index `first + i` |
| `Chat.AiReply` | frontend/src/components/ChatDialog.js:50-102 | the reply is always an `ai` turn. A thrown fetch or a non-2xx status gives the fixed error notice. An empty list gives the fixed no-match notice. Otherwise it holds the first `min(3, n)` matches and sources indexed `0..k-1` naming them |
| `Chat.CitationsNameTheirMatch` | frontend/src/components/ChatDialog.js:72-81 | source `i` of an answer has index `i` and names displayed match `i`; at most 3 are shown |
| `Chat.ErrorTextHidden` | frontend/src/components/ChatDialog.js:98-102 | every failure, whatever its cause or status, yields the same turn, so the error text is never shown |
| `Chat.Exchange` | frontend/src/components/ChatDialog.js:36-38 | a valid query contributes two turns: a `user` turn with the untrimmed text, then one `ai` turn |
| `Chat.ExchangeKeepsTranscript` | frontend/src/components/ChatDialog.js:36-102 | appending an exchange keeps the shape "greeting, then alternating user/ai turns" and leaves every earlier turn unchanged |
| `Chat.ChatDialog.constructor` | frontend/src/components/ChatDialog.js:3-5 | a mounted dialog starts with the page's accumulated history and an empty query |
| `Chat.ChatDialog.InstallHook` | frontend/src/components/ChatDialog.js:19-26 | the mount effect installs `window.closeChat` |
| `Chat.ChatDialog.RemoveHook` | frontend/src/components/ChatDialog.js:28-30 | the effect cleanup deletes the hook |
| `Chat.ChatDialog.SetQuery` | frontend/src/components/ChatDialog.js:196-199 | the input's change handler sets the query |
| `Chat.ChatDialog.HandleSearch` | frontend/src/components/ChatDialog.js:33-104 | a blank query changes nothing and sends no request. Otherwise one request is sent with the untrimmed text and the query is cleared. The local list and the page's history both grow by the same exchange, earlier entries unchanged |
| `Chat.ChatDialog.CloseChat` | frontend/src/components/ChatDialog.js:20-26 | with the hook installed it closes the panel first, then posts `scrollToFAQ` with the same index exactly once if a frame exists; without the hook nothing happens |
| `Host.HandleMessage` | frontend/src/components/FAQPage.js:12-19 | `null` data throws. A `scrollToFAQ` payload forwards exactly one message with the same index if there is a frame, and nothing otherwise. Any other or missing `type` forwards nothing |
| `Host.PostEffects` | frontend/src/components/FAQPage.js:14-17 | the forwarded messages become frame posts, one each, in order |
| `Host.FaqPage.constructor` | frontend/src/components/FAQPage.js:6-9 | the chat starts hidden and the history holds exactly the one `ai` greeting |
| `Host.FaqPage.Mount` | frontend/src/components/FAQPage.js:11-21 | the mount effect registers one new handler on the window |
| `Host.FaqPage.Unmount` | frontend/src/components/FAQPage.js:23-25 | the cleanup removes the same handler and nothing else |
| `Host.FaqPage.OpenChat` | frontend/src/components/FAQPage.js:40 | the button sets `showChat` |
| `Host.FaqPage.OnClose` | frontend/src/components/FAQPage.js:56 | `onClose` clears `showChat` |
| `Host.FaqPage.UpdateChatHistory` | frontend/src/components/FAQPage.js:58 | the history becomes the updater applied to its current value, not to a snapshot |
| `Host.FaqPage.PostToFrame` | frontend/src/components/ChatDialog.js:22-25 | a post reaches the frame log only if a frame exists |
| `Host.FaqPage.ReceiveMessage` | frontend/src/components/FAQPage.js:11-21 | while the handler is registered, a window message runs `HandleMessage` and logs its posts; otherwise nothing happens |
| `Widget.App.constructor` | frontend/src/components/FAQPage.js:5-26 | the page mounts with its handler registered, the chat closed and the history seeded |
| `Widget.App.ClickAskButton` | frontend/src/components/FAQPage.js:40-59 | the dialog is present exactly while `showChat` holds. A reopened dialog is seeded with the accumulated history, so the conversation survives close and reopen |
| `Widget.App.Type` | frontend/src/components/ChatDialog.js:196-199 | typing sets the open dialog's query |
| `Widget.App.Send` | frontend/src/components/ChatDialog.js:200-204 | the dialog's list and the page's history stay equal; a blank query sends no request and leaves the input as it is; a valid query sends its untrimmed text as the one new request, clears the input, adds exactly one exchange and keeps the transcript shape |
| `Widget.App.ClickCitation` | frontend/src/components/ChatDialog.js:20-31 | a source click hides the chat and then posts the scroll request. The dialog unmounts and its hook is deleted; the history is unchanged |
| `Widget.App.ClickCloseButton` | frontend/src/components/ChatDialog.js:171 | the close button hides the chat and unmounts the dialog; the history is unchanged |
| `Widget.App.WindowMessage` | frontend/src/components/FAQPage.js:11-21 | a window message throws exactly for `null` data and logs exactly the relayed posts |
| `Backend.CategoryRecords` | backend/app.py:27-32 | one record per item of a category, in item order, each with that category, question and answer |
| `Backend.FlattenFaqs` | backend/app.py:25-32 | the nested loop builds exactly the flattened list |
| `Backend.FlattenedLength` | backend/app.py:25-32 | the flat list's length is the sum of the per-category list lengths |
| `Backend.FlattenedAt` | backend/app.py:26-32 | item `j` of category `c` sits at position "items of earlier categories + j" with its own category, question and answer |
| `Backend.NatToString` | backend/app.py:47 | `str(i)` is a nonempty string of decimal digits with no leading zero |
| `Backend.ParseNatToString` | backend/app.py:47 | reading `str(n)` back as a decimal numeral gives `n` |
| `Backend.NatToStringInjective` | backend/app.py:47 | distinct numbers get distinct `str` values |
| `Backend.CollectionColumns` | backend/app.py:44-48 | `ids`, `documents` and `metadatas` all have length n; `ids[i] == str(i)`, and position `i` of the columns reassembles FAQ `i` |
| `Backend.IdsDistinct` | backend/app.py:47 | the ids are pairwise distinct and each reads back as its position |
| `Backend.FormatResults` | backend/app.py:65-72 | one record per returned id. Record `i` takes category and answer from `metadatas[i]`, question from `documents[i]`, and similarity `1 - distances[i]`. It raises IndexError exactly when a column is shorter than `ids` |
| `Backend.RowIsFaqOfItsId` | backend/app.py:44-72 | for a store answer drawn from the collection, each formatted record is exactly the FAQ whose position its id names |
| `Backend.GroupMember` | backend/app.py:75 | a similarity group holds only records of the list that have that similarity |
| `Backend.InsertDesc` | backend/app.py:75 | inserting into a non-increasing list gives a non-increasing permutation of it plus the new record |
| `Backend.InsertDescKeepsTies` | backend/app.py:75 | the inserted record goes in front of the records with equal similarity |
| `Backend.SortBySimilarity` | backend/app.py:75 | the result is a permutation of the input, ordered by non-increasing similarity |
| `Backend.SortIsStable` | backend/app.py:75 | records of equal similarity keep their relative order, as in Python's stable `sort(reverse=True)` |
| `Backend.StableOrderUnique` | backend/app.py:75 | two non-increasing lists that agree on the order of each similarity group are equal |
| `Backend.SortIsTheStableSort` | backend/app.py:75 | any stable descending sort of the input, such as CPython's, is exactly `SortBySimilarity` |
| `Backend.SearchFaqs` | backend/app.py:59-77 | the response is the formatted rows, stably sorted by descending similarity and permuted only. It is no longer than the store's answer, so at most 5 when the store keeps to `n_results=5`. IndexError propagates |
| `Pipeline.AsMatches` | frontend/src/components/ChatDialog.js:58-63 | the dialog reads each response record's answer, category and question, position by position |
| `Pipeline.ShownArePrefix` | frontend/src/components/ChatDialog.js:56-57 | a successful nonempty response is shown as its first `min(3, n)` records, in response order |
| `Pipeline.PrefixIsMostSimilar` | backend/app.py:75 | in a non-increasing list, every element of a prefix is at least as similar as every element after it |
| `Pipeline.ShownAreMostSimilar` | backend/app.py:75 | each displayed record of the sorted response is at least as similar as every returned record that is not displayed |

## Left out

- Network and browser I/O are not modelled: `fetch`, `response.json()`,
  `postMessage` delivery and its `'*'` target origin, `document.querySelector`.
  The search outcome is a parameter, the frame's presence is a constant of the
  page, and frame posts go to a log. Lost messages and origin checks are not
  modelled.
- A response body that is not an array of match objects is not modelled.
  For example, if `data.length` is undefined the code takes the no-match branch.
- An `event.data.index` that is not a number is not modelled; the index is
  an optional integer.
- Rendering is not modelled: HTML strings, styles, `dangerouslySetInnerHTML`,
  `scrollIntoView` and the auto-scroll effect. An answer turn carries its
  matches and source entries as structure instead of HTML text.
- Two `handleSearch` calls never overlap: each is one atomic step. State
  updates that land after the dialog has unmounted are therefore not modelled.
- `Chat.ChatDialog.InstallHook`: the hook's effect re-runs whenever `onClose`
  changes, which is every page render. The model keeps only its net effect:
  the hook is installed while the dialog is mounted.
- `Chat.ChatDialog.CloseChat`: a call with no hook installed throws a
  TypeError in the browser. The model only says that nothing happens.
- `Chat.IsWhiteSpace`: JavaScript strings are UTF-16. Lone surrogates cannot
  occur in Dafny strings, so they are not modelled.
- `Backend.SortBySimilarity`: CPython sorts the list in place with Timsort.
  The model returns a new sequence built by a stable insertion sort.
  `SortIsTheStableSort` shows the result is the same.
- Similarity is `1 - distance` on integers, not floats.
- The sentence-transformer encoding, the chromadb client, collection and
  query, FastAPI routing, CORS and `uvicorn` are foreign libraries and are not
  modelled. The store's answer is the input `QueryResult`. That it keeps to
  `n_results` is a hypothesis of `SearchFaqs`'s bound.
- Loading `faqs.json` is I/O and is not modelled; the parsed file is a
  parameter. Duplicate JSON keys are not modelled: the file is an ordered
  list of category entries.
- A metadata entry missing a key (a KeyError) is not modelled: metadata is a
  typed record.
- An item of `faqs.json` without a `question` or `answer` key, or one that is
  not an object, is not modelled. `item['question']` and `item['answer']`
  would raise a KeyError or TypeError at startup; `FaqItem` is a typed record,
  so this cannot happen in the model.
- The `console.error('Error:', error)` call before the error notice is
  logging I/O and is not modelled; only the notice that is appended is.
- frontend/src/components/AskSarasButton.js is a styled button with no
  logic and is not modelled.
- frontend/src/components/TestHighlightButton.js is not modelled. It posts a
  fixed `highlightAnswer` message straight into the frame. If such a payload
  reaches the page's handler, `Host.HandleMessage` ignores it.
- History persistence, the two-phase visibility animation and a
  reject-while-pending guard are not in this code, so they are not modelled.
