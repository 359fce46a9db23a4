# LinkedIn job browser bot — a Dafny model

The bot is a Telegram bot backed by a headless browser. `/start` makes it
wait for a search query. A text message then starts a browser, searches
LinkedIn jobs and shows the first result. One job is shown as a captioned
screenshot of its detail pane, then the pane's text split into messages of
at most 4096 characters, then the page link with a "Next" button (only when
another job follows) and a "Clear" button. "Next" moves to the next job.
"Clear" deletes every message the bot recorded, quits the browser and
forgets the session. A small HTTP handler answers health probes.

The model has these modules:

- `Strings`: Python's `str.strip` over CPython's whitespace set, and decimal
  rendering for integers.
- `Health`: the health handler's HEAD and GET routes.
- `Browser`: the browser as a `Driver` class whose pages come from an input
  `site` function. It covers opening card `idx` and its title rule, and the
  viewport height used for the capture.
- `Telegram`: the chat as a `Chat` class. The chat keeps an append-only log
  of sent messages with fresh ids, plus the set of deleted ids.
- `Delivery`: the messages one job becomes. It covers the 4096-character
  chunking, the `"{title} ({idx+1}/{total})"` caption and the button row.
- `Bot`: the per-chat entries (`awaiting_query`, `drv`, `idx`, `total`,
  `msg_ids`) as a `Session` class. Its four handlers, `send_job` and
  `clear_msgs` are methods on it. Each handler keeps the invariant
  `Session.Valid`, so the stored count is the number of cards. While a
  non-empty list is browsed, `0 <= idx < total` holds and the browser shows
  card `idx`.
- `Scenarios`: whole conversations proved only from the handlers'
  contracts.

How a Python dictionary key is modelled:

- A missing `idx` or `total` is `None`. Reading it with `[...]` raises
  `KeyError`, modelled as `Raised(MissingKey(...))`.
- A missing driver is `null`.
- The chat's own `chat` entry is the flag `chatKnown`. Only `/start` stores
  it, and clearing the user's entries leaves it in place. `clear_msgs`
  reads it with `[...]`, so a missing entry raises
  `Raised(MissingKey("chat"))`. `send_job` reads it too, but it only runs
  with a driver held, and a driver is only reachable after `/start`.
- `awaiting_query` and `msg_ids` are only read with `.get`/`setdefault`.
  So a missing `awaiting_query` is modelled as `false`, and a missing
  `msg_ids` as the empty list.

What the code does, as opposed to what a reader might expect:

- Neither `/start` nor a search that finds no jobs quits the browser.
  `CmdStart` drops the driver from the session without quitting it. After
  an empty result the driver stays stored, so a later "Clear" quits it.
- Both ways of reaching the results page end by waiting for at least one
  job card (app.py:135-138, 143-146), and that wait does not accept an
  empty list. So a query with no job cards normally runs into the timeout
  and takes the timeout path (app.py:229-232). The "No jobs found" answer
  (app.py:234-236) is only reached if the cards vanish between the wait and
  the count. The site's `Loaded` answer with no jobs covers that case, so
  the model admits more than the code normally does.
- "Clear" pressed in a chat where `/start` has not run since the bot
  started raises `KeyError` on every press. Nothing is deleted, no browser
  is quit and no notice is sent. The model follows the code.
- "Clear" deletes only the ids that `send_job` recorded: the photo, chunk
  and link messages of each job shown since the last `/start`. The `/start`
  prompt, the blank-query prompt and every notice (app.py:208, 214, 231,
  236, 244, 257) are never recorded. `/start` also forgets the ids already
  recorded (app.py:205). So all of those stay in the chat after "Clear";
  `CbClear` states that the deleted set grows only by the recorded ids.
- `send_job` records the new message ids after any ids already recorded.
  The model records them that way too.

## Model

| member | source | states |
|---|---|---|
| Strings.IsSpace | app.py:212 | Exactly the characters CPython's `str.isspace` accepts, which are the ones `strip()` removes. |
| Strings.Strip | app.py:212 | The result is the input with its leading and trailing Python whitespace cut off. Everything cut is whitespace, and the result neither starts nor ends with whitespace. It is empty exactly when the input is all whitespace. |
| Strings.StripIdempotent | app.py:155 | Stripping an already stripped string changes nothing. |
| Strings.NatToDecimal | app.py:183 | `str(n)` is a non-empty string of digits with no leading zero, except for 0 itself. |
| Strings.IntToDecimal | app.py:183 | `str(x)`: the digits of `x` when it is non-negative, otherwise "-" followed by the digits of `-x`. |
| Strings.DecimalRoundTrip | app.py:183 | Reading back the decimal digits of `str(n)` gives `n`. |
| Health.Head | app.py:34-38 | HEAD answers 200 exactly on `/` and `/health` and 404 everywhere else, with an empty body. |
| Health.Get | app.py:39-43 | GET always answers 200. The body is "ok" exactly on `/health` and "running" everywhere else. |
| Health.HeadAndGetDisagreeOffRoute | app.py:33-43 | HEAD and GET give the same status exactly on `/` and `/health`. Elsewhere HEAD says 404 while GET still says 200. |
| Browser.ViewportHeight | app.py:167 | The window height is the pane height plus 120, capped at 16000. It never exceeds either bound and equals one of them. |
| Browser.ViewportHeightMonotonic | app.py:167 | A taller pane never gets a shorter window. |
| Browser.LinkTextsOf | app.py:148-149 | One link text per job card, in card order. |
| Browser.OpenJobTitle | app.py:151-155 | There is no title exactly when `idx` is out of range. Otherwise the title is the stripped link text, or `Job {idx+1}` when that is empty, and it is never empty. |
| Browser.FallbackTitle | app.py:155 | The fallback title is "Job " followed by a decimal numeral. |
| Browser.FallbackTitleNamesPosition | app.py:155 | The fallback title is `Job ` followed by the 1-based position, which reads back as `idx+1`. |
| Browser.TitleOrDefault | app.py:238 | `or "Job 1"`: a present non-empty title is kept, anything else becomes "Job 1". The result is never empty. |
| Browser.FirstTitleNeedsNoDefault | app.py:238 | For a non-empty card list the first card always has a title, so the default is never used. |
| Browser.Driver.constructor | app.py:51-73 | A fresh browser shows an empty page with no card open. Its window is 3000 high and it has not quit. |
| Browser.Driver.LinkTexts | app.py:148-152 | One text per job-card link on the current page, in card order: entry k is card k's link text. |
| Browser.Driver.Navigate | app.py:222-229 | Loading succeeds exactly when the site answers with a page. The driver then holds that page's cards and location, with no card open. A timeout changes nothing. |
| Browser.Driver.OpenJob | app.py:151-159 | The title is `OpenJobTitle` of the current link texts. In range, card `idx` becomes the one shown and the location becomes the card's. Out of range, nothing changes. |
| Browser.Driver.Capture | app.py:164-170 | The window height becomes `ViewportHeight` of the shown pane. The returned text is the pane's stripped text. |
| Browser.Driver.Quit | app.py:253-255 | The browser is marked as quit. |
| Telegram.Chat.Send | app.py:183 | A message is appended to the log under an id larger than every earlier id. |
| Telegram.Chat.SendPhoto | app.py:183 | Exactly one captioned photo is appended, under an id larger than every earlier id. |
| Telegram.Chat.SendMessage | app.py:187 | Exactly one text message with the given button row is appended, under an id larger than every earlier id. |
| Telegram.Chat.DeleteMessage | app.py:199-200 | Deleting succeeds exactly on a sent, not yet deleted id, and adds only such an id. |
| Telegram.AppendedTrans | app.py:180-192 | Two consecutive sends compose: the sent contents and the new ids concatenate in order. |
| Delivery.Slice | app.py:187 | Python's clamped slice `text[i:i+4096]`. |
| Delivery.Chunks | app.py:185-187 | No chunk is sent exactly when the text is empty (the `if text:` guard and an empty `range`). |
| Delivery.ChunksRebuildText | app.py:185-187 | Concatenating the chunks gives back the text: nothing is lost, repeated or reordered. |
| Delivery.ChunkCount | app.py:185-187 | A text of length L gives ceil(L/4096) chunks. |
| Delivery.ChunkAt | app.py:186-187 | Chunk k is `text[4096k : 4096(k+1)]` and starts inside the text. |
| Delivery.ChunkLengths | app.py:22 | Every chunk holds 1 to 4096 characters. All but the last hold exactly 4096. |
| Delivery.Caption | app.py:183 | The caption starts with the title and " (", and ends with a digit and ")". |
| Delivery.CaptionRoundTrip | app.py:183 | Parsing the caption `"{title} ({idx+1}/{total})"` from its end gives back the title, `idx+1` and `total`, for every title. |
| Delivery.Controls | app.py:189-190 | The row holds "Next" exactly when `idx+1 < total`. It always ends with exactly one "Clear", holds at most two buttons, and holds no button other than these two. |
| Delivery.ChunkMessages | app.py:186-187 | One plain, button-less text message per chunk, in chunk order. |
| Delivery.JobMessages | app.py:182-192 | The messages for one job, in send order: the captioned photo, one message per chunk, then the link with the button row. |
| Bot.Session.constructor | app.py:204-257 | A chat the bot has not seen since it started has no user entries and no chat entry, and satisfies the session invariant. |
| Bot.Session.CmdStart | app.py:204-208 | All user entries are forgotten except `awaiting_query`, which becomes true. The chat entry is stored, and the prompt is the only message sent. |
| Bot.Session.OnText | app.py:210-218 | A message that is not awaited changes nothing. A blank one gets the prompt and changes nothing else. A real query goes to the site under its stripped form, on a fresh driver, with the outcomes of `Searched`. |
| Bot.Session.Search | app.py:217-239 | Browsing starts at index 0. A timeout sends the notice, stores no count and raises. An empty page sends "No jobs found". Otherwise the count is stored, and exactly the first job's messages are sent and recorded. |
| Bot.Session.ShowResults | app.py:234-239 | An empty list gets only "No jobs found" and records no id. Otherwise the first job is delivered as `ShowFirst` states. |
| Bot.Session.ShowFirst | app.py:238-239 | Card 0 is opened, and exactly its messages are sent: the title with the "Job 1" default, the position 1 of the count, the stripped pane text and the card's link. Their ids are recorded after the old ones. |
| Bot.Session.CbNext | app.py:241-247 | A missing `idx`, then a missing `total`, raises `KeyError` with nothing changed. At the last job only "No more jobs." is sent. In these branches the browser keeps its location, window height and open card. Otherwise `idx` grows by one and exactly that job's messages are sent and recorded. The driver and its job cards stay the same, so the job sent is card idx+1 of the searched page. `idx` never decreases. |
| Bot.Session.CbClear | app.py:249-257 | Without the chat entry it raises `KeyError` and changes nothing. Otherwise every recorded message that was sent is deleted and nothing else, a held driver is quit, all user entries are forgotten, the chat entry stays, and the notice is sent. |
| Bot.Session.SendJob | app.py:173-194 | The window is sized for the shown pane. The photo, the chunks of the stripped pane text and the link message are sent in that order, and their ids are appended after those already recorded. |
| Bot.Session.ClearMsgs | app.py:196-201 | Without the chat entry it raises `KeyError` before deleting anything. Otherwise every recorded id is tried for deletion, failures change nothing, and afterwards no id is recorded. |
| Bot.Deliver | app.py:182-192 | The chat receives exactly `JobMessages` for the given title, position, text and link. The returned ids are the new messages' ids, in send order. |
| Bot.SendChunks | app.py:185-187 | The chat receives exactly the chunk messages of the text, in order, and the ids come back in send order. |
| Scenarios.ClearTwice | app.py:249-257 | In a chat that has seen `/start`, pressing "Clear" twice completes both times and leaves no user entries. The second press deletes nothing further. |
| Scenarios.ClearBeforeStart | app.py:196-201 | In a chat the bot has not seen since it started, "Clear" raises `KeyError` on every press and sends and deletes nothing. |
| Scenarios.SearchFiveJobs | app.py:204-239 | `/start` then a query with five results leaves the session at job 1 of 5, and the last message offers "Next". |
| Scenarios.PageToEnd | app.py:241-247 | From job 1 of 5, four presses of "Next" reach job 5. A fifth press only answers "No more jobs." and keeps the index. |

## Left out

- Creating the Chrome driver, its options, profile directory and exit cleanup are not modelled, because they are process and file-system effects. Only the initial window height of 3000 is kept; the width 1280 is dropped.
- Cookie injection, login and the "not logged in" warning are left out: they talk to the network and print to the console, and they do not affect the session state.
- The two ways of reaching the results page, the CSS/XPath selectors, the waits, the sleeps and `quote_plus` are left out. The site is an input function from the stripped query to the page it shows, or to a timeout.
- Browser.Driver.OpenJob: the wait for the detail pane after clicking is assumed to succeed, and scrolling the card into view is not modelled.
- Browser.Driver.Capture: the screenshot file and the scroll reset are not modelled. A pane's height and text are data of the job card.
- Writing `fail.png` on a timeout is left out, because it is a file-system effect. The timeout notice and the re-raised exception are modelled.
- The Telegram API is modelled as an in-memory chat. Network failures of sends are not modelled. A delete fails only on an id that was never sent or is already deleted, which stands for the errors `clear_msgs` ignores.
- `callback_query.answer()`, the application wiring and the error handler are left out. They do not change the session.
- The chat object stored under `chat_data["chat"]` is passed to each handler. Only whether that entry is stored is modelled, as `chatKnown`.
- One user is paired with one chat. The framework keeps user entries per user and chat entries per chat, so a user who uses the bot in two chats is not modelled.
- Message length is counted in characters. Telegram's UTF-16 length units are not modelled.
- A text update without text reads as the empty string, as `or ""` makes it.
- Health serving: the HTTP server thread, the port and the asyncio event loop are left out, because they are concurrency and I/O. Only the two handlers' routing is modelled.
- Exceptions from the browser or from Telegram other than the results timeout are not modelled.
