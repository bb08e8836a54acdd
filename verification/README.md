# AI memory chat: history loading and turn recording

This project models the session logic of a small chat front-end. The
front-end keeps a chat transcript in the session. It forwards each prompt
to a hosted language model and appends every turn as a row to a Google
Sheet. Two pieces of `app.py` are modelled. Everything around them talks
to Streamlit, Gemini or the Sheets API.

- **History loading** (`Hydration`). This runs when a session has no
  transcript yet. The transcript starts empty. The loader takes the newest
  20 sheet records, or all of them when there are 20 or fewer. It skips
  every record whose role column ("角色") or content column ("內容") is
  missing or empty. It maps the label `"user"` to the user role and every
  other label to the assistant role, and keeps sheet order. A failed read
  leaves the transcript empty.
- **Turn recording** (`Turn`). A non-empty prompt appends the user entry
  and then the assistant entry to the transcript. The reply is the model's
  text. If the model call fails, the reply is the fixed apology
  `抱歉，AI 暫時無法回應。`. The two sheet rows `[ts, "user", prompt]` and
  `[ts, "model", reply]` share one timestamp. A failed append only produces
  a warning.
- **Write, then reload** (`RoundTrip`). This module shows how rows written
  by turns come back through a later history load. It proves when the
  transcript and the sheet stay in step and when they drift apart.

The outside world enters only as inputs:
- the sheet read: `Records(records)` or `ReadFailed`;
- the model result: `Replied(text)` or `Failed`;
- one success flag per append;
- the timestamp, as an opaque string;
- the value returned by the input box, as `Option<string>`.

The files are `chat_types.dfy`, `hydration.dfy`, `turn.dfy` and
`round_trip.dfy`.

Three consequences of the code are worth stating plainly:
- Loading gives *at most* min(N, 20) entries, because unusable records
  are skipped. It gives exactly min(N, 20) when every record is usable
  (`Hydration.HydrateAllUsable`).
- The transcript keeps the role `"assistant"` for replies, while the sheet
  label is `"model"` (app.py:98, 102). The model keeps both:
  `Role.Assistant` in the transcript and `ModelLabel` in the sheet.
- An empty model reply is appended to the transcript and saved, but it is
  lost on reload (`RoundTrip.SubmitReloads`).

## Model

| member | source | states |
|---|---|---|
| ChatTypes.RoleOfLabel | app.py:62 | a label gives the user role exactly when it is `"user"`; every other label, including `"model"`, gives the assistant; it undoes the label written for either role |
| ChatTypes.ToMessage | app.py:57-63 | a usable record becomes a message with the record's non-empty content, with the user role exactly when the label is `"user"` |
| Hydration.Recent | app.py:53 | the loader looks at a suffix of the records whose length is min(N, 20) |
| Hydration.Keep | app.py:55-63 | the loop's output is no longer than its input, and every message it keeps has non-empty content |
| Hydration.KeepIsFilterMap | app.py:55-63 | the loop output is the in-order filter-then-map: entry j is the message of the j-th usable record, over the increasing list of exactly the usable positions |
| Hydration.KeepAllUsable | app.py:57-60 | nothing is dropped if and only if every record has a non-empty role and content; in that case entry i comes from record i |
| Hydration.Hydrate | app.py:47-66 | an existing transcript is left untouched; a failed read gives the empty transcript; a successful read gives at most min(N, 20) entries, all with non-empty content |
| Hydration.HydrateIsFilterMapOfRecent | app.py:53-63 | a fresh transcript's j-th entry comes from the j-th usable record among the newest min(N, 20), at its place in the full record list, with the role following the label |
| Hydration.HydrateAllUsable | app.py:53-63 | when all records are usable, a fresh transcript holds exactly the newest min(N, 20) records in sheet order |
| Hydration.InitSession | app.py:47-66 | the loader loop, with its skip test and role mapping written out, builds the same transcript as `Hydrate` |
| Turn.Submit | app.py:74-104 | with no prompt nothing changes. With a prompt, the earlier entries are kept and exactly two follow: the user prompt, then the assistant reply (the model text, or the apology on failure). Earlier rows are kept. The saved rows follow in user-then-model order with one timestamp. Each failed write gives its own warning, at most one of each, the user warning first |
| Turn.WriteFailureLeavesTranscript | app.py:81-104 | the transcript after a turn does not depend on which writes succeed; a turn gives no warning exactly when nothing was submitted or both writes succeed |
| Turn.ApologyIsShownAndSaved | app.py:94-104 | on a model failure the apology is both the last transcript entry and the content of the saved `"model"` row |
| Turn.RunAppendOnly | app.py:74-104 | over any sequence of interactions the transcript and the sheet keep their existing contents as a prefix; the transcript grows by exactly two entries per prompt, so by at most two per interaction, and the sheet by at most two rows per prompt |
| RoundTrip.ReloadAppend | app.py:55-63 | reloading a sheet after rows were appended gives the earlier reload followed by the reload of the new rows |
| RoundTrip.SubmitSaves | app.py:80-104 | a submitted turn adds exactly its successfully written rows, in order, to the end of the sheet |
| RoundTrip.TurnRowsReload | app.py:57-63 | the two rows of a turn load back as the user message, followed by the reply only when the reply is non-empty |
| RoundTrip.LostRowReloadsAtMostOne | app.py:81-104 | unless both writes succeed and the reply is non-empty, the rows of a turn load back as at most one message |
| RoundTrip.SubmitReloads | app.py:74-104 | after a turn whose writes succeed, loading any suffix of the sheet gives the earlier load plus the prompt and, when non-empty, the reply |
| RoundTrip.SubmitKeepsTracking | app.py:74-104 | if the transcript equals the load of the sheet from some row on, it still does after a turn whose writes succeed and whose reply is non-empty |
| RoundTrip.LostRowBreaksTracking | app.py:81-104 | right after a turn with a failed write or an empty reply, the transcript no longer equals the reloaded sheet: it holds more entries than the reload gives |
| RoundTrip.RunKeepsLag | app.py:74-104 | once the transcript holds more entries than the reloaded sheet gives, every later interaction keeps it so |
| RoundTrip.LostRowDivergesForever | app.py:81-104 | if the transcript tracked the load of the sheet from some row before a turn with a failed write or an empty reply, then the transcript and the load of the sheet from that row stay apart for the rest of the session, whatever the later interactions are |
| RoundTrip.HydrateEndsWith | app.py:53 | loading a sheet whose last rows number at most 20 ends with the load of those rows |
| RoundTrip.HydrateTracks | app.py:47-63 | a freshly loaded transcript equals the load of the sheet from the first of its newest min(N, 20) rows |
| RoundTrip.WriteThenHydrate | app.py:80-104 | after a turn whose writes succeed and whose reply is non-empty, a fresh load ends with that turn's user and assistant entries, whatever the sheet held before |
| RoundTrip.RunKeepsTracking | app.py:74-104 | a session whose writes all succeed and whose replies are all non-empty keeps the transcript equal to the load of the sheet |
| RoundTrip.SessionReloads | app.py:47-104 | a session started on a sheet holding only its header row, with all writes saved and all replies non-empty, is given back entry for entry by a later fresh load while the sheet holds at most 20 rows |

## Left out

- Page setup, the chat display and the rendering of messages (app.py:9-10, 69-71, 76, 87-96) are user interface; warnings are modelled only as the values `UserRowNotSaved` and `ModelRowNotSaved`.
- Reading the three secrets and stopping when one is missing (app.py:14-21) is environment input; the model starts after that check has passed.
- Configuring Gemini and calling `generate_content` (app.py:24-25, 91) is a network call; only its outcome enters, as `Replied(text)` or `Failed`. Any exception, including one raised while reading `response.text`, counts as `Failed`.
- Authorising with the service account, opening the sheet and caching the handle with `st.cache_resource` (app.py:28-44) are network clients and framework caching.
- Formatting the current time (app.py:80) is a clock read; the timestamp is an opaque string parameter.
- The dictionary shape and type coercion of `get_all_records`: a record is reduced to an optional role string and an optional content string. A numeric cell such as `0`, which the reader turns into a falsy number, is not modelled.
- RoundTrip.RecordOf: assumes that the reader gives back each written cell unchanged, and that the sheet's header names the second column `角色` and the third `內容`. The handler writes by position (app.py:82, 102) but the loader looks fields up by header name (app.py:57-58). The round-trip results (`TurnRowsReload`, `SubmitReloads`, `WriteThenHydrate`, `RunKeepsTracking`, `SessionReloads`) therefore hold only for content the reader returns unchanged: a prompt such as `"0"`, which the reader turns into a falsy number, is skipped on reload.
- A failed append is taken to add no row; a partial write on the remote side is not modelled.
- Streamlit's rerun of the whole script on every interaction is modelled as `Turn.Run`, which folds `Turn.Submit` over a sequence of interaction events. Each event is one handler run that goes to its end. The `State` threaded through it pairs this session's transcript, which survives reruns in the session state, with the rows of the sheet.
- Handler runs stopped partway: the input box (app.py:74) stays usable while the model call (app.py:91) is waiting. A new submission then makes Streamlit stop the running script at its next Streamlit call (app.py:93 or 96), before app.py:98 and app.py:102 run. The transcript then keeps the user entry without a reply, and the sheet may hold only the user row. The model takes every handler run to finish, and does not model a stopped one. `Turn.Submit`'s "exactly two entries", `Turn.RunAppendOnly`, and the `RoundTrip` tracking results (`SubmitReloads`, `SubmitKeepsTracking`, `LostRowBreaksTracking`, `RunKeepsLag`, `LostRowDivergesForever`, `WriteThenHydrate`, `RunKeepsTracking`, `SessionReloads`) hold only for runs that finish. This rests on Streamlit's execution model, not on anything app.py states.
- Other writers of the sheet: the sheet handle is cached for the whole process (app.py:28-38) while the transcript belongs to one session (app.py:47-48), so another browser session can append rows at any time, even between this session's user row (app.py:82) and its model row (app.py:102), while the model call runs (app.py:91). The model assumes the sheet has no writer besides this session: `State.store` changes only through this session's `Turn.Submit`. `RoundTrip.SubmitReloads`, `RoundTrip.WriteThenHydrate`, `RoundTrip.RunKeepsTracking`, `RoundTrip.SessionReloads`, `RoundTrip.RunKeepsLag` and `RoundTrip.LostRowDivergesForever` rest on this assumption. With a second writer, tracking can fail even when every write succeeds.
- A sheet without a header row: `State([], [])` stands for a sheet holding only its header row. On a truly empty sheet the first appended row would become the header that `get_all_records` reads (app.py:51, 82), and no later record would have a role column.
