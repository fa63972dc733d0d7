# Claude Sessions: licence pipeline and session scripts in Dafny

This project models three pieces of sequential logic of the Claude Sessions
repository and proves properties of each.

- **The purchase-to-licence webhook.** It has two deployments. `api/server.js`
  is an Express route and `api/webhook.js` is a serverless handler. Each one:
  - mints a licence key: `cs_` plus 24 characters drawn from the 62-character
    alphanumeric alphabet;
  - decides on a Stripe event: method check (serverless only), signature,
    event type, purchaser e-mail;
  - sends the key by SendGrid, or logs it when SendGrid is not configured;
  - answers with a status code and a body.

  Collaborators are inputs:
  - Stripe's signature check is a `Verification` value;
  - a SendGrid send is a `SendOutcome`;
  - `Math.random` is a sequence of indices.

  The SendGrid message is an `Email` value holding the recipient, sender,
  subject, key and the variant's two HTML differences (an extra style rule
  and the footer link). `Licensing.Text` and `Licensing.Html` render its
  `text` and `html` fields from the fixed templates.

  Each handler returns its `Response` and a trace of `Effect`s: key
  generated, send attempted, fallback logged. The two variants differ in
  whether `sendLicenseEmail` swallows a failed send
  (`ServerWebhook.SendLicenseEmail`) or throws it to the handler
  (`ServerlessWebhook.SendLicenseEmail`).
- **Transcript key points** (`skills/scripts/extract-key-points.py`). The
  input is decoded transcript records (`PyJson.Json`). The model flattens
  message content, classifies sides, splits sentences on `.!?\n` and picks
  keyword sentences. It then counts messages, de-duplicates and truncates the
  lists, and renders the Markdown summary. Python's dictionary lookups,
  truthiness, `str()` and the exceptions the script lets escape are spelled
  out: an escaping exception becomes an `Err` with Python's message.
- **Related sessions** (`skills/scripts/find-related-sessions.py`). This
  covers:
  - the SQL quote escaping;
  - the filesystem fallback's match, sort newest first and take 5, over
    already-loaded metadata records;
  - the plain-text formatter;
  - the choice between database rows and the fallback.

Shared modules:
- `Results`: `Option` and `Result`.
- `Strings`: ASCII lower-casing, substring search, `strip()`, slicing,
  joining, decimal rendering.
- `PyJson`: decoded JSON with Python semantics. An object keeps every member it was written with, and the dict `json.loads` would build is derived from them. A repeated key stays at its first position with its last value: `Get` reads the last member with the key, and `str()` shows each key once.
- `Seqs`: flat-map, and de-duplication in first-occurrence order
  (`list(dict.fromkeys(xs))`).

Two behaviours of the code are worth stating outright:
- Nothing deduplicates redelivered events, and no transaction is recorded.
  Every accepted delivery mints a fresh key. `ServerWebhook.Redeliver` and
  `ServerlessWebhook.Redeliver` state this: two deliveries of one event give
  two keys, which differ whenever the random draws differ.
- The related-sessions header carries ` (last N days)` only when `days` is
  truthy, so `--days 0` gets no suffix.

## Model

| member | source | states |
|---|---|---|
| Licensing.GenerateLicenseKey | api/server.js:24-31 | The 24-step append loop builds `cs_` followed by one alphabet character per draw. With draws in [0, 62) the key is well formed (length 27, prefix `cs_`, the rest `[A-Za-z0-9]`) and character 3+i is `Alphabet[draws[i]]`. |
| Licensing.KeyFromValidDrawsIsWellFormed | api/webhook.js:19-26 | The serverless copy of the generator gives keys of the same shape: `cs_` plus 24 alphanumeric characters, each the alphabet entry its draw names. |
| Licensing.KeySuffixSelects | api/server.js:27-29 | Each drawn character is the alphabet entry at the drawn index. |
| Licensing.AlphabetLayout | api/server.js:25 | Every alphabet position holds an alphanumeric character, and that character's position is the index, so the alphabet has no repeats. |
| Licensing.KeyDeterminesDraws | api/server.js:25-30 | Two valid draw sequences that give the same key agree on all 24 consumed draws: the key encodes its draws. |
| Licensing.BodiesMentionKey | api/server.js:48-91 | Both the text body and the HTML body contain the key and the literal `sessions activate <key>`. |
| Licensing.PurchaserEmail | api/server.js:154 | The purchaser is `customer_details.email` when present, else `customer_email`, and there is none exactly when both are missing. |
| ServerWebhook.LicenseEmailAddressed | api/server.js:41-43 | The message goes to the purchaser. It comes from FROM_EMAIL, or `hello@claudesessions.com` when that is unset. |
| ServerWebhook.LicenseEmailMentionsKey | api/server.js:41-91 | Both bodies of this variant's message carry the key and the activation command. |
| ServerWebhook.SendLicenseEmail | api/server.js:34-119 | Never throws. Returns true after a delivered send or on the log fallback (no API key), and false exactly when a configured send fails. Makes exactly one send attempt or one fallback log, with the licence message. |
| ServerWebhook.HandleWebhook | api/server.js:136-178 | A bad signature gives 400 `Webhook Error: …` and no effects. Other event types give 200 `{received: true}` and no effects. A checkout with no e-mail gives 400 `No email found` and no effects. An accepted checkout mints exactly one key, then makes one send attempt or one fallback log, and answers 200. Status 200 holds exactly on the two success paths. |
| ServerWebhook.Redeliver | api/server.js:152-177 | Redelivering one accepted event mints one key per delivery, whatever each delivery's send outcome: there is no deduplication. Different draws give different keys. |
| ServerlessWebhook.LicenseEmailAddressed | api/webhook.js:35-37 | Same addressing as the server variant: the purchaser, from FROM_EMAIL or the default sender. |
| ServerlessWebhook.LicenseEmailMentionsKey | api/webhook.js:35-84 | Both bodies of this variant's message, with its own HTML footer, carry the key and the activation command. |
| ServerlessWebhook.SendLicenseEmail | api/webhook.js:29-107 | Never returns false. It throws the SendGrid error exactly when a configured send fails, and returns true after a delivered send or on the log fallback. One attempt or one fallback log. |
| ServerlessWebhook.Handle | api/webhook.js:110-165 | A non-POST gives 405 `Method not allowed` before any signature check. A bad signature gives 400 with a JSON error. No e-mail gives 400. Any other event type is acknowledged with no effects. An accepted checkout mints exactly one key, makes at most one send, and answers 200 even when the send throws. |
| ServerlessWebhook.Redeliver | api/webhook.js:141-164 | Each delivery of the same accepted event mints its own key, whether or not the other delivery's send failed. The keys differ whenever the draws differ. |
| KeyPoints.JoinParts | skills/scripts/extract-key-points.py:60 | `' '.join(text_parts)` succeeds exactly when every part is a string, and then gives the strings joined by the separator. Otherwise it raises Python's TypeError `sequence item k: expected str instance, T found`, where k is the least index of a non-string part and T that part's type name. |
| KeyPoints.ExtractContent | skills/scripts/extract-key-points.py:44-71 | The block loop with `continue` on thinking blocks computes `ContentOf`: nested message content (list or scalar), else direct `content`, else the empty string. |
| KeyPoints.CollectTextParts | skills/scripts/extract-key-points.py:51-59 | The block loop keeps text blocks' `text` (default `''`) and bare strings, in order, and skips everything else. |
| KeyPoints.ThinkingBlockIgnored | skills/scripts/extract-key-points.py:56-57 | Inserting a `thinking` block anywhere in a nested content list leaves the extracted text unchanged. |
| KeyPoints.TextBlocksJoinedWithSpaces | skills/scripts/extract-key-points.py:47-60 | A nested list of text blocks yields exactly their texts joined by single spaces. |
| PyJson.GetIsLast | skills/scripts/extract-key-points.py:47-48 | `d.get(key)` of a present key is the value of its last member, the one the dict shows. |
| PyJson.RepeatedKeyShownOnce | skills/scripts/extract-key-points.py:61 | `str()` of an object written with key `k` twice shows `k` once, with its second value: `{'k': 'cd'}`. |
| KeyPoints.NestedContentFailsOnNonString | skills/scripts/extract-key-points.py:53-60 | A text block whose `text` is not a string makes extraction raise. |
| KeyPoints.MessageType | skills/scripts/extract-key-points.py:74-87 | Only a dict record can be classified: anything else raises AttributeError. |
| KeyPoints.MessageTypeClassifies | skills/scripts/extract-key-points.py:74-87 | Both directions, for each outcome. `user`/`user_message` give user and `assistant`/`assistant_message` give assistant. Otherwise a nested `role` decides. Otherwise the raw `type` is returned. It fails exactly on non-dicts or on a non-dict `message`. |
| KeyPoints.Sentences | skills/scripts/extract-key-points.py:97 | The split of `re.split(r'[.!?\n]', s)` has at least one piece, and the first piece is a prefix of s. |
| KeyPoints.SentencesWithin | skills/scripts/extract-key-points.py:97 | Every piece occurs in the text and contains no sentence-ending character. |
| KeyPoints.SentencesRebuild | skills/scripts/extract-key-points.py:97 | The split drops only the separators. There is one piece more than there are sentence-ending characters, and putting those characters back between consecutive pieces, in order, rebuilds the text. |
| KeyPoints.KeywordMatchesMembers | skills/scripts/extract-key-points.py:95-103 | A line comes from one keyword exactly when it is the stripped 150-character cut of a sentence that mentions the keyword case-insensitively and is longer than ten characters after stripping. |
| KeyPoints.AddSentenceMatches | skills/scripts/extract-key-points.py:97-102 | The sentence loop for one keyword, with its `not in matches` test, extends the de-duplicated list by that keyword's sentence matches, keeping first-found order. |
| KeyPoints.FindMatchingContent | skills/scripts/extract-key-points.py:90-105 | The nested keyword/sentence loops with the `not in matches` test compute the de-duplicated candidate list. |
| KeyPoints.MatchingContentCharacterized | skills/scripts/extract-key-points.py:90-105 | A line is a match exactly when some keyword yields it. There are no duplicates, each match has 11 to 150 characters, and matches keep first-found order. |
| KeyPoints.ExtractKeyPoints | skills/scripts/extract-key-points.py:108-175 | The record loop, counters and `extend` calls, then the dedupe and limit, compute `KeyPointsOf`. The first record whose classification or extraction raises aborts with that error. |
| KeyPoints.Tally | skills/scripts/extract-key-points.py:134-160 | One turn of the record loop on a classified record: content under ten characters changes nothing; otherwise the side's counter and the user messages move, and assistant content extends the four lists. |
| KeyPoints.AccumulateStopsAtError | skills/scripts/extract-key-points.py:131-166 | Once a record raises, no later record changes the outcome. |
| KeyPoints.AccumulateFailsIff | skills/scripts/extract-key-points.py:131-166 | Extraction fails exactly when some record raises. |
| KeyPoints.StepCounts | skills/scripts/extract-key-points.py:135-145 | One record adds one to its side's count exactly when its content has at least ten characters. A user record moves the last message and, while unset, the first. |
| KeyPoints.AccumulateCounts | skills/scripts/extract-key-points.py:138-145 | The counts are the numbers of counted user and assistant records. The first and last user messages are the first 200 characters of the first and last counted user texts, or empty when there are none. |
| KeyPoints.AccumulateFindings | skills/scripts/extract-key-points.py:147-160 | Each raw list is the concatenation, in record order, of the matches of the counted assistant texts only. |
| KeyPoints.KeyPointsBounded | skills/scripts/extract-key-points.py:170-173 | Each final list is duplicate-free and holds at most 5 decisions, 5 completions, 3 outcomes and 3 in-progress items. Each entry has 11 to 150 characters. |
| KeyPoints.UserMessagesShort | skills/scripts/extract-key-points.py:141-143 | The remembered first and last user messages have at most 200 characters. |
| KeyPoints.Bullets | skills/scripts/extract-key-points.py:200-201 | One `- ` line per item, in order. |
| KeyPoints.FormatOutput | skills/scripts/extract-key-points.py:178-225 | The line-appending renderer produces `SummaryLines` joined by newlines. |
| KeyPoints.SummaryBullets | skills/scripts/extract-key-points.py:197-223 | The summary has exactly min(3, decisions) + min(3, completions) + min(2, in progress) + min(2, outcomes) bullet lines. |
| KeyPoints.SummaryTitles | skills/scripts/extract-key-points.py:197-223 | A section's title appears exactly when its list is non-empty. |
| Seqs.Dedupe | skills/scripts/extract-key-points.py:170 | `list(dict.fromkeys(xs))` keeps exactly the elements of xs, each once, and is no longer than xs. |
| Seqs.DedupeOrder | skills/scripts/extract-key-points.py:170-173 | The de-duplicated list is ordered by each element's first occurrence. |
| Seqs.DedupeIdempotent | skills/scripts/extract-key-points.py:170-173 | De-duplicating twice is the same as once. |
| RelatedSessions.EscapeQuotesFaithful | skills/scripts/find-related-sessions.py:51 | Escaping doubles every single quote and keeps every other character in place. Undoing the doubling restores the topic. |
| RelatedSessions.SortNewestFirst | skills/scripts/find-related-sessions.py:159 | The sort is a permutation of its input, ordered by `archived_at` descending in Python's string order. |
| RelatedSessions.SortNewestFirstStable | skills/scripts/find-related-sessions.py:159 | The sort is stable, as Python's `list.sort` is: the rows with any one date come out in their input order. |
| RelatedSessions.SearchFilesystem | skills/scripts/find-related-sessions.py:102-160 | The directory loop with its append, then the sort and `[:5]`, compute `FilesystemResults`. |
| RelatedSessions.MatchingCharacterized | skills/scripts/find-related-sessions.py:139-145 | A row is collected exactly when the lowered topic is a substring of the lowered space-join of directory name, preview and working directory. |
| RelatedSessions.FilesystemResultsCharacterized | skills/scripts/find-related-sessions.py:145-160 | The rows are the first min(5, number of matches) rows of the sorted matches. So there are at most 5 rows, newest first, each built from a matching archive, with relevance 0.5 and a context of at most 100 characters. Every matching row left out is no newer than every row kept. All matches are kept when at most 5 match. |
| RelatedSessions.FilesystemResultsRanked | skills/scripts/find-related-sessions.py:159-160 | The kept rows are the first min(5, number of matches) rows of the sorted matches: at most five, newest first, and no matching row left out is newer than a kept one. |
| RelatedSessions.FilesystemResultsSound | skills/scripts/find-related-sessions.py:139-153 | Each kept row is built from an archive that matches the topic, with relevance 0.5 and at most 100 characters of context. |
| RelatedSessions.FilesystemResultsComplete | skills/scripts/find-related-sessions.py:145-160 | When at most five archives match, every one of them is kept. |
| RelatedSessions.HeaderCarriesDays | skills/scripts/find-related-sessions.py:167-168 | The header starts with `RELATED SESSIONS: <topic>`. It is longer than that exactly when `days` is given and non-zero, and then the rest is ` (last N days)`. |
| RelatedSessions.NoMatchMessage | skills/scripts/find-related-sessions.py:171-178 | `No matching sessions found.` appears exactly when there are no results. It then follows the header and blank line, together with the suggestion lines. |
| RelatedSessions.NumberedEntries | skills/scripts/find-related-sessions.py:180-187 | The numbered lines are exactly `1. <name>`, `2. <name>`, … for the first min(3, n) results, in order. |
| RelatedSessions.EntryShape | skills/scripts/find-related-sessions.py:182-190 | The date is exactly the first 10 characters of `archived_at` (all of it when shorter), or `unknown` only when it is empty. The context is exactly the first 80 characters of the row's context. The context line is present exactly when the context is non-empty. |
| RelatedSessions.AppendEntry | skills/scripts/find-related-sessions.py:182-190 | One loop turn appends exactly the entry's lines. |
| RelatedSessions.AppendEntries | skills/scripts/find-related-sessions.py:180-190 | The `enumerate(results[:3], 1)` loop appends the numbered entries of the shown rows, in order. |
| RelatedSessions.FormatOutput | skills/scripts/find-related-sessions.py:163-196 | The line-appending formatter produces `OutputLines` joined by newlines. |
| RelatedSessions.FindRelated | skills/scripts/find-related-sessions.py:213-219 | The filesystem is searched exactly when the database returned nothing. The output formats the rows chosen. |
| RelatedSessions.FallbackChoice | skills/scripts/find-related-sessions.py:214-216 | Database rows are used unchanged when there are any. Otherwise every row comes from a matching archive. The result is empty exactly when neither source finds anything. |

## Left out

- Stripe's `constructEvent` is not modelled; the model receives its result as a `Verification` value. The HMAC scheme is foreign code.
- SendGrid calls are reduced to a `SendOutcome`: delivered, or failed with an error. This is network I/O.
- `Math.random` is a sequence of indices supplied by the caller. The model makes no claims about randomness, uniqueness probability or strength.
- Licensing.GenerateLicenseKey: this and both handlers require at least 24 draws, because the source draws exactly 24 random numbers.
- An out-of-range draw yields an empty character (JavaScript `charAt`); the key-shape properties assume in-range draws.
- Console log text, `new Date()`, `(amount_total / 100).toFixed(2)`, the Express app setup, the `/health` route and the `expressHandler` adapter (api/webhook.js:168-173) are not modelled. They are logging, clock, float formatting and routing.
- JavaScript's `undefined`, `null` and `""` are all falsy here, and the model writes all three as `""` for e-mail fields and environment variables.
- `web/server.js` is not part of this model. It is HTTP, shell and HTML presentation.
- Reading the transcript file, skipping blank or undecodable lines, the command line and printing in `extract-key-points.py` are not modelled. The model takes the records that decoded.
- Python's Unicode `lower()` is modelled as ASCII lower-casing.
- `str()` of a float is not modelled, because `PyJson` numbers are integers.
- `search_database` is modelled only as its result rows and the quote escaping at line 51. The SQL, FTS and bm25 ranking are not modelled.
- Directory iteration, `metadata.json` loading and the skipping of undecodable files are not modelled. The model takes the list of decoded metadata records.
- `Metadata` takes `preview` and `working_directory` as strings. A non-string preview, which would make the join raise, is not modelled. Neither is `str()` of a non-string working directory.
- RelatedSessions.Metadata: a JSON `null` for `preview` or `archived_at` cannot be represented; each field is a string or absent. Neither can a `stats` that is not a dict, nor a `user_messages` that is not an integer: `stats` is reduced to `user_messages` as an optional integer. In `find-related-sessions.py` a `null` preview makes the join at line 139 raise TypeError. A `null` `archived_at` makes the sort at line 159 raise TypeError as soon as there is a second row to compare it with. A non-dict `stats` makes `metadata.get('stats', {}).get(...)` at line 150 raise AttributeError, and a non-integer `user_messages` would be shown as Python renders it.
- PyJson.ReprChar: only the non-printable characters below U+0100 are escaped (`\xhh`). Python's `repr` also writes `\uXXXX` or `\UXXXXXXXX` for the non-printable characters above that, such as U+200B, U+2028 and U+FEFF. Deciding which characters those are needs the Unicode character database.
- The `--days` cutoff filter in `search_filesystem` is not modelled. It needs the clock and ISO date parsing.
- `f"{abs(float(relevance)):.2f}"` becomes the caller-supplied `relevanceText` function. This is float formatting.
- A database `archived_at` of NULL is written as `""` in the model.
- `argparse` and `print` are left out. `FindRelated` starts after argument parsing and returns the text instead of printing it.
