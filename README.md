# K-bot core in Dafny

K-bot is a Discord bot for one gaming guild. This project models three of its cogs and proves properties about them.

- **Data** (`cogs/data.py`). Administrators log purchases (`achat`) and sales (`vente`) of in-game millions with `/data`. Each entry is posted to a journal channel as a human sentence plus a machine tag `[[DATA|kind|M|rate|admin_id]]`. A cumulative report embed in a report channel is rebuilt from the whole journal. It shows a purchases table, a sales table, their euro totals and a balance footer.
- **Stocks** (`cogs/stocks.py`). Each administrator has a kamas stock kept in SQLite tables. The global stock is defined as the sum of the admin stocks. Fixed embeds show both, and they are re-edited when a stock changes.
- **Cafard** (`cogs/cafard.py`). A yes/no quiz. Users create questions through a draft → answer → validate flow. Others vote once per question, earn a point per right answer, can take a `/quiz` of the questions they have not voted on yet, and see a top-ten ranking.

Discord is abstracted as state:
- channels are sets or maps of ids;
- a channel history is a sequence of `Message(authorIsBot, content)`;
- live embeds are a map from message references to embed values;
- a sent message gets the next id from a counter.

The SQLite tables are maps keyed by their primary keys, and the movement log is a sequence. The clock is a `now` string parameter.

Each module:
- `text.dfy` (`Text`): character classes, `str.strip`, `splitlines`, padding, digit strings, and an `Option` type with failure propagation.
- `decimal.dfy` (`Decimal`):
  - `_parse_decimal` on top of a model of Python's `float()` for finite decimal literals;
  - `round(x, 2)` as round-half-even to integer cents;
  - `_fmt_euros` / `_fmt_millions`;
  - the positional and `repr` texts of a number.
- `journal.dfy` (`Journal`): the two regular expressions as deterministic matchers, `Line`, `_read_journal_lines`, and the text `/data` posts.
- `report.dfy` (`Report`): the purchase/sale split, `render_section`, the footer, `_build_tables`, `clamp` and `_make_embed`.
- `data_cog.dfy` (`Ledger`): the `DataCog` class, with `data_report_meta`, the report messages and the commands `/data`, `/data_ini`, `/data_rebuild`.
- `stocks.dfy` (`Stocks`): the `StockDb` class, holding the three tables, the embeds and every command of the cog.
- `cafard.dfy` (`Cafard`): the `CafardState` class (the four module-level dictionaries) and the `QuizView` class.

Numbers and units:
- A parsed number is a `Dec(mant, scale)`, whose value is `mant / 10^scale`.
- Amounts and rates are `real`.
- Euros are integer cents.

The class invariants:
- `StockDb.Valid()` says that every guild's global row holds the sum of its admin rows and that every stock is non-negative.
- `CafardState.Fair()` says that every user's points equal the number of cafards they answered right.

Where the code and its documentation disagree, the model follows the code:
- `_read_journal_lines` keeps messages of *any* bot account, not only the bot's own (`cogs/data.py:154`).

The `/data` tag of the source holds Python's `repr` of the floats, which the tag pattern cannot always read back. The model's `/data` writes the positional text instead; both are modelled (see Findings).

## Model

| member | source | states |
|---|---|---|
| Decimal.ParseDecimalIgnoresGap | cogs/data.py:114 | Inserting a space or a narrow no-break space anywhere in the input never changes what `_parse_decimal` returns. |
| Decimal.ParseDecimalCommaIsDot | cogs/data.py:115 | A comma is read exactly like a dot, wherever it stands: the results on `a,b` and `a.b` are equal. |
| Decimal.ParseFloatPositional | cogs/data.py:116 | A signed digit string with an optional fraction parses to the decimal with those digits and that sign. |
| Decimal.ParseFloatDigits | cogs/data.py:116 | A plain digit string parses to its integer value. |
| Decimal.ParseFloatNeedsDigit | cogs/data.py:116 | `float` refuses every text without a digit. |
| Decimal.ParseDecimalNeedsDigit | cogs/data.py:109-116 | `_parse_decimal` returns `None` (its `ValueError`) for every input without a digit, the empty and the blank text among them. |
| Decimal.RoundHalfEven | cogs/data.py:132 | The result is within one half of the input, a tie goes to the even neighbour, and an integer is kept. |
| Decimal.RoundIsNearest | cogs/data.py:132 | No integer is closer to the input than the rounded value. |
| Decimal.CalcEuros | cogs/data.py:130-132 | The cents are within half a cent of amount × rate. |
| Decimal.FmtAmountShape | cogs/data.py:118-128 | The display text is the sign, the whole part in groups of three separated by spaces, a comma, then exactly two digits of the rounded cents. |
| Decimal.FmtAmountRoundTrip | cogs/data.py:109-128 | Parsing a displayed amount back always succeeds, gives the rounded amount, and is within half a cent of the original. |
| Decimal.FmtAmountParses | cogs/data.py:109-128 | Parsing a displayed amount gives exactly the signed cents at scale 2. |
| Decimal.GroupShape | cogs/data.py:120 | Grouped digits start and end with a digit; every other character is a digit or the separator. |
| Decimal.DropGapsGroup | cogs/data.py:114 | Removing the spaces of a space-grouped digit string gives back the digits. |
| Decimal.Normalize | cogs/data.py:315 | Normalising removes trailing zeros of the fraction: the result has no more fraction digits, and its last one is not 0. |
| Decimal.NormalizeValue | cogs/data.py:315 | Normalising keeps the value. |
| Decimal.TagNumberRoundTrip | cogs/data.py:166-167 | The positional tag text of a number parses back to the same value. |
| Decimal.TagNumberNormalised | cogs/data.py:114-115 | The positional tag text is unchanged by the strip, gap and comma clean-up. |
| Decimal.FracPart | cogs/data.py:315 | The fraction text is non-empty digits: one `0` for a whole number, otherwise the scale's number of digits. |
| Journal.MakeLine | cogs/data.py:141-149 | A `Line` keeps its kind, admin, id, amount and rate; its euros are the computed cents, within half a cent of amount × rate. |
| Journal.Num | cogs/data.py:43 | A number match splits the text into an accepted number and the rest. |
| Journal.NumLenExact | cogs/data.py:43 | On a well-formed number followed by a non-number character, the greedy match takes exactly the number. |
| Journal.NumParses | cogs/data.py:166-167 | Any text the number sub-pattern accepts is read by `_parse_decimal`. |
| Journal.MatchTag | cogs/data.py:42-45 | A tag match has a lower-cased kind, two number groups, and an admin id of at least five digits. |
| Journal.FindTagLeftmost | cogs/data.py:159 | `search` finds nothing exactly when no position matches; otherwise it returns the match at the first matching position. |
| Text.SplitLinesAppend | cogs/data.py:157 | A line without breaks appended after a newline, to a text that does not end in a break, is one more line of `splitlines`. |
| Journal.FirstTagFirstLine | cogs/data.py:157-162 | The tag of a message is the one found in its first line that has a tag; no tag iff no line has one. |
| Journal.MatchHuman | cogs/data.py:49-52 | A human-sentence match has a non-empty admin group, the verb `acheté` or `vendu`, and two numbers. |
| Journal.HumanTail | cogs/data.py:50 | After the bracketed name, the matched verb is one of the two verbs and both amounts are numbers. |
| Journal.ReadJournal | cogs/data.py:151-189 | The loop over the history, oldest first, returns exactly `Entries` of the history. |
| Journal.EntriesOnlyFromBots | cogs/data.py:154-155 | Messages from non-bot authors contribute nothing. |
| Journal.EntriesAppend | cogs/data.py:153 | The entries of two consecutive histories are the concatenation of their entries. |
| Journal.EntriesBound | cogs/data.py:151-189 | A message yields at most one entry. |
| Journal.MessageEntryCases | cogs/data.py:154-187 | A bot message yields an entry iff it has a tag or a human sentence. With a tag, the entry has the tag's kind, id, amount and rate, and the stripped human name or else `ID:<id>`. Without a tag, the entry has the sentence's verb as kind, its amounts, its stripped name and no id. |
| Journal.TagBeatsHuman | cogs/data.py:164-177 | When a later line has a tag, that tag decides the kind, id, amount and rate, whatever the human sentence says. |
| Journal.TagRoundTrip | cogs/data.py:315 | The positional tag is matched back with the kind, the two numbers and the id it was built from. |
| Journal.PostTag | cogs/data.py:313-316 | The first tag found in the posted message is the one `/data` wrote, unless a line of the human sentence already carries a tag; that tag then wins. |
| Journal.PostEntry | cogs/data.py:313-316 | Reading the posted message back gives one entry. When the human sentence carries no tag, the entry has the command's kind, id, amount and rate. Otherwise it is the entry of the sentence's own tag. |
| Journal.HumanTextNoTag | cogs/data.py:314 | When the display name holds no `[[` and does not start with `[`, no line of the human sentence carries a tag. |
| Journal.HumanTextEnd | cogs/data.py:314 | The human sentence is non-empty and ends with `€`, which is not a line break, so the tag line that follows is a line of its own. |
| Journal.TagTextUnbroken | cogs/data.py:315 | The machine tag is one non-empty line. |
| Journal.FirstTagSnoc | cogs/data.py:157-162 | A line added after the others decides the tag only when none of them has one. |
| Journal.SpoofedName | cogs/data.py:313-316 | A display name shaped like the inside of a tag, `[DATA\|vente\|1\|1\|12345]`, makes the message's first tag that of the name: the entry is a sale by id 12345, whatever `/data` was given. |
| Journal.ReprTagUnreadable | cogs/data.py:315 | The source's `repr` text of 0.00001 is `1e-05`, and the tag written with it is not found by the tag pattern. The positional tag of the same entry is found. |
| Journal.ReprTagNotFound | cogs/data.py:42-45 | The tag pattern finds nothing in a tag holding `1e-05`, whatever the id digits. |
| Journal.UnreadableNumber | cogs/data.py:43 | The number field cannot continue with an exponent `e`. |
| Report.OfKind | cogs/data.py:197-198 | Filtering keeps only entries of the requested kind and never adds any. |
| Report.SplitIsPartition | cogs/data.py:197-198 | Purchases and sales together are exactly the entries, as a multiset. |
| Report.SumEurosAppend | cogs/data.py:212 | The total of two lists is the sum of their totals. |
| Report.SumEurosPermutation | cogs/data.py:206-212 | The total does not depend on the order of the entries. |
| Report.NetIsSignedSum | cogs/data.py:221 | The net, sales minus purchases, is the sum of every entry signed by its kind. |
| Report.AdminCell | cogs/data.py:207 | The admin column is 15 characters: the first 15 of the name, or `—` for an empty name, padded with spaces. |
| Report.AdminCellShape | cogs/data.py:207-211 | The cell starts with the shown name's prefix and is spaces after it. |
| Report.RenderSection | cogs/data.py:200-216 | The loop returns the section text and the total of the entries' cents. |
| Report.BodyEmptyIff | cogs/data.py:215 | The body is empty exactly when there are no entries, so the placeholder appears only then. |
| Report.BalanceOf | cogs/data.py:222-227 | The footer is `Équilibre` iff the magnitude of the net is at most 0.005, `Bénéfice` iff the net is above it, and `Perte` iff it is below its negative. |
| Report.BalanceOfCents | cogs/data.py:221-227 | On a net in whole cents: balanced iff 0, profit iff positive, loss iff negative. |
| Report.IsCloseToZeroBand | cogs/data.py:222 | `math.isclose(net, 0.0, abs_tol=0.005)` holds exactly when the magnitude of the net is at most 0.005; the relative tolerance never matters. |
| Report.RenderRows | cogs/data.py:204-212 | The loop over the entries returns the concatenated rows and the sum of their cents, as `Body` and `SumEuros` of the whole list. |
| Report.BuildTables | cogs/data.py:191-229 | The result is the six-part `TablesOf` value; its net is the signed sum; it is balanced iff the net is 0. |
| Report.TablesNet | cogs/data.py:221-222 | The net of the tables is the signed sum of the entries, and balanced iff zero. |
| Report.PyPrefix | cogs/data.py:238 | Python slicing `s[:n]` returns a prefix of length min(n, len) for n ≥ 0, and drops -n characters from the end for n < 0. |
| Report.ClampBounds | cogs/data.py:237-238 | A text up to the limit is kept. A longer text becomes its first limit−1 characters plus `…`, exactly the limit long. |
| Report.MakeEmbed | cogs/data.py:231-244 | The embed has three fields: `Achats`, `Ventes` and the footer. A table of at most 1000 characters is shown whole; a longer one becomes its first 999 characters plus `…`. Both table fields are at most 1000 characters. |
| Report.EmptyReportIsRendered | cogs/data.py:333-335 | The fixed texts of `/data_ini` are exactly what `_build_tables` renders for an empty journal. |
| Report.FmtZero | cogs/data.py:223 | Zero is displayed `0,00`. |
| Ledger.EmptyJournalReport | cogs/data.py:332-336 | The reset embed equals the report of an empty journal. |
| Ledger.PostAppendsEntry | cogs/data.py:314-316 | Posting a `/data` message appends exactly one entry to the journal's entries. It is the command's own when the human sentence carries no tag, and otherwise the entry of that tag. |
| Ledger.DataCog.constructor | cogs/data.py:251-252 | A fresh cog has no report and no meta rows. |
| Ledger.DataCog.UpsertReportMeta | cogs/data.py:91-104 | The guild's meta row becomes the new channel, message and time; nothing else changes. |
| Ledger.DataCog.Publish | cogs/data.py:394-410 | Afterwards the guild shows the embed. When the stored message resolves (not forced, usable meta row, text channel, message still there), it is edited in place and the meta row and message counter stay. Otherwise a fresh message is sent to the report channel and the meta row points to it with the time. |
| Ledger.BuildReport | cogs/data.py:383-388 | Reading the journal, building the tables and laying out the embed gives exactly `ReportEmbed` of the history. |
| Ledger.DataCog.PostAndRefresh | cogs/data.py:316-319 | The posted message goes to the end of the journal's history and nothing else in the history changes. With the report channel, the guild then shows the report of the new journal, by the edit-or-create rule of `Publish` without forcing. Without it, the report messages, the meta rows and the message counter are unchanged. |
| Ledger.DataCog.EnsureReportUpToDate | cogs/data.py:377-410 | Without the journal or the report channel, the report messages, the meta rows and the counter are unchanged. Otherwise the guild shows the report of the journal's current history, by the edit-or-create rule of `Publish`. |
| Ledger.DataCog.Data | cogs/data.py:279-321 | Each refusal changes nothing. A record happens iff the caller is an admin in a guild, both inputs parse as positive, and the journal channel exists. The record appends exactly the human line and tag to the journal. With the report channel, the report then shows the new journal, edited in place or re-sent by the rule of `Publish`; without it, no report message or meta row changes. |
| Ledger.DataCog.DataIni | cogs/data.py:323-360 | Each refusal changes nothing. The reset happens iff the caller is an admin in a guild with the report channel. The guild then shows the empty report, edited in place or re-sent and recorded by the rule of `Publish`. |
| Ledger.DataCog.DataRebuild | cogs/data.py:362-372 | Each refusal changes nothing. A rebuild happens iff the caller is an admin in a guild. With both channels, the guild shows the report of the journal by the rule of `Publish`, without forcing. Without one of them, no report message or meta row changes. |
| Stocks.NewAmount | cogs/stocks.py:243-244 | The new admin stock is old ± amount for a purchase or a sale, floored at 0. |
| Stocks.AbsInt | cogs/stocks.py:120 | The logged amount is the magnitude of the change. |
| Stocks.SumRemove | cogs/stocks.py:171 | The SQL `SUM` over a key set is one row's amount plus the sum of the others. |
| Stocks.SumNonNegative | cogs/stocks.py:171 | A sum of non-negative stocks is non-negative. |
| Stocks.GuildSumUpdate | cogs/stocks.py:168-175 | Setting one admin row changes its guild's sum by the difference (a missing row counts 0) and no other guild's. |
| Stocks.AdminSums | cogs/stocks.py:168-175 | The same for every other guild at once, plus the exact new sum of the guild concerned. |
| Stocks.StockDb.constructor | cogs/stocks.py:35-69 | A fresh database has empty tables, no embeds, and satisfies the invariant. |
| Stocks.StockDb.SumAdmins | cogs/stocks.py:168-175 | The loop returns the guild's sum of admin stocks. |
| Stocks.StockDb.UpdateAdminAmount | cogs/stocks.py:154-167 | The row gets the new amount and the time; its message ids are kept, and a missing row is created. |
| Stocks.StockDb.UpsertAdmin | cogs/stocks.py:138-153 | The row gets the amount and the time; each message id becomes the new one, or the stored one when the new one is absent (COALESCE). |
| Stocks.StockDb.UpdateGlobalAmount | cogs/stocks.py:100-112 | The global row gets the new amount and the time; its message ids are kept. |
| Stocks.StockDb.UpsertGlobalMeta | cogs/stocks.py:84-98 | The global row gets the amount and the time, with COALESCE of the message ids. |
| Stocks.StockDb.InsertMovement | cogs/stocks.py:114-122 | One movement is appended, with the magnitude of the amount. |
| Stocks.StockDb.RefreshAdmin | cogs/stocks.py:249-257 | The admin embed is edited with the stored amount only when its reference resolves: both stored ids are non-zero, the channel is a text channel or a thread, and the message still exists. No embed is created or removed. |
| Stocks.StockDb.RefreshGlobal | cogs/stocks.py:219-227 | The global embed is edited only when its reference resolves; no embed is created or removed. |
| Stocks.StockDb.RecomputeAndRefreshGlobal | cogs/stocks.py:215-227 | The guild's global amount becomes the sum of its admin stocks, which restores the invariant. The global embed is refreshed when it resolves. |
| Stocks.StockDb.ChangeAdmin | cogs/stocks.py:245-260 | The shared tail: the admin row gets the new amount and the time with its message ids kept, one movement of the change's magnitude is logged, the guild's global row gets the new sum of admin stocks and the time, and the admin and global embeds are re-edited when their references resolve (no embed is created or removed, no message is sent). The global amount moves by exactly the admin stock's difference. |
| Stocks.StockDb.ApplyTransaction | cogs/stocks.py:230-260 | A kind other than achat/vente, or an amount ≤ 0, changes nothing. Otherwise the admin stock becomes `NewAmount` and the shared tail of `ChangeAdmin` follows, logging the amount under the kind. |
| Stocks.StockDb.AdjustAdmin | cogs/stocks.py:367-401 | Each guard failure changes nothing. Otherwise the stock becomes max(0, current + delta) and the shared tail of `ChangeAdmin` follows: one `manual` movement of \|delta\|, the global row and both embeds. |
| Stocks.StockDb.StockAddAdmin | cogs/stocks.py:357-360 | It succeeds iff both are admins in a guild. The stock then grows by the amount, one `manual` movement of it is logged, and the global row and both embeds follow as in `ChangeAdmin`. |
| Stocks.StockDb.StockRemoveAdmin | cogs/stocks.py:362-365 | It succeeds iff both are admins in a guild. The stock then shrinks by the amount, floored at 0, one `manual` movement of the amount is logged, and the global row and both embeds follow as in `ChangeAdmin`. |
| Stocks.StockDb.StockSetAdmin | cogs/stocks.py:324-355 | Each guard failure changes nothing. Otherwise the stock becomes exactly the amount, one `manual` movement of the difference's magnitude is logged, and the global row and both embeds follow as in `ChangeAdmin`. |
| Stocks.StockDb.StockRefresh | cogs/stocks.py:406-414 | For an admin in a guild, the global becomes the sum and its embed is refreshed. Otherwise nothing changes. |
| Stocks.StockDb.StockPublishGlobal | cogs/stocks.py:272-292 | It succeeds iff the caller is an admin in a guild with the global text channel. A new embed showing the sum is sent under the next message id. Only that guild's global row changes: it holds the sum, points to the new message and resolves to it. |
| Stocks.StockDb.StockPublishAdmin | cogs/stocks.py:294-319 | It succeeds iff both are admins in a guild with the admins' text channel. A new embed is sent under the next message id, showing the stored amount and the stored time, or now when that is empty. The admin row then points to it with its amount unchanged. |
| Stocks.StockDb.DisabledGlobalCommand | cogs/stocks.py:419-429 | `/stock_set`, `/stock_add` and `/stock_remove` only answer that they are disabled. |
| Cafard.CafardState.constructor | cogs/cafard.py:6-9 | The four dictionaries start empty; the state is consistent and fair. |
| Cafard.CafardState.StartDraft | cogs/cafard.py:18-19 | `/cafard` (re)starts the user's draft with the question and no answer; nothing else changes. |
| Cafard.CafardState.SelectAnswer | cogs/cafard.py:100-101 | The draft gets the answer iff the user has one; without a draft nothing changes. |
| Cafard.CafardState.Discard | cogs/cafard.py:96-97 | Cancel (and delete, line 139) removes the user's draft and publishes nothing. |
| Cafard.CafardState.Validate | cogs/cafard.py:121-124 | With a draft, it is moved to the cafards under the fresh id, last in order, keeping the state consistent and fair. Without one, nothing changes. |
| Cafard.CafardState.AddPoint | cogs/cafard.py:158 | The user's score grows by exactly one, and every other user's score stays the same. A user without points is appended to the ranking order; otherwise the order is kept. |
| Cafard.CafardState.RecordVote | cogs/cafard.py:154-158 | The vote is recorded. It scores iff it matches the answer, and then the voter alone gains exactly one point, entering the ranking order if new. It fails iff the cafard has no answer, after recording. Without a score, points and order are unchanged. |
| Cafard.CafardState.Vote | cogs/cafard.py:148-161 | A repeated vote is refused and changes nothing. A first vote is recorded with the effect of `RecordVote`. Points equal to right answers before stay so after. |
| Cafard.CafardState.FirstVoteKeepsFair | cogs/cafard.py:150-158 | After a first vote, each user's number of right answers is their old points, plus one for the voter exactly when right. |
| Cafard.CorrectSetAddVote | cogs/cafard.py:154-155 | A first vote adds its cafard to the voter's right set iff it is right, and changes no other user's set. |
| Cafard.CorrectSetAddCafard | cogs/cafard.py:124 | Publishing a cafard nobody voted on changes nobody's right set. |
| Cafard.CafardState.Unvoted | cogs/cafard.py:33 | A cafard is in the list iff it is published and the user has not voted on it. |
| Cafard.CafardState.Remaining | cogs/cafard.py:33 | The loop returns the unvoted cafards in publication order. |
| Cafard.CafardState.Quiz | cogs/cafard.py:31-42 | There is no view iff nothing is left. Otherwise a fresh view on the remaining cafards starts at question 0. |
| Cafard.CafardState.PointsOrdered | cogs/cafard.py:56 | The key order of `points` is empty exactly when `points` is. |
| Cafard.CafardState.Classement | cogs/cafard.py:55-73 | No points gives the "no points yet" message. Otherwise: the top is at most ten users, non-increasing, each with their current points, and the text is the header plus one numbered line each. |
| Cafard.InsertDesc | cogs/cafard.py:60 | One insertion step of the sort adds exactly one item, and nothing else (length and multiset). |
| Cafard.InsertDescStable | cogs/cafard.py:60 | Inserting into a sorted list puts the item after every item with its score, so items tied with it keep their order. |
| Cafard.SortDesc | cogs/cafard.py:60 | The sort is a permutation of the items. Its stability is in SortDescStable. |
| Cafard.SortDescStable | cogs/cafard.py:60 | `sorted` is stable: for every score, the items with that score appear in the ranking in their input order, which is the key order of `points`. |
| Cafard.SortDescSorted | cogs/cafard.py:60 | The sort is non-increasing in points. |
| Cafard.TopTen | cogs/cafard.py:60 | The top has at most ten items drawn from the items, is non-increasing, and no item left out has more points than one shown. |
| Cafard.TopTies | cogs/cafard.py:60 | Ties at the cut go by input order: for every score, the users shown with it are the first ones with it in the key order of `points`. |
| Cafard.Top | cogs/cafard.py:60 | The top n has n items, or all of them when there are fewer. |
| Cafard.TopEntries | cogs/cafard.py:60-63 | Every ranked pair is a user with their current points. |
| Cafard.ItemsOf | cogs/cafard.py:60 | `points.items()` lists each key with its points, in key order. |
| Cafard.RankLines | cogs/cafard.py:63-70 | There is one line per ranked user. |
| Cafard.RenderRanking | cogs/cafard.py:61-70 | The loop returns the numbered line of each ranked user, in ranking order. |
| Cafard.QuizView.constructor | cogs/cafard.py:173-177 | The view keeps the user and the list and starts at index 0. |
| Cafard.QuizView.Answer | cogs/cafard.py:182-200 | As written: the vote is recorded, +1 iff correct. The index advances by one except when the cafard has no answer (the `KeyError` comes before the move), and the quiz is finished iff the index reaches the list's length. |
| Cafard.QuizView.AnswerOnce | cogs/cafard.py:182-200 | Corrected: the same index rule, but an already-voted cafard is skipped without a vote or a point, so points stay equal to right answers. |
| Cafard.QuizRescores | cogs/cafard.py:182-188 | One user with one right vote ends with 2 points under the as-written quiz answer. |

## Left out

- The Discord API is reduced to state: the guild's channels, channel histories, embeds and the global message counter. This leaves out:
  - permissions, ephemeral replies and the wording of reply messages;
  - embed titles, colours, thumbnails and footers;
  - `fetch_user`, whose result is a parameter;
  - the UI timeouts and the views' `interaction_check`, which only the view's own user passes.
- The cogs' `__init__`, `cog_load` and `setup`, `_db_init`, connections, PRAGMAs and transactions are not modelled. Tables are maps, and each SQL statement is one atomic map update.
- The clock is a `now` parameter. The movement time stamp, which is an ISO string in the source, uses the same parameter.
- `uuid4` is a fresh-id oracle: `Validate` takes `freshId` with `freshId !in cafards`.
- Floating point is left out:
  - amounts and rates are exact reals;
  - Python's shortest-`repr` digits are assumed to be the digits of the `Dec` that was parsed;
  - `round` and `format` round half-even on the exact value, so binary-rounding cases where the float sits to one side of a decimal tie are not modelled.
- The 64-bit limit of SQLite `INTEGER` and of the Discord ids is not modelled. Integers are unbounded.
- Concurrency is left out. Interleaved commands and the `await` points between the reads and writes of one command are not modelled; each command runs to completion.
- `_is_admin_member` and the role lookup are left out: whether a member is an admin is a boolean parameter.
- Journal.TagRoundTrip, Journal.PostTag, Journal.PostEntry, Ledger.PostAppendsEntry: they assume an id of at least 10000, because `\d{5,}` in the tag pattern cannot read a shorter one. Discord ids are far longer; for a shorter id the tag is not found and the entry would come from the human sentence alone, which is not stated.
- Journal.HumanTextNoTag: it gives a sufficient condition on the display name (no `[[`, no leading `[`), not an exact one; `Journal.SpoofedName` shows a name that does bring its own tag.
- Journal.PostEntry: it does not state which name the entry gets. When an amount is 1000 or more, the human sentence shows spaces inside it (`1 234,00`). The human pattern cannot read that, so the entry is then named `ID:<id>` rather than by its display name.
- Journal.MatchTag and Journal.MatchHuman: `\d` is modelled as the ASCII digits. Python's `re` on `str` also matches the other Unicode decimal digits, which `int` and `float` accept too. `/data` never writes them, but a message typed by another bot could hold them.
- Journal.MatchHuman: `\w` is approximated as ASCII letters and digits, `_`, and the letters of the Latin-1 and Latin Extended-A/B blocks. Case-insensitive matching is modelled for ASCII letters and `é`/`É`.
- Decimal.ParseDecimal and Ledger.DataCog.Data: Python's `float` also accepts `inf`, `infinity` and `nan` in any case and with a sign, underscores between digits (`100_000`), and non-ASCII decimal digits. The model refuses all of them. In the source, `inf` and `nan` pass the `<= 0` check, since `nan` compares false, and are posted as `inf`/`nan`; no pattern reads them back, so the journal gains a message but no entry. `100_000` is recorded as 100000.
- Decimal.ParseFloat: only finite decimal literals are modelled (see the line above).
- Ledger.DataCog.Data: it posts the positional `TagText` where cogs/data.py:315 writes Python's `repr` of the two floats. The `repr` form is modelled as `Journal.ReprTagText`, and `Journal.ReprTagUnreadable` shows that the tag pattern cannot read it back for small amounts (see Findings).
- Cafard.CafardState.Classement: the ranked users' name lookup is a map parameter. A failed lookup is modelled as a missing key.
- Cafard.CafardState.RecordVote: a cafard validated without an answer makes the source raise `KeyError` after the vote is stored. The model returns `Failed` with the vote kept, and `QuizView.Answer` then keeps its index, as the exception leaves it. This happens after a second `/cafard` replaces a draft whose validation view is still open.

## Findings

| source | as written | input that shows it | evidently intended | confidence | as-written member | corrected member |
|---|---|---|---|---|---|---|
| cogs/data.py:315 | The tag holds Python's `repr` of the parsed floats, which switches to exponent notation below 1e-4 (and from 1e16 on). The tag pattern at lines 42-45 accepts no exponent, so such a tag is not read back, and the human sentence decides alone. For `0,00001` it shows the amount as `0,00`, so the entry is read with amount 0 and no admin id: mis-valued, not lost. From 1e16 on the shown amount has spaces inside it, which the human pattern cannot read, so the entry is dropped. | `/data` with montant `0,00001`: the tag is `[[DATA\|achat\|1e-05\|3.8\|<id>]]`, and `RE_TAG` finds nothing in it. | The tag holds a positional decimal that the tag pattern reads back with the same value. | not executed | Journal.ReprTagUnreadable | Journal.TagRoundTrip |
| cogs/cafard.py:182-188 | The quiz answer stores the vote and adds the point without checking `votes`. A cafard is in a quiz list only if unvoted when `/quiz` was opened, so it can be answered again later. | User 7 opens `/quiz` on cafard 1, votes right on its poll, then answers it right in the quiz: 2 points for 1 right answer. | One point per cafard per user, as the poll's own "vote once" check enforces (lines 149-152). | not executed | Cafard.QuizRescores | Cafard.QuizView.AnswerOnce |
