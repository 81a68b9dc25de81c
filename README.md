# Verified model of the Telegram `/cari` search bot

The bot relays a `/cari <words>` chat command to SerpApi's Google search and
answers with the top results. It has two pieces of logic. This project models
both and proves their behaviour:

- **Query extraction** (`cari_command`): the argument tokens are joined with
  single spaces. An empty query gets the usage hint, and no search is made.
  Otherwise the joined string is the search query. See module `CariCommand`.
- **Reply formatting** (`jalankan_pencarian_serpapi`, after the network call):
  the search outcome becomes one reply string. An `error` key wins. Otherwise,
  an `organic_results` key gives a header line and then the first five results,
  each as link, bold title, italic snippet and a blank line, with `N/A` for a
  missing field. Otherwise the reply is a fixed "no results" message. Any
  exception gives a fixed internal-error message. See module `SearchAdapter`.
  `FormatReply` is the loop the source runs. It is proved equal to the
  specification function `Reply`, and the properties are proved about `Reply`.

The SerpApi call is not modelled. Its result is an input, `Outcome`: either a
`Fetched` response holding the two keys the formatter reads, or a `Fault` for
an exception raised by the call. `Text` holds Python's `" ".join` and
`str.split` as functions. `CariCommand.CariReply` composes the guard with the
formatter. `Scenarios` works one request through end to end, from the argument
tokens to the reply.

The code checks whether the `organic_results` key is present, not whether the
list is non-empty. An empty list therefore yields the header alone, not the
"no results" message. The model follows the code
(`SearchAdapter.EmptyResultsGiveHeaderOnly`). The file caps the entries at
five, and the model does the same.

## Model

| member | source | states |
|---|---|---|
| `Wrappers.Option.GetOr` | bot.py:44-46 | a present field gives its value; an absent one gives the default |
| `Text.JoinWithSpaces` | bot.py:69 | joining no tokens gives `""`; one token gives that token; otherwise the length is the tokens' total length plus one space between each pair |
| `Text.SplitJoinRoundTrip` | bot.py:69 | for a non-empty token list in which no token holds a space, splitting the joined query on spaces gives back the tokens |
| `CariCommand.JoinEmptyIff` | bot.py:69-70 | the joined query is empty exactly when the arguments are `[]` or `[""]` |
| `CariCommand.ParseCari` | bot.py:69-72 | the handler gives the usage hint and does not search exactly when the arguments are `[]` or `[""]`; otherwise it searches for the space-joined tokens, a non-empty query |
| `CariCommand.SearchKeepsTokens` | bot.py:69-72 | the searched query splits back into the argument tokens when none holds a space |
| `CariCommand.ReplyIsNotUsageHint` | bot.py:38-56 | no search reply (error, results, no results or fault) equals the usage hint |
| `CariCommand.CariReply` | bot.py:69-76 | the final reply is the usage hint exactly when the arguments are `[]` or `[""]`, and otherwise the search reply for the space-joined tokens |
| `SearchAdapter.Take` | bot.py:43 | the slice `[:5]` is the first `min(5, n)` results in order |
| `SearchAdapter.Header` | bot.py:42 | the header is the fixed opening `"🔍 *Hasil Pencarian untuk: "`, the query verbatim, then `"*\n\n"` |
| `SearchAdapter.RenderEntry` | bot.py:44-49 | an entry is `link + "\n*" + title + "*\n_" + snippet + "_\n\n"`, with `"N/A"` for each missing field |
| `SearchAdapter.AppendsMakeEntry` | bot.py:47-49 | the three appends of one loop pass add exactly one entry |
| `SearchAdapter.RenderAll` | bot.py:42-50 | the text the loop adds after the header is the concatenation, in order, of the rendered results |
| `SearchAdapter.EntryTexts` | bot.py:43-49 | there is one rendered entry per result, at the same position |
| `SearchAdapter.Reply` | bot.py:38-56 | the reply on every path (upstream error, results, no results, fault) is non-empty |
| `SearchAdapter.FormatReply` | bot.py:38-56 | the loop that appends three lines per result returns exactly the specified reply |
| `SearchAdapter.ErrorTakesPrecedence` | bot.py:38-39 | an `error` key gives `"Maaf, terjadi kesalahan dari SerpApi: " + error`, whether or not results are present |
| `SearchAdapter.ResultsOpenWithHeader` | bot.py:41-42 | with no error and an `organic_results` key, the reply starts with `"🔍 *Hasil Pencarian untuk: " + query + "*\n\n"` |
| `SearchAdapter.ListsFirstEntriesInOrder` | bot.py:41-50 | the reply is the header followed by exactly `min(5, n)` entries, the i-th being the i-th result rendered |
| `SearchAdapter.EntryLines` | bot.py:47-49 | when no field holds a line break, an entry reads back line by line as the link, the bold title, the italic snippet and a blank line |
| `SearchAdapter.ExtraResultsIgnored` | bot.py:43 | results after the fifth do not change the reply |
| `SearchAdapter.OneMoreResultAppendsEntry` | bot.py:43-50 | below the cap, one more result appends exactly its entry to the reply |
| `SearchAdapter.EmptyResultsGiveHeaderOnly` | bot.py:41-52 | an empty `organic_results` list gives the header alone, which differs from the "no results" message |
| `SearchAdapter.NoKeysGiveNoResults` | bot.py:52 | with neither key, the reply is exactly `"Maaf, tidak ada hasil yang ditemukan."` |
| `SearchAdapter.FaultsGiveInternalError` | bot.py:54-56 | any fault gives exactly `"Terjadi kesalahan internal saat mencoba mencari. Coba lagi nanti."`, whatever the fault's detail or the query |
| `Scenarios.NasiGorengQuery` | bot.py:69-72 | `/cari nasi goreng` searches for `"nasi goreng"` |
| `Scenarios.NasiGorengReply` | bot.py:41-50 | from the tokens `["nasi", "goreng"]` and two results, the reply is the header for "nasi goreng" followed by both entries, in response order |

## Left out

- The SerpApi request (`GoogleSearch(params).get_dict()` and its fixed locale parameters, bot.py:24-36): this is a foreign network call. Only its outcome is modelled, as a response or a fault.
- Logging (bot.py:15-18, 55): a side effect with no behaviour to verify. The fault path's log line is not modelled.
- The Telegram sends (`reply_text`, `reply_html`), the acknowledgement message, the `/start` greeting built with the library's `mention_html`, and the Markdown and link-preview flags (bot.py:60-65, 71, 74-76): transport I/O and async code. Which text the final reply carries, the usage hint or the search reply, is modelled by `CariCommand.CariReply`.
- `main` and the environment-variable configuration (bot.py:11-12, 80-94): startup, polling and the process lifecycle.
- Response values are modelled as strings. Python's f-string would print any JSON value, for example a number as `error` or a `null` field as `None`. A key present with value `null` is not distinguished from a string value.
- Malformed responses (such as `organic_results` that is not a list, or a result that is not an object) raise inside the `try` block. They are covered only as a `Fault` outcome, not as separate inputs.
