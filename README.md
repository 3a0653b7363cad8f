# Confession relay to Telegram, modelled in Dafny

The system is a single serverless HTTP endpoint, `api/send.js`. It accepts a
"confession" form (receiver, message, optional sender, optional source). It
validates and normalises the fields, formats them as a Telegram MarkdownV2
message, and posts that message to the Bot API's `sendMessage`. It answers its
caller with a status and a JSON body that follow Telegram's answer.

The model has five modules:

- `Markdown` (`markdown.dfy`) models `escapeMarkdown`: nineteen chained
  `replaceAll` calls, written as a fold of `ReplaceAll` over the order in
  which the calls appear. The chain is proved equal to a per-character map.
  Length, order preservation, a round trip through `Unescape`, and
  injectivity follow from that.
- `Fields` (`fields.dfy`) models `value.slice(0, limit).trim()`. `Trim` is
  characterised as the unique way to take whitespace runs off both ends.
- `MarkdownV2` (`markdownv2.dfy`) models the part of Telegram's MarkdownV2
  parser that the message uses: `*` bold, `_` italic, backslash escapes, and
  the refusal of other reserved characters left bare. It is the partner
  against which the message text is judged.
- `Message` (`message.dfy`) models the six-line text. It holds the template
  as written and the corrected template described under "Findings".
- `Handler` (`handler.dfy`) models the request handler:
  - `Plan` is the fail-fast checks and the outbound call they lead to.
  - `Finish` maps Telegram's answer to a reply.
  - `Handle` is the whole decision.
  - `Serve` is the handler in its own imperative form, with a response
    object (`ServerResponse`) and a Telegram client object (`TelegramClient`).

  `Plan`, `Handle` and `Serve` take a `Template`. `AsWritten` posts the text the handler
  builds on line 40, which MarkdownV2 cannot parse. `Corrected` posts the same
  text with its metadata line fixed. Nothing else differs between the two.

Two details of the code matter for the properties below:

- Each field is cut to its limit first and trimmed afterwards.
- The metadata line writes `(` and `)` bare, inserts the timestamp unescaped,
  and never closes the italic it opens. See "Findings".

## Model

| member | source | states |
|---|---|---|
| Markdown.ReplaceAll | api/send.js:76 | a `replaceAll` whose pattern is absent changes nothing; the pattern cannot be produced when the replacement lacks it |
| Markdown.EscapeMarkdown | api/send.js:74-94 | no contract of its own: the nineteen `replaceAll` calls as a fold of `ReplaceAll` in source order; its properties are carried by `EscapeMarkdownIsEscape` and the lemmas below it |
| Markdown.ReplaceChainIsEscapeOnly | api/send.js:75-94 | applying the remaining `replaceAll` calls to text in which the earlier characters are already escaped escapes them all; needs the order to be safe, i.e. no later call targets a character an earlier one inserted |
| Markdown.EscapeMarkdownIsEscape | api/send.js:74-94 | the whole chain equals the per-character map: a backslash before each of the nineteen reserved characters, everything else unchanged |
| Markdown.EscapeLength | api/send.js:75-94 | the escaped text is exactly one character longer per reserved character of the input |
| Markdown.EscapePlainIsIdentity | api/send.js:75-94 | text with no reserved character is returned unchanged |
| Markdown.EscapeKeepsPlainPart | api/send.js:75-94 | the non-reserved characters come out unchanged and in their original order |
| Markdown.EscapeIsWellEscaped | api/send.js:75-94 | every escaped text is literal MarkdownV2: plain characters and backslash-escaped reserved ones only |
| Markdown.UnescapeEscape | api/send.js:75-94 | dropping the backslash before each reserved character recovers the input exactly |
| Markdown.EscapeUnescape | api/send.js:75-94 | conversely, every literal text is the escape of its unescaping |
| Markdown.EscapeInjective | api/send.js:75-94 | two different inputs never escape to the same text |
| Markdown.EscapeStartsPlainOrBackslash | api/send.js:37 | a non-empty escaped text starts with the escaping backslash or a plain character, never with a bare `_` |
| Markdown.EscapeBackslashExample | api/send.js:76 | `a\b` escapes to `a\\b` |
| Markdown.EscapeStarExample | api/send.js:76-78 | `a*b` escapes to `a\*b` |
| MarkdownV2.ScanEscaped | api/send.js:36-39 | an escaped value leaves the open bold and italic entities exactly as they were, so a user cannot open, close or break one |
| MarkdownV2.ScanConcat | api/send.js:41 | a scan can stop after a piece it got through and resume from there, which lets the joined lines be scanned line by line |
| Fields.Slice | api/send.js:15-18 | `slice(0, limit)` keeps all of a value within the limit and exactly the first `limit` characters of a longer one |
| Fields.Trim | api/send.js:15-18 | `trim()` returns the input with whitespace runs removed from both ends, leaving neither end whitespace |
| Fields.Normalize | api/send.js:15-18 | a normalised field is at most `limit` long, has no whitespace at either end, and is the trim of the cut value |
| Fields.TrimUnique | api/send.js:15-18 | only one string is the trim of a value, so `Trim` is fully determined by its characterisation |
| Fields.TrimIdempotent | api/send.js:15-18 | trimming twice changes nothing |
| Fields.TrimEmpty | api/send.js:15-20 | a value trims to the empty string, and so counts as missing, exactly when it is all whitespace |
| Fields.NormalizeIdempotent | api/send.js:15-18 | normalising an already normalised field changes nothing |
| Fields.SliceBeforeTrim | api/send.js:15-18 | cutting happens before trimming: a value whose first `limit` characters are whitespace normalises to empty, however much text follows |
| Fields.PaddedNameIsLost | api/send.js:15 | eighty spaces before a name give an empty receiver, although trimming first would have kept the name |
| Message.Lines | api/send.js:34-40 | no contract of its own: the six lines of the text in order (title, To, From, Message label, message, metadata); `HeadLinesAccepted`, `AnonymousFromLine` and `SenderNeverShownAsAnonymous` state what they contain |
| Message.Join | api/send.js:41 | no contract of its own: `.join("\n")`, the lines with the separator between consecutive ones; `MarkdownV2.ScanConcat` and `TextAccepted` scan it line by line |
| Message.MetaLineAsWritten | api/send.js:40 | no contract of its own: the metadata line as the source writes it; `MetaAsWrittenRefused` states that MarkdownV2 refuses it |
| Message.TextAsWritten | api/send.js:34-41 | no contract of its own: the six lines with the metadata line as written, joined by newlines; `TextAsWrittenRefused` states that MarkdownV2 refuses it |
| Message.FromValue | api/send.js:37 | the "From" value is the `_Anonymous_` placeholder exactly when there is no sender or the sender is empty, and otherwise the escaped sender |
| Message.AnonymousFromLine | api/send.js:37 | without a sender, the "From" line reads `*From:* _Anonymous_` |
| Message.SenderNeverShownAsAnonymous | api/send.js:37 | with a sender, the "From" line is never the placeholder line, even for a sender named `_Anonymous_` |
| Message.HeadLinesAccepted | api/send.js:35-39 | each of the first five lines leaves no entity open, whatever the receiver, sender and message |
| Message.TextAsWrittenRefused | api/send.js:34-41 | the text as written is refused by the MarkdownV2 parser for every submission and timestamp |
| Message.MetaAsWrittenRefused | api/send.js:40 | the metadata line as written is refused: its `(` is a reserved character left bare |
| Message.TextAccepted | api/send.js:34-41 | the corrected text is accepted for every submission and every timestamp |
| Handler.OrEmpty | api/send.js:15-16 | `(v \|\| '')` is the value when it is a non-empty string and the empty string otherwise |
| Handler.Normalized | api/send.js:15-18 | each field is within its limit (80, 2000, 60, 100) and trimmed; the sender is null exactly when the body's sender is absent or empty |
| Handler.NormalizedFieldwise | api/send.js:15-18 | receiver, message and source are `(v \|\| '')` cut to the limit and trimmed; a truthy sender is its value cut and trimmed |
| Handler.SendMessageUrl | api/send.js:43 | no contract of its own: the Bot API `sendMessage` URL for the token; `Plan` states that the outbound call goes there |
| Handler.Plan | api/send.js:3-49 | 405 for a non-POST request, 400 for a missing or non-object body, 400 for an empty receiver or message, 500 for a missing token or chat id; an outbound call exactly when the input is valid and the server configured, to the bot's `sendMessage` URL, carrying the chat id, `MarkdownV2` and the text the template builds from the normalised submission |
| Handler.ErrorText | api/send.js:61 | the 502 error is Telegram's description when it is a non-empty string, otherwise `Telegram API error` |
| Handler.Finish | api/send.js:57-70 | 200 with Telegram's result exactly when the HTTP answer and its `ok` flag are both good; 502 with `error` from `ErrorText` and Telegram's JSON under `tg` when either is bad; 500 `Internal server error` when no answer could be read |
| Handler.Handle | api/send.js:3-70 | the reply is always one of 200, 400, 405, 500 and 502, and 200 only for a valid request to a configured server |
| Handler.MethodRefusedFirst | api/send.js:3-6 | any method but POST gets 405 `Method not allowed`, whatever the body, the configuration or Telegram |
| Handler.InvalidInputRefused | api/send.js:11-23 | a POST with invalid input gets 400: `Invalid body` when the body is not an object, otherwise `Both receiver and message are required` |
| Handler.ConfigCheckedAfterInput | api/send.js:20-31 | an invalid request gets the same reply whatever the token and chat id, and never the configuration error |
| Handler.NoCallUnlessValid | api/send.js:3-51 | no outbound call is made unless the input is valid and the server configured, and such replies do not depend on Telegram |
| Handler.ValidRequestForwarded | api/send.js:51-66 | a request that passes every check gets the reply Telegram's answer maps to |
| Handler.TemplateOnlyChangesText | api/send.js:3-49 | the template as written and the corrected one make the same decisions and the same call; only the posted text differs |
| Handler.AnonymousWithoutSender | api/send.js:17 | with an absent, empty or whitespace-only sender, the posted text's "From" line is `*From:* _Anonymous_` |
| Handler.SenderNeverAnonymous | api/send.js:17 | with a sender that is non-empty after normalisation, the posted "From" line is never the placeholder |
| Handler.PostedTextAccepted | api/send.js:34-48 | the text posted with `parse_mode: MarkdownV2` is accepted by the parser exactly when the metadata line is corrected: never as written, always corrected |
| Handler.AsWrittenNeverDelivers | api/send.js:40 | as written, every valid request to a configured server ends in 502 when Telegram answers unparsable text with `ok: false` |
| Handler.CorrectedCanDeliver | api/send.js:34-66 | with the corrected line, that same Telegram may answer `ok: true`, and the reply is then 200 with Telegram's result |
| Handler.ServerResponse.Send | api/send.js:4-69 | `res.status(code).json(payload)`: the response then holds exactly that status and that body |
| Handler.TelegramClient.SendMessage | api/send.js:51-57 | one `sendMessage` call is recorded, and its outcome is returned |
| Handler.Answer | api/send.js:57-70 | the response written is the reply `Finish` gives for Telegram's answer |
| Handler.Forward | api/send.js:51-66 | exactly one call is posted, and the response written is the reply `Finish` gives for its outcome |
| Handler.Deliver | api/send.js:34-66 | past every check, exactly the call `Plan` gives is posted and the response written is the reply `Handle` gives |
| Handler.Serve | api/send.js:3-66 | the handler writes the reply `Handle` gives and posts exactly once when `Plan` calls for it, never otherwise; with `AsWritten` this is the handler as the source has it |

## Left out

- The network: `fetch`, the request headers, `JSON.stringify` and `resp.json()` are not modelled. Telegram's answer is an input (`Upstream`), and the URL is built only as a string.
- `new Date().toLocaleString()` is a clock and locale call; the timestamp is an opaque string parameter.
- `process.env` reads are not modelled; the token and chat id are the optional strings of `Config`.
- `console.error` and the catch-all handler are left out. Every fault it catches is one `TransportFailure` that maps to 500: `fetch` rejecting, `resp.json()` failing, or a `null` answer. An answer that is a number, string, boolean or array has no `ok` flag and gets 502 `Telegram API error`; here it is `Response(_, TelegramAnswer(false, None, None))`.
- `.toString()` on non-string field values and the truthiness of non-strings such as `0` and `false` are not modelled. Fields are optional strings, and absent and empty count as falsy.
- JavaScript strings are UTF-16 code units; here a string is a sequence of Dafny characters, so `slice` limits count characters, not code units.
- `trim` uses the ECMAScript WhiteSpace and LineTerminator characters, written out as a fixed set.
- `escapeMarkdown`'s default argument `text = ''` is never used by the handler, which always passes a string.
- MarkdownV2.Scan covers bold, italic, backslash escapes and the refusal of bare reserved characters. It does not cover links, code, strikethrough, spoilers, quotes or `__` underline, none of which the texts contain. It also does not model Telegram's other limits, such as message length. It refuses a backslash that no ASCII character follows, which Telegram reads literally.
- Handler.Serve: the four fields are normalised through `Normalized` rather than by four separate statements.

## Findings

| source | as written | input that shows it | evidently intended | confidence | as-written member | corrected member |
|---|---|---|---|---|---|---|
| api/send.js:40 | the metadata line writes `(` and `)` bare, inserts the timestamp unescaped, and opens an italic `_` that it never closes; MarkdownV2 refuses the bare `(` and `)` and the unclosed italic, and the unescaped timestamp too wherever its format contains a reserved character such as `.`, so Telegram answers `ok: false` and the handler replies 502 to every valid request | any valid request, e.g. receiver `Ann`, message `hi`, no sender, no source | escape the parentheses and the timestamp and close the italic: `\n_meta: <source> \(<timestamp>\)_` | not executed | Message.TextAsWrittenRefused | Message.TextAccepted |
