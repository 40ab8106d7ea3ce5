# Health-check demo server, modelled in Dafny

A model of the request handling of the reliability lab's demo web server
(`Reliability/300_Health_Checks_and_Dependencies/Code/Python/server_with_healthcheck.py`):
a page at `/` that depends on a recommendation lookup in a DynamoDB table and
degrades gracefully when it fails, a `/healthcheck` page that always succeeds
without touching that dependency, and the start-up loop over command-line
options.

The model is one Dafny module per concern:

- `Wrappers` (`wrappers.dfy`): `Option` and `Result`.
- `Text` (`text.dfy`): substring containment, prefixes and suffixes, Python's
  `str.join`, and `str(n)` with a decimal reader as its inverse.
- `Template` (`template.dfy`): Python's `str.format` for templates made of
  literal text, `{{`/`}}` escapes and `{name}` keyword fields.
- `Page` (`page.dfy`): the literal page template with its `{Message}`,
  `{Content}` and `{Link}` fields, its literal filling `Fill`, and
  `recommendation_message` with its tag line.
- `Handler` (`handler.dfy`): `do_GET`. The specification function `Respond`
  gives the answer to a GET as a value: the store lookups made and the
  response written (status, content type, body), or no response. The method
  `HandleGet` builds the root page's content step by step with `+=` as the
  source does and is proved equal to `Respond`.
- `Startup` (`startup.dfy`): the `for opt, arg in opts` loop of `run`.
  `Configure` is the loop as a left fold. The method `ProcessOptions` is proved
  equal to it. The lemmas state which option wins and where the loop stops.

Inputs that come from outside the process are parameters:

- the instance metadata is an `Option<Metadata>`;
- the user id drawn by `random.randint(1, 4)` is an `int` with `1 <= userId <= 4`;
- the DynamoDB table is a total function from a `GetItemRequest` to a
  `GetItemOutcome`: a response with or without an `Item`, or a raised
  exception with its formatted text;
- the region reported by the instance is an `Option<string>`;
- Python's `int` on a port argument is a function `string -> Option<int>`,
  where None is the ValueError.

A `KeyError` from a missing `Item`, `Result`, `UserName` or `S` key is
rendered as Python shows `str(traceback.format_exception_only(...))` for it,
e.g. `["KeyError: 'Item'\n"]`.

The model follows the code in three details:

- the no-metadata text is "Running outside AWS";
- the built recommendation text goes into the `Content` slot, and `Message`
  is the fixed "Data from the metadata API";
- the link is the relative "healthcheck", not `/healthcheck`.

Some rows below name a function that only defines a value (it carries no
contract of its own); the lemmas named in its row state its properties.

## Model

| member | source | states |
|---|---|---|
| `Page.TagLine` | Reliability/300_Health_Checks_and_Dependencies/Code/Python/server_with_healthcheck.py:123-126 | the tag line is "your recommendation is" exactly when the recommendation is custom, and "everyone enjoys this classic" exactly when it is not |
| `Page.RecommendationMessage` | Reliability/300_Health_Checks_and_Dependencies/Code/Python/server_with_healthcheck.py:122-130 | the table is 70 characters of markup plus the user name, the tag line and the show title |
| `Page.RecommendationMessageCells` | Reliability/300_Health_Checks_and_Dependencies/Code/Python/server_with_healthcheck.py:127-129 | the table starts with the first cell (bold user name, comma, tag line, colon) and ends with the second cell (bold show title) and the table close; with the length, the two cells are the whole table |
| `Page.RecommendationMessageShows` | Reliability/300_Health_Checks_and_Dependencies/Code/Python/server_with_healthcheck.py:127-130 | the table contains the user name, the show title and the tag line |
| `Page.RecommendationMessageShowsFlag` | Reliability/300_Health_Checks_and_Dependencies/Code/Python/server_with_healthcheck.py:123-130 | for the same user and show, the personalised and the classic tables differ |
| `Page.Fill` | Reliability/300_Health_Checks_and_Dependencies/Code/Python/server_with_healthcheck.py:14-27 | defines the page with its three slots filled literally (`HtmlTemplate` is the template text with `{Message}`, `{Content}` and `{Link}` between the same pieces); `Page.HtmlFormatFills`, `Page.FillShowsSlots` and `Page.FillDeterminesContent` state its properties |
| `Page.HtmlFormatFills` | Reliability/300_Health_Checks_and_Dependencies/Code/Python/server_with_healthcheck.py:14-27 | formatting the template with keyword arguments Content, Message and Link never fails and gives prefix, message, middle text, content, middle text, link, suffix |
| `Page.FillShowsSlots` | Reliability/300_Health_Checks_and_Dependencies/Code/Python/server_with_healthcheck.py:23-25 | the filled page contains the message, the content and the link |
| `Page.FillDeterminesContent` | Reliability/300_Health_Checks_and_Dependencies/Code/Python/server_with_healthcheck.py:24 | with message and link fixed, two equal pages have equal content |
| `Template.Format` | Reliability/300_Health_Checks_and_Dependencies/Code/Python/server_with_healthcheck.py:104 | defines `str.format` with keyword arguments on literal text, `{{`/`}}` escapes and plain `{name}` fields, None where Python raises; `Template.FormatLiteral`, `Template.FormatField` and `Template.FormatNotPlain` state its properties |
| `Template.FormatLiteral` | Reliability/300_Health_Checks_and_Dependencies/Code/Python/server_with_healthcheck.py:104 | `format` copies text without braces unchanged |
| `Template.FormatField` | Reliability/300_Health_Checks_and_Dependencies/Code/Python/server_with_healthcheck.py:104 | `format` replaces a `{name}` field whose name is plain (non-empty, no `.`, `[`, `!` or `:`, not all digits) and a keyword argument by that argument |
| `Template.FormatNotPlain` | Reliability/300_Health_Checks_and_Dependencies/Code/Python/server_with_healthcheck.py:104 | a field whose name is not plain (a conversion, format specification, attribute or index access, or a positional index) is not filled from the keyword arguments |
| `Text.Join` | Reliability/300_Health_Checks_and_Dependencies/Code/Python/server_with_healthcheck.py:51 | defines `sep.join(parts)`; `Text.JoinSnoc` and `Handler.MetadataBlockSpelledOut` state its properties |
| `Text.JoinSnoc` | Reliability/300_Health_Checks_and_Dependencies/Code/Python/server_with_healthcheck.py:51 | joining one more part appends the separator and that part |
| `Text.Decimal` | Reliability/300_Health_Checks_and_Dependencies/Code/Python/server_with_healthcheck.py:61 | `str(n)` is a non-empty string of decimal digits, one digit exactly when n < 10 |
| `Text.ParseDecimalOfDecimal` | Reliability/300_Health_Checks_and_Dependencies/Code/Python/server_with_healthcheck.py:61 | reading `str(n)` back as a decimal number gives n |
| `Handler.MetadataParts` | Reliability/300_Health_Checks_and_Dependencies/Code/Python/server_with_healthcheck.py:42-50 | defines the seven `name: value` strings of the metadata; `Handler.MetadataBlockSpelledOut` states them in order |
| `Handler.MetadataBlock` | Reliability/300_Health_Checks_and_Dependencies/Code/Python/server_with_healthcheck.py:41-53 | defines the metadata block: the parts joined by `<br>`, or "Running outside AWS" without metadata; `Handler.MetadataBlockSpelledOut` and `Handler.RootContentOpening` state its properties |
| `Handler.KeyErrorText` | Reliability/300_Health_Checks_and_Dependencies/Code/Python/server_with_healthcheck.py:94 | defines the text `str(traceback.format_exception_only(...))` gives for a `KeyError`; `Handler.ExtractRecommendation` states which keys give it |
| `Handler.RootContent` | Reliability/300_Health_Checks_and_Dependencies/Code/Python/server_with_healthcheck.py:41-94 | defines the content of the root page from the metadata and the lookup outcome; `Handler.RootContentOpening`, `Handler.RootPersonalised`, `Handler.FallbackContent` and `Handler.HandleGet` state its properties |
| `Handler.RecommendationRequest` | Reliability/300_Health_Checks_and_Dependencies/Code/Python/server_with_healthcheck.py:61-76 | the lookup goes to table "serviceCallMocks" with exactly the keys ServiceAPI = string "getRecommendation" and UserID = number, whose text is one of "1".."4" and reads back as the drawn id |
| `Handler.ExtractRecommendation` | Reliability/300_Health_Checks_and_Dependencies/Code/Python/server_with_healthcheck.py:83-84 | success exactly when the item exists with string `Result` and `UserName`, giving those two values; a raised exception keeps its text; a missing item gives the KeyError for "Item"; any missing key gives one of the four KeyErrors |
| `Handler.MetadataBlockSpelledOut` | Reliability/300_Health_Checks_and_Dependencies/Code/Python/server_with_healthcheck.py:42-51 | with metadata, the block is the seven `name: value` lines in source order separated by `<br>` |
| `Handler.RootContentOpening` | Reliability/300_Health_Checks_and_Dependencies/Code/Python/server_with_healthcheck.py:41-55 | the root content starts with the metadata block and the "What to watch next" heading, and with exactly "Running outside AWS" and the heading when metadata is unavailable, whatever the lookup gave |
| `Handler.RootPersonalised` | Reliability/300_Health_Checks_and_Dependencies/Code/Python/server_with_healthcheck.py:83-85 | after a successful lookup the content is the opening then `<br>` and the personalised table, it ends with that, and the page contains the user name, the show and "your recommendation is" |
| `Handler.FallbackContent` | Reliability/300_Health_Checks_and_Dependencies/Code/Python/server_with_healthcheck.py:89-94 | after any failed lookup (exception or missing key) the content is the opening, the classic table for "Valued Customer" and "I Love Lucy", the three diagnostic lines and the error text, and it ends with the error text |
| `Handler.RootFallback` | Reliability/300_Health_Checks_and_Dependencies/Code/Python/server_with_healthcheck.py:89-101 | a failed lookup still answers 200, and the page contains "Valued Customer", "I Love Lucy", "everyone enjoys this classic", "Diagnostic Info:" and the error text |
| `Handler.RootPage` | Reliability/300_Health_Checks_and_Dependencies/Code/Python/server_with_healthcheck.py:96-107 | `/` makes exactly one lookup, for the drawn user, and answers 200 with the template formatted with the built content, the fixed message and the link "healthcheck"; the page contains the content |
| `Handler.HealthcheckIgnoresDependency` | Reliability/300_Health_Checks_and_Dependencies/Code/Python/server_with_healthcheck.py:110-117 | `/healthcheck` makes no lookup and answers 200 text/html with the fixed success page, the same for every metadata, user id and store |
| `Handler.Respond` | Reliability/300_Health_Checks_and_Dependencies/Code/Python/server_with_healthcheck.py:35-119 | there is a response exactly for `/` and `/healthcheck`; every response is 200 text/html; a lookup is made only for `/` |
| `Handler.HandleGet` | Reliability/300_Health_Checks_and_Dependencies/Code/Python/server_with_healthcheck.py:35-119 | building the content with successive appends and formatting the template gives exactly the lookups and the response of `Respond` |
| `Startup.InitialRegion` | Reliability/300_Health_Checks_and_Dependencies/Code/Python/server_with_healthcheck.py:151-154 | the starting region is the detected one, else "us-east-2" |
| `Startup.ApplyOption` | Reliability/300_Health_Checks_and_Dependencies/Code/Python/server_with_healthcheck.py:156-163 | defines one pass of the option loop; `Startup.IgnoredOption`, `Startup.ConfigureStopsAt` and `Startup.ConfigureServes` state its properties |
| `Startup.Configure` | Reliability/300_Health_Checks_and_Dependencies/Code/Python/server_with_healthcheck.py:156-163 | defines the option loop as a left fold from port 80 and the starting region; `Startup.ConfigureServes`, `Startup.ConfigureStopsAt`, `Startup.StoppedStays` and `Startup.IgnoredOption` state its properties, and `Startup.ProcessOptions` is proved equal to it |
| `Startup.ConfigureServes` | Reliability/300_Health_Checks_and_Dependencies/Code/Python/server_with_healthcheck.py:150-163 | with no `-h` and no bad port argument the loop serves; the port is that of the last `-p`, or 80 without one; the region is that of the last `-r`, or the starting region without one |
| `Startup.ConfigureStopsAt` | Reliability/300_Health_Checks_and_Dependencies/Code/Python/server_with_healthcheck.py:156-161 | the first option that stops the loop decides its end: exit for `-h`, the ValueError for a port argument `int` rejects |
| `Startup.StoppedStays` | Reliability/300_Health_Checks_and_Dependencies/Code/Python/server_with_healthcheck.py:157-159 | once the loop has stopped, later options change nothing |
| `Startup.IgnoredOption` | Reliability/300_Health_Checks_and_Dependencies/Code/Python/server_with_healthcheck.py:156-163 | an option other than `-h`, the port options and the region options leaves the outcome unchanged |
| `Startup.ProcessOptions` | Reliability/300_Health_Checks_and_Dependencies/Code/Python/server_with_healthcheck.py:149-163 | the loop, returning early on exit or a bad port, ends exactly as the fold `Configure` says |

## Left out

- The HTTP server: `HTTPServer`, `serve_forever`, request parsing, and the extra headers `send_response` adds. The response is a value, not socket output; its UTF-8 encoding by `bytes(..., "utf-8")` is not modelled.
- The `print` calls (the request path, the parsed options, start-up messages).
- Instance metadata access: any attribute that fails makes the whole group unavailable, modelled as `None`. `%s` formatting of a non-string attribute is not modelled; the values are strings.
- `random.randint`: the drawn id is a parameter, confined to 1..4 by precondition.
- `boto3.client` and the server start at lines 165-174: network and process set-up.
- `get_item` itself: its answer is the store function's value. The text of an exception it raises is an opaque string.
- `getopt` parsing (lines 134-146), including its usage exit with status 2. Two facts about it stay outside the model. The long-option list lacks a comma, so it reads `["helpserver_port=", "region="]` and `--server_port` is never produced; the loop still tests for it, as the model does. The short options `"h:p:r:"` make `-h` take an argument.
- Python's `int` on the port argument is a parameter. The model does not say which strings it accepts.
- `Template.Format`: conversions (`!r`), format specifications (`:`), attribute and index access inside a field, and positional fields are not modelled; a field using any of them gives None, although Python may fill it or raise a different error. The page template uses none of them.
- The claim that a successful page never shows the fallback title unless the lookup returned it: not proved, because the metadata values may contain any text.
- The health check does not test the dependency and never answers 503; this is the source's behaviour (a to-do comment there), and the model keeps it.
- Concurrency between requests: the handler shares no mutable state, so nothing is lost.
