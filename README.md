# TinyCurl response view and the GW2 item downloader, in Dafny

This project models two pieces of sequential logic from the TinyCurl HTTP wrapper.

- **The response view** (`src/ResponseAbstract.php`). This is the header callback that curl calls once per raw header line. A field line (`Name: value`) is split at its first colon and stored under its lower-cased, trimmed name. A colon-free line starting with `HTTP` is a status line: it sets `httpversion`, `statuscode` and `statustext`. Every other line is ignored, and the callback reports the whole line as consumed. The model also covers the body view with its content-type fallback, the closed dispatch of property reads (unknown names read as `false`), the copy of the header object into an array, and the refusal of a `false` curl handle.
- **The item downloader example** (`examples/GW2API/ItemMultiResponseHandler.php`).
  - The planner seeds the staging table with `INSERT IGNORE`. It then cuts the id listing into chunks of 200 and appends one request per chunk and language, chunk-major. A listing whose status is not 200 fails before anything is written.
  - The handler routes each finished response. A 200 or 206 whose language resolves to `de`, `en`, `es`, `fr` or `zh` is written into that language's column, and is requeued if the write fails. A 502 is requeued. Everything else is dropped. Each call counts one callback.

Modules:

- `PhpStrings` holds the PHP built-ins the core relies on: `explode` with a limit, `implode`, `trim` with its default character set, ASCII `strtolower`, and `intval` as a saturating 64-bit leading-digit parse.
- `Response` holds the header object, modelled as a map from property name to value. It also holds the class `ResponseAbstract`.
- `HeaderLines` holds the properties of the header callback.
- `ItemHandler` holds the staging table, modelled as a map from item id to a row of columns. It also holds the planning and routing functions, the class `ItemMultiResponseHandler` and their properties.

Curl, the database driver, JSON decoding and URL parsing are replaced by inputs:

- the transfer's `info` and header objects;
- the decoded items;
- whether the seeding batch and the bulk write succeeded;
- the `lang` query parameter of the request URL;
- the listing's status code and ids.

## Model

| member | source | states |
|---|---|---|
| `PhpStrings.Explode` | src/ResponseAbstract.php:116 | explode with a limit: at least one and at most `limit` pieces, joined by the separator they give back the input, no piece but the last holds the separator, and the last holds none unless the limit was reached |
| `PhpStrings.ExplodeAtFirst` | src/ResponseAbstract.php:116 | with limit 2 the cut is at the first separator, so the second piece may itself hold separators |
| `PhpStrings.ExplodeCutsIffSeparator` | src/ResponseAbstract.php:116-118 | explode with limit 2 yields two pieces exactly when the line holds the separator |
| `PhpStrings.TrimSurrounded` | src/ResponseAbstract.php:119 | trim removes exactly the leading and trailing run of space, tab, newline, carriage return, NUL and vertical tab |
| `PhpStrings.TrimLeftIsSuffix` | src/ResponseAbstract.php:119 | trimming the front keeps an end of the string: only leading characters are removed |
| `PhpStrings.ToLower` | src/ResponseAbstract.php:119 | strtolower keeps the length and lower-cases each ASCII capital, leaving every other character alone |
| `PhpStrings.IntVal` | src/ResponseAbstract.php:125 | intval of a string always lies in the 64-bit signed range |
| `PhpStrings.IntValOfDecimal` | src/ResponseAbstract.php:125 | intval reads back a decimal number followed by any non-digit text |
| `Response.ResponseAbstract.constructor` | src/ResponseAbstract.php:68-71 | a new response keeps its handle and starts with empty info, error and header objects |
| `Response.Open` | src/ResponseAbstract.php:62-66 | a `false` handle is refused with "no cURL handle given"; any other handle gives a fresh response with empty headers |
| `Response.ResponseAbstract.HeaderLine` | src/ResponseAbstract.php:115-130 | the callback changes only the header object, sets it to the one-line header update, and returns the line's length whatever the branch |
| `HeaderLines.ReadFieldLine` | src/ResponseAbstract.php:116-118 | a line whose first colon follows `name` is a field line with name and value on either side of that colon |
| `HeaderLines.ReadStatusLine` | src/ResponseAbstract.php:121-122 | a colon-free line starting with `HTTP` is a status line cut into three parts at its first two spaces |
| `HeaderLines.FieldLineStores` | src/ResponseAbstract.php:116-119 | a field line sets exactly one property, the lower-cased trimmed name, to the trimmed value, replacing any earlier value |
| `HeaderLines.StatusLineStores` | src/ResponseAbstract.php:121-126 | a status line sets `httpversion` to the text after the slash, `statuscode` to intval of the code and `statustext` to the trimmed reason |
| `HeaderLines.OtherLineIgnored` | src/ResponseAbstract.php:118-127 | a colon-free line not starting with `HTTP` leaves the header object unchanged |
| `HeaderLines.ApplyLineFrame` | src/ResponseAbstract.php:115-127 | one line adds only the names it writes and every other property keeps its value |
| `HeaderLines.RepeatedFieldOverwrites` | src/ResponseAbstract.php:119 | two field lines with the same stored name leave only the second value: nothing accumulates |
| `HeaderLines.LastWriteWins` | src/ResponseAbstract.php:119 | over a whole header block a field holds the trimmed value of the last line that writes its name |
| `HeaderLines.IntValStatusExample` | src/ResponseAbstract.php:125 | intval of "200" is 200 |
| `HeaderLines.StatusLineExample` | src/ResponseAbstract.php:121-126 | "HTTP/1.1 200 OK" with its CRLF gives version "1.1", code 200 and text "OK" |
| `HeaderLines.DateFieldExample` | src/ResponseAbstract.php:116-119 | "Date: 12:00:00" stores "12:00:00" under "date": the split is at the first colon only |
| `HeaderLines.StatusLineWithColonIsField` | src/ResponseAbstract.php:118-121 | the colon test comes first: a line starting with `HTTP` that holds a colon is read as a field line, writes only its field name, and stores the trimmed value there, so no status property is set |
| `HeaderLines.StatusLineAsFieldName` | src/ResponseAbstract.php:119 | so the line "HTTP/1.1 200 OK: x" is stored under the name "http/1.1 200 ok" |
| `HeaderLines.BlankLineIgnored` | src/ResponseAbstract.php:118-127 | the CRLF line that ends a header block changes nothing |
| `Response.BodyViewAsWritten` | src/ResponseAbstract.php:135-143 | getBody as written: content and its length; the content type is the header property `content_type` if set and non-null, else the transport's `content_type`, else null |
| `HeaderLines.ContentTypeHeaderMissedAsWritten` | src/ResponseAbstract.php:140 | a received "Content-Type: text/html" line is stored under `content-type`, and the body view as written still reports a null content type |
| `Response.BodyView` | src/ResponseAbstract.php:135-143 | the corrected body view: same content and length, the content type taken from the `content-type` header the callback stores, with the same fallback to the transport's value and then null |
| `HeaderLines.ContentTypeHeaderUsed` | src/ResponseAbstract.php:140 | in the corrected view a received Content-Type line (any capitalisation) decides the body's content type |
| `Response.ResponseAbstract.Get` | src/ResponseAbstract.php:77-98 | property reads are a closed dispatch: the seven names give body, info, json, json_array, error, headers and headers_array, and every other name reads `false`; `body` is getBody as written, so it reads the header property `content_type` |
| `Response.ResponseAbstract.ResponseHeadersArray` | src/ResponseAbstract.php:167-175 | the array has exactly the keys of the header object, each with the same value |
| `ItemHandler.ItemMultiResponseHandler.constructor` | examples/GW2API/ItemMultiResponseHandler.php:56-66 | a new handler has no planned URL and a callback count of 0 |
| `ItemHandler.ResolveLanguage` | examples/GW2API/ItemMultiResponseHandler.php:137-141 | the language is the content-language header when that is truthy (not unset, null, "" or "0"), otherwise the request's `lang` parameter |
| `ItemHandler.ContentLanguageHeaderResolves` | examples/GW2API/ItemMultiResponseHandler.php:141 | after the callback stored a Content-Language line with a truthy trimmed value, that trimmed value is the resolved language whatever the query says |
| `ItemHandler.ContentLanguageName` | examples/GW2API/ItemMultiResponseHandler.php:141 | the usual spelling "Content-Language" is stored under the name the handler reads |
| `ItemHandler.LastPayload` | examples/GW2API/ItemMultiResponseHandler.php:151-157 | the JSON of the last item in the batch with a given id, or none exactly when no item has that id |
| `ItemHandler.UpdateRows` | examples/GW2API/ItemMultiResponseHandler.php:151-157 | the bulk UPDATE never adds or removes a row |
| `ItemHandler.UpdateRowsAt` | examples/GW2API/ItemMultiResponseHandler.php:151-157 | after the bulk UPDATE an existing row's language column holds the JSON of the last item with its id, and a row no item names is unchanged |
| `ItemHandler.UpdateRowsFrame` | examples/GW2API/ItemMultiResponseHandler.php:151-157 | the bulk UPDATE changes no modelled column other than the response's language |
| `ItemHandler.UpdateRowsUnseeded` | examples/GW2API/ItemMultiResponseHandler.php:151-157 | an UPDATE batch whose ids have no row changes nothing: WHERE `id` = ? matches no row |
| `ItemHandler.UnseededResponseWritesNothing` | examples/GW2API/ItemMultiResponseHandler.php:144-170 | so when the seeding failed, every response for the unseeded ids leaves the table unchanged, even an accepted one whose write succeeded |
| `ItemHandler.Respond` | examples/GW2API/ItemMultiResponseHandler.php:140-182 | the reply is a requeue exactly for a 502, or for a 200/206 with a supported language whose write failed; a requeue names the request's own URL; the table changes only for a 200/206 with a supported language and a successful write |
| `ItemHandler.AcceptedRouting` | examples/GW2API/ItemMultiResponseHandler.php:140-170 | for 200/206: an unsupported language is discarded without a write; a successful write updates the language's column and is not requeued; a failed write requeues the URL and leaves the table unchanged |
| `ItemHandler.BadGatewayRequeued` | examples/GW2API/ItemMultiResponseHandler.php:174-177 | a 502 is requeued with its own URL and no write, whatever the headers, items or write outcome |
| `ItemHandler.OtherStatusDropped` | examples/GW2API/ItemMultiResponseHandler.php:179-182 | any status other than 200, 206 and 502 is dropped without a write |
| `ItemHandler.ItemMultiResponseHandler.HandleResponse` | examples/GW2API/ItemMultiResponseHandler.php:132-184 | each call increments the callback count by exactly one; the reply and the new table are those of the routing decision on the response's status code, URL, headers and the previous table |
| `ItemHandler.Seeded` | examples/GW2API/ItemMultiResponseHandler.php:229-235 | INSERT IGNORE gives every listed id a row, adds no other row, keeps every existing row as it was, and gives each new row empty language columns |
| `ItemHandler.SeedingIdempotent` | examples/GW2API/ItemMultiResponseHandler.php:229-235 | seeding the same ids a second time changes nothing |
| `ItemHandler.ItemMultiResponseHandler.SeedRows` | examples/GW2API/ItemMultiResponseHandler.php:229-235 | running one INSERT IGNORE per listed id, in order, leaves the table equal to the seeded table |
| `ItemHandler.Chunks` | examples/GW2API/ItemMultiResponseHandler.php:241 | array_chunk: every chunk holds between 1 and the chunk size of ids, every chunk but the last is full, and only the empty list has no chunk |
| `ItemHandler.ChunksFlatten` | examples/GW2API/ItemMultiResponseHandler.php:241 | the chunks concatenate back to the original id list |
| `ItemHandler.ChunksCount` | examples/GW2API/ItemMultiResponseHandler.php:241 | the number of chunks is the ceiling of the id count over the chunk size |
| `ItemHandler.ChunkUrls` | examples/GW2API/ItemMultiResponseHandler.php:238-239 | a chunk gives five requests, the j-th for the j-th language, each `API_BASE?lang=L&ids=` followed by the comma-joined ids |
| `ItemHandler.ItemMultiResponseHandler.AppendChunkUrls` | examples/GW2API/ItemMultiResponseHandler.php:238-240 | the per-chunk step appends exactly that chunk's five requests, in language order, and changes nothing else |
| `ItemHandler.ItemMultiResponseHandler.AppendPlan` | examples/GW2API/ItemMultiResponseHandler.php:237-241 | mapping the per-chunk step over the chunks appends the whole plan, chunk after chunk |
| `ItemHandler.PlanLength` | examples/GW2API/ItemMultiResponseHandler.php:237-241 | five requests per chunk |
| `ItemHandler.PlanAt` | examples/GW2API/ItemMultiResponseHandler.php:237-241 | request 5c + j is chunk c in language j: chunk-major, language-minor order |
| `ItemHandler.UrlCount` | examples/GW2API/ItemMultiResponseHandler.php:237-241 | a listing of L ids plans ceil(L / 200) * 5 requests, and an empty listing plans none |
| `ItemHandler.RequestUrlsDistinct` | examples/GW2API/ItemMultiResponseHandler.php:238-239 | the requests for two different languages are different URLs, whatever their chunks |
| `ItemHandler.ItemMultiResponseHandler.GetUrls` | examples/GW2API/ItemMultiResponseHandler.php:216-244 | a listing whose status is not 200 fails with "failed to get /v2/items" and changes nothing; otherwise the table is the seeded table when the seeding batch succeeded and unchanged when it failed, and in both cases the planned requests for the chunks of the listing are appended to the URLs |

## Left out

- `exec` and `getInfo` (src/ResponseAbstract.php:105, 148-160) are curl calls. The `info` and `error` objects are inputs, and the constructor does not run a transfer.
- `json` and `json_array` decoding (src/ResponseAbstract.php:84-87) belong to PHP's JSON extension. A read returns the body and the associative flag, not a decoded value. The decoding runs on every read; nothing caches it.
- The header object's property order is not kept, because a map has no order.
- `Response.ResponseAbstract.HeaderLine`: a field line whose trimmed name is empty (for example ": x") makes PHP stop with an error, because the empty name is not a valid property. The model stores it under that name.
- `Response.Store`: a missing part of a status line reads as PHP's null. A missing code gives intval(null) = 0 and a missing reason gives trim(null) = "". A first part without `/` gives a null version. The PHP notices these raise are not modelled.
- `PhpStrings.IntVal`: the exponent form is not modelled. PHP reads "1e3" as 1000; the model reads the leading digits and gives 1. Status codes never take that form.
- `PhpStrings.ToLower` lower-cases ASCII letters only. This matches `strtolower` in the C locale.
- Database I/O is not modelled: `createTempTable`, the constructor's Dotenv and database connection, and the `multi_callback` driver (examples/GW2API/ItemMultiResponseHandler.php:76-86, 151, 198-211, 229). The staging table is a map. The outcomes of the seeding batch and of each bulk UPDATE are boolean inputs.
- `ItemHandler.ItemMultiResponseHandler.HandleResponse`: a failed bulk write is modelled as leaving the table unchanged. A driver that applied only part of the batch before failing is not modelled.
- The `updated` and `response_time` columns are not part of a row. `updated` keeps its default of 0, because nothing modelled writes it. `response_time` is a clock value: INSERT IGNORE sets it to the current time, and every UPDATE that changes a row sets it again (`ON UPDATE CURRENT_TIMESTAMP`, examples/GW2API/ItemMultiResponseHandler.php:206). Clocks are not modelled.
- `ItemHandler.ItemMultiResponseHandler.GetUrls`: a failed seeding batch is modelled as inserting no row. A driver that inserted part of the batch before failing is not modelled.
- `ItemHandler.Seeded`: ids are unbounded integers. The `id` column is an unsigned INT(10) (examples/GW2API/ItemMultiResponseHandler.php:201), so MySQL would clip a negative id or one above 4294967295 to the column's range and insert it, since IGNORE turns the range error into a warning. Two ids that clip to the same value collide, so the second is ignored. Item ids from the listing are positive and small.
- `json_encode` of each item is not modelled: each item carries its encoded JSON as given.
- `parse_url` and `parse_str` of the request URL (examples/GW2API/ItemMultiResponseHandler.php:137) are not modelled. The `lang` query parameter is an input: its text, or null when absent.
- `init` and the `MultiRequest` transfer loop with its window of concurrent requests (examples/GW2API/ItemMultiResponseHandler.php:92-112) are concurrent transport scheduling. The reply is returned to the caller, and nothing re-fetches it.
- `logToCLI`, `microtime`, `date` and the `md5` of URLs are console output, clock reads and hashing, and are not modelled. The same holds for the listing fetch itself (examples/GW2API/ItemMultiResponseHandler.php:220): its status code and decoded ids are inputs.
- `ItemHandler.ItemMultiResponseHandler.HandleResponse`: the callback counter is an unbounded integer. PHP would turn it into a float after 2^63 - 1 calls.
- A URL is the text of the `URL` object the source creates.

## Findings

| source | as written | input that shows it | evidently intended | confidence | as-written member | corrected member |
|---|---|---|---|---|---|---|
| src/ResponseAbstract.php:140 | getBody reads the header property `content_type`, but the header callback stores a Content-Type line under `content-type` (lower-cased, with its hyphen), so a received content type never reaches the body view | header line "Content-Type: text/html" with no `content_type` transfer info: the body's content type is null | the body's content type comes from the received Content-Type header, falling back to the transport's value, then null | medium, not executed | `HeaderLines.ContentTypeHeaderMissedAsWritten` | `HeaderLines.ContentTypeHeaderUsed` |

The property read `body` (`Response.ResponseAbstract.Get`) models the code as written and gives `Response.BodyViewAsWritten`. The corrected getBody is `Response.BodyView`.
