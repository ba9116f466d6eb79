# ECSR new-item notifier: verified model of its core logic

The notifier polls the ECSR catalog for newly listed items and drops the ones whose id is already in its
seen-set. It fetches the details of the rest, with one CSRF-token refresh and retry if the server answers 403.
It formats each item as a chat message, sends it, adds the id to the seen-set and rewrites the seen-set's state file.

This project models the three pieces of that program that are self-contained logic. It also models the
startup load of the seen-set:

- `formatter.dfy` (module `Formatter`) is the message formatter. It covers the `price` / `priceTickets`
  fallback with Python `or` semantics, the "Free" label and the colour glyph, and the restriction label
  chosen by exact list equality. It also covers the optional offsale-deadline line and the link
  `https://ecsr.io/catalog/<id>/123`. The glyphs are opaque string constants. Decimal
  interpolation comes from `decimal.dfy` (module `Decimal`), whose `ParseNat` inverts `NatToString`.
- `seen.dfy` (module `Seen`) is the seen-set. It has the order-preserving new-asset filter as a
  function, and the state file (`Missing`, `Malformed` or `Saved(ids)`) with the startup fallback to the
  empty set. A class `SeenStore` holds the set, the file and the log of delivered details. Its notify loop
  (`NotifyAll`, one `NotifyOne` per detail) grows the set and rewrites the file after every item.
- `catalog.dfy` (module `Catalog`) is the details call with its reactive refresh. A `Script` gives the
  server's replies to the first details POST, to the refresh's priming POST and to the retried POST.
  `FetchItemDetails` updates the session's headers in place and returns the outcome (`Ok(data)`,
  `Empty` or `Error(status)`) and the log of the POSTs it made. It is proved equal to the specification
  functions `Outcome`, `Requests` and `HeadersAfter`.
- `items.dfy` holds the records (`Asset`, `ItemDetail`). `wrappers.dfy` holds `Option`, which stands for
  a JSON key that is absent or null.

In three places the code behaves in ways a reader might not expect. The model follows the code:

- An error status is one for which `raise_for_status` raises, 400 to 599. A 1xx or 3xx reply that reaches
  the check is returned as data.
- A failed periodic refresh sets the session to `None` (snipe.py:138). Every poll then fails until a later
  refresh succeeds. That loop is not modelled.
- A delivery that raises leaves its id and every later id out of the seen-set. The exception ends the loop
  before the `add`, so those items are offered again on the next poll.

## Model

| member | source | states |
|---|---|---|
| Decimal.NatToString | snipe.py:107-108 | the interpolated number is a non-empty string of decimal digits with no leading zero |
| Decimal.ParseNatToString | snipe.py:107-108 | reading the decimal text back gives the number: the rendering loses nothing |
| Decimal.CanonicalDigits | snipe.py:107-108 | a digit string with no leading zero is the rendering of its own value, so only one text can show a given number |
| Decimal.NatToStringInjective | snipe.py:107-108 | two ids or prices render to the same text exactly when they are equal |
| Formatter.ResolvePrice | snipe.py:88 | the price is `price` when truthy, else `priceTickets` when truthy, else 0; it is 0 exactly when both are falsy |
| Formatter.DisplayPrice | snipe.py:89 | the price text is "Free" exactly when the resolved price is 0; otherwise it is a digit string with no leading zero that reads back as the price |
| Formatter.DisplayPriceIsDecimal | snipe.py:108 | a non-zero price is shown as exactly its decimal rendering, the text Python's `str` gives |
| Formatter.Marker | snipe.py:92 | the glyph is green exactly when the resolved price is 0 and red exactly when it is not |
| Formatter.MarkerAgreesWithPrice | snipe.py:89-92 | the glyph is green exactly when the price text is "Free": glyph and label never disagree |
| Formatter.RestrictionLabel | snipe.py:94-100 | "Yes" exactly for the list ["Limited"], "Yes, Unique" exactly for ["LimitedUnique"], "No" for everything else, a missing list included |
| Formatter.ExtraTagsAreNotLimited | snipe.py:95-100 | any list of two or more tags is labelled "No", even one that holds "Limited" |
| Formatter.RestrictionExamples | snipe.py:94-100 | ["Limited"] gives "Yes", ["LimitedUnique"] gives "Yes, Unique", [], a missing list and ["Limited","Exclusive"] give "No" |
| Formatter.PriceExamples | snipe.py:88-92 | price 0 shows "Free" and green; price 50 shows "50" and red; price 0 with priceTickets 50 resolves to 50 |
| Formatter.OffsaleSuffix | snipe.py:102-103 | the deadline line is empty exactly when the deadline is absent or empty, otherwise it is a newline and the deadline line |
| Formatter.Format | snipe.py:105-113 | the message starts with the colour glyph and ends with the link line followed by the optional deadline line; without a deadline it ends with the link line |
| Formatter.Lines | snipe.py:105-113 | the template has six lines, plus the deadline line when there is one; a name, creator or deadline that itself holds a newline adds more lines to the text |
| Formatter.FormatIsLines | snipe.py:105-113 | the template is exactly the lines title, id, price, creator, limited, link (and deadline) joined by newlines |
| Formatter.LinkLineRoundTrip | snipe.py:111 | the item id can be read back from the link line |
| Seen.NewAssets | snipe.py:147 | the filter keeps, in their order, exactly the assets whose id is unseen, each as often as in the input |
| Seen.NewAssetsKeepsUnseen | snipe.py:147 | a list with no seen id passes the filter unchanged |
| Seen.NewAssetsIdempotent | snipe.py:147 | filtering twice against the same set gives the result of filtering once |
| Seen.NewAssetsAntitone | snipe.py:147 | a larger seen-set yields a subsequence of what a smaller one yields |
| Seen.FilterExample | snipe.py:147 | assets with ids 1 and 2 against the seen-set {1} leave exactly the asset with id 2 |
| Seen.NotifiedAreNotNew | snipe.py:147-161 | once the notified ids are added, none of those items passes the filter again |
| Seen.MessagesAt | snipe.py:158-160 | the k-th message sent is the k-th detail, formatted |
| Seen.MessagesConcat | snipe.py:158-160 | delivering more details appends their messages after those already sent |
| Seen.LoadSeen | snipe.py:28-33 | a missing or malformed file loads as the empty set; a saved list loads as the set of its ids |
| Seen.NoDuplicatesOnce | snipe.py:163 | a list without repeats holds each of its elements exactly once |
| Seen.SetToList | snipe.py:163 | the set is written as a list with each element exactly once and nothing else |
| Seen.PersistReload | snipe.py:28-33 | loading a written set gives back the set, and each id appears once in the file |
| Seen.SeenStore.Load | snipe.py:26-33 | startup loads the file into the seen-set, with nothing delivered yet |
| Seen.SeenStore.Persist | snipe.py:162-163 | after a write, the file holds the current set, each id once |
| Seen.SeenStore.NotifyOne | snipe.py:159-163 | one item: its message is delivered, its id added, and the file rewritten to mirror the set |
| Seen.SeenStore.NotifyAll | snipe.py:158-163 | the set only grows and ends as the old set plus the ids of the details; the details are delivered in order; the file mirrors the set if any item was processed and is untouched otherwise |
| Catalog.CsrfToken | snipe.py:46-47 | a token is found exactly when the header is present and non-empty |
| Catalog.AcquireSession | snipe.py:36-52 | a refresh succeeds exactly when the priming reply carries a token; the new session carries the base headers and that token |
| Catalog.GetSessionAndCsrf | snipe.py:36-52 | one priming POST with an empty item list; None without a token, else a fresh session whose headers include the token |
| Catalog.HeadersAfter | snipe.py:72-74 | after a 403 and a successful refresh, the caller's session keeps the new token and the base headers on top of its other headers; on every other path its headers are untouched |
| Catalog.RetryUsesHeadersAfter | snipe.py:72-74 | after a refresh the retried POST goes out with exactly the headers the session keeps afterwards |
| Catalog.Checked | snipe.py:81-82 | a reply is an error exactly when its status is 400-599, and is its data otherwise |
| Catalog.Outcome | snipe.py:62-82 | empty input gives the empty result; a non-403 reply is checked; after a 403, a failed refresh or a second 403 gives the empty result; an error is never a 403 |
| Catalog.Requests | snipe.py:62-82 | no POST for empty input; otherwise the items first, the priming POST only after a 403, the retry only after a successful refresh and carrying the new token; at most three |
| Catalog.RequestBound | snipe.py:63-74 | at most two POSTs carry the items and at most one refresh happens |
| Catalog.FetchItemDetails | snipe.py:62-82 | the call's result, POST log and the session headers it leaves are those of Outcome, Requests and HeadersAfter |
| Catalog.ForbiddenTwiceExample | snipe.py:69-77 | a 403, a successful refresh and another 403 give the empty result after three POSTs |

## Left out

- HTTP transport, the search call `fetch_asset_ids` and JSON parsing of replies (snipe.py:36-59). Replies are
  `Response` values with a status, headers and the already-parsed `data` list. Connection errors, which
  `session.post` would raise, are not modelled.
- Headers are an exact-key map. The case-insensitive header lookup of the HTTP library and its own default
  headers are not modelled.
- Telegram delivery (snipe.py:116-121). `SeenStore` records the delivered details in order, and `Outbox`
  gives the text the chat receives as `Messages(delivered)`. Sending is assumed to succeed.
- Seen.SeenStore.NotifyAll: the contract speaks of the delivered details, not of the message strings. The
  messages follow through `Messages`, `MessagesAt` and `MessagesConcat`. Proving the strings directly in
  the loop expands the whole template at every step, which is too costly for the verifier.
- The polling loop `main` (snipe.py:124-171): the `while True` loop, `asyncio.sleep`, the wall-clock refresh
  interval, the startup exit on a missing token, and the catch-all exception handlers.
- Console output throughout.
- Ids and prices are natural numbers. String ids and negative or fractional prices are not modelled.
- The state file holds either nothing usable (`Missing`, `Malformed`) or a list of ids (`Saved`). Other
  valid JSON is not modelled. An object loads as the set of its keys and a string as the set of its
  characters, with no error (snipe.py:31). A number, a boolean or null makes `set(...)` raise `TypeError`,
  which the handler at snipe.py:32 does not catch, because it catches only `JSONDecodeError`.
- A missing `name`, `id` or `creatorName` key raises `KeyError` in the formatter. The model makes these keys
  mandatory fields of `ItemDetail`. A JSON null in one of them raises nothing: the message shows the text
  "None" there (snipe.py:86-87, 90, 106-109). The model does not cover that case.
- The order in which `list(seen_items)` writes the set is Python's hash order. `SetToList` picks the
  elements in an unspecified order.
