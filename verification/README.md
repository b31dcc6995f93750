# zipcode-exercise: request handling and city-list loading, in Dafny

The service answers filter queries over a fixed set of US zip-code records.
Its own code is small: when the handler module is loaded it rewrites the two
city-list fields of every record into a pipe-delimited form, and for each
request it checks the path, the method and the `query` parameter, hands the
query to a third-party query library, and maps the outcome (or the thrown
value) to an HTTP status code and a body. The query language itself belongs
to that library and is not part of this model; the handler receives it as a
function parameter that either returns a result or throws an Error with a
message and no status code.

Modules, one per concern of `src/index.js`:

- `Js` (`js.dfy`): the JavaScript values involved (`undefined`, `null`,
  booleans, numbers, strings, plain objects) and JavaScript truthiness, which
  every `?:`, `!` and `||` test in the handler and the loader depends on (the
  path and method checks are strict `!==` comparisons instead).
- `Wrappers` (`wrappers.dfy`): a `Result` type for operations that can throw.
- `CityLists` (`city_lists.dfy`): the rewrite of one city-list value,
  `|${v.replace(/, */, "|")}|` for a truthy `v`, together with an independent
  description of what the regular expression `, *` matches (`IsFirstMatch`).
- `Dataset` (`dataset.dfy`): the load-time pass over all records.
- `Handler` (`handler.dfy`): `validate`, the catch block and `handler`.

Behaviour worth knowing, proved in the model:

- The regular expression has no `g` flag, so only the first comma of a list
  (and the spaces after it) becomes `|`: `"A, B, C"` is stored as
  `"|A|B, C|"`. A query looking for `|C|` therefore misses the third city of
  such a list (`CityLists.ThirdCityNotEnclosed`). The rewrite is also not
  idempotent: applied to its own output `"|A|"` it gives `"||A||"`
  (`CityLists.NormalizeNotIdempotent`), so it must run exactly once.
- A query the library rejects (a syntax error) is answered with 500, not
  with a client error: the library's Error carries no `statusCode`, so the
  catch block falls back to 500. The repository's own test of an invalid
  query expects the same.
- A truthy city-list value that is not a string (a number, say) has no
  `replace` method; the load throws a TypeError. The model returns
  `Err(ReplaceIsNotAFunction(...))` for it, and the first failing record
  decides the error.
- Assigning a city-list field creates it even on a record that lacked it;
  its value is then `undefined`, the same as reading it before.

## Model

| member | source | states |
|---|---|---|
| CityLists.Normalize | src/index.js:5-10 | an empty or missing list is returned unchanged; a non-empty string list comes back as a string of length at least 2 that starts and ends with `\|`; a truthy non-string throws a TypeError |
| CityLists.LeadingSpaces | src/index.js:6 | the greedy ` *` part of the match: the count it returns covers only spaces, and the character after them, if any, is not a space |
| CityLists.ReplaceFirstComma | src/index.js:6 | a string without a comma is returned unchanged, and the rewrite never lengthens a string |
| CityLists.ReplaceFirstCommaReplacesMatch | src/index.js:6 | for the match of `, *` (leftmost comma plus all spaces right after it), the result is the text before the match, one `\|`, and the text after the match, untouched |
| CityLists.FirstMatchOf | src/index.js:6 | every string containing a comma has such a match, so the previous row covers every string with a comma |
| CityLists.NormalizeWithoutComma | src/index.js:5-7 | a non-empty list without a comma is stored as `"\|" + s + "\|"` |
| CityLists.NormalizeWithComma | src/index.js:5-7 | a list with a comma is wrapped in `\|` and only its first comma and the spaces after it become one `\|` |
| CityLists.LaterSeparatorsKept | src/index.js:5-7 | a list `first + ", " + rest`, whose first part has no comma and whose `rest` does not start with a space, is stored as `"\|" + first + "\|" + rest + "\|"`: later separators in `rest` are kept verbatim |
| CityLists.ReplaceFirstCommaExample | src/index.js:6 | the rewrite turns `"A, B, C"` into `"A\|B, C"` |
| CityLists.ThreeCityExample | src/index.js:6 | `"A, B, C"` is stored as `"\|A\|B, C\|"` |
| CityLists.ThirdCityNotEnclosed | src/index.js:5-7 | after loading `"A, B, C"`, `\|A\|` occurs in the stored value and `\|C\|` does not |
| CityLists.NormalizeNotIdempotent | src/index.js:4-11 | rewriting an already rewritten value `"\|A\|"` gives `"\|\|A\|\|"`, so the pass must run once |
| Dataset.NormalizeEntry | src/index.js:4-11 | a record loads iff both of its city lists do; `acceptable_cities` is rewritten first and its TypeError wins; when only `unacceptable_cities` fails, the error is that field's TypeError; on success each city-list field holds its rewritten value, every other field keeps its value, and the key set gains exactly the two city-list names |
| Dataset.NormalizeData | src/index.js:4-11 | the load succeeds iff every record does; then the output has the same length and record `i` of the output is record `i` rewritten; on failure the error is that of the first record that fails |
| Dataset.OnlyCityListsChange | src/index.js:4-11 | after a successful load, record `i` keeps every field other than the two city lists, gains no other field, and each city list is rewritten independently by the same rule |
| Dataset.EmptyListsUnchanged | src/index.js:5-10 | a record whose city lists are empty or missing reads the same on every field after the load |
| Handler.QueryOf | src/index.js:24 | the query is truthy iff `queryStringParameters` is an object whose own `query` property is truthy, and then it is that property |
| Handler.Acceptable | src/index.js:16-30 | a request that passes validation has a `queryStringParameters` object with a truthy own `query` property |
| Handler.Validate | src/index.js:16-30 | validation passes iff the request is `GET /` with a truthy `query` parameter; otherwise a wrong path gives 404 whatever the method and query, then a wrong method gives 405, then a missing or empty query gives 400, each with its message |
| Handler.Catch | src/index.js:53-60 | a truthy `statusCode` of the thrown value is kept, otherwise the status is 500; a truthy `message` is reported, otherwise the thrown value itself |
| Handler.Handle | src/index.js:42-61 | the status is 200 iff validation passes and the query library returns, and then the body is the library's result; it is 500 iff validation passes and the library throws, with the error's message, or the error itself when the message is empty; it is 400, 404 or 405 iff validation fails, and then the response carries exactly the status code and message `validate` threw |
| Handler.RejectedBeforeLibrary | src/index.js:16-60 | for an invalid request the response does not depend on the query library; a wrong path gives 404 with the path message, otherwise a wrong method gives 405 with the method message, otherwise 400 with the query message |
| Handler.EmptyEventIsNotFound | src/test.js:60-64 | an empty event gives 404 and the path message |
| Handler.MissingMethodIsNotAllowed | src/test.js:65-71 | an event with only `path: "/"` gives 405 and the method message |
| Handler.MissingQueryIsBadRequest | src/test.js:72-81 | `GET /` without parameters, with an empty parameters object or with an empty query gives 400 and the query message |
| Handler.LibraryErrorIsServerError | src/test.js:82-94 | a query the library rejects with a message gives 500 and that message |

## Left out

- The query language (`JSPath.apply` in `process`, src/index.js:35-37): a
  library that is not part of this model. It is the `library` parameter of
  `Handler.Handle`, given the `query` value and the records; building the
  selector text `.{…}` from the query is part of that opaque call.
- Loading `./data` (src/index.js:1): file and module I/O. The raw records
  are the parameter of `Dataset.NormalizeData`, the load-time pass over them;
  in-place mutation by `forEach` is modelled as a pure map. The `data`
  parameter of `Handler.Handle` stands for that pass's `Ok` value; the model
  does not tie the two together, since the records only reach the opaque
  query library.
- `JSON.stringify` of the bodies and the `Content-Type` header of the 200
  response (src/index.js:47-51, 56-58): wire formatting. The body is kept as
  structured data (`Results`, `Message`, `ThrownItself`).
- JavaScript values that the records and events do not hold: NaN, arrays,
  functions, and objects with prototype properties. Numbers are reals.
- `Handler.Handle` takes the event as an object: a `null` or `undefined`
  event, on which the destructuring in `validate` (src/index.js:17) throws a
  TypeError that the catch block turns into 500, and a primitive event,
  which gets 404, are not modelled. Every event the repository's tests pass
  is an object.
- A thrown `null` or `undefined` inside the handler: neither `validate` nor
  the query library throws one, so the catch block's property reads on it
  are not modelled.
