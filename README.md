# Job listings and image proxy: a Dafny model

This project models the two serverless handlers of a small roofing-company
backend.

- `api/jobs.js` lists jobs. It refuses any method but GET and checks its
  three settings: the API key, the location id, and the custom-object name,
  which has a default. It asks the CRM's custom-object search for the first
  page of 12 records and passes an upstream failure through unchanged. It
  takes the records from the `records` or the `data` envelope, drops those
  whose `show_on_website` tags say `dont_post_to_website`, and maps each
  survivor to `{id, title, city, date, amount, description, heroImage}`.
- `api/img.js` is an image proxy. The model covers the part of it that
  decides what to do with a request: the method check, width and quality
  (defaulted and capped), the output format and its Content-Type, and the
  url checks that keep the proxy on one storage host.

Both handlers are modelled as pure functions from their inputs to what they
answer. The network call of the job handler is an input. `Jobs.Upstream` is
either a non-ok answer with its body text, an ok answer with its parsed JSON
body, or an exception. The loosely typed records are `JsValue.Value`
(undefined, null, boolean, number, string, array, object). JavaScript
truthiness is an explicit predicate over that type, so `||`, `!= null`,
`typeof … === "object"` and `Array.isArray` are total functions.

Modules:
- `Wrappers` (`wrappers.dfy`): `Option`.
- `JsValue` (`js_value.dfy`): the value type, truthiness and property reads.
  A read on null or undefined is `None`, standing for the TypeError.
- `JsString` (`js_string.dfy`): `parseInt(s, 10)`, `toLowerCase`, and the
  conversion of an array of strings to a string.
- `Jobs` (`jobs.dfy`): the job handler.
- `ImageProxy` (`image_proxy.dfy`): the image handler's parameter logic.

Notes on the handlers' behaviour:
- The object name can never be missing, because it has a default. The
  configuration error therefore depends only on the API key and the
  location id, and its `hasJobsObjectName` flag is always true.
- `amount` is not always a number or null. An object without a usable
  `value`, a string or an array is passed through as it is.
- The job handler emits only the seven fields listed above for each job.
- A null `data` body, a `records`/`data` envelope that is truthy but not an
  array, or a null record raises a TypeError inside the `try`. The model
  gives these the handler's generic 500 answer.
- In the image handler, an `f` parameter given twice arrives as an array.
  The handler then calls `toLowerCase` on it before the url checks and
  outside its `try`. The model calls this outcome `Crash`.

## Model

| member | source | states |
|---|---|---|
| Jobs.Handle | api/jobs.js:5-107 | A method other than GET gives 405 whatever the settings and upstream are. A missing API key or location id gives 500 with the configuration body whatever upstream is. Otherwise the response is the one the upstream outcome leads to. |
| Jobs.Prepare | api/jobs.js:6-35 | Non-GET gives 405 before the settings are read. Under GET a search is sent iff the API key and location id are both non-empty. The configuration error flags say exactly which of the two is set, and the object-name flag is always true. The search names the resolved object and carries the key and location id, page 1 and page limit 12. |
| Jobs.ObjectName | api/jobs.js:12 | The object name is the setting when that is non-empty, else "custom_objects.jobs"; it is never empty. |
| Jobs.Finish | api/jobs.js:48-106 | A non-ok upstream answer keeps its status, and its body carries that status and the upstream text verbatim. An exception gives 500 "Unable to fetch jobs". An ok answer gives 200 iff the envelope is usable and no record is null or undefined, else that 500. |
| Jobs.RawRecords | api/jobs.js:60 | The records are `records` when it is an array, else `data` when `records` is falsy and `data` is an array, else empty when both are falsy. The read fails iff the body is null or undefined, or the chosen envelope is truthy but not an array. |
| Jobs.Props | api/jobs.js:68 | `record.properties || {}` is always a truthy, non-null value, so reading a property from it never throws. |
| Jobs.Keep | api/jobs.js:67-76 | A record is hidden iff its `show_on_website` is an array containing "dont_post_to_website". A missing, empty or non-array flag keeps it. |
| Jobs.Filter | api/jobs.js:67-76 | The filter fails iff some record is null or undefined. Otherwise every survivor is non-null and kept by the test, and there are no more survivors than records. |
| Jobs.KeptIndices | api/jobs.js:67-76 | The positions listed are in range and strictly increasing. A position is listed iff the test keeps the record there. |
| Jobs.FilterKeepsInOrder | api/jobs.js:67-76 | On records with no null among them, the filter's output is exactly the kept records in their original order. |
| Jobs.Amount | api/jobs.js:82-89 | The amount is null iff `job_amount` is falsy, and it is never undefined. It is the object's `value` when that is neither null nor undefined. Otherwise it is `job_amount` itself, so an object without a usable `value` passes through. |
| Jobs.Normalize | api/jobs.js:78-100 | `id` is the record's `id` verbatim and `amount` follows `Amount`. Each of title, city, date, description and heroImage is the matching property when that is truthy, and is otherwise "". |
| Jobs.ListJobs | api/jobs.js:78-100 | The map gives one entry per kept record. Each entry is an object with exactly the keys id, title, city, date, amount, description and heroImage. Its `id` is the record's `id`, and its `amount` is `Amount` of the record's `job_amount`. `PublishedJobs` places these entries, in order, in a 200 body. |
| Jobs.PublishedJobs | api/jobs.js:60-102 | A 200 answer has exactly one job per kept record, in the records' order, each built from its record by `Normalize`. |
| Jobs.UpstreamFailurePassesThrough | api/jobs.js:48-56 | With the settings present, a non-ok upstream answer reaches the caller with its status and its text, and without a `jobs` member. |
| ImageProxy.Handle | api/img.js:11-27 | The checks run in order: the method (405), then an array-valued `f` (crash), then a missing or non-string url (400 "Missing url"), then a url outside the storage host (400 "Unsupported host"). The image is fetched iff all pass. The fetch targets the given url with width at most 1600, quality at most 90, neither 0, and one of three Content-Types, which is WebP when `f` is absent or empty. The width and quality are exactly `Width` and `Quality` of the query, and the Content-Type is `ContentType` of the chosen format. |
| ImageProxy.Clamped | api/img.js:16-17 | The value never exceeds the cap and is never 0. It is the default when the parameter is missing or empty, or when it parses to NaN or 0. |
| ImageProxy.Width | api/img.js:16 | The width is at most 1600 and never 0, and is 900 when `w` is missing or empty. Its other cases come through `Clamped` and `ClampedNumeral`. |
| ImageProxy.Quality | api/img.js:17 | The quality is at most 90 and never 0, and is 72 when `q` is missing or empty. Its other cases come through `Clamped` and `ClampedNumeral`. |
| ImageProxy.ParamText | api/img.js:16-17 | A single parameter reads as itself. A repeated one reads as its values joined by commas, so its text starts with the first value and a comma. |
| ImageProxy.ClampedRepeatedNumeral | api/img.js:16-17 | A repeated `w` or `q` whose first value is a positive numeral n gives min(n, cap), because `parseInt` stops at the comma. |
| ImageProxy.ClampedNumeral | api/img.js:16-17 | A positive numeral gives min(n, cap). A negative numeral gives -n, because there is no lower clamp. |
| ImageProxy.FormatOf | api/img.js:18 | An array-valued `f` makes the format read throw (None), and only that. A missing or empty `f` gives "webp". Any other single value gives its lower-cased form. |
| ImageProxy.ContentType | api/img.js:43-52 | "jpg" and "jpeg" give image/jpeg, "png" gives image/png, and every other format gives image/webp. |
| ImageProxy.FormatIgnoresCase | api/img.js:18 | A format and its lower-cased form select the same format, so the comparison ignores case. |
| JsString.ParseInt | api/img.js:16-17 | `parseInt` gives a number iff, after the leading white space, the text starts with a digit, or with a sign followed by a digit; otherwise NaN. |
| JsString.ParseIntNaN | api/img.js:16-17 | White space, then a lone sign or no sign, then nothing or a non-digit, parses to NaN. That is the case where `Clamped` falls back to the default. |
| JsString.Join | api/img.js:16-17 | `String(array)` of no strings is "", of one string is that string, and of several starts with the first and the separator. |
| JsString.ParseIntReadsNumeral | api/img.js:16-17 | `parseInt` of white space, an optional sign, a decimal numeral and a tail that does not start with a digit gives the numeral's value, negated after "-". |
| JsString.ParseIntDecimal | api/img.js:16-17 | `parseInt` reads the decimal numeral of n back as n, which is how the default strings "900" and "72" become the defaults. |
| JsString.TrimStart | api/img.js:16-17 | `parseInt` drops exactly the longest prefix of white space. |
| JsString.LeadingDigits | api/img.js:16-17 | The digits `parseInt` reads form the longest prefix of decimal digits. |
| JsString.DecimalStringValue | api/img.js:16-17 | The decimal numeral of n denotes n, the reference the `parseInt` round trip reads back. |
| JsString.ToLower | api/img.js:18 | Lower-casing keeps the length and folds each ASCII capital to its small letter. |

## Left out

- The `fetch` calls and `await` in both handlers (api/jobs.js:37-46, api/img.js:29-36) are not modelled. The job handler's upstream outcome is an input. The model does not require a `Failed` status to be outside 200-299, which the platform guarantees.
- The request URL built with `encodeURIComponent`, the `Authorization` and `Version` headers, and the `JSON.stringify` of the search body are not modelled. `SearchRequest` keeps the object name, key, location id, page and page limit these are built from.
- The image handler's work after the checks is not modelled: the upstream fetch, its "Upstream fetch failed" and "Image processing error" answers, all `sharp` work, and the point where headers are set. `Transform` records the url, width, quality and Content-Type that this work is given.
- `console.error` logging, the CORS header and the Cache-Control strings are left out. They are observability and plumbing.
- Serialising the response to JSON is not modelled. A member whose value is `undefined`, such as the `id` of a record without one, stays in the model's object, though `res.json` would omit it.
- What the platform answers when the image handler crashes is not modelled.
- JsValue.Get: finds only an object's own members. None of the keys either handler reads is inherited by strings, numbers, arrays or plain objects, so nothing is lost.
- JsString.ToLower: folds only the ASCII capitals. The lower-cased format is only compared with "jpg", "jpeg" and "png". Outside ASCII, only the Kelvin sign and the capital dotted I lower-case to ASCII letters (k and i), and neither letter occurs in those names, so the comparison outcome is unchanged.
- ImageProxy.Clamped: uses unbounded integers. JavaScript parses numerals beyond 2^53 inexactly, and gives Infinity for very long ones. The cap makes large positive values agree, but very large negative widths or qualities differ.
