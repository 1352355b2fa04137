# Mrs. Moneypenny: a verified model of the visitor relay

Mrs. Moneypenny is a small Flask application. The check-in provider (Envoy) calls its
`POST /visitor/<location>` webhook whenever a visitor signs in at an office. The handler:

- authenticates the call with an HMAC-SHA256 signature over the request's timestamp and token;
- ignores every status other than `sign_in`;
- copies the visitor's photo into an S3 bucket;
- posts an announcement to a subreddit;
- optionally repeats the announcement on an IRC channel.

The model covers the decision core of `moneypenny.py`:

- the constant-time string comparison and the signature check;
- the loop that builds the location table from the configuration;
- the handler's sequence of checks, object key and URL formats, post arguments and reply.

Modules, one per concern:

- `Bitwise` (bitwise.dfy): Python's `^` and `|` on unbounded non-negative integers, defined bit by bit.
- `Compare` (compare.dfy): `constant_time_compare`, an imperative loop proved equal to string equality. A
  ghost `probes` sequence records which position of `expected` each iteration reads, and it is shown to
  depend on the two lengths only.
- `Signature` (signature.dfy): `verify_message`. The HMAC-SHA256 hex digest is a function-valued
  parameter (`HmacHex`), because the hash itself is not modelled.
- `Strings` (strings.dfy): `str.split(',')` and `string.strip`, with their round trip and idempotence.
- `Locations` (locations.dfy): the `City` record, the parsing of one configuration entry, and the
  table-building loop. The loop is proved against a specification function, `LocationTable`.
- `Relay` (relay.dfy): the `visitor` handler, split into its stages:
  - `Visitor`: lookup, form, signature and status checks;
  - `SignIn`: decoding of the entry;
  - `ArchivePhoto`: photo fetch and S3 write;
  - `Publish`: submit and IRC.

  Foreign libraries are the function fields of a `Libraries` record (HMAC, `json.loads`, `strptime`,
  the pytz conversion, the two `str.format` templates). The answers of the network services are a
  `World` record. The calls the handler makes are returned as a `Calls` record with one slot per
  service. The handler calls each service at most once, in the fixed order fetch, store, submit,
  chat, so the precedence facts in the contracts capture that order.

Three behaviours of the code are worth noting, and the model follows each of them:

- An unknown location is a `KeyError` on the location table, so Flask answers 500, not 404 or 400.
- A missing `photo_url` or `id` in the entry (a `KeyError`, modelled as `MissingEntryKey`), a photo
  fetch that raises, a failed S3 write, a submit that raises and an IRC send that raises all
  propagate as 500.
- A photo status other than 200 leads to a text-only self post with empty text. It does not lead to
  a link post to a default image.

## Model

| member | source | states |
|---|---|---|
| Bitwise.Xor | moneypenny.py:81 | `a ^ b` on non-negative integers is zero exactly when `a == b` |
| Bitwise.Or | moneypenny.py:84 | bitwise or of `a` and `b` is zero exactly when both operands are zero, so once the accumulator is non-zero it stays non-zero |
| Compare.AccumulatedZero | moneypenny.py:79-84 | after `n` iterations the accumulator is zero iff the lengths are equal and the first `n` characters agree; a length mismatch seeds a non-zero value that no later iteration clears |
| Compare.ConstantTimeCompare | moneypenny.py:72-85 | returns true iff `actual == expected`, so an empty `expected` matches only an empty `actual`; runs exactly `len(actual)` iterations when `expected` is non-empty and none otherwise; iteration `k` reads `expected[k % len(expected)]`, always in bounds; the positions read depend only on the two lengths |
| Signature.SignedMessage | moneypenny.py:90 | the signed message is the timestamp followed by the token: its first `len(timestamp)` characters are the timestamp and the rest is the token |
| Signature.VerifyMessage | moneypenny.py:87-92 | true exactly when the signature equals the HMAC-SHA256 hex digest, keyed by the API key, of timestamp + token |
| Signature.TamperedSignatureRejected | moneypenny.py:87-92 | changing any single character of a valid signature makes it invalid |
| Signature.BoundaryNotAuthenticated | moneypenny.py:90 | the signature does not bind where the timestamp ends and the token begins: moving the timestamp's last character to the front of the token keeps a valid signature valid |
| Strings.Split | moneypenny.py:56 | `info.split(",")` yields one more piece than there are commas, and no piece contains a comma |
| Strings.JoinSplit | moneypenny.py:56 | joining the pieces of a split with the separator gives back the original string |
| Strings.SplitJoin | moneypenny.py:56 | splitting a join of separator-free pieces gives back the pieces |
| Strings.Strip | moneypenny.py:56 | `string.strip` returns a substring of its input that has only whitespace before and after it and neither starts nor ends with whitespace |
| Strings.StripIdempotent | moneypenny.py:56 | stripping twice is the same as stripping once |
| Locations.ParseCity | moneypenny.py:54-58 | an entry becomes a City iff its value has exactly one comma; otherwise `City(*data)` gets the wrong number of fields; the City's name and timezone are the stripped text before and after that comma, and its code is the entry's key |
| Locations.BuildLocationTable | moneypenny.py:53-58 | the loop that fills `location_db` produces exactly `LocationTable(items)`: the table, or the error of the first bad entry |
| Locations.FillOkIff | moneypenny.py:55-58 | the loop finishes iff every entry parses |
| Locations.FillFirstError | moneypenny.py:55-58 | a failed loop stops at, and reports, the first entry that does not parse |
| Locations.FillKeys | moneypenny.py:55-58 | the table's keys are the keys already present plus the keys of all entries |
| Locations.FillCodes | moneypenny.py:57-58 | every City in the table has its own key as its code |
| Locations.FillLastWins | moneypenny.py:58 | when a key occurs more than once, the last entry with that key decides its City |
| Locations.FillUntouched | moneypenny.py:58 | a key that no entry mentions keeps its value |
| Locations.LocationTableFacts | moneypenny.py:53-58 | the location table is built iff every value has exactly one comma; its keys are the configured keys; each City's code is its key; the last entry for a key wins; a failed build reports the first bad entry |
| Relay.FirstMissing | moneypenny.py:101-105 | the form fields are read in the order entry, status, timestamp, token, signature, and the first absent one is the one reported |
| Relay.ObjectKey | moneypenny.py:127 | the object key is the location code, "/", the entry id and ".jpg", laid out in that order |
| Relay.ObjectKeyInjective | moneypenny.py:127 | for locations whose code has no "/", different (code, id) pairs give different object keys |
| Relay.ConfiguredObjectKey | moneypenny.py:53-58 | when the handler's table is the one built from the configuration, every accepted location is a configured key and its photos are stored under "<location>/<id>.jpg", because each City's code is its own key |
| Relay.PublicUrl | moneypenny.py:137 | the image URL is "http://s3.amazonaws.com/", then the bucket, then "/", then the object key |
| Relay.PostArguments | moneypenny.py:150-151 | exactly one of `text` and `url` is given; `text` is `''` exactly when there is no image, and `url` is the image URL |
| Relay.Visitor | moneypenny.py:99-168 | lookup of the location comes first (an unknown location is a 500 even for a bad signature); a missing form field is a 400 naming the first missing one; a bad signature is a 400; a non-`sign_in` status replies ""; in all four cases no outside service is called; any call implies the request was admitted, and an admitted request obeys every sign-in rule stated for `SignIn` |
| Relay.SignIn | moneypenny.py:115-168 | (stated with `VisitorName`, the entry's `your_full_name` or None as at moneypenny.py:121, and `CanonicalLink`, the submit result or its `short_link` as at moneypenny.py:152-158) an entry that does not decode, a missing or unparsable `signed_in_time_utc`, an unknown timezone and a missing `photo_url` are each a 500 with no outside call; otherwise the entry's `photo_url` is fetched; a fetch that raises, a 200 for an entry without `id` and a failed write are 500s before the submit, and in every other case the announcement is submitted; a store happens only after a 200, as a public-read JPEG under code/id.jpg; the post links to that object's public URL after a 200 and is a self post with empty text otherwise; the title is `link_format` of the local sign-in time, the location and the visitor name; the IRC message follows a submit that returned, is sent exactly when a channel is configured and is `message_format` of the same time, location, name and the link; the reply is the canonical link when the submit returns and IRC (if configured) delivers; an IRC send that raises is a 500, and so is a submit that raises |
| Relay.ArchivePhoto | moneypenny.py:123-141 | the photo named in the entry is fetched; on status 200 it is stored under the object key and the image URL is its public URL; on any other status there is no image URL and nothing is stored; the failure is exactly: a missing `photo_url` (nothing fetched), a fetch that raises, a 200 for an entry without `id`, or a failed write (after the write was attempted); when none of these holds there is no failure; a failure leaves no image URL |
| Relay.Publish | moneypenny.py:143-168 | (stated with `CanonicalLink`, the submit result when it is a string and its `short_link` otherwise, as at moneypenny.py:152-158) the submit gets the title and the post arguments (`text == ''` iff no image); the link is the submit result when it is a string, else its `short_link`; the IRC message is formatted with that link and sent exactly when a channel is configured and the submit returned; the reply is the link unless the IRC send raises, which is a 500; a submit that raises is a 500 with no IRC message |

## Left out

- Flask routing, `request.form`, `abort` and the health endpoint (moneypenny.py:94-96). They are framework plumbing. The form is a map, and `abort(400)` and uncaught exceptions are `Abort(status, cause)` responses.
- Reading the configuration file and setting up the clients at import time (moneypenny.py:26-50, 60-70). These are I/O and foreign libraries. The values are an immutable `Config` record; `ConfiguredFrom` ties its location table to `LocationTable` of the configuration entries. The configuration parser lower-cases option names and merges in a DEFAULT section. Neither is modelled: the entries are given as the parser returns them.
- HMAC-SHA256 and its hex encoding (moneypenny.py:88-91). They are a library call and become a function parameter. Nothing is proved about the digest itself.
- `json.loads`, `datetime.strptime` and the pytz conversion (moneypenny.py:115-120). They depend on library parsing and the tz database. They are function parameters that may fail. Entry values are modelled as strings only; JSON numbers, lists and nested objects are not modelled.
- The `link_format` and `message_format` templates (moneypenny.py:143-147, 161-166). They are `str.format` calls and become opaque total functions. A template that raises while formatting is not modelled.
- The network calls: photo fetch, S3 write, subreddit submit, IRC send (moneypenny.py:124-136, 151, 167). Their answers come from the `World` record. The photo bytes, the HTTP headers and the boto connection are not modelled. Only the bucket, key, content type and ACL of the write are recorded.
- Logging calls.
- Concurrency between requests. Each request is modelled on its own.
- Timing itself. The comparison's independence from content is stated as the sequence of positions it reads, not as elapsed time.
- Characters are Dafny `char` values, and `ord` is their code point. The difference between Python 2 byte strings and unicode strings is not modelled.
