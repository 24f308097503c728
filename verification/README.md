# docker-drive-web registry proxy core, in Dafny

docker-drive-web keeps files in a Docker registry. A file is stored as an image blob. A database of records describes the folders and files, and the web front end shows them as a tree. The server exists in two near-identical copies:

- `server.js` serves several upstream repositories, chosen by the `repo` query parameter;
- `server/server.js` serves a single repository.

This project models the logic that both copies share, not the HTTP plumbing around it:

- **Configuration** (`Config`):
  - the repository list read from the `url` and `account` settings;
  - the database name derived from an origin (`dbName`);
  - the repository index taken from `?repo=` (`(parseInt(repo) || 1) - 1`).
- **Challenge negotiation** (`Challenge`), the front half of `getToken`:
  - the start-anchored match of a `WWW-Authenticate: Bearer realm="…",service="…"[,scope="…"]` challenge, as in section 3 of RFC 6750 and the Docker Registry v2 token authentication flow;
  - building the token endpoint URL by plain concatenation;
  - the one request to that endpoint, with Basic authorization when a secret is configured.
- **The authenticated sender** (`Sender`), which is `requestSender`:
  - one attempt with the cached Bearer token;
  - on a 401, one negotiation of a new token, storing it when it is usable, and one retry.

  The network is a script of three outcomes: the attempt, the token endpoint call and the retry. The result is the response, `NeedLogin(header)`, `AuthFailed` (the source's `'认证失败'`) or the first attempt's own error rethrown unchanged. The two copies combine the caller's options with the defaults differently, so the merge is a parameter:
  - `Layered` is `got.extend(defaults).extend(options)`;
  - `Assigned` is `Object.assign(defaults, options)`.
- **The blob locator** (`Blob`), which is `getDownloadURL`: the blob URL and `repository` header built from the first three `/`-segments of the origin, a request that does not follow redirects, and the raw `location` header of the answer.
- **The manifest tree builder** (`ManifestTree`), which is `parseDatabaseConfig`. It works in two passes over the flat record list:
  - the first pass assigns ids 1..n and indexes folders by `uuid`, where a later duplicate wins;
  - the second pass appends every record either to the top level (parent token `root`) or to its parent folder's `files`.

  An unknown parent token is a fault, and then no tree is returned. Nested lists are modelled as lists of input positions, so cyclic folder links need no special treatment.

`Strings` gives the JavaScript string built-ins the code uses: `split` on one character, `join`, and global `replace` of one character. It also gives `Find`, a first-occurrence search used to define `split`. The challenge pattern that `match` applies is written out by hand in `Challenge`. `Http` gives the shapes of requests, responses and call outcomes. `Basics` gives `Option` and `Result`.

## Model

| member | source | states |
|---|---|---|
| Config.SecretIffAccount | server/server.js:20-23 | with an encoder that keeps non-empty text non-empty, a secret is set exactly when an account is |
| Config.Origins | server.js:24-27 | the listed origins are non-empty and hold no line feed or carriage return, and concatenated they are the setting with its line breaks deleted; OriginsAppend and OriginsOfLine fix where the lines break |
| Config.OriginsAppend | server.js:27 | origins break exactly at line feeds: a setting made of two parts at a line feed lists the origins of the first part followed by those of the second, whatever the parts hold |
| Config.OriginsOfLine | server.js:27 | a single line lists itself with its carriage returns deleted, and a line that is blank after that deletion lists nothing, which is the case `.filter(e => e)` drops |
| Config.OriginsRoundTrip | server.js:27 | when no line is empty, joining the origins with line feeds restores the setting minus its carriage returns |
| Config.Repositories | server.js:23-35 | there is one repository per origin, in order; all of them share the secret, use the database and start with no token |
| Config.SingleRepository | server/server.js:10-23 | the single repository takes the `url` setting whole, with no line splitting; its url is empty exactly when the setting is absent or empty; its secret follows the account |
| Config.DatabaseName | server/server.js:80 | mangling keeps the length, leaves no `/` or `.`, turns `/` into `-` and `.` into `_`, and changes no other character |
| Config.DatabaseNameIdempotent | server.js:97 | mangling a mangled name changes nothing |
| Config.DatabaseNameCollides | server.js:97 | two different origins can get the same database name |
| Config.RepoIndex | server.js:216 | the index is never -1; an absent or non-numeric `repo` gives 0 |
| Config.RepoIndexDecimal | server.js:216 | `?repo=n` gives index n - 1 for n >= 1, and `?repo=0` or no parameter gives 0 |
| Config.ParseIntDecimal | server.js:216 | `parseInt` reads a decimal numeral back as its number |
| Config.NegativeRepoSelectsNothing | server.js:216-217 | a negative `repo` selects no repository |
| Config.SelectNth | server.js:216-217 | `?repo=n` picks the n-th configured repository, one-based, whenever there is one |
| Config.SelectDefault | server.js:216-217 | without `?repo=` the first repository is picked, and nothing when none is configured |
| Challenge.Parse | server.js:108 | a parsed challenge never has a double quote inside its realm, service or scope |
| Challenge.ParseSound | server.js:108 | a parsed challenge is written at the very start of the header; when no scope was parsed, no complete scope parameter follows |
| Challenge.ParseComplete | server/server.js:90 | every well-formed challenge is recovered from its header text, whatever follows it |
| Challenge.TokenUrl | server.js:107-111 | an absent or empty header fails as a missing header; otherwise the URL is `realm?service=S` of a parsed challenge whose realm and service are non-empty |
| Challenge.TokenUrlOfChallenge | server.js:108-122 | the header of a well-formed challenge yields its endpoint exactly when realm and service are non-empty, and is invalid otherwise |
| Challenge.TokenUrlRejectsOtherSchemes | server/server.js:90-103 | a non-empty header that does not start with `Bearer realm="` is invalid |
| Challenge.ServiceRoundTrip | server.js:110-111 | the query after `service=` gives back the service and the scope; `&scope=` is added only for a non-empty scope |
| Challenge.EndpointRoundTrip | server.js:110-111 | realm, service and scope are read back from the endpoint URL when the realm has no `?` and the service has no `&` |
| Challenge.EndpointAmbiguous | server/server.js:92-93 | without escaping, a service containing `&scope=x` gives the same URL as a separate scope `x` |
| Challenge.TokenRequest | server.js:112-118 | the token request goes to the endpoint with a ten-second timeout; it carries `Authorization: Basic <secret>` exactly when a secret is configured, and no other header |
| Challenge.Negotiate | server.js:106-123 | the token endpoint is called exactly when the header yields a URL, and with the token request for that URL; with no call, an absent or empty header is HeaderMissing and any other header ChallengeInvalid; a delivered answer gives its `token` field, possibly missing, and a thrown call is a fetch failure |
| Sender.DefaultHeaders | server.js:127-133 | the default headers hold `Authorization: Bearer <token>` exactly when a token is cached, and nothing else |
| Sender.ClientRequest | server.js:134 | the first request uses the caller's timeout and redirect policy or the defaults; Layered merges the header maps and the caller's headers win; Assigned takes the caller's headers whole when there are any |
| Sender.Retried | server.js:147-151 | the retry is the same request with `Authorization: Bearer <new token>` and every other header unchanged |
| Sender.Recover | server.js:141-158 | recovery makes a token call only for a valid challenge and retries only with a usable token, which it stores first; a 401 from the token call or the retry is NeedLogin with that response's challenge; every other failure is AuthFailed and is never rethrown |
| Sender.Retry | server/server.js:126-136 | the retry stores the new token; it succeeds exactly when the retry is delivered; a 401 is NeedLogin and anything else is AuthFailed |
| Sender.Send | server.js:125-162 | at most three client calls are made: the attempt, a token call, a retry. A non-401 first outcome is returned or rethrown unchanged and the token is kept. The token changes only to a usable negotiated token. When the retry is made, its delivered response is returned, its 401 is NeedLogin and any other failure is AuthFailed |
| Sender.AttemptsAtMostTwo | server.js:137-151 | one attempt, an optional token call and an optional retry make at most two client calls for the caller's request |
| Sender.LayeredSendsCachedToken | server.js:131-134 | with layered options, the first attempt carries the cached Bearer token exactly when one is cached |
| Sender.AssignedDropsCachedToken | server/server.js:112-115 | with assigned options and caller headers, the first attempt carries no authorization, even when a token is cached |
| Sender.MergesAgree | server/server.js:115 | the two merges give the same request unless the caller passes headers and a token is cached |
| Sender.TokenCarriesOver | server.js:143-145 | a token stored by one call is sent on the first attempt of the next call |
| Sender.MissingTokenKeepsCache | server/server.js:123-125 | a token answer without a `token` field fails with AuthFailed and keeps the cached token |
| Sender.SecondUnauthorizedNeedsLogin | server.js:147-156 | after a 401 with a valid challenge and a usable new token, a 401 on the retry ends in NeedLogin with the retry's challenge after exactly two attempts, and the new token stays stored |
| Blob.Locate | server.js:164-176 | the lookup makes exactly the sender's calls and leaves the sender's token; every attempt is a blob request; the first carries the cached Bearer only under Layered; it fails exactly when the sender fails, with the sender's error; a success is the `location` header of the last delivered response, possibly absent |
| Blob.AttemptsAreBlobRequests | server/server.js:143-153 | both the attempt and the retry ask for the blob URL, with no redirects, the blob timeout and the `repository` header |
| Blob.BlobUrlOfOrigin | server.js:165-169 | for `server/namespace/image[/…]` the URL is `https://server/v2/namespace/image/blobs/digest` and the header is `server/namespace/image`; extra segments are ignored |
| Blob.BlobUrlOfBareHost | server/server.js:144-148 | an origin without `/` gives `undefined` segments in the URL and empty ones in the header |
| Blob.AssignedBlobRequestIsAnonymous | server/server.js:146-153 | the single-repository server's first blob request never carries the cached token |
| Blob.LayeredBlobRequestCarriesToken | server.js:167-174 | the multi-repository server's first blob request carries the cached token |
| ManifestTree.ParentToken | server.js:190 | the parent token is a colon-free prefix of `_id`, followed in `_id` by `:` when shorter |
| ManifestTree.ParentTokenIsFirstPiece | server/server.js:169 | the token is the first piece of `_id.split(':')` |
| ManifestTree.ParentTokenOf | server.js:190 | an `_id` of the form `parent:rest` names `parent` |
| ManifestTree.FolderIndex | server.js:184-188 | every indexed key leads to a folder with that key, and every folder's key is indexed, at or after that folder; the last duplicate wins |
| ManifestTree.TargetsAreFolders | server.js:192 | a record is only ever placed into a folder record |
| ManifestTree.Number | server.js:181-188 | the first pass gives the k-th record id k, gives exactly the folders an empty `files`, and indexes every folder |
| ManifestTree.Distribute | server.js:189-193 | the second pass succeeds exactly when every record's parent is `root` or a known folder; each list then holds the records placed there, in input order; otherwise it stops at the first record with an unknown parent |
| ManifestTree.BuildTree | server/server.js:157-175 | the whole build succeeds exactly when every record has a known parent, and it then gives the tree built from the records; a failure names the first record with an unknown parent token |
| ManifestTree.MembersExact | server.js:191-192 | a record is in a list exactly when its parent token names that list |
| ManifestTree.MembersIncreasing | server.js:189-193 | every list is in input order, without repetition |
| ManifestTree.PlacedOnce | server/server.js:168-172 | in a built tree every record appears exactly once in the list it targets and in no other list |
| ManifestTree.Reachable | server.js:189-196 | when the folder links are acyclic, every record can be reached from the top level through `files` lists |
| ManifestTree.ExampleTargets | server.js:190-192 | `root:1` goes to the top level and `u1:2` into the folder with uuid `u1` |
| ManifestTree.FolderWithOneFile | server.js:178-197 | a top-level folder holding one file builds into the folder with id 1 at the top and the file with id 2 inside it |
| Strings.Split | server.js:27 | `split` gives at least one piece, and no piece contains the separator; there is a single piece exactly when the separator is absent, and that piece is the whole string |
| Strings.SplitAppend | server.js:27 | splitting at a separator placed between two strings gives the pieces of the first followed by the pieces of the second |
| Strings.JoinSplit | server.js:27 | joining the pieces of a split restores the string |
| Strings.SplitJoin | server.js:165 | splitting a join of separator-free pieces restores the pieces |
| Strings.ConcatSplit | server.js:27 | concatenating the pieces of a split deletes the separators |
| Strings.ReplaceAll | server.js:97 | a global one-character replace keeps the length and changes exactly the matching characters |
| Strings.Remove | server.js:27 | a global delete leaves no occurrence and adds no character |

## Left out

- Express routing, the HTTPS redirect middleware, static files, `errorHandler` and the `/api/*` handlers are framework plumbing. This includes the non-database branch of the manifests handler and the download streaming.
- Cloudant credential loading, `db.create`/`db.use` and `getAll` are calls to a foreign service. The record list is an input.
- `got` itself is left out: real HTTP, JSON body parsing, timeouts and got's own automatic retries. One client call is one outcome of the script, though got may retry a network error or a 5xx answer inside that call. Timeouts are recorded as numbers only. Option merging is reduced to the header maps, the timeout and the redirect flag. The Layered merge is a map union in which the caller's headers win. got's header-name lower-casing is not modelled; the code's own spelling is used consistently.
- Base64 encoding with `Buffer` and reading `repository.json` are I/O. The encoder is a function parameter, and the settings are optional strings.
- Concurrency is left out. Two overlapping requests racing to refresh one cached token are not modelled; the model is one call at a time.
- The digest|size set built at the end of `parseDatabaseConfig` is computed and thrown away, so it is not modelled.
- The builder returns the top-level list. Its items hold their children by reference, which can form cycles. The model returns all items plus the top-level list of positions, and folders hold child positions.
- Config.ParseInt: only ECMAScript white space, an optional sign and a run of decimal digits are read. `parseInt`'s other radix prefixes and its precision limits on huge numbers are left out.
- Records with non-string fields, and folder uuids that collide with `Object.prototype` property names (`__proto__`, `constructor`), are left out. The model treats `mark` as a plain map.
- An out-of-range repository index makes the source throw a `TypeError` when it reads `repositories[id]`. Config.Select reports it as no repository, and the sender is always given the selected repository's token and secret.
- Error mapping in recovery: every failure during recovery other than a 401 becomes `'认证失败'`. That covers a missing header, a bad challenge, an empty token, and a non-401 failure of the token call or of the retry. Only the first attempt's non-401 failures are rethrown unchanged (Sender.Recover, Sender.Send).

## Findings

| source | as written | input that shows it | evidently intended | confidence | as-written member | corrected member |
|---|---|---|---|---|---|---|
| server/server.js:115 | `Object.assign(defaultOptions, options)` replaces the default `headers` object with the caller's, so the cached `Authorization: Bearer` header is dropped whenever the caller passes headers, as `getDownloadURL` always does | a cached token `t != ""` and the options `getDownloadURL` builds: the first blob request has no `Authorization`, so every download costs a 401 and a token negotiation | the first attempt carries `Authorization: Bearer t` alongside the caller's headers, as the layered merge of server.js:131-134 does | medium, not executed | Blob.AssignedBlobRequestIsAnonymous | Blob.LayeredBlobRequestCarriesToken |
