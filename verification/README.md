# Poseidon upload bot: a Dafny model

This project models the core of `bot.js`, a Node.js bot. For every bearer token in
`bearer.txt` it logs in to the Poseidon campaign API, optionally through a proxy from
`proxy.txt`. It then works through the scripted audio campaigns. Each upload attempt:

1. fetches a script;
2. synthesizes speech for it;
3. obtains a presigned upload slot and PUTs the audio there;
4. confirms the upload;
5. re-reads the campaign quota.

Every HTTP call goes through `requestWithRetry`. That function allows a bounded number
of attempts and grows a multiplicative backoff between them. A 429 resets the backoff
to 30 s, and a 400 or 404 ends the call at once.

The model is pure and functional. The network, the speech synthesizer, the clock,
`Math.random` and SHA-256 are replaced as follows:

- every remote answer comes from a scripted oracle: `Outcome` sequences for
  `requestWithRetry`, and `AttemptOracle` / `CampaignScript` / `AccountScript` for the
  workflow;
- random rolls are parameters in [0, 1);
- the hex digest is a function parameter `digest`.

Waits are recorded, not taken:

- the backoff sleeps of a request, in milliseconds;
- the 15 s waits of the upload loop;
- the cooldowns between campaigns;
- the 5 s pauses between accounts.

Modules, in dependency order:

- `Common`: `Option` (JavaScript's `null` / `undefined`), JavaScript truthiness of an
  optional string, and `Math.min`.
- `Lines`: reading the token and proxy files. The text is split on `'\n'`, each piece
  is trimmed with ECMAScript's white-space set, and empty pieces are dropped.
- `Request`: the `requestWithRetry` state machine, with an independent
  `ScheduledSleep` definition of the backoff schedule.
- `Network`: proxy agent selection, the header set and `getAxiosConfig`.
- `Language`: the `mr`/`ur` to `hi` substitution and the language-name table.
- `Gateway`: the API wrappers built on `requestWithRetry`, and a corrected
  `fetchUserInfo` (see Findings).
- `Workflow`: one upload attempt, the per-campaign upload loop, the campaign loop
  with its counters and cooldowns, and `processToken` as written, together with a
  variant built on the corrected `fetchUserInfo`.
- `Cycle`: `initializeConfig` and the account loop of `runCycle`, with round-robin
  proxies.

Two behaviours of the code are easy to misread; the model follows the code:

- **The 15 s wait in the upload loop.** One might expect the wait to be skipped when
  no further attempt follows. The code waits whenever the re-fetched quota is
  positive, even when the attempt bound then ends the loop (`Workflow.WaitBeforeBoundEnds`).
- **Campaigns with no language.** A campaign that lists no language is not worked on
  in some degraded way. The log line that reads `langName.length` throws a
  `TypeError`, so `processToken` ends for that account (`Workflow.CampaignReport.Crashed`).

## Model

| member | source | states |
|---|---|---|
| Lines.Trim | bot.js:33 | the result has no white space at either end; it is empty exactly when the line is all white space; and it is the line's characters from the first non-space one on, in order |
| Lines.TrimIsUnique | bot.js:33 | any white space, then a trimmed middle, then white space, trims to exactly that middle |
| Lines.Split | bot.js:33 | splitting on `'\n'` gives at least one piece, and no piece contains `'\n'` |
| Lines.JoinSplit | bot.js:33 | joining the pieces with `'\n'` gives back the file text |
| Lines.SplitJoin | bot.js:33 | splitting joined lines that contain no `'\n'` gives back the lines |
| Lines.NonEmptyMembers | bot.js:33 | the length filter keeps a line exactly when it is present and non-empty |
| Lines.ParseLines | bot.js:30-38 | every entry read is non-empty and trimmed, and there are no more entries than lines |
| Lines.ParseUnlines | bot.js:40-48 | a file written one well-formed entry per line reads back as exactly those entries, in order |
| Lines.NonEmptyAppend | bot.js:33 | the length filter distributes over concatenation, keeping the order |
| Lines.NonEmptySingle | bot.js:33 | a single line is kept exactly when it is not empty |
| Lines.ParseJoined | bot.js:30-38 | a file of arbitrary lines reads as its lines trimmed, with the empty ones dropped, in file order |
| Lines.ParseLinesAppend | bot.js:30-48 | the entries of a file are those of its first lines followed by those of the rest, so blank or padded lines never reorder the entries |
| Lines.BlankFileHasNoEntries | bot.js:30-38 | a file of blank or white-space-only lines yields no tokens |
| Request.Supported | bot.js:130-137 | a method is dispatched exactly when it spells `get`, `post` or `put` with any of its letters in upper case, character by character; every other method throws |
| Request.LowerAsciiSpells | bot.js:130-135 | lower-casing a method gives a lower-case word exactly when the method spells that word in some mix of cases |
| Request.SupportedExamples | bot.js:130-137 | `GET`, `Post` and `pUt` are dispatched; `HEAD`, `dele`, `patch` and the empty method are not |
| Request.AttemptOutcome | bot.js:130-137 | for a dispatched method the attempt sees the network's answer; otherwise it sees the thrown `Method <m> not supported` error, which has no status, is not a 429 and is retried |
| Request.Seen | bot.js:126-137 | the attempts see one outcome each, in order, every one as `AttemptOutcome` describes it |
| Request.RetryFrom | bot.js:126-156 | the call resolves to `undefined` exactly when the attempt budget is spent before the first attempt; every attempt except the last was a retryable failure; the last attempt decides the result (success body, the 'Bad request' default or body message on 400/404, or the last error after exactly `retries` attempts); there is one sleep fewer than attempts |
| Request.RequestWithRetry | bot.js:126-156 | result undefined iff `retries <= 0`; at most `retries` attempts; one sleep between consecutive attempts; sleep k equals the independently defined schedule `ScheduledSleep(k)` |
| Request.SleepAt | bot.js:141-152 | sleep k of the run from attempt i is the schedule's sleep after attempt i + k |
| Request.GeometricWithoutRateLimit | bot.js:148-151 | with no 429, sleep k is `b * 1.5^k` for initial backoff b |
| Request.RateLimitRestartsSchedule | bot.js:142-151 | after a 429 at attempt j, sleep k is `30000 * 1.5^(k - j)` until the next 429 |
| Request.RateLimitThenGrowth | bot.js:142-151 | the sleep after a 429 is 30 000 ms, and the next one is 45 000 ms unless that attempt is rate limited too |
| Request.TerminalStopsImmediately | bot.js:145-147 | a 400 or 404 at attempt k ends the call after k + 1 attempts and k sleeps, with that status and the body message or 'Bad request' |
| Request.ExhaustedRetries | bot.js:148-153 | when every attempt fails retryably, exactly `retries` attempts and `retries - 1` sleeps are made, and the last error's message and status are returned |
| Request.UnsupportedMethodIsRetried | bot.js:130-137 | an unsupported method throws inside the `try`, has no status, and is retried with geometric backoff until the budget is spent |
| Request.ZeroRetriesIsUndefined | bot.js:126-156 | with `retries = 0` no attempt is made and the call resolves to `undefined` |
| Request.GatewayBudgetBounds | bot.js:201-306 | the gateway budget of 3 attempts from 5 s always resolves to a defined response, after at most 75 s of backoff in total |
| Network.NewAgent | bot.js:82-90 | the HTTPS agent exactly for `http://` and `https://` URIs, the SOCKS agent exactly for `socks4://` and `socks5://` URIs, `null` otherwise |
| Network.SchemeDecidesAgent | bot.js:82-90 | the agent depends only on the scheme, matched case-sensitively |
| Network.UserAgentIndex | bot.js:78-80 | `floor(roll * 4)` is a valid index into the four user agents |
| Network.EveryUserAgentReachable | bot.js:78-80 | every user agent can be chosen |
| Network.GlobalHeaders | bot.js:92-112 | the twelve fixed browser headers are present with their values; the user agent is one of the four; an `authorization: Bearer <token>` header is present exactly when the token is truthy; no other key |
| Network.AxiosConfig | bot.js:114-124 | 60 s timeout and the global headers; axios' own routing when the proxy is falsy; a tunnel through the agent when the scheme is known; a direct connection with proxying off otherwise |
| Network.UnknownSchemeGoesDirect | bot.js:114-124 | a proxy with an unknown scheme is silently ignored and the request goes out directly |
| Network.PublicIpConfig | bot.js:158-161 | the public-IP lookup carries no authorization header and uses the same route as the account's requests |
| Language.SynthesisLanguage | bot.js:54-56 | `mr` and `ur` are spoken as `hi`; every other language (or none) is passed through; the result is never `mr` or `ur` |
| Language.SynthesisLanguageIdempotent | bot.js:54-56 | applying the substitution twice is applying it once |
| Language.LanguageName | bot.js:178-198 | the table's display name for a known code, the code itself otherwise |
| Language.NameIsCodeOnlyWhenUnknown | bot.js:178-198 | a code is displayed as itself exactly when the table does not know it |
| Gateway.PublicIp | bot.js:158-167 | the looked-up address when a non-empty one came back, 'Unknown' otherwise |
| Gateway.FetchUserInfoAsWritten | bot.js:201-223 | success iff the profile request succeeded; on failure the error message is kept but the status is always absent |
| Gateway.AuthFailureStatusLost | bot.js:213-221 | a profile request refused with 404 reports no status as written, and 404 once corrected |
| Gateway.FetchUserInfo | bot.js:201-223 | success iff the profile request succeeded; name, points and wallet (or 'N/A') on success; 'Unknown', no points, 'N/A', the error message and the HTTP status on failure |
| Gateway.FirstLanguage | bot.js:430 | a campaign's working language is its first listed language, and there is none exactly when the list is empty |
| Gateway.FilterEligible | bot.js:231 | the kept campaigns are all scripted audio campaigns and no more than were listed |
| Gateway.FilterEligibleMembers | bot.js:231 | a campaign is kept exactly when it is listed and eligible |
| Gateway.FilterEligibleAppend | bot.js:231 | filtering distributes over concatenation, keeping the order |
| Gateway.FetchCampaigns | bot.js:225-235 | on success the filtered list, on failure the error message |
| Gateway.FetchQuota | bot.js:237-247 | the server's remaining and cap on success; remaining 0, cap 0 and the error message on failure |
| Gateway.FailedQuotaSkips | bot.js:237-247 | a quota that could not be fetched always skips the campaign, even when the error message is empty and so falsy |
| Gateway.OrNull | bot.js:249-276 | the response body exactly when the request succeeded, `null` otherwise |
| Gateway.PutSucceeded | bot.js:278-294 | the upload reports success exactly when the PUT succeeded |
| Workflow.AttemptEndOf | bot.js:459-514 | the confirm step is reached exactly when script, synthesis, presign and PUT all succeed; the attempt completes exactly when confirm also succeeds; the re-fetched remaining is what the re-quota returned |
| Workflow.AttemptCalls | bot.js:459-514 | an attempt makes 1 to 6 calls; it starts with the script request in the campaign's first language; it sends a confirm and re-fetches the quota exactly when script, synthesis, presign and PUT all succeeded; it stops at the first failing step, with 1, 2, 3, 4 or 6 calls after a failed script, synthesis, presign, PUT or a reached confirm; the second call synthesizes the script's text in the campaign's first language, remapped only for `mr` and `ur` (so `en` is spoken as `en`); the third is the presign request for that file name and assignment; the fourth is the PUT of the buffer to the slot; after a reached confirm the last is the re-quota; it never asks the synthesizer for `mr` or `ur` |
| Workflow.ConfirmDescribesUpload | bot.js:492-513 | the confirm payload carries the size and digest of the bytes that were PUT, and the file name, object key, file id and campaign of the slot; the quota is re-fetched after it |
| Workflow.FailedConfirmIsAFailure | bot.js:504-510 | when confirm fails the attempt is not completed although the PUT went out |
| Workflow.UploadLoop | bot.js:452-520 | attempts = completed + failed; no attempt when quota is exhausted or the bound is reached; otherwise at least one attempt and at most `min(cap, 3)` |
| Workflow.LoopCountsUploads | bot.js:452-520 | the loop's upload counter equals the number of attempts made whose every step succeeded |
| Workflow.LoopCountsWaits | bot.js:514-519 | the number of 15 s waits equals the number of attempts made whose re-quota showed quota left |
| Workflow.LoopStopsWhenExhausted | bot.js:456-520 | the loop ends exactly at its bound or right after a re-quota that found no quota left, and never earlier |
| Workflow.WaitBeforeBoundEnds | bot.js:514-519 | with cap 1 and quota left after the single attempt, the loop still waits 15 s, then ends on its bound |
| Workflow.RunCampaign | bot.js:428-456 | a campaign without a language aborts; one with a quota error or no quota left is skipped; otherwise it makes between 1 and `min(cap, 3)` attempts (none when cap <= 0), each counted as completed or failed |
| Workflow.SkippedCampaignMakesNoCalls | bot.js:433-447 | a skipped or aborted campaign makes no call beyond the quota fetch |
| Workflow.AllSucceedUsesFullCap | bot.js:456-520 | when every step succeeds and quota remains, exactly `min(cap, 3)` attempts are made and all complete |
| Workflow.RunCampaigns | bot.js:428-527 | one report per campaign reached, each that campaign's own result; the loop stops at the first campaign without a language; attempted = completed + failed |
| Workflow.RunCampaignsCounts | bot.js:423-527 | skipped equals the number of campaigns whose quota says skip; attempted is at most 3 per campaign worked on; one cooldown follows every campaign worked on except the last of the list |
| Workflow.RunCampaignsTotals | bot.js:423-527 | attempted, completed and failed equal the sums of the attempts, uploads and failures of the upload loops of the campaigns reached, so completed grows only with a campaign's upload counter |
| Workflow.SingleUploadScenario | bot.js:423-527 | one campaign with remaining 1 and cap 1 and a fully successful attempt gives attempted 1, completed 1, skipped 0, failed 0 and no cooldown |
| Workflow.ProcessToken | bot.js:373-537 | authentication fails exactly when the profile request fails, with its error message and never a status (so the report shows 'Unknown'); the totals are the sums of the campaigns' loop counts; the listing fails exactly when the campaigns request fails; otherwise the run is the campaign loop over the eligible campaigns and their own oracles, each report that campaign's own result; the account aborts exactly when one of them lists no language, after reporting the campaigns up to and including the first such one; skipped plus worked-on equals campaigns found |
| Workflow.ProcessTokenCorrected | bot.js:381-394 | with the status kept by the corrected `fetchUserInfo`, an authentication failure carries the profile request's HTTP status; every other account report is that of `processToken` |
| Workflow.AccountAuthStatusLost | bot.js:381-394 | an account whose profile request is refused with 404 is reported with no status as written, and with 404 once corrected |
| Workflow.CooldownSeconds | bot.js:324-327 | the cooldown is between 240 and 450 s |
| Workflow.EveryCooldownReachable | bot.js:324-327 | every value from 240 to 450 s can occur |
| Cycle.InitializeConfig | bot.js:352-371 | the tokens and proxies are the entries of their files, none when a file cannot be read, every one non-empty and trimmed |
| Cycle.ReadEntries | bot.js:29-48 | an unreadable file gives no entries; every entry is non-empty and trimmed |
| Cycle.NoTokensNoCycle | bot.js:539-544 | a missing or blank token file makes the cycle do nothing |
| Cycle.ProxyFor | bot.js:547 | no proxy exactly when the proxy list is empty, otherwise one of the listed proxies |
| Cycle.ProxiesRotate | bot.js:547 | accounts i and i + n use the same proxy, for n proxies |
| Cycle.FirstAccountsUseProxiesInOrder | bot.js:547 | account i < n uses proxy i |
| Cycle.EveryProxyUsed | bot.js:546-556 | with at least as many accounts as proxies, every proxy is used by some visit |
| Cycle.RunCycle | bot.js:539-557 | no steps without tokens; otherwise visits and 5 s pauses alternate, starting and ending with a visit; step 2m visits account m with its token and its round-robin proxy |
| Cycle.EveryAccountVisitedOnce | bot.js:546-556 | the visits are exactly the tokens, in file order, and the cycle pauses 5 s times (accounts - 1) in total |
| Cycle.ThreeAccountsTwoProxies | bot.js:546-556 | three accounts and two proxies give p1, p2, p1 with two 5 s pauses |

## Left out

- Network I/O: axios, the proxy agents, gTTS and its 30 s synthesis timeout. They are
  oracles. A synthesis failure or timeout is one `None` audio buffer.
- Console output: colours, the banner, the countdown display and the per-account
  summary lines.
- The clock: `Date.now()` in the upload file name is part of the attempt oracle. The
  24-hour loop of `run` (bot.js:559-569) is left out; it repeats `runCycle` forever.
- `Math.random`: it becomes a `roll` parameter in [0, 1). `crypto`'s SHA-256 hex digest
  becomes the `digest` parameter.
- `fs.readFile` is an `Option<string>` per file.
- Request.RequestWithRetry: it takes `retries <= |outcomes|`. This bounds the length of
  the network oracle and is not a demand of the program.
- Workflow.RunCampaigns: it takes `Covers`, which gives every campaign an oracle with
  at least three attempts. This bounds the oracle and is not a demand of the program.
- Workflow.ProcessToken: it takes `Covers`, for the same reason.
- Workflow.ProcessTokenCorrected: it takes `Covers`, for the same reason.
- Workflow.RunCampaign: it takes at least three attempt oracles (`AttemptCap <=
  |s.attempts|`). This bounds the oracle and is not a demand of the program.
- Request.LowerAscii: `toLowerCase` is modelled on ASCII letters only. No other
  character lower-cases to a letter of `get`, `post` or `put`, so method recognition
  is unaffected.
- Response bodies are treated as the program's code paths treat them. The profile has
  a name, points and an optional wallet. The quota is `remaining` and `cap` as
  integers. A body that is missing or badly typed, or that carries its own `error`
  field, is not modelled; neither is a `cap` that is not a number and so makes
  `Math.min` return `NaN`.
- Language.LanguageName: the lookup on a JavaScript object also finds inherited keys
  such as `constructor`. The model's table is a plain map.
- Strings are sequences of Unicode scalar values, not UTF-16 code units. This makes no
  difference to the prefixes, separators and white space the program tests.
- Exceptions other than the missing-language `TypeError` are not modelled. This covers
  `processToken` exceptions caught by `runCycle`, and agent constructors rejecting a
  malformed proxy URI. `getAxiosConfig` is evaluated inside the `try` of every
  gateway call, so such a proxy makes `getPublicIP` show 'Error retrieving IP' and
  makes `fetchUserInfo` fail (bot.js:202-203), so every account using that proxy
  fails authentication; the same throw would hit every other gateway call. The model
  expresses this only through a profile oracle that answers with a failure without
  status.
- The public-IP lookup of `processToken` (bot.js:376-379) only feeds a log line. It is
  modelled by `Network.PublicIpConfig` and `Gateway.PublicIp`, not as a workflow step.

## Findings

| source | as written | input that shows it | evidently intended | confidence | as-written member | corrected member |
|---|---|---|---|---|---|---|
| bot.js:213-221 | the `catch` of `fetchUserInfo` reports `status: error.status`, where `error` is the `Error` the `try` built from the message alone, so the status is always `undefined` and the authentication-failure report always prints 'Unknown' as the error code | a profile request answered with HTTP 404 | report the status of the failed request (`res.status`) | not executed | Gateway.FetchUserInfoAsWritten and Workflow.ProcessToken (with Gateway.AuthFailureStatusLost and Workflow.AccountAuthStatusLost) | Gateway.FetchUserInfo and Workflow.ProcessTokenCorrected |
