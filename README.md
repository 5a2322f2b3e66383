# YouTube transcript handler — a Dafny model

This project models the decision logic of a small serverless endpoint that
takes a YouTube URL, extracts the video identifier, obtains an HTTP proxy from
a public proxy list, asks a transcript library for captions (directly in a
preferred language order, otherwise through an auto-generated, translatable
track in `bn`, `hi` or `ar` translated to English), and answers with the
captions joined by newlines or with an error and a status code.

Everything the handler gets from outside is an input of the model:

- the decoded proxy-list response (`Proxy.ListResponse`: unreachable, or a
  `data` member that is absent, null, or a list of items);
- the transcript library's answers (`TranscriptFetch.World`: the direct
  fetch's outcome, the list of available tracks, and for each track what
  translating it to English and fetching it gives);
- the HTTP request (`Handler.Request`: method, decoded JSON body, query
  parameters).

Every external call is recorded, in order, in a trace (`TranscriptFetch.Call`)
with the value `requests.request` holds while the call is made; this is how
"the proxy is not consulted" and "no transcript fetch is attempted" are
stated. The replacement of `requests.request` by a proxying function, and
its restoration, is modelled on a `RequestsModule` object.

Modules, one per component of `api/transcript.py`:

- `VideoId` (`video_id.dfy`): `get_video_id` as a leftmost-match search.
- `Proxy` (`proxy.dfy`): the selection loop of `get_proxy`, as a method with a
  loop and a recursive reference definition.
- `TranscriptText` (`transcript_text.dfy`): reading the entries' `text`
  fields and the newline join, with a split that inverts it.
- `TranscriptFetch` (`transcript_fetch.dfy`): the fallback's nested loops,
  the status mapping of `fetch_transcript`, and its `finally` block.
- `Handler` (`handler.dfy`): URL selection by HTTP method and status
  propagation into the response object.
- `Wrappers` (`wrappers.dfy`): `Option`.

## Model

| member | source | states |
|---|---|---|
| `VideoId.FirstMatchFrom` | api/transcript.py:7-8 | the scan returns the first position at or after its start where `v=` or `/` is followed by eleven characters of `[0-9A-Za-z_-]`, and `None` only when no later position matches |
| `VideoId.GetVideoId` | api/transcript.py:6-11 | the result is `None` exactly when no position matches; otherwise it is eleven characters of the class, captured right after the marker of a match that has no match to its left |
| `VideoId.LeftmostMatchDecides` | api/transcript.py:8-10 | any match with no match to its left determines the result (the leftmost match is unique) |
| `VideoId.LongerTokenTruncated` | api/transcript.py:7-10 | a `v=` or `/` followed by eleven or more class characters, with no match before it, yields exactly the first eleven of them |
| `VideoId.TrailingTextIrrelevant` | api/transcript.py:7 | the trailing `.*` sets no boundary: once a URL yields an identifier, appending any text yields the same identifier |
| `VideoId.WatchPageUrl` | api/transcript.py:6-11 | `https://www.youtube.com/watch?v=<id>` followed by anything yields `<id>` |
| `VideoId.ShortLinkUrl` | api/transcript.py:6-11 | `https://youtu.be/<id>` followed by anything yields `<id>` |
| `VideoId.FirstPathSegmentWins` | api/transcript.py:7-10 | on `https://www.youtube.com/`, a first path segment starting with eleven class characters is the result even when a `v=` parameter follows (`/attribution_link?v=...` yields `attribution`) |
| `Proxy.ProtocolOf` | api/transcript.py:24 | the protocol is `http` when the `protocols` key is absent and the list's first element otherwise |
| `Proxy.ProxyFor` | api/transcript.py:26-27 | the `http` and `https` entries are the same string `protocol://ip:port` |
| `Proxy.Select` | api/transcript.py:21-30 | a selected proxy has the same URL for both schemes |
| `Proxy.GetProxy` | api/transcript.py:15-30 | the loop returns what the reference search `Lookup` gives: `None` for an unreachable service or a null `data`, the search over `data` (an absent `data` being empty) otherwise |
| `Proxy.SelectFindsFirstQualifying` | api/transcript.py:21-27 | when item `k` has a truthy ip and port and no item up to it raises or qualifies earlier, the proxy of item `k` is returned |
| `Proxy.SelectOnlyFirstQualifying` | api/transcript.py:21-30 | a proxy is returned only as the proxy of such a first qualifying item, so `None` comes back exactly when there is none |
| `Proxy.EmptyProtocolsAbortSearch` | api/transcript.py:24-29 | an item whose `protocols` is an empty list, met before any qualifying item, makes the whole lookup return `None` |
| `Proxy.NoQualifyingItem` | api/transcript.py:21-30 | with no item whose ip and port are both truthy, the lookup returns `None` |
| `TranscriptText.Texts` | api/transcript.py:70 | the texts are returned, one per entry and in entry order, exactly when every entry has a `text` key |
| `TranscriptText.Join` | api/transcript.py:70 | joining no entries gives the empty string |
| `TranscriptText.SplitJoin` | api/transcript.py:70 | splitting the joined text at newlines gives back the texts when none contains a newline: the join loses nothing |
| `TranscriptText.JoinLength` | api/transcript.py:70 | the joined text is as long as all texts plus one newline between consecutive texts |
| `TranscriptFetch.FirstEligible` | api/transcript.py:60-61 | the inner loop's choice: the first track from a position on that is generated, translatable and in the given language, or `None` when there is none |
| `TranscriptFetch.Fallback` | api/transcript.py:59-66 | `None` exactly when no track is eligible for any candidate language; otherwise an eligible track of the earliest language that has one, with no earlier track eligible for that language |
| `TranscriptFetch.FallbackChoosesFirstOfEarliest` | api/transcript.py:59-66 | conversely, the first eligible track of the earliest language with an eligible track is the one chosen |
| `TranscriptFetch.FindFallback` | api/transcript.py:57-68 | the nested loops with the `found` flag and both `break`s compute exactly the reference choice `Fallback` over `bn`, `hi`, `ar` |
| `TranscriptFetch.Flatten` | api/transcript.py:70-73 | status 200 with the newline-joined texts exactly when every entry has a text; otherwise status 500 with the `KeyError` message `'text'` |
| `TranscriptFetch.Fetch` | api/transcript.py:32-73 | the status is one of 200, 400, 404, 500, and it is 200 exactly when the payload is a transcript |
| `TranscriptFetch.Run` | api/transcript.py:32-73 | the imperative body returns the reply and makes the calls of the reference `Fetch`; it replaces `requests.request` by the proxying function (proxy, 10-second timeout, saved function) exactly when a proxy was obtained, and leaves it alone on the earlier returns |
| `TranscriptFetch.FetchTranscriptAsWritten` | api/transcript.py:74-76 | as written, the reply is that of `Fetch` and `requests.request` ends as `Session.request` on every path |
| `TranscriptFetch.FetchTranscript` | api/transcript.py:32-76 | corrected, the reply is that of `Fetch` and `requests.request` ends as it started |
| `TranscriptFetch.AsWrittenReplacesRequestFunction` | api/transcript.py:74-76 | on any input, starting from the library's own request function, the as-written call leaves a different one behind |
| `TranscriptFetch.CorrectedKeepsRequestFunction` | api/transcript.py:46-51 | on any input, the corrected call leaves the library's own request function in place |
| `TranscriptFetch.NonTextUrlFails` | api/transcript.py:37-73 | a URL that is not a string answers 500 with the `TypeError`'s message and makes no external call |
| `TranscriptFetch.LibraryErrorsCarryMessage` | api/transcript.py:54-73 | an exception from `get_transcript`, or from `list_transcripts` after a not-found direct fetch, answers 500 with that exception's message |
| `TranscriptFetch.ServerErrorCauses` | api/transcript.py:36-73 | status 500 comes exactly from a non-string URL, a missing proxy, a direct-fetch or listing exception, an exception of the chosen track's translated fetch, or an entry without text in the entries used |
| `TranscriptFetch.InvalidUrlConsultsNothing` | api/transcript.py:37-39 | status 400 comes exactly from a URL with no identifier, with "Invalid YouTube URL" and no external call, the proxy list included |
| `TranscriptFetch.NoProxyNoTranscriptFetch` | api/transcript.py:41-43 | without a proxy the reply is "Could not obtain a proxy." with 500 and the proxy-list request is the only call |
| `TranscriptFetch.LibraryCallsUseSelectedProxy` | api/transcript.py:45-62 | the proxy list is requested once and first, while `requests.request` still holds the function found on entry; every later call is made while `requests.request` is the proxying function for the selected proxy with the 10-second timeout |
| `TranscriptFetch.DirectFetchLanguages` | api/transcript.py:33-54 | the direct fetch asks for the extracted identifier in the caller's languages, or in `en, bn, hi, ar` when none are given |
| `TranscriptFetch.DirectHitJoinsTexts` | api/transcript.py:54-71 | a direct hit whose entries all have text answers 200 with the texts joined by newlines |
| `TranscriptFetch.NotFoundIffNoEligibleTrack` | api/transcript.py:55-68 | after a not-found direct fetch and a listing, status 404 ("No suitable transcripts found.") comes exactly when no track is generated, translatable and in `bn`, `hi` or `ar` |
| `TranscriptFetch.FallbackUsesFirstOfEarliest` | api/transcript.py:56-71 | the fallback translates to `en` and fetches the first eligible track of the earliest language, and answers with that fetch's entries or its error |
| `TranscriptFetch.BanglaTriedFirst` | api/transcript.py:59-61 | the first eligible `bn` track is chosen whatever eligible `hi` or `ar` tracks come before it |
| `Handler.RequestUrl` | api/transcript.py:79-83 | a POST reads `url` from the JSON body (nothing when there is no body or no key), any other method reads the query parameter |
| `Handler.Handled` | api/transcript.py:78-94 | the status is one of 200, 400, 404, 500; a missing or falsy URL gives 400 "Missing YouTube URL parameter." with no external call |
| `Handler.Handle` | api/transcript.py:78-94 | the response's status and payload are those of the reference `Handled`, its `Content-Type` header is `application/json` and no other header changes; since it calls the corrected `FetchTranscript`, `requests.request` ends as it started (see Left out) |
| `Handler.StatusPassesThrough` | api/transcript.py:90-91 | with a truthy URL the reply equals `fetch_transcript`'s for that URL with the default languages |
| `Handler.UrlSourceFollowsMethod` | api/transcript.py:79-83 | a POST ignores the query string and any other method ignores the body |
| `Handler.BadRequestCauses` | api/transcript.py:84-88 | status 400 comes exactly from a missing or falsy URL or a URL string without an identifier |

## Left out

- The HTTP request to the proxy-list service, its 5-second timeout and the JSON decoding (api/transcript.py:16-20): network I/O; their result is the input `Proxy.ListResponse`, whose `Unreachable` stands for every exception raised there.
- The transcript library's `get_transcript`, `list_transcripts` and `translate('en').fetch()`: a foreign library; their outcomes are inputs, and the library's own choice among the requested languages is not modelled.
- Whether the library's requests actually go through `requests.request`: the trace records the value of that attribute while each call is made, not the route the library takes.
- Concurrency: two invocations in one process racing on `requests.request` are not modelled; each call runs alone.
- `json.dumps`, the response's serialised body and the hosting runtime's objects: the response holds the payload (`Body`) before serialisation.
- The text of `str(e)` for unexpected exceptions: it is part of the input (`DirectError`, `ListError`, `FetchError`, the `typeError` of a non-string URL); only the `KeyError` for a missing `text` key is spelled out.
- A POST body that decodes to a truthy non-object JSON value makes `data.get` raise outside any `except`; that crash is not modelled (`Handler.Request.json` is an object or nothing).
- `Proxy.Item`: `ip` and `port` are modelled as strings (non-string JSON values and their truthiness are not), and `protocols` as absent, null or a list of strings (a string or number there is not modelled).
- In the source the fallback's translated fetch runs inside the inner loop before `found` is set; the model finds the track first and fetches it after the loops, which makes the same calls in the same order with the same reply.
- `get_video_id` takes the leftmost `v=` or `/` match, so a URL containing `v=<id>` can yield an earlier path segment instead (`VideoId.FirstPathSegmentWins`); the model states this behaviour and does not promise that every `v=<id>` is found.
- Handler.Handle: calls the corrected `TranscriptFetch.FetchTranscript`, so it promises that `requests.request` ends as it started; the source's `handler` leaves `Session.request` there whenever a truthy URL reaches `fetch_transcript` (that behaviour is `TranscriptFetch.FetchTranscriptAsWritten`).

## Findings

| source | as written | input that shows it | evidently intended | confidence | as-written member | corrected member |
|---|---|---|---|---|---|---|
| api/transcript.py:74-76 | the `finally` block assigns `requests.sessions.Session.request` (an unbound method taking `self` first) to `requests.request` instead of the saved `orig_request`, and does so also on the early returns that never patched it | `fetch_transcript("not a url")`: returns 400, and afterwards `requests.request` is `Session.request`, no longer the library function | restore the saved function, and only when it was replaced | high; not executed | `TranscriptFetch.FetchTranscriptAsWritten`, `TranscriptFetch.AsWrittenReplacesRequestFunction` | `TranscriptFetch.FetchTranscript`, `TranscriptFetch.CorrectedKeepsRequestFunction` |
