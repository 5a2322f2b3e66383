/**
 * The transcript decision procedure (`fetch_transcript`). The transcript
 * library and the proxy-list service are inputs (`World`): the outcome of
 * the direct fetch by language list, the list of available transcripts, and
 * for each listed transcript what translating it to English and fetching it
 * gives. Every external call is recorded in order in a trace, together with
 * the value `requests.request` holds while the call is made, so that "the
 * proxy is not consulted" and "no transcript fetch is attempted" can be
 * stated. The monkey-patching of `requests.request` is modelled as a field
 * of a `RequestsModule` object.
 */
module TranscriptFetch {
  import opened Wrappers
  import opened VideoId
  import Proxy
  import opened TranscriptText

  /** The language list used when the caller passes none. */
  const DefaultLanguages: seq<string> := ["en", "bn", "hi", "ar"]

  /** The fallback candidates, tried in this order. */
  const FallbackLanguages: seq<string> := ["bn", "hi", "ar"]

  /** The language a fallback transcript is translated to. */
  const TranslationTarget: string := "en"

  /** The timeout the patched request function imposes, in seconds. */
  const ProxiedTimeout: nat := 10

  const InvalidUrlMessage: string := "Invalid YouTube URL"
  const NoProxyMessage: string := "Could not obtain a proxy."
  const NoSuitableMessage: string := "No suitable transcripts found."

  /** The result of fetching a transcript's entries: the entries or a raised error's message. */
  datatype Fetched = Entries(entries: seq<Entry>) | FetchError(message: string)

  /**
   * One transcript of `list_transcripts`: its flags and language code, and what
   * `translate('en').fetch()` on it gives.
   */
  datatype Track = Track(isGenerated: bool, languageCode: string, isTranslatable: bool, translated: Fetched)

  /** The outcome of `get_transcript(video_id, languages=...)`. */
  datatype Direct = Found(entries: seq<Entry>) | NoTranscriptFound | DirectError(message: string)

  /** The outcome of `list_transcripts(video_id)`. */
  datatype Listing = Tracks(tracks: seq<Track>) | ListError(message: string)

  /** Everything the external services answer during one call. */
  datatype World = World(proxyList: Proxy.ListResponse, direct: Direct, listing: Listing)

  /**
   * The `video_url` argument: a string, or any other value, on which
   * `re.search` raises `TypeError` (its message comes from the runtime).
   * `truthy` is the value's Python truthiness.
   */
  datatype UrlValue = Text(s: string) | NonText(truthy: bool, typeError: string)

  /**
   * Values `requests.request` can hold: the library's own function, the
   * unbound `Session.request`, or the patched function that forces a proxy
   * and a timeout and then calls the function it saved.
   */
  datatype RequestFunction =
    | ApiRequest
    | SessionRequest
    | ViaProxy(proxy: Proxy.Config, timeout: nat, inner: RequestFunction)

  /** One external call, with the value of `requests.request` while it is made. */
  datatype Call =
    | ProxyListRequest(via: RequestFunction)
    | GetTranscript(videoId: string, languages: seq<string>, via: RequestFunction)
    | ListTranscripts(videoId: string, via: RequestFunction)
    | FetchTranslation(track: nat, language: string, via: RequestFunction)

  /** The JSON payload: `{"transcript": ...}` or `{"error": ...}`. */
  datatype Body = Transcript(text: string) | Error(message: string)

  /** The pair `(payload, status)` that `fetch_transcript` returns. */
  datatype Reply = Reply(body: Body, status: int)

  /** A reply together with the external calls made to produce it. */
  datatype Outcome = Outcome(reply: Reply, calls: seq<Call>)

  /** The `requests` module, as far as its patched attribute goes. */
  class RequestsModule {
    var request: RequestFunction

    constructor ()
      ensures request == ApiRequest
    {
      request := ApiRequest;
    }
  }

  /** The test of the inner fallback loop. */
  predicate Eligible(t: Track, code: string) {
    t.isGenerated && t.languageCode == code && t.isTranslatable
  }

  /** The first track at or after `from` that is eligible for `code`. */
  function FirstEligible(tracks: seq<Track>, code: string, from: nat): (r: Option<nat>)
    decreases |tracks| - from
    ensures r.Some? ==> from <= r.value < |tracks| && Eligible(tracks[r.value], code)
    ensures r.Some? ==> forall k :: from <= k < r.value ==> !Eligible(tracks[k], code)
    ensures r.None? ==> forall k :: from <= k < |tracks| ==> !Eligible(tracks[k], code)
  {
    if from >= |tracks| then None
    else if Eligible(tracks[from], code) then Some(from)
    else FirstEligible(tracks, code, from + 1)
  }

  /**
   * The fallback choice: the first eligible track of the earliest language in
   * `languages` that has any eligible track.
   */
  function Fallback(tracks: seq<Track>, languages: seq<string>): (r: Option<nat>)
    ensures r.None? <==>
      forall c, k :: 0 <= c < |languages| && 0 <= k < |tracks| ==> !Eligible(tracks[k], languages[c])
    ensures r.Some? ==> r.value < |tracks| && exists c :: FirstOfEarliest(tracks, languages, c, r.value)
  {
    if languages == [] then None
    else match FirstEligible(tracks, languages[0], 0)
      case Some(k) =>
        assert FirstOfEarliest(tracks, languages, 0, k);
        Some(k)
      case None =>
        var r := Fallback(tracks, languages[1..]);
        FallbackShift(tracks, languages, r);
        r
  }

  /**
   * Track `k` is eligible for language `c`, no track is eligible for an
   * earlier language, and no earlier track is eligible for language `c`.
   */
  predicate FirstOfEarliest(tracks: seq<Track>, languages: seq<string>, c: int, k: int) {
    && 0 <= c < |languages| && 0 <= k < |tracks|
    && Eligible(tracks[k], languages[c])
    && (forall d, j :: 0 <= d < c && 0 <= j < |tracks| ==> !Eligible(tracks[j], languages[d]))
    && (forall j :: 0 <= j < k ==> !Eligible(tracks[j], languages[c]))
  }

  /** Moving the fallback's characterisation past a language with no eligible track. */
  lemma FallbackShift(tracks: seq<Track>, languages: seq<string>, r: Option<nat>)
    requires languages != []
    requires forall k :: 0 <= k < |tracks| ==> !Eligible(tracks[k], languages[0])
    requires r.None? <==>
      forall c, k :: 0 <= c < |languages[1..]| && 0 <= k < |tracks| ==> !Eligible(tracks[k], languages[1..][c])
    requires r.Some? ==> r.value < |tracks| && exists c :: FirstOfEarliest(tracks, languages[1..], c, r.value)
    ensures r.None? <==>
      forall c, k :: 0 <= c < |languages| && 0 <= k < |tracks| ==> !Eligible(tracks[k], languages[c])
    ensures r.Some? ==> exists c :: FirstOfEarliest(tracks, languages, c, r.value)
  {
    assert forall c :: 1 <= c < |languages| ==> languages[c] == languages[1..][c - 1];
    if r.Some? {
      var c :| FirstOfEarliest(tracks, languages[1..], c, r.value);
      assert FirstOfEarliest(tracks, languages, c + 1, r.value);
    } else {
      forall c, k | 0 <= c < |languages| && 0 <= k < |tracks|
        ensures !Eligible(tracks[k], languages[c])
      {
        if c > 0 {
          assert languages[c] == languages[1..][c - 1];
        }
      }
    }
  }

  /**
   * The fallback choice is determined: the track that is first for the
   * earliest language with an eligible track is the one chosen.
   */
  lemma FallbackChoosesFirstOfEarliest(tracks: seq<Track>, languages: seq<string>, c: nat, k: nat)
    requires FirstOfEarliest(tracks, languages, c, k)
    ensures Fallback(tracks, languages) == Some(k)
  {
    var r := Fallback(tracks, languages);
    assert r.Some?;
    var c' :| FirstOfEarliest(tracks, languages, c', r.value);
    assert !(c' < c) && !(c < c');
    assert !(r.value < k) && !(k < r.value);
  }

  /**
   * The nested fallback loops of the source: for each candidate language in
   * order, scan the tracks in order, stopping at the first eligible one.
   */
  method FindFallback(tracks: seq<Track>) returns (found: bool, index: nat)
    ensures found <==> Fallback(tracks, FallbackLanguages).Some?
    ensures found ==> Fallback(tracks, FallbackLanguages) == Some(index)
  {
    found, index := false, 0;
    var c := 0;
    while c < |FallbackLanguages|
      invariant 0 <= c <= |FallbackLanguages|
      invariant !found
      invariant Fallback(tracks, FallbackLanguages[c..]) == Fallback(tracks, FallbackLanguages)
    {
      var candidate := FallbackLanguages[c];
      var k := 0;
      while k < |tracks|
        invariant 0 <= k <= |tracks|
        invariant !found
        invariant FirstEligible(tracks, candidate, k) == FirstEligible(tracks, candidate, 0)
      {
        var t := tracks[k];
        if t.isGenerated && t.languageCode == candidate && t.isTranslatable {
          index := k;
          found := true;
          break;
        }
        k := k + 1;
      }
      assert FallbackLanguages[c..][1..] == FallbackLanguages[c + 1..];
      if found {
        break;
      }
      c := c + 1;
    }
  }

  /** The success reply for fetched entries, or the `KeyError` reply when one has no text. */
  function Flatten(entries: seq<Entry>): (r: Reply)
    ensures r.status == 200 <==> forall k :: 0 <= k < |entries| ==> entries[k].text.Some?
    ensures r.status != 200 ==> r == Reply(Error(MissingTextMessage), 500)
    ensures r.status == 200 ==> r.body == Transcript(Join(Texts(entries).value))
  {
    match Texts(entries)
    case None => Reply(Error(MissingTextMessage), 500)
    case Some(lines) => Reply(Transcript(Join(lines)), 200)
  }

  /**
   * What `fetch_transcript(video_url, lang_codes)` returns, and the external
   * calls it makes, when `requests.request` holds `dispatch` on entry.
   */
  function Fetch(videoUrl: UrlValue, langCodes: Option<seq<string>>, world: World, dispatch: RequestFunction): (o: Outcome)
    ensures o.reply.status in {200, 400, 404, 500}
    ensures o.reply.status == 200 <==> o.reply.body.Transcript?
  {
    match videoUrl
    case NonText(_, message) => Outcome(Reply(Error(message), 500), [])
    case Text(url) =>
      match GetVideoId(url)
      case None => Outcome(Reply(Error(InvalidUrlMessage), 400), [])
      case Some(id) =>
        match Proxy.Lookup(world.proxyList)
        case None => Outcome(Reply(Error(NoProxyMessage), 500), [ProxyListRequest(dispatch)])
        case Some(proxy) =>
          var via := ViaProxy(proxy, ProxiedTimeout, dispatch);
          var direct := [ProxyListRequest(dispatch), GetTranscript(id, langCodes.GetOr(DefaultLanguages), via)];
          match world.direct
          case DirectError(message) => Outcome(Reply(Error(message), 500), direct)
          case Found(entries) => Outcome(Flatten(entries), direct)
          case NoTranscriptFound =>
            var listed := direct + [ListTranscripts(id, via)];
            match world.listing
            case ListError(message) => Outcome(Reply(Error(message), 500), listed)
            case Tracks(tracks) =>
              match Fallback(tracks, FallbackLanguages)
              case None => Outcome(Reply(Error(NoSuitableMessage), 404), listed)
              case Some(k) =>
                var translated := listed + [FetchTranslation(k, TranslationTarget, via)];
                match tracks[k].translated
                case FetchError(message) => Outcome(Reply(Error(message), 500), translated)
                case Entries(entries) => Outcome(Flatten(entries), translated)
  }

  /**
   * The body of `fetch_transcript` up to its `finally` block. `patched` says
   * whether `requests.request` was replaced, and `saved` is the value it held
   * before.
   */
  method Run(videoUrl: UrlValue, langCodes: Option<seq<string>>, world: World, requests: RequestsModule)
    returns (reply: Reply, calls: seq<Call>, patched: bool, saved: RequestFunction)
    modifies requests
    ensures Outcome(reply, calls) == Fetch(videoUrl, langCodes, world, old(requests.request))
    ensures saved == old(requests.request)
    ensures patched <==> |calls| > 0 && Proxy.Lookup(world.proxyList).Some?
    ensures patched ==> requests.request == ViaProxy(Proxy.Lookup(world.proxyList).value, ProxiedTimeout, saved)
    ensures !patched ==> requests.request == saved
  {
    var languages := if langCodes.None? then DefaultLanguages else langCodes.value;
    calls, patched, saved := [], false, requests.request;
    if videoUrl.NonText? {
      reply := Reply(Error(videoUrl.typeError), 500);
      return;
    }
    var videoId := GetVideoId(videoUrl.s);
    if videoId.None? {
      reply := Reply(Error(InvalidUrlMessage), 400);
      return;
    }
    var proxy := Proxy.GetProxy(world.proxyList);
    calls := [ProxyListRequest(requests.request)];
    if proxy.None? {
      reply := Reply(Error(NoProxyMessage), 500);
      return;
    }
    requests.request := ViaProxy(proxy.value, ProxiedTimeout, saved);
    patched := true;

    var entries: seq<Entry>;
    calls := calls + [GetTranscript(videoId.value, languages, requests.request)];
    match world.direct {
      case DirectError(message) =>
        reply := Reply(Error(message), 500);
        return;
      case Found(fetched) =>
        entries := fetched;
      case NoTranscriptFound =>
        calls := calls + [ListTranscripts(videoId.value, requests.request)];
        if world.listing.ListError? {
          reply := Reply(Error(world.listing.message), 500);
          return;
        }
        var tracks := world.listing.tracks;
        var found, index := FindFallback(tracks);
        if !found {
          reply := Reply(Error(NoSuitableMessage), 404);
          return;
        }
        calls := calls + [FetchTranslation(index, TranslationTarget, requests.request)];
        match tracks[index].translated {
          case FetchError(message) =>
            reply := Reply(Error(message), 500);
            return;
          case Entries(fetched) =>
            entries := fetched;
        }
    }
    reply := Flatten(entries);
  }

  /**
   * `fetch_transcript` as written: its `finally` block assigns
   * `requests.sessions.Session.request` to `requests.request` on every exit,
   * including the early returns that never patched it.
   */
  method FetchTranscriptAsWritten(videoUrl: UrlValue, langCodes: Option<seq<string>>, world: World, requests: RequestsModule)
    returns (reply: Reply, calls: seq<Call>)
    modifies requests
    ensures Outcome(reply, calls) == Fetch(videoUrl, langCodes, world, old(requests.request))
    ensures requests.request == SessionRequest
  {
    var patched, saved;
    reply, calls, patched, saved := Run(videoUrl, langCodes, world, requests);
    requests.request := SessionRequest;
  }

  /**
   * `fetch_transcript` with the restoration it evidently intends: the saved
   * function is put back, and only when it was replaced.
   */
  method FetchTranscript(videoUrl: UrlValue, langCodes: Option<seq<string>>, world: World, requests: RequestsModule)
    returns (reply: Reply, calls: seq<Call>)
    modifies requests
    ensures Outcome(reply, calls) == Fetch(videoUrl, langCodes, world, old(requests.request))
    ensures requests.request == old(requests.request)
  {
    var patched, saved;
    reply, calls, patched, saved := Run(videoUrl, langCodes, world, requests);
    if patched {
      requests.request := saved;
    }
  }

  /**
   * The discrepancy of the `finally` block, on any input: `requests.request`
   * starts as the library's function and ends as `Session.request`.
   */
  method AsWrittenReplacesRequestFunction(videoUrl: UrlValue, langCodes: Option<seq<string>>, world: World)
    returns (before: RequestFunction, after: RequestFunction)
    ensures before == ApiRequest && after == SessionRequest && before != after
  {
    var requests := new RequestsModule();
    before := requests.request;
    var reply, calls := FetchTranscriptAsWritten(videoUrl, langCodes, world, requests);
    after := requests.request;
  }

  /** With the corrected restoration, `requests.request` ends as it started, on any input. */
  method CorrectedKeepsRequestFunction(videoUrl: UrlValue, langCodes: Option<seq<string>>, world: World)
    returns (before: RequestFunction, after: RequestFunction)
    ensures before == ApiRequest && after == ApiRequest
  {
    var requests := new RequestsModule();
    before := requests.request;
    var reply, calls := FetchTranscript(videoUrl, langCodes, world, requests);
    after := requests.request;
  }

  /**
   * Status 400 comes exactly from a URL string with no identifier; then the
   * reply is "Invalid YouTube URL" and no external call is made, the proxy
   * list included.
   */
  lemma InvalidUrlConsultsNothing(url: string, langCodes: Option<seq<string>>, world: World, dispatch: RequestFunction)
    ensures Fetch(Text(url), langCodes, world, dispatch).reply.status == 400 <==> GetVideoId(url).None?
    ensures GetVideoId(url).None? ==>
      Fetch(Text(url), langCodes, world, dispatch) == Outcome(Reply(Error(InvalidUrlMessage), 400), [])
  {
  }

  /** The chosen track's translated fetch raises, or gives an entry without text. */
  predicate ChosenFetchFails(track: Track) {
    track.translated.FetchError? || Texts(track.translated.entries).None?
  }

  /** A URL that is not a string makes `re.search` raise: 500 with its message, and no external call. */
  lemma NonTextUrlFails(truthy: bool, message: string, langCodes: Option<seq<string>>, world: World, dispatch: RequestFunction)
    ensures Fetch(NonText(truthy, message), langCodes, world, dispatch) == Outcome(Reply(Error(message), 500), [])
  {
  }

  /**
   * An exception of the direct fetch, or of the listing after a not-found
   * direct fetch, answers 500 with that exception's message.
   */
  lemma LibraryErrorsCarryMessage(url: string, langCodes: Option<seq<string>>, world: World, dispatch: RequestFunction)
    requires GetVideoId(url).Some? && Proxy.Lookup(world.proxyList).Some?
    ensures world.direct.DirectError? ==>
      Fetch(Text(url), langCodes, world, dispatch).reply == Reply(Error(world.direct.message), 500)
    ensures world.direct.NoTranscriptFound? && world.listing.ListError? ==>
      Fetch(Text(url), langCodes, world, dispatch).reply == Reply(Error(world.listing.message), 500)
  {
  }

  /**
   * Status 500 has exactly these causes: a URL that is not a string, no
   * proxy, an exception of the direct fetch, of the listing or of the chosen
   * track's translated fetch, or an entry without text among the entries used.
   */
  lemma ServerErrorCauses(videoUrl: UrlValue, langCodes: Option<seq<string>>, world: World, dispatch: RequestFunction)
    ensures Fetch(videoUrl, langCodes, world, dispatch).reply.status == 500 <==>
      (videoUrl.NonText? ||
       (GetVideoId(videoUrl.s).Some? &&
        (Proxy.Lookup(world.proxyList).None? ||
         world.direct.DirectError? ||
         (world.direct.Found? && Texts(world.direct.entries).None?) ||
         (world.direct.NoTranscriptFound? &&
          (world.listing.ListError? ||
           (world.listing.Tracks? && Fallback(world.listing.tracks, FallbackLanguages).Some? &&
            ChosenFetchFails(world.listing.tracks[Fallback(world.listing.tracks, FallbackLanguages).value])))))))
  {
  }

  /**
   * Without a proxy the reply is "Could not obtain a proxy." with status 500,
   * and the proxy-list request is the only external call: no transcript fetch
   * is attempted.
   */
  lemma NoProxyNoTranscriptFetch(url: string, langCodes: Option<seq<string>>, world: World, dispatch: RequestFunction)
    requires GetVideoId(url).Some? && Proxy.Lookup(world.proxyList).None?
    ensures Fetch(Text(url), langCodes, world, dispatch) == Outcome(Reply(Error(NoProxyMessage), 500), [ProxyListRequest(dispatch)])
  {
  }

  /**
   * The proxy list is requested once, first, while `requests.request` still
   * holds the function found on entry; every transcript-library call
   * after it is made while `requests.request` is the patched function for the
   * selected proxy, with the 10-second timeout, wrapping the function found
   * on entry.
   */
  lemma LibraryCallsUseSelectedProxy(videoUrl: UrlValue, langCodes: Option<seq<string>>, world: World, dispatch: RequestFunction)
    ensures var calls := Fetch(videoUrl, langCodes, world, dispatch).calls;
      forall i :: 0 <= i < |calls| ==> (calls[i].ProxyListRequest? <==> i == 0)
    ensures var calls := Fetch(videoUrl, langCodes, world, dispatch).calls;
      |calls| > 0 ==> calls[0] == ProxyListRequest(dispatch)
    ensures var calls := Fetch(videoUrl, langCodes, world, dispatch).calls;
      |calls| > 1 ==>
        && Proxy.Lookup(world.proxyList).Some?
        && forall i :: 1 <= i < |calls| ==>
             calls[i].via == ViaProxy(Proxy.Lookup(world.proxyList).value, ProxiedTimeout, dispatch)
  {
  }

  /**
   * The direct fetch is asked for the caller's languages, or for
   * `en, bn, hi, ar` when the caller passes none.
   */
  lemma DirectFetchLanguages(url: string, langCodes: Option<seq<string>>, world: World, dispatch: RequestFunction)
    requires GetVideoId(url).Some? && Proxy.Lookup(world.proxyList).Some?
    ensures var calls := Fetch(Text(url), langCodes, world, dispatch).calls;
      |calls| >= 2 && calls[1].GetTranscript? && calls[1].videoId == GetVideoId(url).value &&
      calls[1].languages == (if langCodes.None? then ["en", "bn", "hi", "ar"] else langCodes.value)
  {
  }

  /** A direct hit answers 200 with the entries' texts joined by newlines. */
  lemma DirectHitJoinsTexts(url: string, langCodes: Option<seq<string>>, world: World, dispatch: RequestFunction)
    requires GetVideoId(url).Some? && Proxy.Lookup(world.proxyList).Some? && world.direct.Found?
    requires forall k :: 0 <= k < |world.direct.entries| ==> world.direct.entries[k].text.Some?
    ensures Fetch(Text(url), langCodes, world, dispatch).reply ==
      Reply(Transcript(Join(Texts(world.direct.entries).value)), 200)
  {
  }

  /**
   * After a not-found direct fetch and a successful listing, status 404 comes
   * exactly when no track is generated, translatable and in `bn`, `hi` or `ar`.
   */
  lemma NotFoundIffNoEligibleTrack(url: string, langCodes: Option<seq<string>>, world: World, dispatch: RequestFunction)
    requires GetVideoId(url).Some? && Proxy.Lookup(world.proxyList).Some?
    requires world.direct.NoTranscriptFound? && world.listing.Tracks?
    ensures var tracks := world.listing.tracks;
      Fetch(Text(url), langCodes, world, dispatch).reply.status == 404 <==>
        forall c, k :: 0 <= c < |FallbackLanguages| && 0 <= k < |tracks| ==> !Eligible(tracks[k], FallbackLanguages[c])
    ensures Fetch(Text(url), langCodes, world, dispatch).reply.status == 404 ==>
      Fetch(Text(url), langCodes, world, dispatch).reply.body == Error(NoSuitableMessage)
  {
  }

  /**
   * The fallback translates and fetches the first track of the earliest
   * candidate language that has an eligible track, and answers with that
   * fetch's entries.
   */
  lemma FallbackUsesFirstOfEarliest(url: string, langCodes: Option<seq<string>>, world: World, dispatch: RequestFunction, c: nat, k: nat)
    requires GetVideoId(url).Some? && Proxy.Lookup(world.proxyList).Some?
    requires world.direct.NoTranscriptFound? && world.listing.Tracks?
    requires FirstOfEarliest(world.listing.tracks, FallbackLanguages, c, k)
    ensures var o := Fetch(Text(url), langCodes, world, dispatch);
      |o.calls| == 4 && o.calls[3].FetchTranslation? && o.calls[3].track == k && o.calls[3].language == "en"
    ensures var o := Fetch(Text(url), langCodes, world, dispatch);
      match world.listing.tracks[k].translated
      case Entries(entries) => o.reply == Flatten(entries)
      case FetchError(message) => o.reply == Reply(Error(message), 500)
  {
    FallbackChoosesFirstOfEarliest(world.listing.tracks, FallbackLanguages, c, k);
  }

  /**
   * `bn` is tried first: the first generated, translatable Bangla track is the
   * fallback choice whatever Hindi or Arabic tracks precede it.
   */
  lemma BanglaTriedFirst(tracks: seq<Track>, k: nat)
    requires k < |tracks| && Eligible(tracks[k], "bn")
    requires forall j :: 0 <= j < k ==> !Eligible(tracks[j], "bn")
    ensures Fallback(tracks, FallbackLanguages) == Some(k)
  {
    FallbackChoosesFirstOfEarliest(tracks, FallbackLanguages, 0, k);
  }
}
