/**
 * Extraction of the 11-character video identifier from a YouTube URL
 * (`get_video_id`). The source runs `re.search` with the pattern
 * `(?:v=|\/)([0-9A-Za-z_-]{11}).*`: the leftmost position where `v=` or `/`
 * is followed by eleven identifier characters wins, and the trailing `.*`
 * puts no boundary after the eleventh character.
 */
module VideoId {
  import opened Wrappers

  /** Number of characters in a video identifier. */
  const IdLength: nat := 11

  /** The character class `[0-9A-Za-z_-]`. */
  predicate IsIdChar(c: char) {
    ('0' <= c <= '9') || ('A' <= c <= 'Z') || ('a' <= c <= 'z') || c == '_' || c == '-'
  }

  predicate AllIdChars(s: string) {
    forall k :: 0 <= k < |s| ==> IsIdChar(s[k])
  }

  /**
   * Length of the marker that starts at position `i`: 2 for `v=`, 1 for `/`,
   * 0 when neither starts there. The two alternatives begin with different
   * characters, so at most one of them applies at a position.
   */
  function MarkerLength(url: string, i: nat): (m: nat)
    ensures m <= 2
    ensures m > 0 ==> i + m <= |url|
  {
    if i + 2 <= |url| && url[i] == 'v' && url[i + 1] == '=' then 2
    else if i < |url| && url[i] == '/' then 1
    else 0
  }

  /** The pattern matches with its match starting at position `i`. */
  predicate MatchesAt(url: string, i: nat) {
    var m := MarkerLength(url, i);
    m > 0 && i + m + IdLength <= |url| && AllIdChars(url[i + m .. i + m + IdLength])
  }

  /** The captured group of a match that starts at `i`. */
  function TokenAt(url: string, i: nat): string
    requires MatchesAt(url, i)
  {
    var m := MarkerLength(url, i);
    url[i + m .. i + m + IdLength]
  }

  /** The scan of `re.search`: the first start position at or after `i` where the pattern matches. */
  function FirstMatchFrom(url: string, i: nat): (r: Option<nat>)
    decreases |url| - i
    ensures r.Some? ==> i <= r.value < |url| && MatchesAt(url, r.value)
    ensures r.Some? ==> forall j :: i <= j < r.value ==> !MatchesAt(url, j)
    ensures r.None? ==> forall j :: i <= j ==> !MatchesAt(url, j)
  {
    if i >= |url| then None
    else if MatchesAt(url, i) then Some(i)
    else FirstMatchFrom(url, i + 1)
  }

  /**
   * `get_video_id`: the captured identifier of the leftmost match, or `None`
   * exactly when the pattern matches nowhere in the URL.
   */
  function GetVideoId(url: string): (r: Option<string>)
    ensures r.None? <==> forall i: nat :: !MatchesAt(url, i)
    ensures r.Some? ==> |r.value| == IdLength && AllIdChars(r.value)
    ensures r.Some? ==>
      exists i: nat :: MatchesAt(url, i) && r.value == TokenAt(url, i)
        && forall j: nat :: j < i ==> !MatchesAt(url, j)
  {
    match FirstMatchFrom(url, 0)
    case None => None
    case Some(i) => Some(TokenAt(url, i))
  }

  /** A match whose window lies inside `url` is unaffected by text appended after `url`. */
  lemma MatchUnderExtension(url: string, suffix: string, j: nat)
    requires MatchesAt(url, j) || j + 2 + IdLength <= |url|
    ensures MatchesAt(url + suffix, j) == MatchesAt(url, j)
    ensures MatchesAt(url, j) ==> TokenAt(url + suffix, j) == TokenAt(url, j)
  {
    var m := MarkerLength(url, j);
    assert MarkerLength(url + suffix, j) == m;
    if m > 0 && j + m + IdLength <= |url| {
      assert (url + suffix)[j + m .. j + m + IdLength] == url[j + m .. j + m + IdLength];
    }
  }

  /**
   * The trailing `.*` imposes no boundary: once a URL yields an identifier,
   * appending any text leaves the result unchanged.
   */
  lemma TrailingTextIrrelevant(url: string, suffix: string)
    requires GetVideoId(url).Some?
    ensures GetVideoId(url + suffix) == GetVideoId(url)
  {
    var i: nat :| MatchesAt(url, i) && GetVideoId(url).value == TokenAt(url, i)
      && forall j: nat :: j < i ==> !MatchesAt(url, j);
    MatchUnderExtension(url, suffix, i);
    forall j: nat | j < i ensures !MatchesAt(url + suffix, j) {
      MatchUnderExtension(url, suffix, j);
    }
    LeftmostMatchDecides(url + suffix, i);
  }

  /** Any match with no match to its left determines the result. */
  lemma LeftmostMatchDecides(url: string, i: nat)
    requires MatchesAt(url, i)
    requires forall j: nat :: j < i ==> !MatchesAt(url, j)
    ensures GetVideoId(url) == Some(TokenAt(url, i))
  {
    var k: nat :| MatchesAt(url, k) && GetVideoId(url).value == TokenAt(url, k)
      && forall j: nat :: j < k ==> !MatchesAt(url, j);
    assert !(k < i) && !(i < k);
  }

  /**
   * A marker followed by a run of eleven or more identifier characters, with
   * no match to its left, yields the first eleven characters of the run.
   */
  lemma LongerTokenTruncated(prefix: string, marker: string, tail: string)
    requires marker == "v=" || marker == "/"
    requires |tail| >= IdLength && AllIdChars(tail[..IdLength])
    requires forall j: nat :: j < |prefix| ==> !MatchesAt(prefix + marker + tail, j)
    ensures GetVideoId(prefix + marker + tail) == Some(tail[..IdLength])
  {
    var url := prefix + marker + tail;
    var i := |prefix|;
    assert url[i] == marker[0];
    assert marker == "v=" ==> url[i + 1] == '=';
    assert MarkerLength(url, i) == |marker|;
    assert url[i + |marker| .. i + |marker| + IdLength] == tail[..IdLength];
    LeftmostMatchDecides(url, i);
  }

  /** The usual watch-page form `https://www.youtube.com/watch?v=<id>...` yields `<id>`. */
  lemma WatchPageUrl(id: string, rest: string)
    requires |id| == IdLength && AllIdChars(id)
    ensures GetVideoId("https://www.youtube.com/watch?v=" + id + rest) == Some(id)
  {
    var prefix := "https://www.youtube.com/watch?";
    var url := prefix + "v=" + (id + rest);
    assert url == "https://www.youtube.com/watch?v=" + id + rest;
    assert forall k :: 0 <= k < |prefix| && prefix[k] == '/' ==> k == 6 || k == 7 || k == 23;
    assert forall k :: 0 <= k < |prefix| ==> prefix[k] != 'v';
    forall j: nat | j < |prefix| ensures !MatchesAt(url, j) {
      assert url[j] == prefix[j];
      if j == 6 { SlashBlocked(url, j, 7); }
      else if j == 7 { SlashBlocked(url, j, 11); }
      else if j == 23 { SlashBlocked(url, j, 29); }
    }
    assert (id + rest)[..IdLength] == id;
    LongerTokenTruncated(prefix, "v=", id + rest);
  }

  /** The short form `https://youtu.be/<id>...` yields `<id>`. */
  lemma ShortLinkUrl(id: string, rest: string)
    requires |id| == IdLength && AllIdChars(id)
    ensures GetVideoId("https://youtu.be/" + id + rest) == Some(id)
  {
    var prefix := "https://youtu.be";
    var url := prefix + "/" + (id + rest);
    assert url == "https://youtu.be/" + id + rest;
    assert forall k :: 0 <= k < |prefix| && prefix[k] == '/' ==> k == 6 || k == 7;
    assert forall k :: 0 <= k < |prefix| ==> prefix[k] != 'v';
    forall j: nat | j < |prefix| ensures !MatchesAt(url, j) {
      assert url[j] == prefix[j];
      if j == 6 { SlashBlocked(url, j, 7); }
      else if j == 7 { SlashBlocked(url, j, 13); }
    }
    assert (id + rest)[..IdLength] == id;
    LongerTokenTruncated(prefix, "/", id + rest);
  }

  /**
   * On `https://www.youtube.com/`, a first path segment that begins with eleven
   * identifier characters is the result, whatever follows it, a later `v=`
   * parameter included: `https://www.youtube.com/attribution_link?v=...`
   * yields `attribution`.
   */
  lemma FirstPathSegmentWins(segment: string, rest: string)
    requires |segment| == IdLength && AllIdChars(segment)
    ensures GetVideoId("https://www.youtube.com/" + segment + rest) == Some(segment)
  {
    var prefix := "https://www.youtube.com";
    var url := prefix + "/" + (segment + rest);
    assert url == "https://www.youtube.com/" + segment + rest;
    assert forall k :: 0 <= k < |prefix| && prefix[k] == '/' ==> k == 6 || k == 7;
    assert forall k :: 0 <= k < |prefix| ==> prefix[k] != 'v';
    forall j: nat | j < |prefix| ensures !MatchesAt(url, j) {
      assert url[j] == prefix[j];
      if j == 6 { SlashBlocked(url, j, 7); }
      else if j == 7 { SlashBlocked(url, j, 11); }
    }
    assert (segment + rest)[..IdLength] == segment;
    LongerTokenTruncated(prefix, "/", segment + rest);
  }

  /** A `/` whose eleven-character window holds a character outside the class starts no match. */
  lemma SlashBlocked(url: string, j: nat, k: nat)
    requires j < |url| && url[j] == '/'
    requires j + 1 <= k < j + 1 + IdLength && k < |url| && !IsIdChar(url[k])
    ensures !MatchesAt(url, j)
  {
    if j + 1 + IdLength <= |url| {
      assert url[j + 1 .. j + 1 + IdLength][k - j - 1] == url[k];
    }
  }
}
