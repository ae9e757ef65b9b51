/**
 * `extract_playlist_id` (app.py): the playlist identifier inside a Spotify
 * or YouTube Music playlist URL, by plain string splitting.
 */
module PlaylistUrl {
  import opened Wrappers
  import opened PyStr

  /**
   * What `extract_playlist_id` does: return an id, raise `ValueError` with a
   * message, or return `None` for a platform it does not know.
   */
  datatype Extraction = PlaylistId(id: string) | ValueError(message: string) | NoPlatform

  const SpotifyUrlError := "Invalid Spotify playlist URL. Make sure it's a playlist link."
  const YtMusicUrlError := "Invalid YouTube Music playlist URL. It should contain 'list='."
  const ListMarker := "list="

  function ExtractPlaylistId(url: string, platform: string): (r: Extraction)
    ensures r.NoPlatform? <==> platform != "spotify" && platform != "ytmusic"
    ensures r.ValueError? ==>
      r.message == if platform == "spotify" then SpotifyUrlError else YtMusicUrlError
    ensures platform == "ytmusic" ==> (r.PlaylistId? <==> Contains(url, ListMarker))
  {
    if platform == "spotify" then
      var parts := Split(url, "/");
      if "playlist" in parts then PlaylistId(Split(Last(parts), "?")[0])
      else ValueError(SpotifyUrlError)
    else if platform == "ytmusic" then
      if Contains(url, ListMarker) then PlaylistId(Split(Last(Split(url, ListMarker)), "&")[0])
      else ValueError(YtMusicUrlError)
    else
      NoPlatform
  }

  /**
   * A Spotify URL is accepted exactly when one of its `/`-separated fields is
   * exactly `playlist`; `playlists` or `playlist?si=x` do not count.
   */
  lemma SpotifyAccepted(url: string)
    ensures ExtractPlaylistId(url, "spotify").PlaylistId? <==>
      exists j :: 0 <= j <= |url| && IsField(url, '/', j, "playlist")
  {
    SplitFields(url, '/', "playlist");
  }

  /** The last `/`-separated field of `s` starts at `k`. */
  lemma LastSlashField(s: string) returns (k: nat)
    ensures k <= |s| && Last(Split(s, "/")) == s[k..]
    ensures k == 0 || s[k - 1] == '/'
    ensures '/' !in s[k..]
  {
    var p := SplitLast(s, "/");
    SplitParts(s, "/");
    ContainsChar(Last(Split(s, "/")), '/');
    if p.None? {
      k := 0;
    } else {
      k := p.value + 1;
      CharOfOccurrence(s, "/", p.value, p.value);
    }
  }

  /**
   * An accepted Spotify URL yields its last `/`-separated field cut at the
   * first `?`: the id holds neither `/` nor `?`.
   */
  lemma SpotifyIdIsLastField(url: string) returns (k: nat)
    requires ExtractPlaylistId(url, "spotify").PlaylistId?
    ensures var id := ExtractPlaylistId(url, "spotify").id;
      k <= |url| && (k == 0 || url[k - 1] == '/') && '/' !in url[k..] &&
      id <= url[k..] && '?' !in id && '/' !in id &&
      (k + |id| == |url| || url[k + |id|] == '?')
  {
    k := LastSlashField(url);
    var n := SplitFirstChar(url[k..], '?');
    var id := ExtractPlaylistId(url, "spotify").id;
    assert id == url[k..][..n];
    assert forall i :: 0 <= i < |id| ==> id[i] == url[k..][i];
  }

  lemma CharBeforeSuffix(s: string, c: char, m: nat, i: nat)
    requires m <= |s| && i < |s| && s[i] == c && c !in s[m..]
    ensures i < m
  {
  }

  /**
   * Round trip for Spotify: `prefix + "/playlist/" + id`, optionally followed
   * by `"?" + query`, gives back `id` when `id` holds neither `/` nor `?` and
   * the query holds no `/`.
   */
  lemma SpotifyRoundTrip(prefix: string, id: string, query: string)
    requires '/' !in id && '?' !in id && '/' !in query
    ensures ExtractPlaylistId(prefix + "/playlist/" + id, "spotify") == PlaylistId(id)
    ensures ExtractPlaylistId(prefix + "/playlist/" + id + "?" + query, "spotify") == PlaylistId(id)
  {
    assert prefix + "/playlist/" + id + "" == prefix + "/playlist/" + id;
    SpotifyRoundTripWith(prefix, id, "");
    assert prefix + "/playlist/" + id + "?" + query == prefix + "/playlist/" + id + ("?" + query);
    SpotifyRoundTripWith(prefix, id, "?" + query);
  }

  lemma SpotifyRoundTripWith(prefix: string, id: string, rest: string)
    requires '/' !in id && '/' !in rest && '?' !in id
    requires rest == [] || rest[0] == '?'
    ensures ExtractPlaylistId(prefix + "/playlist/" + id + rest, "spotify") == PlaylistId(id)
  {
    var url := prefix + "/playlist/" + id + rest;
    SpotifyFieldPresent(prefix, id + rest);
    assert url == prefix + "/playlist/" + (id + rest);
    var k := SpotifyIdIsLastField(url);
    LastFieldAfterPlaylist(prefix, id + rest, k);
    var got := ExtractPlaylistId(url, "spotify").id;
    UpToFirstChar(id + rest, '?', id);
    UpToFirstChar(id + rest, '?', got);
  }

  lemma SpotifyFieldPresent(prefix: string, last: string)
    ensures ExtractPlaylistId(prefix + "/playlist/" + last, "spotify").PlaylistId?
  {
    var url := prefix + "/playlist/" + last;
    var n := |prefix|;
    assert url[n] == '/' && url[n + 9] == '/';
    assert url[n + 1..n + 9] == "playlist";
    assert IsField(url, '/', n + 1, "playlist");
    SpotifyAccepted(url);
  }

  lemma LastFieldAfterPlaylist(prefix: string, last: string, k: nat)
    requires '/' !in last
    requires var url := prefix + "/playlist/" + last;
      k <= |url| && (k == 0 || url[k - 1] == '/') && '/' !in url[k..]
    ensures k == |prefix| + 10 && (prefix + "/playlist/" + last)[k..] == last
  {
    var url := prefix + "/playlist/" + last;
    var n := |prefix|;
    assert url[n + 9] == '/';
    assert url[n + 10..] == last;
    CharBeforeSuffix(url, '/', k, n + 9);
  }

  lemma TwoFields(a: string, b: string)
    requires '/' !in a && '/' !in b
    ensures Split(a + "/" + b, "/") == [a, b]
  {
    SplitAtChar(a, '/', b);
    SplitNoChar(b, '/');
  }

  lemma ThreeFields(a: string, b: string, c: string)
    requires '/' !in a && '/' !in b && '/' !in c
    ensures Split(a + "/" + b + "/" + c, "/") == [a, b, c]
  {
    assert a + "/" + b + "/" + c == a + "/" + (b + "/" + c);
    SplitAtChar(a, '/', b + "/" + c);
    TwoFields(b, c);
  }

  /** A near miss of the `playlist` field is rejected: `playlists` is not `playlist`. */
  lemma SpotifyRejectsPlural()
    ensures ExtractPlaylistId("x/playlists/y", "spotify") == ValueError(SpotifyUrlError)
  {
    var plural := "playlists";
    assert "x/playlists/y" == "x" + "/" + plural + "/" + "y";
    ThreeFields("x", plural, "y");
    assert |plural| != |"playlist"|;
    assert "playlist" !in ["x", plural, "y"];
  }

  /** A near miss of the `playlist` field is rejected: the query is not cut off before the test. */
  lemma SpotifyRejectsQueryOnField()
    ensures ExtractPlaylistId("x/playlist?y", "spotify") == ValueError(SpotifyUrlError)
  {
    assert "x/playlist?y" == "x" + "/" + "playlist?y";
    TwoFields("x", "playlist?y");
  }

  /** The text after the last `list=`, up to the first `&`. */
  lemma YtMusicIdAfterLastMarker(url: string) returns (p: nat)
    requires Contains(url, ListMarker)
    ensures var id := ExtractPlaylistId(url, "ytmusic").id;
      OccursAt(url, ListMarker, p) &&
      (forall q: nat :: p < q ==> !OccursAt(url, ListMarker, q)) &&
      id <= url[p + 5..] && '&' !in id &&
      (p + 5 + |id| == |url| || url[p + 5 + |id|] == '&')
  {
    var o := SplitLast(url, ListMarker);
    p := o.value;
    SplitParts(url, ListMarker);
    LastOccurrence(url, ListMarker, p);
    var n := SplitFirstChar(url[p + 5..], '&');
  }

  /**
   * Round trip for YouTube Music: `prefix + "list=" + id`, optionally followed
   * by `"&" + tail`, gives back `id` when `id` holds no `&` and neither `id`
   * nor `tail` holds another `list=`.
   */
  lemma YtMusicRoundTrip(prefix: string, id: string, tail: string)
    requires '&' !in id && !Contains(id, ListMarker) && !Contains(tail, ListMarker)
    ensures ExtractPlaylistId(prefix + ListMarker + id, "ytmusic") == PlaylistId(id)
    ensures ExtractPlaylistId(prefix + ListMarker + id + "&" + tail, "ytmusic") == PlaylistId(id)
  {
    assert id + "" == id;
    assert prefix + ListMarker + id + "" == prefix + ListMarker + id;
    YtMusicRoundTripWith(prefix, id, "");
    ContainsAcross(id, "&", tail, ListMarker);
    assert id + "&" + tail == id + ("&" + tail);
    YtMusicRoundTripWith(prefix, id, "&" + tail);
    assert prefix + ListMarker + id + "&" + tail == prefix + ListMarker + id + ("&" + tail);
  }

  lemma YtMusicRoundTripWith(prefix: string, id: string, rest: string)
    requires '&' !in id && !Contains(id + rest, ListMarker)
    requires rest == [] || rest[0] == '&'
    ensures ExtractPlaylistId(prefix + ListMarker + id + rest, "ytmusic") == PlaylistId(id)
  {
    var url := prefix + ListMarker + id + rest;
    var p0 := |prefix|;
    assert OccursAt(url, ListMarker, p0) by {
      assert url[p0..p0 + 5] == ListMarker;
    }
    assert url[p0 + 5..] == id + rest;
    LastOccurrence(url, ListMarker, p0);
    var p := YtMusicIdAfterLastMarker(url);
    assert p == p0;
    var got := ExtractPlaylistId(url, "ytmusic").id;
    UpToFirstChar(id + rest, '&', id);
    UpToFirstChar(id + rest, '&', got);
  }
}
