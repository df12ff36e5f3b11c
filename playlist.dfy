/**
 * The playlist endpoint: extracting the playlist id from a URL, keeping the
 * catalog items that are usable tracks, and mapping catalog failures to
 * HTTP status codes.
 */
module Playlist {
  import opened Text

  // ---------------------------------------------------------------------
  // extract_playlist_id
  // ---------------------------------------------------------------------

  const SlashMarker := "playlist/"
  const ColonMarker := "playlist:"
  const InvalidUrlMessage := "Invalid Spotify playlist URL"

  /** The class `[a-zA-Z0-9]`. */
  predicate IsIdChar(c: char) {
    IsAsciiLetter(c) || IsDigit(c)
  }

  /** The pattern `marker([a-zA-Z0-9]+)` matches at position `i`. */
  predicate MatchAt(s: string, marker: string, i: nat) {
    i + |marker| < |s| && s[i..i + |marker|] == marker && IsIdChar(s[i + |marker|])
  }

  /** `id` is the group captured by the match at `i`: the maximal run of id characters after the marker. */
  ghost predicate GroupAt(s: string, marker: string, i: nat, id: string) {
    && MatchAt(s, marker, i)
    && var start := i + |marker|;
       && start + |id| <= |s|
       && id == s[start..start + |id|]
       && id != []
       && (forall k :: 0 <= k < |id| ==> IsIdChar(id[k]))
       && (start + |id| == |s| || !IsIdChar(s[start + |id|]))
  }

  /** `re.search` reports the leftmost match. */
  ghost predicate LeftmostMatch(s: string, marker: string, i: nat) {
    MatchAt(s, marker, i) && forall j: nat :: j < i ==> !MatchAt(s, marker, j)
  }

  /** The leftmost match at or after `from`, if there is one. */
  function FindMatch(s: string, marker: string, from: nat): (r: Option<nat>)
    ensures r.Some? ==> from <= r.value && MatchAt(s, marker, r.value)
    ensures r.Some? ==> forall j: nat :: from <= j < r.value ==> !MatchAt(s, marker, j)
    ensures r.None? ==> forall j: nat :: from <= j ==> !MatchAt(s, marker, j)
    decreases |s| - from
  {
    if from + |marker| >= |s| then None
    else if MatchAt(s, marker, from) then Some(from)
    else FindMatch(s, marker, from + 1)
  }

  /** Length of the run of id characters starting at `start`. */
  function IdRun(s: string, start: nat): (n: nat)
    requires start <= |s|
    ensures start + n <= |s|
    ensures forall k :: start <= k < start + n ==> IsIdChar(s[k])
    ensures start + n == |s| || !IsIdChar(s[start + n])
    decreases |s| - start
  {
    if start == |s| || !IsIdChar(s[start]) then 0 else 1 + IdRun(s, start + 1)
  }

  /** `re.search(marker + '([a-zA-Z0-9]+)', s)`, reduced to its first group. */
  function SearchGroup(s: string, marker: string): (r: Option<string>)
    ensures r.None? <==> forall j: nat :: !MatchAt(s, marker, j)
    ensures r.Some? ==> exists i: nat :: LeftmostMatch(s, marker, i) && GroupAt(s, marker, i, r.value)
  {
    match FindMatch(s, marker, 0)
    case None => None
    case Some(i) =>
      var start := i + |marker|;
      var n := IdRun(s, start);
      var id := s[start..start + n];
      assert GroupAt(s, marker, i, id);
      assert LeftmostMatch(s, marker, i);
      Some(id)
  }

  /**
   * `extract_playlist_id(url)`: the id after the leftmost `playlist/` that
   * is followed by an id character; only when there is none, the id after
   * the leftmost such `playlist:`; otherwise the ValueError's message.
   */
  function ExtractPlaylistId(url: string): (r: Result<string, string>)
    ensures (exists i: nat :: MatchAt(url, SlashMarker, i)) ==>
              r.Ok? && exists i: nat :: LeftmostMatch(url, SlashMarker, i) && GroupAt(url, SlashMarker, i, r.value)
    ensures (forall i: nat :: !MatchAt(url, SlashMarker, i)) && (exists i: nat :: MatchAt(url, ColonMarker, i)) ==>
              r.Ok? && exists i: nat :: LeftmostMatch(url, ColonMarker, i) && GroupAt(url, ColonMarker, i, r.value)
    ensures r.Err? <==> (forall i: nat :: !MatchAt(url, SlashMarker, i) && !MatchAt(url, ColonMarker, i))
    ensures r.Err? ==> r.error == InvalidUrlMessage
  {
    match SearchGroup(url, SlashMarker)
    case Some(id) => Ok(id)
    case None =>
      match SearchGroup(url, ColonMarker)
      case Some(id) => Ok(id)
      case None => Err(InvalidUrlMessage)
  }

  // ---------------------------------------------------------------------
  // The track filter of get_playlist
  // ---------------------------------------------------------------------

  /** A track as the catalog reports it. */
  datatype CatalogTrack = CatalogTrack(
    id: Option<string>,
    name: string,
    artists: seq<string>,
    album: string,
    albumImages: seq<string>,
    durationMs: int)

  /** A playlist item; its track may be missing (deleted or local tracks). */
  datatype CatalogItem = CatalogItem(track: Option<CatalogTrack>)

  datatype CatalogPlaylist = CatalogPlaylist(
    id: string,
    name: string,
    description: Option<string>,
    images: seq<string>,
    items: seq<CatalogItem>)

  /** An exception raised by the catalog call: its message, and whether it is a ValueError. */
  datatype CatalogFailure = CatalogFailure(message: string, isValueError: bool)

  /** The `Track` record the server returns. */
  datatype Track = Track(
    id: string,
    name: string,
    artist: string,
    album: string,
    imageUrl: Option<string>,
    durationMs: int)

  datatype PlaylistResponse = PlaylistResponse(
    id: string,
    name: string,
    description: Option<string>,
    imageUrl: Option<string>,
    totalTracks: nat,
    tracks: seq<Track>)

  datatype HttpError = HttpError(status: nat, detail: string)

  /** The filter `item['track'] and item['track']['id']`: a track is present and its id is truthy. */
  predicate Usable(item: CatalogItem) {
    item.track.Some? && item.track.value.id.Some? && item.track.value.id.value != ""
  }

  function FirstImage(images: seq<string>): Option<string> {
    if images == [] then None else Some(images[0])
  }

  /** The `Track` built for a usable item: artist names joined with ", ", the first album image if any. */
  function ToTrack(item: CatalogItem): Track
    requires Usable(item)
  {
    var t := item.track.value;
    Track(t.id.value, t.name, JoinWith(", ", t.artists), t.album, FirstImage(t.albumImages), t.durationMs)
  }

  /** The positions of the usable items, in playlist order. */
  function UsableIndices(items: seq<CatalogItem>): (ix: seq<nat>)
    ensures forall k :: 0 <= k < |ix| ==> ix[k] < |items| && Usable(items[ix[k]])
    ensures forall k, l :: 0 <= k < l < |ix| ==> ix[k] < ix[l]
    ensures forall i :: 0 <= i < |items| && Usable(items[i]) ==> i in ix
  {
    if items == [] then []
    else
      var n := |items| - 1;
      var front := UsableIndices(items[..n]);
      assert forall k :: 0 <= k < |front| ==> items[..n][front[k]] == items[front[k]];
      front + (if Usable(items[n]) then [n] else [])
  }

  /** The loop of `get_playlist` that appends a `Track` for every usable item. */
  method CollectTracks(items: seq<CatalogItem>) returns (tracks: seq<Track>)
    ensures |tracks| == |UsableIndices(items)|
    ensures forall k :: 0 <= k < |tracks| ==> tracks[k] == ToTrack(items[UsableIndices(items)[k]])
  {
    tracks := [];
    var i := 0;
    while i < |items|
      invariant 0 <= i <= |items|
      invariant |tracks| == |UsableIndices(items[..i])|
      invariant forall k :: 0 <= k < |tracks| ==> tracks[k] == ToTrack(items[UsableIndices(items[..i])[k]])
    {
      assert items[..i + 1][..i] == items[..i];
      if Usable(items[i]) {
        tracks := tracks + [ToTrack(items[i])];
      }
      i := i + 1;
    }
    assert items[..i] == items;
  }

  /** No track survives the filter exactly when no item is usable. */
  lemma NoUsableIndices(items: seq<CatalogItem>)
    ensures UsableIndices(items) == [] <==> forall i :: 0 <= i < |items| ==> !Usable(items[i])
  {
    if UsableIndices(items) != [] {
      assert UsableIndices(items)[0] < |items|;
    }
  }

  // ---------------------------------------------------------------------
  // Error mapping of get_playlist
  // ---------------------------------------------------------------------

  const EmptyPlaylistDetail := "Esta playlist está vazia ou não possui músicas disponíveis."
  const NotFoundDetail := "Playlist não encontrada. Verifique se a URL está correta e se a playlist é pública. Nota: algumas playlists geradas pelo Spotify podem ter restrições regionais."
  const ForbiddenDetail := "Acesso negado. A playlist pode ser privada."
  const FetchFailedDetail := "Erro ao buscar playlist. Tente novamente."

  /** The status for an unexpected catalog exception, classified by substrings of its message. */
  function CatalogErrorStatus(message: string): (status: nat)
    ensures status == 404 <==> exists i: nat :: OccursAt(message, "404", i)
    ensures status == 403 <==>
              (forall i: nat :: !OccursAt(message, "404", i))
              && exists i: nat :: OccursAt(message, "401", i) || OccursAt(message, "403", i)
    ensures status == 500 <==>
              forall i: nat :: !OccursAt(message, "404", i) && !OccursAt(message, "401", i) && !OccursAt(message, "403", i)
  {
    if Contains(message, "404") then 404
    else if Contains(message, "401") || Contains(message, "403") then 403
    else 500
  }

  function CatalogError(f: CatalogFailure): HttpError {
    if f.isValueError then HttpError(400, f.message)
    else
      var status := CatalogErrorStatus(f.message);
      HttpError(status, if status == 404 then NotFoundDetail else if status == 403 then ForbiddenDetail else FetchFailedDetail)
  }

  /**
   * `get_playlist`: 400 for a URL without an id or a catalog ValueError,
   * the substring-classified status for any other catalog failure, 400 when
   * no usable track remains (raised as is, never reclassified), and
   * otherwise the usable tracks in playlist order with their count.
   */
  method GetPlaylist(url: string, fetch: string -> Result<CatalogPlaylist, CatalogFailure>)
    returns (r: Result<PlaylistResponse, HttpError>)
    ensures ExtractPlaylistId(url).Err? ==> r == Err(HttpError(400, InvalidUrlMessage))
    ensures ExtractPlaylistId(url).Ok? && fetch(ExtractPlaylistId(url).value).Err? ==>
              r == Err(CatalogError(fetch(ExtractPlaylistId(url).value).error))
    ensures r.Ok? ==>
              && ExtractPlaylistId(url).Ok?
              && var p := fetch(ExtractPlaylistId(url).value);
              && p.Ok?
              && var ix := UsableIndices(p.value.items);
              && r.value.totalTracks == |r.value.tracks| == |ix| > 0
              && (forall k :: 0 <= k < |ix| ==> r.value.tracks[k] == ToTrack(p.value.items[ix[k]]))
              && r.value.id == p.value.id && r.value.name == p.value.name
              && r.value.description == p.value.description
              && r.value.imageUrl == FirstImage(p.value.images)
    ensures (ExtractPlaylistId(url).Ok? && fetch(ExtractPlaylistId(url).value).Ok?) ==>
              (r == Err(HttpError(400, EmptyPlaylistDetail)) <==>
                 forall i :: 0 <= i < |fetch(ExtractPlaylistId(url).value).value.items| ==>
                   !Usable(fetch(ExtractPlaylistId(url).value).value.items[i]))
    ensures (ExtractPlaylistId(url).Ok? && fetch(ExtractPlaylistId(url).value).Ok?) ==>
              (r.Ok? <==> UsableIndices(fetch(ExtractPlaylistId(url).value).value.items) != [])
  {
    var id := ExtractPlaylistId(url);
    if id.Err? {
      return Err(HttpError(400, id.error));
    }
    var fetched := fetch(id.value);
    if fetched.Err? {
      return Err(CatalogError(fetched.error));
    }
    var p := fetched.value;
    var tracks := CollectTracks(p.items);
    NoUsableIndices(p.items);
    if |tracks| == 0 {
      return Err(HttpError(400, EmptyPlaylistDetail));
    }
    r := Ok(PlaylistResponse(p.id, p.name, p.description, FirstImage(p.images), |tracks|, tracks));
  }
}
