/**
 * The write page (src/app/write/page.tsx): the `m:ss` formatter for chorus
 * times, the row that `handleSubmit` inserts, and the song-search state
 * (query, results and the selected track). The session id read from browser
 * storage and the proxy's HTTP answer are parameters.
 */
module Compose {
  import opened Wrappers
  import opened JsString
  import opened Messages
  import SpotifyRoute
  import MessageCard

  /** `formatTime`: whole seconds, as minutes, a colon, and the remaining
      seconds padded to two digits; reading it back gives the whole seconds. */
  function FormatTime(ms: nat): (t: string)
    ensures ParseTime(t) == Some(ms / 1000)
    ensures t[0] != '0' || |t| == 4
  {
    var seconds := ms / 1000;
    var m, s := seconds / 60, seconds % 60;
    DivMod60(seconds);
    ReadBack(m, s);
    NatToString(m) + ":" + PadStart2(NatToString(s))
  }

  /** Minutes, a colon and seconds below sixty padded to two digits read back
      as minutes times sixty plus those seconds. */
  lemma ReadBack(m: nat, s: nat)
    requires s < 60
    ensures ParseTime(NatToString(m) + ":" + PadStart2(NatToString(s))) == Some(m * 60 + s)
  {
    TwoDigits(s);
    ParseNatToString(m);
    ParseJoined(NatToString(m), PadStart2(NatToString(s)), m, s);
  }

  /** Below one hundred, the padded decimal text is two digits reading back as
      the number. */
  lemma TwoDigits(x: nat)
    requires x < 100
    ensures var p := PadStart2(NatToString(x));
      |p| == 2 && AllDigits(p) && ParseNat(p) == x
  {
    var p := PadStart2(NatToString(x));
    if x >= 10 {
      assert NatToString(x) == [DigitChar(x / 10), DigitChar(x % 10)];
    } else {
      assert p == ['0', DigitChar(x)];
      assert p[..1] == ['0'] && ['0'][..0] == [];
      assert ParseNat(p[..1]) == 0;
    }
  }

  /** Reads a `m:ss` text back as whole seconds: decimal minutes, a colon and
      two decimal digits below sixty. The reference inverse of `FormatTime`. */
  function ParseTime(t: string): Option<nat> {
    if |t| >= 4 && t[|t| - 3] == ':' && AllDigits(t[..|t| - 3]) && AllDigits(t[|t| - 2..])
       && ParseNat(t[|t| - 2..]) < 60
    then Some(ParseNat(t[..|t| - 3]) * 60 + ParseNat(t[|t| - 2..]))
    else None
  }

  lemma DivMod60(s: nat)
    ensures (s / 60) * 60 + s % 60 == s && s % 60 < 60
  {
  }

  /** A colon between decimal minutes and two decimal digits below sixty
      reads back as minutes times sixty plus those seconds. */
  lemma ParseJoined(mins: string, secs: string, m: nat, s: nat)
    requires mins != [] && AllDigits(mins) && ParseNat(mins) == m
    requires |secs| == 2 && AllDigits(secs) && ParseNat(secs) == s && s < 60
    ensures ParseTime(mins + ":" + secs) == Some(m * 60 + s)
  {
    var t := mins + ":" + secs;
    assert t[..|t| - 3] == mins;
    assert t[|t| - 2..] == secs;
  }

  /** The `formData` state of the form. */
  datatype FormData = FormData(message: string, fromName: string, toName: string, isAnonymous: bool)

  /** The row passed to `insert`. */
  datatype Insertion = Insertion(
    text: string,
    fromName: Option<string>,
    toName: string,
    spotifyTrackId: Option<string>,
    spotifyData: Option<SpotifyData>,
    sessionId: string,
    likes: nat)

  /** What a submit does: nothing for a blank message; an alert with no insert
      when the selected track has no artist (reading `artists[0].name` throws
      before the insert); otherwise the insert of a row. Whether the insert
      then succeeds only decides between navigating home and an alert. */
  datatype Submission = Ignored | Failed | Insert(row: Insertion)

  /** The `spotifyData` object built from the selected track: its id, name,
      first artist, chorus window and preview, marked as an automatic chorus. */
  function TrackData(t: SpotifyRoute.Track): (d: SpotifyData)
    requires |t.artists| > 0
    ensures d.trackId == t.id && d.trackName == t.name && d.artistName == t.artists[0].name
    ensures d.startTime == t.refrenSection.startTime && d.endTime == t.refrenSection.endTime
    ensures d.previewUrl == t.previewUrl && d.isAutoRefren
  {
    SpotifyData(t.id, t.name, t.artists[0].name, t.refrenSection.startTime,
      t.refrenSection.endTime, t.previewUrl, true)
  }

  /** For a track as the proxy returns it, the stored times are the chorus
      window of its duration, which lies inside the track from two minutes on. */
  lemma StoredWindowFromProxy(u: SpotifyRoute.UpstreamTrack)
    requires |u.artists| > 0
    ensures var d := TrackData(SpotifyRoute.FormatTrack(u));
      && SpotifyRoute.Window(d.startTime, d.endTime) == SpotifyRoute.RefrenSection(u.durationMs)
      && (u.durationMs >= 120000 ==> 0 <= d.startTime < d.endTime <= u.durationMs)
  {
    if u.durationMs >= 120000 {
      SpotifyRoute.WindowInsideTrack(u.durationMs);
    }
  }

  /** The recipient stored when none is given. */
  const Everyone: string := "Everyone"

  lemma EveryoneTrimmed()
    ensures Everyone != "" && Trim(Everyone) == Everyone
  {
    TrimNoEdgeWhiteSpace(Everyone);
  }

  /** `formData.to_name.trim() || 'Everyone'`: never empty and without
      surrounding white space; "Everyone" exactly for a blank input. */
  function ToNameOf(input: string): (to: string)
    ensures to != "" && Trim(to) == to
    ensures AllWhiteSpace(input) ==> to == Everyone
    ensures !AllWhiteSpace(input) ==> to == Trim(input)
  {
    var trimmed := Trim(input);
    TrimEmptyIff(input);
    if trimmed != "" then
      TrimIdempotent(input);
      trimmed
    else
      EveryoneTrimmed();
      Everyone
  }

  /** `isAnonymous ? null : (from_name || null)`: absent exactly when the
      message is anonymous or the name is empty, otherwise the name as typed,
      untrimmed. */
  function FromNameOf(form: FormData): (from: Option<string>)
    ensures from.None? <==> form.isAnonymous || form.fromName == ""
    ensures from.Some? ==> from.value == form.fromName
  {
    if form.isAnonymous then None else if form.fromName != "" then Some(form.fromName) else None
  }

  /** `selectedTrack?.id || null`: absent without a track or with an empty id. */
  function TrackIdOf(selected: Option<SpotifyRoute.Track>): (id: Option<string>)
    ensures id.Some? <==> selected.Some? && selected.value.id != ""
    ensures id.Some? ==> id.value == selected.value.id
  {
    if selected.Some? && selected.value.id != "" then Some(selected.value.id) else None
  }

  /** `handleSubmit`: no insert for a blank message; no insert for a track
      without artists; otherwise a row with the message as typed, no likes,
      this session, and the recipient, sender and track fields above. */
  function Submit(form: FormData, selected: Option<SpotifyRoute.Track>, session: string): (r: Submission)
    ensures r.Ignored? <==> AllWhiteSpace(form.message)
    ensures r.Failed? <==> !AllWhiteSpace(form.message) && selected.Some? && selected.value.artists == []
    ensures r.Insert? ==>
      && r.row.text == form.message && r.row.likes == 0 && r.row.sessionId == session
      && r.row.toName == ToNameOf(form.toName) && r.row.fromName == FromNameOf(form)
      && r.row.spotifyTrackId == TrackIdOf(selected)
      && (r.row.spotifyData.None? <==> selected.None?)
      && (selected.Some? ==> |selected.value.artists| > 0 && r.row.spotifyData == Some(TrackData(selected.value)))
  {
    TrimEmptyIff(form.message);
    if Trim(form.message) == "" then Ignored
    else if selected.Some? && |selected.value.artists| == 0 then Failed
    else
      Insert(Insertion(
        form.message,
        FromNameOf(form),
        ToNameOf(form.toName),
        TrackIdOf(selected),
        if selected.Some? then Some(TrackData(selected.value)) else None,
        session,
        0))
  }

  /** The stored message for an inserted row, once the database has given it
      an id and a creation time. */
  function Stored(row: Insertion, id: string, createdAt: int): Message {
    Message(id, row.text, row.fromName, Some(row.toName), row.spotifyTrackId, row.spotifyData,
      row.likes, row.sessionId, createdAt)
  }

  /** A submitted message always shows its "To" badge, shows "Someone" as the
      sender when sent anonymously or without a name, starts with no likes,
      and offers the delete control exactly to the session that wrote it. */
  lemma SubmittedCard(form: FormData, selected: Option<SpotifyRoute.Track>, session: string,
                      id: string, createdAt: int, viewer: string, now: int)
    requires Submit(form, selected, session).Insert?
    ensures var v := MessageCard.View(Stored(Submit(form, selected, session).row, id, createdAt), viewer, false, now);
      && v.toBadge.Some?
      && (form.isAnonymous || form.fromName == "" ==> v.fromLabel == "Someone")
      && (!form.isAnonymous && form.fromName != "" ==> v.fromLabel == form.fromName)
      && v.likes == 0
      && (v.showDelete <==> viewer == session)
      && (v.showMusic <==> selected.Some?)
  {
  }

  /** `data.tracks || []` for the answer of `fetch('/api/spotify?q=...')`,
      which is absent when the request itself fails: the tracks of a
      successful answer, and nothing otherwise. */
  function SearchResultsOf(reply: Option<SpotifyRoute.Response>): (r: seq<SpotifyRoute.Track>)
    ensures reply.Some? && 200 <= reply.value.status < 300 && reply.value.body.Tracks? ==>
      r == reply.value.body.tracks
    ensures r != [] ==> reply.Some? && 200 <= reply.value.status < 300 && reply.value.body == SpotifyRoute.Tracks(r)
  {
    if reply.Some? && 200 <= reply.value.status < 300 && reply.value.body.Tracks? then reply.value.body.tracks
    else []
  }

  /** The song-search part of the page state. */
  class TrackSearch {
    var searchQuery: string
    var searchResults: seq<SpotifyRoute.Track>
    var selectedTrack: Option<SpotifyRoute.Track>

    /** The state on first render. */
    constructor ()
      ensures searchQuery == "" && searchResults == [] && selectedTrack == None
    {
      searchQuery := "";
      searchResults := [];
      selectedTrack := None;
    }

    /** `searchTracks`: a blank query clears the results without a request;
        otherwise the proxy is asked and its tracks, or nothing on any
        failure, become the results. */
    method SearchTracks(query: string, reply: Option<SpotifyRoute.Response>) returns (requested: bool)
      modifies this`searchResults
      ensures requested <==> !AllWhiteSpace(query)
      ensures searchResults == if requested then SearchResultsOf(reply) else []
    {
      TrimEmptyIff(query);
      if Trim(query) == "" {
        searchResults := [];
        return false;
      }
      requested := true;
      searchResults := SearchResultsOf(reply);
    }

    /** `handleTrackSelect`: the track is selected and the results cleared; the
        query becomes "name - first artist". A track without artists makes the
        template throw after the first two updates, so the query stays. */
    method TrackSelect(track: SpotifyRoute.Track)
      modifies this
      ensures selectedTrack == Some(track) && searchResults == []
      ensures |track.artists| > 0 ==> searchQuery == track.name + " - " + track.artists[0].name
      ensures |track.artists| == 0 ==> searchQuery == old(searchQuery)
    {
      selectedTrack := Some(track);
      searchResults := [];
      if |track.artists| > 0 {
        searchQuery := track.name + " - " + track.artists[0].name;
      }
    }

    /** The clear button of the search box. */
    method ClearSearch()
      modifies this`searchQuery, this`searchResults
      ensures searchQuery == "" && searchResults == []
    {
      searchQuery := "";
      searchResults := [];
    }

    /** The remove button of the selected track. */
    method RemoveTrack()
      modifies this`selectedTrack, this`searchQuery
      ensures selectedTrack == None && searchQuery == ""
    {
      selectedTrack := None;
      searchQuery := "";
    }
  }
}
