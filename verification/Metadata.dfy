/**
 Track metadata: the tristate message of pkg/protocol/messages.go and its deferred merge in pkg/sendspin/receiver.go.
 */
module Metadata {
  import opened Numbers
  import opened Options

  /** A key of the incoming JSON object: left out, null, or a value. */
  datatype Field<+T> = Omitted | Null | Value(v: T)

  /** The JSON keys the receiver knows. */
  datatype Key = TimestampKey | TitleKey | ArtistKey | AlbumKey | AlbumArtistKey | ArtworkUrlKey | TrackKey | YearKey
    | ProgressKey | RepeatKey | ShuffleKey

  /** The decoded object, key by key. duration is progress.track_duration in milliseconds. */
  datatype Wire = Wire(
    timestamp: int, title: Field<string>, artist: Field<string>, album: Field<string>, albumArtist: Field<string>,
    artworkUrl: Field<string>, track: Field<int>, year: Field<int>, duration: Field<int>,
    repeatMode: Field<string>, shuffle: Field<bool>)

  /** The Go value: nil pointers for both omitted and null, and the set of keys that were present, if recorded. */
  datatype MetadataState = MetadataState(
    timestamp: int, title: Option<string>, artist: Option<string>, album: Option<string>, albumArtist: Option<string>,
    artworkUrl: Option<string>, track: Option<int>, year: Option<int>, duration: Option<int>,
    repeatMode: Option<string>, shuffle: Option<bool>, presentKeys: Option<set<Key>>)

  predicate HasField(m: MetadataState, key: Key) { m.presentKeys.None? || key in m.presentKeys.value }

  function Pointer<T>(f: Field<T>): Option<T> { if f.Value? then Some(f.v) else None }

  /** The key appears in the object. */
  predicate Present(w: Wire, k: Key) {
    match k
    case TimestampKey => true
    case TitleKey => !w.title.Omitted?
    case ArtistKey => !w.artist.Omitted?
    case AlbumKey => !w.album.Omitted?
    case AlbumArtistKey => !w.albumArtist.Omitted?
    case ArtworkUrlKey => !w.artworkUrl.Omitted?
    case TrackKey => !w.track.Omitted?
    case YearKey => !w.year.Omitted?
    case ProgressKey => !w.duration.Omitted?
    case RepeatKey => !w.repeatMode.Omitted?
    case ShuffleKey => !w.shuffle.Omitted?
  }

  function Unmarshal(w: Wire): MetadataState {
    MetadataState(
      w.timestamp, Pointer(w.title), Pointer(w.artist), Pointer(w.album), Pointer(w.albumArtist),
      Pointer(w.artworkUrl), Pointer(w.track), Pointer(w.year), Pointer(w.duration),
      Pointer(w.repeatMode), Pointer(w.shuffle),
      Some(set k: Key | Present(w, k)))
  }

  /** What a message says about one field: presence first, then the pointer. */
  function Mention<T>(m: MetadataState, key: Key, pointer: Option<T>): Field<T> {
    if !HasField(m, key) then Omitted else if pointer.Some? then Value(pointer.value) else Null
  }

  /** Decoding loses nothing: all three states of every key can be told apart afterwards. */
  lemma TristateRoundTrip(w: Wire)
    ensures var m := Unmarshal(w);
      && Mention(m, TitleKey, m.title) == w.title && Mention(m, ArtistKey, m.artist) == w.artist
      && Mention(m, AlbumKey, m.album) == w.album && Mention(m, AlbumArtistKey, m.albumArtist) == w.albumArtist
      && Mention(m, ArtworkUrlKey, m.artworkUrl) == w.artworkUrl && Mention(m, TrackKey, m.track) == w.track
      && Mention(m, YearKey, m.year) == w.year && Mention(m, ProgressKey, m.duration) == w.duration
      && Mention(m, RepeatKey, m.repeatMode) == w.repeatMode && Mention(m, ShuffleKey, m.shuffle) == w.shuffle
  {
  }

  // ---------------------------------------------------------------- merging

  datatype Merged = Merged(
    title: string, artist: string, album: string, albumArtist: string, artworkUrl: string,
    track: int, year: int, duration: int, repeatMode: string, shuffle: bool)

  const BLANK := Merged("", "", "", "", "", 0, 0, 0, "", false)

  function Overwrite<T>(old': T, f: Field<T>, cleared: T): T {
    match f
    case Omitted => old'
    case Null => cleared
    case Value(v) => v
  }

  function Seconds(f: Field<int>): Field<int> { if f.Value? then Value(TruncDiv(f.v, 1000)) else f }

  /** One thing that changes the snapshot: a metadata message, or the controller's repeat and shuffle. */
  datatype Update = Track(m: MetadataState) | Controller(repeatMode: string, shuffle: bool)

  function Title(u: Update): Field<string> { if u.Track? then Mention(u.m, TitleKey, u.m.title) else Omitted }
  function Artist(u: Update): Field<string> { if u.Track? then Mention(u.m, ArtistKey, u.m.artist) else Omitted }
  function Album(u: Update): Field<string> { if u.Track? then Mention(u.m, AlbumKey, u.m.album) else Omitted }
  function AlbumArtist(u: Update): Field<string> {
    if u.Track? then Mention(u.m, AlbumArtistKey, u.m.albumArtist) else Omitted
  }
  function ArtworkUrl(u: Update): Field<string> {
    if u.Track? then Mention(u.m, ArtworkUrlKey, u.m.artworkUrl) else Omitted
  }
  function TrackNumber(u: Update): Field<int> { if u.Track? then Mention(u.m, TrackKey, u.m.track) else Omitted }
  function Year(u: Update): Field<int> { if u.Track? then Mention(u.m, YearKey, u.m.year) else Omitted }
  function Duration(u: Update): Field<int> {
    if u.Track? then Seconds(Mention(u.m, ProgressKey, u.m.duration)) else Omitted
  }
  function RepeatMode(u: Update): Field<string> {
    if u.Track? then Mention(u.m, RepeatKey, u.m.repeatMode) else Value(u.repeatMode)
  }
  function Shuffle(u: Update): Field<bool> {
    if u.Track? then Mention(u.m, ShuffleKey, u.m.shuffle) else Value(u.shuffle)
  }

  function Merge(d: Merged, u: Update): Merged {
    Merged(Overwrite(d.title, Title(u), ""), Overwrite(d.artist, Artist(u), ""), Overwrite(d.album, Album(u), ""),
           Overwrite(d.albumArtist, AlbumArtist(u), ""), Overwrite(d.artworkUrl, ArtworkUrl(u), ""),
           Overwrite(d.track, TrackNumber(u), 0), Overwrite(d.year, Year(u), 0), Overwrite(d.duration, Duration(u), 0),
           Overwrite(d.repeatMode, RepeatMode(u), ""), Overwrite(d.shuffle, Shuffle(u), false))
  }

  /** What a decoded message changes: each field by the key of its own name, the duration in whole seconds. */
  lemma MessageMentions(w: Wire)
    ensures var u := Track(Unmarshal(w));
      && Title(u) == w.title && Artist(u) == w.artist && Album(u) == w.album && AlbumArtist(u) == w.albumArtist
      && ArtworkUrl(u) == w.artworkUrl && TrackNumber(u) == w.track && Year(u) == w.year
      && RepeatMode(u) == w.repeatMode && Shuffle(u) == w.shuffle
      && (w.duration.Omitted? ==> Duration(u).Omitted?) && (w.duration.Null? ==> Duration(u).Null?)
      && (w.duration.Value? && w.duration.v >= 0 ==>
          Duration(u).Value? && Duration(u).v * 1000 <= w.duration.v < (Duration(u).v + 1) * 1000)
  {
    TristateRoundTrip(w);
  }

  /** What the controller changes: repeat and shuffle, and nothing else. */
  lemma ControllerMentions(repeatMode: string, shuffle: bool)
    ensures var u := Controller(repeatMode, shuffle);
      && RepeatMode(u) == Value(repeatMode) && Shuffle(u) == Value(shuffle)
      && Title(u).Omitted? && Artist(u).Omitted? && Album(u).Omitted? && AlbumArtist(u).Omitted?
      && ArtworkUrl(u).Omitted? && TrackNumber(u).Omitted? && Year(u).Omitted? && Duration(u).Omitted?
  {
  }

  /** A message built in the process has no record of its keys: every field is mentioned, nil pointers as null. */
  lemma UnrecordedMentions(m: MetadataState)
    requires m.presentKeys.None?
    ensures var u := Track(m);
      && Title(u) == (if m.title.Some? then Value(m.title.value) else Null)
      && Year(u) == (if m.year.Some? then Value(m.year.value) else Null)
      && Shuffle(u) == (if m.shuffle.Some? then Value(m.shuffle.value) else Null)
  {
  }

  function MergeAll(us: seq<Update>): Merged {
    if us == [] then BLANK else Merge(MergeAll(us[..|us| - 1]), us[|us| - 1])
  }

  /**
   The reference for one field: the last update that mentions it decides; null clears; no mention leaves the initial
   value.
   */
  function LastMention<T>(us: seq<Update>, field: Update -> Field<T>, cleared: T): T {
    if us == [] then cleared
    else
      var f := field(us[|us| - 1]);
      match f
      case Omitted => LastMention(us[..|us| - 1], field, cleared)
      case Null => cleared
      case Value(v) => v
  }

  lemma {:induction false} SnapshotIsLastMention(us: seq<Update>)
    ensures MergeAll(us) == Merged(
      LastMention(us, Title, ""), LastMention(us, Artist, ""), LastMention(us, Album, ""),
      LastMention(us, AlbumArtist, ""), LastMention(us, ArtworkUrl, ""), LastMention(us, TrackNumber, 0),
      LastMention(us, Year, 0), LastMention(us, Duration, 0),
      LastMention(us, RepeatMode, ""), LastMention(us, Shuffle, false))
  {
    if us == [] {
    } else {
      SnapshotIsLastMention(us[..|us| - 1]);
    }
  }

  // ---------------------------------------------------------------- deferral

  predicate Sorted(s: seq<MetadataState>) { forall i, j :: 0 <= i < j < |s| ==> s[i].timestamp <= s[j].timestamp }

  predicate DueAt(m: MetadataState, now: int) { m.timestamp <= 0 || m.timestamp <= now }

  /** sort.Search: the first index whose timestamp is at least t. */
  method SearchTimestamp(s: seq<MetadataState>, t: int) returns (idx: nat)
    requires Sorted(s)
    ensures idx <= |s|
    ensures forall i :: 0 <= i < idx ==> s[i].timestamp < t
    ensures forall i :: idx <= i < |s| ==> s[i].timestamp >= t
  {
    var i, j := 0, |s|;
    while i < j
      invariant 0 <= i <= j <= |s|
      invariant forall k :: 0 <= k < i ==> s[k].timestamp < t
      invariant forall k :: j <= k < |s| ==> s[k].timestamp >= t
    {
      var h := (i + j) / 2;
      if s[h].timestamp < t { i := h + 1; } else { j := h; }
    }
    idx := i;
  }

  function Insert(s: seq<MetadataState>, m: MetadataState): (r: seq<MetadataState>)
    ensures multiset(r) == multiset(s) + multiset{m}
    ensures forall x :: x in r ==> x in s || x == m
  {
    if s == [] || s[0].timestamp >= m.timestamp then
      [m] + s
    else
      assert s == [s[0]] + s[1..];
      [s[0]] + Insert(s[1..], m)
  }

  lemma {:induction false} InsertSorted(s: seq<MetadataState>, m: MetadataState)
    requires Sorted(s)
    ensures Sorted(Insert(s, m))
  {
    if s != [] && s[0].timestamp < m.timestamp {
      InsertSorted(s[1..], m);
      var r := Insert(s[1..], m);
      forall i | 0 <= i < |r| ensures s[0].timestamp <= r[i].timestamp { assert r[i] in s[1..] || r[i] == m; }
    }
  }

  lemma Rejoin<T>(s: seq<T>, x: T, idx: nat)
    requires 0 < idx <= |s|
    ensures s[..idx] + [x] + s[idx..] == [s[0]] + (s[1..][..idx - 1] + [x] + s[1..][idx - 1..])
  {
    assert s[..idx] == [s[0]] + s[1..][..idx - 1];
    assert s[idx..] == s[1..][idx - 1..];
  }

  lemma InsertPast(s: seq<MetadataState>, m: MetadataState)
    requires s != [] && s[0].timestamp < m.timestamp
    ensures Insert(s, m) == [s[0]] + Insert(s[1..], m)
  {
  }

  lemma {:induction false} InsertAtIndex(s: seq<MetadataState>, m: MetadataState, idx: nat)
    requires idx <= |s|
    requires forall i :: 0 <= i < idx ==> s[i].timestamp < m.timestamp
    requires forall i :: idx <= i < |s| ==> s[i].timestamp >= m.timestamp
    ensures Insert(s, m) == s[..idx] + [m] + s[idx..]
  {
    if idx == 0 {
    } else {
      InsertAtIndex(s[1..], m, idx - 1);
      hide Insert;
      InsertPast(s, m);
      Rejoin(s, m, idx);
    }
  }

  /** The drain loop's reading of the list: stop at the first update still ahead. */
  function DuePrefix(s: seq<MetadataState>, now: int): (k: nat)
    ensures k <= |s|
    ensures forall i :: 0 <= i < k ==> s[i].timestamp <= now
    ensures k < |s| ==> s[k].timestamp > now
  {
    if s == [] || s[0].timestamp > now then 0 else 1 + DuePrefix(s[1..], now)
  }

  /** Because the list is sorted, stopping early misses nothing. */
  lemma PrefixIsAllDue(s: seq<MetadataState>, now: int)
    requires Sorted(s)
    ensures forall i :: 0 <= i < |s| ==> (i < DuePrefix(s, now) <==> s[i].timestamp <= now)
  {
  }

  function Tracks(s: seq<MetadataState>): seq<Update> { seq(|s|, i requires 0 <= i < |s| => Track(s[i])) }

  /** pending and snapshot are the receiver's; enqueued and applied are histories. */
  datatype State = State(pending: seq<MetadataState>, merged: Merged,
    enqueued: seq<MetadataState>, applied: seq<Update>)

  const EMPTY := State([], BLANK, [], [])

  datatype Event = Enqueue(m: MetadataState, now: int) | Control(repeatMode: string, shuffle: bool) | Drain(now: int)

  function Applied(s: State, us: seq<Update>): State
    decreases |us|
  {
    if us == [] then s
    else Applied(With(s, us[0]), us[1..])
  }

  function Step(s: State, ev: Event): State {
    match ev
    case Enqueue(m, now) =>
      var t := s.(enqueued := s.enqueued + [m]);
      if DueAt(m, now) then Applied(t, [Track(m)]) else t.(pending := Insert(s.pending, m))
    case Control(r, sh) => Applied(s, [Controller(r, sh)])
    case Drain(now) =>
      var k := DuePrefix(s.pending, now);
      Applied(s.(pending := s.pending[k..]), Tracks(s.pending[..k]))
  }

  /** One field of applyMetadataLocked: keep it unless present, else the pointer's value or the zero value. */
  function Patch<T>(current: T, present: bool, pointer: Option<T>, zero: T): T {
    if !present then current else if pointer.Some? then pointer.value else zero
  }

  method MergeField<T>(current: T, present: bool, pointer: Option<T>, zero: T) returns (v: T)
    ensures v == Patch(current, present, pointer, zero)
  {
    v := current;
    if present {
      if pointer.Some? { v := pointer.value; } else { v := zero; }
    }
  }

  lemma MergeForm(d: Merged, m: MetadataState)
    ensures Merge(d, Track(m)) == Merged(
      Patch(d.title, HasField(m, TitleKey), m.title, ""),
      Patch(d.artist, HasField(m, ArtistKey), m.artist, ""),
      Patch(d.album, HasField(m, AlbumKey), m.album, ""),
      Patch(d.albumArtist, HasField(m, AlbumArtistKey), m.albumArtist, ""),
      Patch(d.artworkUrl, HasField(m, ArtworkUrlKey), m.artworkUrl, ""),
      Patch(d.track, HasField(m, TrackKey), m.track, 0),
      Patch(d.year, HasField(m, YearKey), m.year, 0),
      Patch(d.duration, HasField(m, ProgressKey),
            (if m.duration.Some? then Some(TruncDiv(m.duration.value, 1000)) else None), 0),
      Patch(d.repeatMode, HasField(m, RepeatKey), m.repeatMode, ""),
      Patch(d.shuffle, HasField(m, ShuffleKey), m.shuffle, false))
  {
    hide TruncDiv, HasField, Mention, Overwrite, Patch, Seconds;
    FieldForm(m, TitleKey, m.title, d.title, ""); FieldForm(m, ArtistKey, m.artist, d.artist, "");
    FieldForm(m, AlbumKey, m.album, d.album, ""); FieldForm(m, AlbumArtistKey, m.albumArtist, d.albumArtist, "");
    FieldForm(m, ArtworkUrlKey, m.artworkUrl, d.artworkUrl, ""); FieldForm(m, TrackKey, m.track, d.track, 0);
    FieldForm(m, YearKey, m.year, d.year, 0);
    SecondsForm(m, d.duration);
    FieldForm(m, RepeatKey, m.repeatMode, d.repeatMode, ""); FieldForm(m, ShuffleKey, m.shuffle, d.shuffle, false);
  }

  lemma FieldForm<T>(m: MetadataState, key: Key, pointer: Option<T>, current: T, zero: T)
    ensures Overwrite(current, Mention(m, key, pointer), zero) == Patch(current, HasField(m, key), pointer, zero)
  {
  }

  lemma SecondsForm(m: MetadataState, current: int)
    ensures Overwrite(current, Seconds(Mention(m, ProgressKey, m.duration)), 0) == Patch(
      current, HasField(m, ProgressKey), if m.duration.Some? then Some(TruncDiv(m.duration.value, 1000)) else None, 0)
  {
    hide TruncDiv;
  }

  function With(s: State, u: Update): State { s.(merged := Merge(s.merged, u), applied := s.applied + [u]) }

  lemma AppliedOne(s: State, u: Update)
    ensures Applied(s, [u]) == With(s, u)
  {
    assert [u][1..] == [];
    assert Applied(With(s, u), []) == With(s, u);
  }

  class Receiver {
    var pendingMetadata: seq<MetadataState>
    var mergedMetadata: Merged
    ghost var enqueued: seq<MetadataState>
    ghost var applied: seq<Update>

    ghost function View(): State
      reads this
    {
      State(pendingMetadata, mergedMetadata, enqueued, applied)
    }

    constructor ()
      ensures View() == EMPTY
    {
      pendingMetadata, mergedMetadata, enqueued, applied := [], BLANK, [], [];
    }

    method EnqueueMetadata(m: MetadataState, serverNow: int)
      requires Sorted(pendingMetadata)
      modifies this
      ensures View() == Step(old(View()), Enqueue(m, serverNow))
    {
      enqueued := enqueued + [m];
      if m.timestamp <= 0 || m.timestamp <= serverNow {
        ApplyMetadata(m);
        return;
      }
      var idx := SearchTimestamp(pendingMetadata, m.timestamp);
      InsertAtIndex(pendingMetadata, m, idx);
      pendingMetadata := pendingMetadata[..idx] + [m] + pendingMetadata[idx..];
    }

    method ApplyMetadata(m: MetadataState)
      modifies this`mergedMetadata, this`applied
      ensures View() == Applied(old(View()), [Track(m)])
      ensures mergedMetadata == Merge(old(mergedMetadata), Track(m)) && applied == old(applied) + [Track(m)]
    {
      hide Merge, Mention, Overwrite, Seconds, HasField, TruncDiv, Patch, Applied;
      var d := mergedMetadata;
      var title := MergeField(d.title, HasField(m, TitleKey), m.title, "");
      var artist := MergeField(d.artist, HasField(m, ArtistKey), m.artist, "");
      var album := MergeField(d.album, HasField(m, AlbumKey), m.album, "");
      var albumArtist := MergeField(d.albumArtist, HasField(m, AlbumArtistKey), m.albumArtist, "");
      var artworkUrl := MergeField(d.artworkUrl, HasField(m, ArtworkUrlKey), m.artworkUrl, "");
      var track := MergeField(d.track, HasField(m, TrackKey), m.track, 0);
      var year := MergeField(d.year, HasField(m, YearKey), m.year, 0);
      var duration := MergeField(d.duration, HasField(m, ProgressKey),
        if m.duration.Some? then Some(TruncDiv(m.duration.value, 1000)) else None, 0);
      var repeatMode := MergeField(d.repeatMode, HasField(m, RepeatKey), m.repeatMode, "");
      var shuffle := MergeField(d.shuffle, HasField(m, ShuffleKey), m.shuffle, false);
      mergedMetadata :=
        Merged(title, artist, album, albumArtist, artworkUrl, track, year, duration, repeatMode, shuffle);
      applied := applied + [Track(m)];
      MergeForm(d, m);
      AppliedOne(old(View()), Track(m));
    }

    method ApplyController(repeatMode: string, shuffle: bool)
      modifies this`mergedMetadata, this`applied
      ensures View() == Step(old(View()), Control(repeatMode, shuffle))
    {
      mergedMetadata := mergedMetadata.(repeatMode := repeatMode, shuffle := shuffle);
      applied := applied + [Controller(repeatMode, shuffle)];
      AppliedOne(old(View()), Controller(repeatMode, shuffle));
    }

    method DrainPendingMetadata(serverNow: int)
      modifies this
      ensures View() == Step(old(View()), Drain(serverNow))
    {
      hide Merge, Applied, Tracks, DuePrefix;
      ghost var start := View();
      AppliedNone(start, start.pending);
      var done := 0;
      while done < |pendingMetadata| && pendingMetadata[done].timestamp <= serverNow
        invariant done <= |pendingMetadata| && pendingMetadata == start.pending && enqueued == start.enqueued
        invariant forall i :: 0 <= i < done ==> pendingMetadata[i].timestamp <= serverNow
        invariant View() == Applied(start, Tracks(start.pending[..done]))
      {
        ApplyMetadata(pendingMetadata[done]);
        AppliedNext(start, start.pending, done);
        done := done + 1;
      }
      DuePrefixIs(start.pending, serverNow, done);
      AppliedKeeps(start, start.(pending := start.pending[done..]), Tracks(start.pending[..done]));
      if done > 0 { pendingMetadata := pendingMetadata[done..]; }
    }
  }

  lemma {:induction false} AppliedAppend(s: State, us: seq<Update>, u: Update)
    ensures Applied(s, us + [u]) == Applied(Applied(s, us), [u])
    decreases |us|
  {
    if us == [] {
      assert us + [u] == [u];
    } else {
      assert (us + [u])[1..] == us[1..] + [u];
      AppliedAppend(With(s, us[0]), us[1..], u);
    }
  }

  lemma AppliedNone(s: State, ms: seq<MetadataState>)
    ensures Applied(s, Tracks(ms[..0])) == s
  {
  }

  lemma AppliedNext(s: State, ms: seq<MetadataState>, k: nat)
    requires k < |ms|
    ensures Applied(s, Tracks(ms[..k + 1])) == Applied(Applied(s, Tracks(ms[..k])), [Track(ms[k])])
  {
    AppliedAppend(s, Tracks(ms[..k]), Track(ms[k]));
    assert Tracks(ms[..k + 1]) == Tracks(ms[..k]) + [Track(ms[k])];
  }

  /** Applying updates does not look at the pending list. */
  lemma {:induction false} AppliedKeeps(s: State, t: State, us: seq<Update>)
    requires t == s.(pending := t.pending)
    ensures Applied(t, us) == Applied(s, us).(pending := t.pending)
    ensures Applied(s, us).pending == s.pending && Applied(s, us).enqueued == s.enqueued
    ensures Applied(s, us).applied == s.applied + us
    decreases |us|
  {
    if us == [] {
    } else {
      AppliedKeeps(With(s, us[0]), With(t, us[0]), us[1..]);
    }
  }

  lemma {:induction false} DuePrefixIs(s: seq<MetadataState>, now: int, k: nat)
    requires k <= |s| && (forall i :: 0 <= i < k ==> s[i].timestamp <= now) && (k < |s| ==> s[k].timestamp > now)
    ensures DuePrefix(s, now) == k
  {
    if k == 0 {
    } else {
      DuePrefixIs(s[1..], now, k - 1);
    }
  }

  // ---------------------------------------------------------------- whole runs

  /** The metadata messages among the updates. */
  function Messages(us: seq<Update>): seq<MetadataState> {
    if us == [] then []
    else Messages(us[..|us| - 1]) + if us[|us| - 1].Track? then [us[|us| - 1].m] else []
  }

  ghost predicate Inv(s: State) {
    && Sorted(s.pending)
    && s.merged == MergeAll(s.applied)
    && multiset(Messages(s.applied)) + multiset(s.pending) == multiset(s.enqueued)
  }

  function Run(s: State, evs: seq<Event>): State {
    if evs == [] then s else Step(Run(s, evs[..|evs| - 1]), evs[|evs| - 1])
  }

  lemma {:induction false} AppliedInv(s: State, us: seq<Update>)
    requires s.merged == MergeAll(s.applied)
    ensures var t := Applied(s, us); t.merged == MergeAll(t.applied)
    decreases |us|
  {
    if us == [] {
    } else {
      assert (s.applied + [us[0]])[..|s.applied|] == s.applied;
      AppliedInv(With(s, us[0]), us[1..]);
    }
  }

  lemma {:induction false} MessagesConcat(us: seq<Update>, ms: seq<MetadataState>)
    ensures Messages(us + Tracks(ms)) == Messages(us) + ms
  {
    if ms == [] {
      assert us + Tracks(ms) == us;
    } else {
      var n := |ms| - 1;
      var all := us + Tracks(ms);
      assert all[..|all| - 1] == us + Tracks(ms[..n]);
      MessagesConcat(us, ms[..n]);
      assert ms == ms[..n] + [ms[n]];
    }
  }

  /** Applying updates to a state keeps the books if the messages among them leave the pending list. */
  lemma ApplyKeepsBooks(s: State, us: seq<Update>, ms: seq<MetadataState>)
    requires Sorted(s.pending) && s.merged == MergeAll(s.applied)
    requires Messages(s.applied + us) == Messages(s.applied) + ms
    requires multiset(Messages(s.applied)) + multiset(ms) + multiset(s.pending) == multiset(s.enqueued)
    ensures Inv(Applied(s, us))
  {
    AppliedKeeps(s, s, us);
    AppliedInv(s, us);
  }

  lemma EnqueueInv(s: State, m: MetadataState, now: int)
    requires Inv(s)
    ensures Inv(Step(s, Enqueue(m, now)))
  {
    hide Applied, Messages, Merge, MergeAll, Insert;
    var t := s.(enqueued := s.enqueued + [m]);
    if DueAt(m, now) {
      MessagesConcat(s.applied, [m]);
      assert Tracks([m]) == [Track(m)];
      ApplyKeepsBooks(t, [Track(m)], [m]);
    } else {
      InsertSorted(s.pending, m);
    }
  }

  lemma CutSorted(s: seq<MetadataState>, k: nat)
    requires Sorted(s) && k <= |s|
    ensures Sorted(s[k..]) && multiset(s) == multiset(s[..k]) + multiset(s[k..])
  {
    assert s == s[..k] + s[k..];
  }

  lemma DrainInv(s: State, now: int)
    requires Inv(s)
    ensures Inv(Step(s, Drain(now)))
  {
    hide Applied, Messages, Merge, MergeAll, Tracks, DuePrefix, Sorted;
    var k := DuePrefix(s.pending, now);
    var due, rest := s.pending[..k], s.pending[k..];
    CutSorted(s.pending, k);
    MessagesConcat(s.applied, due);
    ApplyKeepsBooks(s.(pending := rest), Tracks(due), due);
  }

  lemma StepInv(s: State, ev: Event)
    requires Inv(s)
    ensures Inv(Step(s, ev))
  {
    match ev
    case Enqueue(m, now) => EnqueueInv(s, m, now);
    case Control(r, sh) =>
      hide Applied, Messages, Merge, MergeAll;
      NoMessage(s.applied, Controller(r, sh));
      ApplyKeepsBooks(s, [Controller(r, sh)], []);
    case Drain(now) => DrainInv(s, now);
  }

  lemma NoMessage(us: seq<Update>, u: Update)
    requires u.Controller?
    ensures Messages(us + [u]) == Messages(us) + []
  {
    assert (us + [u])[..|us|] == us;
  }

  /**
   Over every run, with a server clock that may jump either way: the pending list is sorted, every enqueued update is
   either applied exactly once or still pending, and each field of the snapshot is decided by its last mention.
   */
  lemma {:induction false} RunInv(evs: seq<Event>)
    ensures Inv(Run(EMPTY, evs))
  {
    if evs == [] {
    } else {
      RunInv(evs[..|evs| - 1]);
      StepInv(Run(EMPTY, evs[..|evs| - 1]), evs[|evs| - 1]);
    }
  }

  /** A drain applies, in order, exactly the pending updates that are due, and keeps the others. */
  lemma DrainIsFilter(s: State, now: int)
    requires Inv(s)
    ensures var n := Step(s, Drain(now)); var k := |s.pending| - |n.pending|;
      && 0 <= k <= |s.pending| && n.applied == s.applied + Tracks(s.pending[..k]) && n.pending == s.pending[k..]
      && forall i :: 0 <= i < |s.pending| ==> (i < k <==> s.pending[i].timestamp <= now)
  {
    var k := DuePrefix(s.pending, now);
    var t := s.(pending := s.pending[k..]);
    AppliedKeeps(t, t, Tracks(s.pending[..k]));
    PrefixIsAllDue(s.pending, now);
  }

  /**
   An arriving update is applied at once if due, and otherwise waits: never applied with a timestamp ahead of the
   clock.
   */
  lemma EnqueueDefers(s: State, m: MetadataState, now: int)
    ensures var n := Step(s, Enqueue(m, now));
      if 0 < m.timestamp && now < m.timestamp
      then n.applied == s.applied && multiset(n.pending) == multiset(s.pending) + multiset{m}
      else n.applied == s.applied + [Track(m)] && n.pending == s.pending
  {
    var t := s.(enqueued := s.enqueued + [m]);
    AppliedKeeps(t, t, [Track(m)]);
  }
}
