// FLV tags: classification of payloads, and the Enhanced RTMP multitrack wrappers.
module Flv {
  import opened Bytes

  const TAG_AUDIO: byte := 8
  const TAG_VIDEO: byte := 9
  const TAG_SCRIPT: byte := 18

  datatype Tag = Tag(tagType: byte, ts: int, payload: bytes)

  const WRAPPER_SIZE := 7
  const MULTITRACK_AUDIO: byte := 0x95
  const MP4A: bytes := [0x6D, 0x70, 0x34, 0x61]

  const MAX_AUDIO_SLOTS := 6
  const MAX_VIDEO_SLOTS := 8

  predicate IsVideoKeyframe(payload: bytes)
  {
    |payload| > 0 &&
    if payload[0] >= 0x80 then payload[0] as int / 16 % 8 == 1 else payload[0] as int / 16 == 1
  }

  predicate IsMultitrackAudio(payload: bytes)
  {
    |payload| >= WRAPPER_SIZE && payload[0] == MULTITRACK_AUDIO
  }

  function MultitrackAudioId(payload: bytes): Option<byte>
  {
    if IsMultitrackAudio(payload) && payload[1] as int / 16 == 0 && payload[2..6] == MP4A then Some(payload[6])
    else None
  }

  /** Track id and legacy payload of a wrapped audio tag. */
  function UnwrapMultitrackAudio(payload: bytes): (r: Option<(byte, bytes)>)
    ensures r.Some? <==> MultitrackAudioId(payload).Some?
  {
    match MultitrackAudioId(payload)
    case None => None
    case Some(id) => Some((id, [0xAF, payload[1] as int % 16] + payload[WRAPPER_SIZE..]))
  }

  function WrapMultitrackAudio(trackId: byte, legacy: bytes): bytes
    requires |legacy| >= 2
  {
    [MULTITRACK_AUDIO, legacy[1] as int % 16] + MP4A + [trackId] + legacy[2..]
  }

  /** The legacy payloads the wrapper carries without loss. */
  lemma WrapAudioRoundTripsIff(trackId: byte, legacy: bytes)
    requires |legacy| >= 2
    ensures UnwrapMultitrackAudio(WrapMultitrackAudio(trackId, legacy)) == Some((trackId, legacy))
            <==> legacy[0] == 0xAF && legacy[1] < 16
  {
    var w := WrapMultitrackAudio(trackId, legacy);
    assert w[2..6] == MP4A && w[6] == trackId && w[WRAPPER_SIZE..] == legacy[2..];
    var back := [0xAF, w[1] as int % 16] + w[WRAPPER_SIZE..];
    assert UnwrapMultitrackAudio(w) == Some((trackId, back));
    assert back[0] == 0xAF && back[1] < 16;
    if legacy[0] == 0xAF && legacy[1] < 16 {
      assert back == legacy;
    }
  }

  predicate IsMultitrackVideo(payload: bytes)
  {
    |payload| >= WRAPPER_SIZE && payload[0] >= 0x80 && payload[0] as int % 16 == 6
  }

  predicate IsAvcSeqHeader(payload: bytes)
  {
    |payload| >= 2 &&
    if payload[0] >= 0x80 then
      if payload[0] as int % 16 == 6 then payload[1] as int % 16 == 0 else payload[0] as int % 16 == 0
    else payload[1] == 0
  }

  predicate IsAacSeqHeader(payload: bytes)
  {
    |payload| >= 2 && payload[1] == 0
  }

  predicate IsSeqHeader(tagType: byte, payload: bytes)
  {
    (tagType == TAG_VIDEO && IsAvcSeqHeader(payload)) || (tagType == TAG_AUDIO && IsAacSeqHeader(payload))
  }

  function VideoTrackId(payload: bytes): byte
  {
    if IsMultitrackVideo(payload) then payload[6] else 0
  }

  /** Track id, codec and legacy payload of a one-track wrapped video tag. */
  function UnwrapMultitrackVideo(payload: bytes): Option<(byte, bytes, bytes)>
  {
    if !IsMultitrackVideo(payload) || payload[1] > 2 then None
    else
      var filler: bytes := if payload[1] != 1 then [0, 0, 0] else [];
      var legacy := [payload[0] as int / 16 % 8 * 16 + 7, payload[1]] + filler + payload[WRAPPER_SIZE..];
      Some((payload[6], payload[2..6], legacy))
  }

  function WrapMultitrackVideo(trackId: byte, fourcc: bytes, legacy: bytes): bytes
    requires |legacy| >= 2
  {
    var body := if legacy[1] == 1 then legacy[2..] else if |legacy| >= 5 then legacy[5..] else [];
    [0x80 + legacy[0] as int / 16 % 8 * 16 + 6, legacy[1]] + fourcc + [trackId] + body
  }

  /** A legacy AVC tag the video wrapper carries without loss. */
  predicate Wrappable(legacy: bytes)
    requires |legacy| >= 2
  {
    legacy[0] as int / 16 < 8 && legacy[0] as int % 16 == 7 && legacy[1] <= 2 &&
    (legacy[1] == 1 || (|legacy| >= 5 && legacy[2..5] == [0, 0, 0]))
  }

  lemma WrapVideoRoundTripsIff(trackId: byte, fourcc: bytes, legacy: bytes)
    requires |legacy| >= 2 && |fourcc| == 4
    ensures UnwrapMultitrackVideo(WrapMultitrackVideo(trackId, fourcc, legacy)) == Some((trackId, fourcc, legacy))
            <==> Wrappable(legacy)
  {
    var body := if legacy[1] == 1 then legacy[2..] else if |legacy| >= 5 then legacy[5..] else [];
    var w := WrapMultitrackVideo(trackId, fourcc, legacy);
    assert w[2..6] == fourcc && w[6] == trackId && w[WRAPPER_SIZE..] == body;
    assert IsMultitrackVideo(w);
    if legacy[1] <= 2 {
      var filler: bytes := if legacy[1] != 1 then [0, 0, 0] else [];
      var back := [legacy[0] as int / 16 % 8 * 16 + 7, legacy[1]] + filler + body;
      assert UnwrapMultitrackVideo(w) == Some((trackId, fourcc, back));
      assert back[0] as int / 16 < 8 && back[0] as int % 16 == 7;
      assert legacy[1] != 1 ==> back[2..5] == [0, 0, 0];
      if Wrappable(legacy) {
        assert back[0] == legacy[0];
        if legacy[1] == 1 {
          assert legacy == legacy[..2] + legacy[2..];
          assert back == legacy[..2] + legacy[2..];
        } else {
          assert legacy == legacy[..2] + legacy[2..5] + legacy[5..];
          assert back == legacy;
        }
      }
    }
  }

  // ----- header keys -----

  /** The keys the header caches use, written "meta", "video", "video3", "audio", "audio1". */
  datatype Key = Meta | Video | VideoTrack(n: nat) | Audio | AudioTrack(n: nat)

  function HeaderKey(tagType: byte, payload: bytes): Key
  {
    if tagType == TAG_SCRIPT then Meta
    else if tagType == TAG_VIDEO then
      if IsMultitrackVideo(payload) then VideoTrack(payload[6]) else Video
    else
      match MultitrackAudioId(payload)
      case Some(id) => AudioTrack(id)
      case None => Audio
  }

  function TagTypeOf(key: Key): byte
  {
    match key
    case Meta => TAG_SCRIPT
    case Video => TAG_VIDEO
    case VideoTrack(_) => TAG_VIDEO
    case Audio => TAG_AUDIO
    case AudioTrack(_) => TAG_AUDIO
  }

  /** The place of a key in the announcement order; keys past the slot limits have none. */
  function Rank(key: Key): Option<nat>
  {
    match key
    case Meta => Some(0)
    case Video => Some(1)
    case VideoTrack(n) => if n < MAX_VIDEO_SLOTS then Some(2 + n) else None
    case Audio => Some(2 + MAX_VIDEO_SLOTS)
    case AudioTrack(n) => if n < MAX_AUDIO_SLOTS then Some(3 + MAX_VIDEO_SLOTS + n) else None
  }

  const RANKS := 3 + MAX_VIDEO_SLOTS + MAX_AUDIO_SLOTS

  function KeyAt(rank: nat): (key: Key)
    requires rank < RANKS
    ensures Rank(key) == Some(rank)
  {
    if rank == 0 then Meta
    else if rank == 1 then Video
    else if rank < 2 + MAX_VIDEO_SLOTS then VideoTrack(rank - 2)
    else if rank == 2 + MAX_VIDEO_SLOTS then Audio
    else AudioTrack(rank - 3 - MAX_VIDEO_SLOTS)
  }

  function OrderedFrom(present: set<Key>, rank: nat): seq<Key>
    requires rank <= RANKS
    decreases RANKS - rank
  {
    if rank == RANKS then []
    else (if KeyAt(rank) in present then [KeyAt(rank)] else []) + OrderedFrom(present, rank + 1)
  }

  /** meta, video, video0 to video7, audio, audio0 to audio5: the cached keys in announcement order. */
  function OrderedHeaderKeys(present: set<Key>): seq<Key>
  {
    OrderedFrom(present, 0)
  }

  ghost predicate Rising(keys: seq<Key>, from: nat)
  {
    && (forall i :: 0 <= i < |keys| ==> Rank(keys[i]).Some? && from <= Rank(keys[i]).value)
    && (forall i, j :: 0 <= i < j < |keys| ==> Rank(keys[i]).value < Rank(keys[j]).value)
  }

  /** The keys of a header block are exactly the cached keys that have a rank, by strictly rising rank. */
  ghost predicate CanonicalOrder(keys: seq<Key>, present: set<Key>)
  {
    && Rising(keys, 0)
    && (forall k :: k in keys <==> k in present && Rank(k).Some?)
  }

  lemma RankInjective(k: Key)
    requires Rank(k).Some?
    ensures Rank(k).value < RANKS && KeyAt(Rank(k).value) == k
  {
  }

  lemma RisingPrepend(keys: seq<Key>, rank: nat)
    requires rank < RANKS && Rising(keys, rank + 1)
    ensures Rising(keys, rank) && Rising([KeyAt(rank)] + keys, rank)
  {
    var all := [KeyAt(rank)] + keys;
    forall i | 0 <= i < |all| ensures Rank(all[i]).Some? && rank <= Rank(all[i]).value {
      assert i > 0 ==> all[i] == keys[i - 1];
    }
    forall i, j | 0 <= i < j < |all| ensures Rank(all[i]).value < Rank(all[j]).value {
      assert all[j] == keys[j - 1] && (i > 0 ==> all[i] == keys[i - 1]);
    }
  }

  lemma {:induction false} OrderedFromRising(present: set<Key>, rank: nat)
    requires rank <= RANKS
    ensures Rising(OrderedFrom(present, rank), rank)
    decreases RANKS - rank
  {
    if rank < RANKS {
      OrderedFromRising(present, rank + 1);
      RisingPrepend(OrderedFrom(present, rank + 1), rank);
      assert [] + OrderedFrom(present, rank + 1) == OrderedFrom(present, rank + 1);
    }
  }

  lemma KeyAtIs(k: Key, rank: nat)
    requires rank < RANKS
    ensures k == KeyAt(rank) <==> Rank(k) == Some(rank)
  {
    if Rank(k).Some? {
      RankInjective(k);
    }
  }

  lemma OrderedStep(present: set<Key>, rank: nat, k: Key)
    requires rank < RANKS
    ensures k in OrderedFrom(present, rank)
            <==> (k in present && Rank(k) == Some(rank)) || k in OrderedFrom(present, rank + 1)
  {
    hide Rank, KeyAt;
    KeyAtIs(k, rank);
    var here := if KeyAt(rank) in present then [KeyAt(rank)] else [];
    assert k in here <==> k == KeyAt(rank) && k in present;
  }

  lemma {:induction false} OrderedFromComplete(present: set<Key>, rank: nat, k: Key)
    requires rank <= RANKS
    ensures k in OrderedFrom(present, rank) <==> k in present && Rank(k).Some? && Rank(k).value >= rank
    decreases RANKS - rank
  {
    hide Rank, KeyAt;
    if rank == RANKS {
      if Rank(k).Some? {
        RankInjective(k);
      }
    } else {
      hide OrderedFrom;
      OrderedStep(present, rank, k);
      OrderedFromComplete(present, rank + 1, k);
    }
  }

  lemma OrderedHeaderKeysCanonical(present: set<Key>)
    ensures CanonicalOrder(OrderedHeaderKeys(present), present)
  {
    OrderedFromRising(present, 0);
    forall k ensures k in OrderedHeaderKeys(present) <==> k in present && Rank(k).Some? {
      OrderedFromComplete(present, 0, k);
    }
  }

  /** The cached headers as tags of one timestamp, in announcement order. */
  function HeaderBlock(headers: map<Key, bytes>, ts: int): seq<Tag>
  {
    HeaderTags(OrderedHeaderKeys(headers.Keys), headers, ts)
  }

  function HeaderTags(keys: seq<Key>, headers: map<Key, bytes>, ts: int): (r: seq<Tag>)
    ensures |r| == |keys|
  {
    seq(|keys|, i requires 0 <= i < |keys| =>
      Tag(TagTypeOf(keys[i]), ts, if keys[i] in headers then headers[keys[i]] else []))
  }

  /** The block holds every cached header that has a rank, each once, by rising rank, all at one time. */
  lemma HeaderBlockCanonical(headers: map<Key, bytes>, ts: int)
    ensures var keys, block := OrderedHeaderKeys(headers.Keys), HeaderBlock(headers, ts);
            && CanonicalOrder(keys, headers.Keys)
            && |block| == |keys|
            && forall i :: 0 <= i < |keys| ==>
                 keys[i] in headers && block[i] == Tag(TagTypeOf(keys[i]), ts, headers[keys[i]])
  {
    OrderedHeaderKeysCanonical(headers.Keys);
    hide OrderedHeaderKeys, Rank;
    var keys := OrderedHeaderKeys(headers.Keys);
    forall i | 0 <= i < |keys| ensures keys[i] in headers {
      assert keys[i] in keys;
    }
  }

  predicate IsMedia(tag: Tag)
  {
    tag.tagType != TAG_SCRIPT && !IsSeqHeader(tag.tagType, tag.payload)
  }

  predicate IsHeader(tag: Tag)
  {
    tag.tagType == TAG_SCRIPT || IsSeqHeader(tag.tagType, tag.payload)
  }

  function KeyOf(tag: Tag): Key
  {
    HeaderKey(tag.tagType, tag.payload)
  }

  /** A coded keyframe of the canonical video track. */
  predicate IsAnchor(tag: Tag)
  {
    tag.tagType == TAG_VIDEO && !IsAvcSeqHeader(tag.payload) && IsVideoKeyframe(tag.payload) && VideoTrackId(tag.payload) == 0
  }

  /** The latest header of a key among the tags. */
  function LatestHeader(tags: seq<Tag>, key: Key): Option<bytes>
  {
    if tags == [] then None
    else
      var last := tags[|tags| - 1];
      if IsHeader(last) && KeyOf(last) == key then Some(last.payload) else LatestHeader(tags[..|tags| - 1], key)
  }

  /** The time of a track's last media tag. */
  function LastTime(tags: seq<Tag>, key: Key): Option<int>
  {
    if tags == [] then None
    else
      var last := tags[|tags| - 1];
      if IsMedia(last) && KeyOf(last) == key then Some(last.ts) else LastTime(tags[..|tags| - 1], key)
  }

  /** A header cache that began as it was seeded and has heard the tags since. */
  ghost predicate Caches(headers: map<Key, bytes>, seed: map<Key, bytes>, tags: seq<Tag>)
  {
    forall key ::
      match LatestHeader(tags, key)
      case Some(payload) => key in headers && headers[key] == payload
      case None => (key in headers <==> key in seed) && (key in seed ==> headers[key] == seed[key])
  }

  lemma LatestSnoc(tags: seq<Tag>, tag: Tag, key: Key)
    ensures LatestHeader(tags + [tag], key)
            == if IsHeader(tag) && KeyOf(tag) == key then Some(tag.payload) else LatestHeader(tags, key)
  {
    hide IsHeader, KeyOf;
    assert (tags + [tag])[..|tags|] == tags;
  }

  lemma CachesSnoc(headers: map<Key, bytes>, seed: map<Key, bytes>, tags: seq<Tag>, tag: Tag)
    requires Caches(headers, seed, tags)
    ensures Caches(if IsHeader(tag) then headers[KeyOf(tag) := tag.payload] else headers, seed, tags + [tag])
  {
    hide IsHeader, KeyOf, LatestHeader;
    forall key ensures LatestHeader(tags + [tag], key)
                       == if IsHeader(tag) && KeyOf(tag) == key then Some(tag.payload) else LatestHeader(tags, key) {
      LatestSnoc(tags, tag, key);
    }
  }

  lemma CachesSeed(headers: map<Key, bytes>)
    ensures Caches(headers, headers, [])
  {
    hide IsHeader, KeyOf;
  }

  // ----- anchors and rungs -----

  /** Where the first anchor stands. */
  function AnchorAt(tags: seq<Tag>): (n: nat)
    ensures n <= |tags|
  {
    if tags == [] then 0
    else
      var n := AnchorAt(tags[..|tags| - 1]);
      if n < |tags| - 1 || IsAnchor(tags[|tags| - 1]) then n else n + 1
  }

  predicate HasAnchor(tags: seq<Tag>)
  {
    AnchorAt(tags) < |tags|
  }

  lemma {:induction false} AnchorIsFirst(tags: seq<Tag>)
    ensures forall i :: 0 <= i < AnchorAt(tags) ==> !IsAnchor(tags[i])
    ensures HasAnchor(tags) ==> IsAnchor(tags[AnchorAt(tags)])
    decreases |tags|
  {
    hide IsAnchor;
    if tags != [] {
      AnchorIsFirst(tags[..|tags| - 1]);
    }
  }

  lemma AnchorSnoc(tags: seq<Tag>, tag: Tag)
    ensures AnchorAt(tags + [tag]) == if HasAnchor(tags) then AnchorAt(tags) else if IsAnchor(tag) then |tags| else |tags| + 1
  {
    hide IsAnchor;
    assert (tags + [tag])[..|tags|] == tags;
  }

  lemma NoTagsNoAnchor()
    ensures AnchorAt([]) == 0
  {
  }

  /** A picture of one rung of the ladder. */
  predicate OnRung(tag: Tag, id: byte)
  {
    IsMedia(tag) && tag.tagType == TAG_VIDEO && VideoTrackId(tag.payload) == id
  }

  /** A coded keyframe of a rung. */
  predicate IsRungKey(tag: Tag, id: byte)
  {
    OnRung(tag, id) && IsVideoKeyframe(tag.payload)
  }

  /** A keyframe of the rung is among the tags. */
  ghost predicate KeyCame(tags: seq<Tag>, id: byte)
  {
    exists k :: 0 <= k < |tags| && IsRungKey(tags[k], id)
  }

  lemma KeyCameSnoc(tags: seq<Tag>, tag: Tag, id: byte)
    ensures KeyCame(tags + [tag], id) <==> KeyCame(tags, id) || IsRungKey(tag, id)
  {
    hide IsRungKey;
    var all := tags + [tag];
    if KeyCame(tags, id) {
      var k :| 0 <= k < |tags| && IsRungKey(tags[k], id);
      assert IsRungKey(all[k], id);
    }
    assert all[|tags|] == tag;
    if KeyCame(all, id) && !IsRungKey(tag, id) {
      var k :| 0 <= k < |all| && IsRungKey(all[k], id);
      assert IsRungKey(tags[k], id);
    }
  }

  /** A picture of a rung of which no keyframe has come yet, itself included. */
  ghost predicate BeforeKey(tags: seq<Tag>, tag: Tag)
  {
    IsMedia(tag) && tag.tagType == TAG_VIDEO && VideoTrackId(tag.payload) != 0 && !KeyCame(tags, VideoTrackId(tag.payload))
  }
}
