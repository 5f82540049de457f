/**
 * The mock generation service (a wait, then a URL picked from a fixed pool
 * with the prompt echoed back) and the two persistence functions for the
 * saved creations.
 */
module GenerationUtils {
  import opened Wrappers
  import opened JsArray
  import opened CreationCard
  import opened Storage

  const MockImages: seq<string> := [
    "https://images.unsplash.com/photo-1649972904349-6e44c42644a7?w=800&auto=format&fit=crop",
    "https://images.unsplash.com/photo-1488590528505-98d2b5aba04b?w=800&auto=format&fit=crop",
    "https://images.unsplash.com/photo-1518770660439-4636190af475?w=800&auto=format&fit=crop",
    "https://images.unsplash.com/photo-1485827404703-89b55fcc595e?w=800&auto=format&fit=crop",
    "https://images.unsplash.com/photo-1526374965328-7f61d4dc18c5?w=800&auto=format&fit=crop",
    "https://images.unsplash.com/photo-1500673922987-e212871fec22?w=800&auto=format&fit=crop",
    "https://images.unsplash.com/photo-1506744038136-46273834b3fb?w=800&auto=format&fit=crop",
    "https://images.unsplash.com/photo-1518877593221-1f28583780b4?w=800&auto=format&fit=crop"
  ]

  const MockVideos: seq<string> := [
    "https://storage.googleapis.com/gtv-videos-bucket/sample/BigBuckBunny.mp4",
    "https://storage.googleapis.com/gtv-videos-bucket/sample/ElephantsDream.mp4",
    "https://storage.googleapis.com/gtv-videos-bucket/sample/ForBiggerBlazes.mp4",
    "https://storage.googleapis.com/gtv-videos-bucket/sample/ForBiggerEscapes.mp4"
  ]

  /** A value of `Math.random()`. */
  type Random = r: real | 0.0 <= r < 1.0

  /** The two `Math.random()` draws of one generation, in call order: the wait, then the pick. */
  datatype Draw = Draw(wait: Random, pick: Random)

  /** `GenerationResult`; `alt` is always set by the mocks. */
  datatype GenerationResult = GenerationResult(url: string, alt: string)

  /** What a mock call does: how long it waits, then what it resolves to. */
  datatype MockResponse = MockResponse(waitMs: int, result: GenerationResult)

  /** `Math.floor(r * len)`: an index into an array of length `len`. */
  function RandomIndex(r: Random, len: nat): (i: nat)
    ensures len > 0 ==> i < len
  {
    FloorBelow(r, len);
    var x := r * len as real;
    assert x.Floor as real <= x;
    x.Floor
  }

  lemma FloorBelow(r: Random, len: nat)
    ensures 0.0 <= r * len as real
    ensures len > 0 ==> r * len as real < len as real
  {
    var l := len as real;
    assert 0.0 <= r * l;
    if len > 0 {
      assert 0.0 < (1.0 - r) * l;
      assert l - r * l == (1.0 - r) * l;
    }
  }

  /** `Math.floor(Math.random() * 2000) + 1000`. */
  function ImageWait(r: Random): (ms: int)
    ensures 1000 <= ms <= 2999
  {
    (r * 2000.0).Floor + 1000
  }

  /** `Math.floor(Math.random() * 3000) + 2000`. */
  function VideoWait(r: Random): (ms: int)
    ensures 2000 <= ms <= 4999
  {
    (r * 3000.0).Floor + 2000
  }

  /** `generateImage(prompt)`. */
  function GenerateImage(prompt: string, draw: Draw): (m: MockResponse)
    ensures m.result.url in MockImages && m.result.alt == prompt
    ensures 1000 <= m.waitMs <= 2999
  {
    MockResponse(ImageWait(draw.wait), GenerationResult(MockImages[RandomIndex(draw.pick, |MockImages|)], prompt))
  }

  /** `generateVideo(prompt)`. */
  function GenerateVideo(prompt: string, draw: Draw): (m: MockResponse)
    ensures m.result.url in MockVideos && m.result.alt == prompt
    ensures 2000 <= m.waitMs <= 4999
  {
    MockResponse(VideoWait(draw.wait), GenerationResult(MockVideos[RandomIndex(draw.pick, |MockVideos|)], prompt))
  }

  /** Every index of an array is drawn by some value of `Math.random()`. */
  lemma RandomIndexReaches(len: nat, i: nat)
    requires i < len
    ensures exists r: Random :: RandomIndex(r, len) == i
  {
    var r: Random := i as real / len as real;
    assert r * len as real == i as real;
    assert RandomIndex(r, len) == i;
  }

  /** Every image of the pool can come back, whatever the prompt. */
  lemma EveryImageReachable(prompt: string, i: nat)
    requires i < |MockImages|
    ensures exists draw: Draw :: GenerateImage(prompt, draw).result.url == MockImages[i]
  {
    RandomIndexReaches(|MockImages|, i);
    var r: Random :| RandomIndex(r, |MockImages|) == i;
    assert GenerateImage(prompt, Draw(0.0, r)).result.url == MockImages[i];
  }

  /** Every video of the pool can come back, whatever the prompt. */
  lemma EveryVideoReachable(prompt: string, i: nat)
    requires i < |MockVideos|
    ensures exists draw: Draw :: GenerateVideo(prompt, draw).result.url == MockVideos[i]
  {
    RandomIndexReaches(|MockVideos|, i);
    var r: Random :| RandomIndex(r, |MockVideos|) == i;
    assert GenerateVideo(prompt, Draw(0.0, r)).result.url == MockVideos[i];
  }

  /** One creation as `JSON.stringify` writes it. */
  function ToStored(dates: DateCodec, c: Creation): (r: StoredCreation)
    ensures r.id == c.id && r.url == c.url && r.prompt == c.prompt && r.kind == c.kind
    ensures r.createdAt == dates.toJson(c.createdAt)
    ensures Lossless(dates) ==> FromStored(dates, r) == c
  {
    StoredCreation(c.id, c.url, c.prompt, c.kind, dates.toJson(c.createdAt))
  }

  /** One record as `loadCreations` rebuilds it: `{...creation, createdAt: new Date(creation.createdAt)}`. */
  function FromStored(dates: DateCodec, r: StoredCreation): (c: Creation)
    ensures c.id == r.id && c.url == r.url && c.prompt == r.prompt && c.kind == r.kind
    ensures c.createdAt == dates.parse(r.createdAt)
  {
    Creation(r.id, r.url, r.prompt, r.kind, dates.parse(r.createdAt))
  }

  /** The payload `saveCreations` writes for a list. */
  function Serialize(dates: DateCodec, creations: seq<Creation>): (p: CreationsPayload)
    ensures p.JsonArray? && |p.records| == |creations|
    ensures forall i :: 0 <= i < |creations| ==> p.records[i] == ToStored(dates, creations[i])
  {
    JsonArray(Map(creations, c => ToStored(dates, c)))
  }

  /**
   * `loadCreations` on what the slot holds: nothing stored and an
   * unparseable payload both give the empty list (the error never reaches
   * the caller); otherwise one creation per record, every field but the
   * date copied, the date rebuilt from its string.
   */
  function Deserialize(dates: DateCodec, slot: Option<CreationsPayload>): (cs: seq<Creation>)
    ensures slot.None? ==> cs == []
    ensures slot == Some(Unparseable) ==> cs == []
    ensures slot.Some? && slot.value.JsonArray? ==>
      |cs| == |slot.value.records|
      && forall i :: 0 <= i < |cs| ==>
           var r := slot.value.records[i];
           cs[i].id == r.id && cs[i].url == r.url && cs[i].prompt == r.prompt
           && cs[i].kind == r.kind && cs[i].createdAt == dates.parse(r.createdAt)
  {
    match slot
    case None => []
    case Some(Unparseable) => []
    case Some(JsonArray(records)) => Map(records, r => FromStored(dates, r))
  }

  /** Loading what was saved gives the saved list back, provided dates survive their JSON form. */
  lemma LoadAfterSave(dates: DateCodec, creations: seq<Creation>)
    requires Lossless(dates)
    ensures Deserialize(dates, Some(Serialize(dates, creations))) == creations
  {
    var loaded := Deserialize(dates, Some(Serialize(dates, creations)));
    forall i | 0 <= i < |creations| ensures loaded[i] == creations[i] {
      assert dates.parse(dates.toJson(creations[i].createdAt)) == creations[i].createdAt;
    }
  }

  /** `loadCreations()`: reads the "creations" slot. */
  function LoadCreations(store: LocalStorage, dates: DateCodec): (cs: seq<Creation>)
    reads store
    ensures store.creations.None? || store.creations == Some(Unparseable) ==> cs == []
    ensures store.creations.Some? && store.creations.value.JsonArray? ==>
      |cs| == |store.creations.value.records|
      && forall i :: 0 <= i < |cs| ==> cs[i] == FromStored(dates, store.creations.value.records[i])
  {
    Deserialize(dates, store.creations)
  }

  /**
   * `saveCreations(creations)`: overwrites the whole slot; when the write
   * fails (`writeSucceeds` false, a quota error) the failure is swallowed
   * and the slot keeps what it held.
   */
  method SaveCreations(store: LocalStorage, dates: DateCodec, creations: seq<Creation>, writeSucceeds: bool)
    modifies store
    ensures store.creations == if writeSucceeds then Some(Serialize(dates, creations)) else old(store.creations)
    ensures store.userCredits == old(store.userCredits)
  {
    if writeSucceeds {
      store.creations := Some(Serialize(dates, creations));
    }
  }

  /** A page's list is what a reload of the slot would show. */
  ghost predicate Mirrors(store: LocalStorage, dates: DateCodec, creations: seq<Creation>)
    reads store
  {
    Deserialize(dates, store.creations) == creations
  }
}
