/**
 * The `Creation` record shared by every page, and the state of the card
 * that displays one: its like, hover and media-loaded flags, the download
 * file name and the delete action.
 */
module CreationCard {
  import opened Wrappers

  /** The media kind of a creation (`'image' | 'video'`). */
  datatype Kind = Image | Video

  /** `new Date()` as milliseconds since the epoch. */
  type Timestamp = int

  /** A generated artifact. */
  datatype Creation = Creation(id: string, url: string, prompt: string, kind: Kind, createdAt: Timestamp)

  /** The file extension the download link uses for a kind. */
  function Extension(kind: Kind): (ext: string)
    ensures |ext| == 3
    ensures kind == Image <==> ext == "png"
    ensures kind == Video <==> ext == "mp4"
  {
    match kind
    case Image => "png"
    case Video => "mp4"
  }

  const DownloadPrefix := "creation-"

  /**
   * The name the download link proposes: the fixed prefix, the id, a dot
   * and the kind's extension, laid out so each part can be read back.
   */
  function DownloadName(c: Creation): (name: string)
    ensures |name| == |DownloadPrefix| + |c.id| + 4
    ensures name[..|DownloadPrefix|] == DownloadPrefix
    ensures name[|DownloadPrefix|..|DownloadPrefix| + |c.id|] == c.id
    ensures name[|name| - 4..] == "." + Extension(c.kind)
  {
    DownloadPrefix + c.id + "." + Extension(c.kind)
  }

  /** The download name determines the id and the kind: two creations that share it agree on both. */
  lemma DownloadNameInjective(a: Creation, b: Creation)
    requires DownloadName(a) == DownloadName(b)
    ensures a.id == b.id && a.kind == b.kind
  {
    var n := DownloadName(a);
    assert |a.id| == |b.id|;
    assert a.id == n[|DownloadPrefix|..|DownloadPrefix| + |a.id|] == b.id;
    assert Extension(a.kind) == n[|n| - 3..] == Extension(b.kind);
  }

  /** The card's state; `deletable` says whether the parent passed an `onDelete` callback. */
  class CardState {
    const creation: Creation
    const deletable: bool
    var isHovered: bool
    var isLiked: bool
    var isLoaded: bool

    constructor (creation: Creation, deletable: bool)
      ensures this.creation == creation && this.deletable == deletable
      ensures !isHovered && !isLiked && !isLoaded
    {
      this.creation := creation;
      this.deletable := deletable;
      isHovered, isLiked, isLoaded := false, false, false;
    }

    /** The heart button. */
    method ToggleLike()
      modifies this`isLiked
      ensures isLiked == !old(isLiked)
    {
      isLiked := !isLiked;
    }

    /** `onLoad` of the image or `onLoadedData` of the video: the only writer of `isLoaded`. */
    method MediaLoaded()
      modifies this`isLoaded
      ensures isLoaded
    {
      isLoaded := true;
    }

    method MouseEnter()
      modifies this`isHovered
      ensures isHovered
    {
      isHovered := true;
    }

    method MouseLeave()
      modifies this`isHovered
      ensures !isHovered
    {
      isHovered := false;
    }

    /** The file name `handleDownload` gives the download link. */
    method Download() returns (name: string)
      ensures name == DownloadName(creation)
    {
      name := DownloadPrefix + creation.id + "." + Extension(creation.kind);
    }

    /**
     * The trash button: shown only when `onDelete` was supplied, and it
     * hands over exactly this creation's id.
     */
    method DeleteClicked() returns (request: Option<string>)
      ensures request.Some? <==> deletable
      ensures request.Some? ==> request.value == creation.id
    {
      request := if deletable then Some(creation.id) else None;
    }
  }

  /** Liking twice restores the heart. */
  method LikeTwice(card: CardState)
    modifies card`isLiked
    ensures card.isLiked == old(card.isLiked)
    ensures card.isLoaded == old(card.isLoaded)
  {
    card.ToggleLike();
    card.ToggleLike();
  }
}
