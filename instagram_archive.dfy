/** The social-feed widget (components/InstagramArchive.tsx): a static fallback set
    shown at once, replaced by at most four live posts when the one fetch
    succeeds. The fetch is not modelled; its outcome is an input. */
module InstagramArchive {
  import opened Wrappers

  datatype MediaType = Image | Video | CarouselAlbum

  /** One post (components/InstagramArchive.tsx:5-11). */
  datatype Media = Media(id: string, mediaType: MediaType, mediaUrl: string, thumbnailUrl: Option<string>, permalink: string)

  const Profile: string := "https://www.instagram.com/zizi__designs/"

  /** The four local posts shown before, and instead of, a live feed
      (components/InstagramArchive.tsx:22-47). */
  const FallbackPosts: seq<Media> := [
    Media("fallback-1", Image, "/collector-dior-eloise.jpeg", None, Profile),
    Media("fallback-2", Image, "/collector-fendi-vittoria.jpeg", None, Profile),
    Media("fallback-3", Image, "/collector-lv-aurele.jpeg", None, Profile),
    Media("fallback-4", Image, "/dior-eloise-hero.jpeg", None, Profile)
  ]

  /** How the one fetch ends: no token configured, a thrown error, a non-OK
      response, or an OK response whose body's `data` field may be missing. */
  datatype FetchOutcome = NoToken | NetworkError | HttpError | Ok(data: Option<seq<Media>>)

  /** The widget's two pieces of state, `media` and `isLive`. */
  datatype Feed = Feed(media: seq<Media>, isLive: bool)

  /** The state on mount (components/InstagramArchive.tsx:50-51). */
  const InitialFeed: Feed := Feed(FallbackPosts, false)

  /** `data.data.slice(0, 4)`. */
  function FirstFour(data: seq<Media>): (r: seq<Media>)
    ensures |r| == Min(4, |data|)
    ensures forall i :: 0 <= i < |r| ==> r[i] == data[i]
  {
    data[..Min(4, |data|)]
  }

  /** An outcome that replaces the feed (components/InstagramArchive.tsx:63-65). */
  predicate Delivers(outcome: FetchOutcome)
  {
    outcome.Ok? && outcome.data.Some? && |outcome.data.value| > 0
  }

  /** The state update of `fetchInstagramMedia` (components/InstagramArchive.tsx:54-74). */
  function ApplyOutcome(feed: Feed, outcome: FetchOutcome): (next: Feed)
    ensures Delivers(outcome) ==>
      next.isLive && 1 <= |next.media| <= 4 && next.media == FirstFour(outcome.data.value)
    ensures !Delivers(outcome) ==> next == feed
  {
    match outcome
    case Ok(Some(data)) =>
      if |data| > 0 then Feed(FirstFour(data), true) else feed
    case _ => feed
  }

  /** The invariant of every reachable state: one to four posts, and a feed that
      is not live shows exactly the fallback set. */
  predicate FeedInvariant(feed: Feed)
  {
    1 <= |feed.media| <= 4 && (!feed.isLive ==> feed.media == FallbackPosts)
  }

  /** The initial state satisfies the invariant and every outcome preserves it. */
  lemma OutcomePreservesInvariant(feed: Feed, outcome: FetchOutcome)
    requires FeedInvariant(feed)
    ensures FeedInvariant(InitialFeed)
    ensures FeedInvariant(ApplyOutcome(feed, outcome))
  {
  }

  /** A state reached by the mount effect is live exactly when the fetch
      delivered posts, and a live feed consists of the leading posts of that
      response; otherwise the fallback set stays. */
  lemma LiveOnlyFromResponse(outcome: FetchOutcome)
    ensures var feed := ApplyOutcome(InitialFeed, outcome);
      (feed.isLive <==> Delivers(outcome)) &&
      (feed.isLive ==> feed.media == FirstFour(outcome.data.value)) &&
      (!feed.isLive ==> feed == InitialFeed)
  {
  }

  /** The header label (components/InstagramArchive.tsx:85). */
  function Label(isLive: bool): string
  {
    if isLive then "Live Feed" else "Collected Moments"
  }

  /** The label says "Live Feed" exactly when the fetch delivered posts. */
  lemma LabelReflectsFetch(outcome: FetchOutcome)
    ensures Label(ApplyOutcome(InitialFeed, outcome).isLive) == "Live Feed" <==> Delivers(outcome)
    ensures Label(ApplyOutcome(InitialFeed, outcome).isLive) != "Live Feed" ==>
      Label(ApplyOutcome(InitialFeed, outcome).isLive) == "Collected Moments"
  {
  }

  /** The image source of a post (components/InstagramArchive.tsx:111): a video
      shows its thumbnail when it has a non-empty one and its media URL otherwise;
      every other post shows its media URL. */
  function ImageSource(item: Media): (src: string)
    ensures item.mediaType == Video && item.thumbnailUrl.Some? && item.thumbnailUrl.value != "" ==>
      src == item.thumbnailUrl.value
    ensures !(item.mediaType == Video && item.thumbnailUrl.Some? && item.thumbnailUrl.value != "") ==>
      src == item.mediaUrl
  {
    if item.mediaType == Video then
      if item.thumbnailUrl.Some? && item.thumbnailUrl.value != "" then item.thumbnailUrl.value else item.mediaUrl
    else item.mediaUrl
  }

  /** The fallback grid is well keyed: the four posts have distinct ids (the
      React keys of the grid), each shows its own image and each links to the
      profile. */
  lemma FallbackGridWellFormed()
    ensures |FallbackPosts| == 4
    ensures forall i, j :: 0 <= i < j < |FallbackPosts| ==> FallbackPosts[i].id != FallbackPosts[j].id
    ensures forall i :: 0 <= i < |FallbackPosts| ==>
      ImageSource(FallbackPosts[i]) == FallbackPosts[i].mediaUrl && FallbackPosts[i].permalink == Profile
  {
  }

  /** The widget's state as an object whose mount effect updates it in place. The
      ghost `response` records the posts of the response that made it live. */
  class Archive {
    var media: seq<Media>
    var isLive: bool
    ghost var response: seq<Media>

    ghost predicate Valid()
      reads this
    {
      FeedInvariant(Feed(media, isLive)) &&
      (isLive ==> |response| > 0 && media == FirstFour(response))
    }

    /** Mounting: the fallback set, not live (components/InstagramArchive.tsx:50-51). */
    constructor ()
      ensures Valid()
      ensures media == FallbackPosts && !isLive
    {
      media := FallbackPosts;
      isLive := false;
      response := [];
    }

    /** `fetchInstagramMedia` once the fetch has ended with `outcome`
        (components/InstagramArchive.tsx:54-74). */
    method FetchInstagramMedia(outcome: FetchOutcome)
      requires Valid()
      modifies this
      ensures Valid()
      ensures Feed(media, isLive) == ApplyOutcome(old(Feed(media, isLive)), outcome)
      ensures isLive == (old(isLive) || Delivers(outcome))
    {
      if outcome.NoToken? {
        return;
      }
      match outcome
      case Ok(body) =>
        if body.Some? && |body.value| > 0 {
          media := FirstFour(body.value);
          isLive := true;
          response := body.value;
        }
      case _ =>
    }
  }
}
