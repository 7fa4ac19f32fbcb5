/** One page of the native feed (src/components/VideoPlayer.js): a video that
    plays while its page is the active one, can be paused by a press, and a
    local like flag that only changes the icon. */
module NativeVideoPlayer {
  import opened Wrappers

  /** A feed entry as the player reads it. */
  datatype FeedItem = FeedItem(
    id: string, videoUrl: string, description: string, username: Option<string>,
    likesCount: int, commentsCount: int, sharesCount: int, music: Option<string>)

  /** What the like button receives: the icon name, the count and its
      highlight. */
  datatype LikeButton = LikeButton(icon: string, count: int, isActive: bool)

  function LikeButtonFor(item: FeedItem, liked: bool): (b: LikeButton)
    ensures b.icon == "favorite" <==> liked
    ensures b.icon == "favorite-border" <==> !liked
    ensures b.isActive == liked
    ensures b.count == item.likesCount
  {
    LikeButton(if liked then "favorite" else "favorite-border", item.likesCount, liked)
  }

  /** Liking changes the icon but never the number shown beside it. */
  lemma LikeKeepsCount(item: FeedItem)
    ensures LikeButtonFor(item, true).count == LikeButtonFor(item, false).count
    ensures LikeButtonFor(item, true).icon != LikeButtonFor(item, false).icon
  {
  }

  /** The state cells of one player. `isActive` is the property handed in by
      the list. */
  class Player {
    var isActive: bool
    var paused: bool
    var liked: bool

    constructor (active: bool)
      ensures isActive == active && paused == !active && !liked
    {
      isActive := active;
      paused := !active;
      liked := false;
    }

    /** A new `isActive` property. The effect keyed on `isActive` runs only
        when the value changed, and then resets `paused` to `!isActive`,
        discarding any manual pause or resume. */
    method SetActive(active: bool)
      modifies this`isActive, this`paused
      ensures isActive == active
      ensures active != old(isActive) ==> paused == !active
      ensures active == old(isActive) ==> paused == old(paused)
    {
      if active != isActive {
        isActive := active;
        paused := !isActive;
      }
    }

    /** A press on the video flips `paused`. */
    method Press()
      modifies this`paused
      ensures paused == !old(paused)
    {
      paused := !paused;
    }

    /** `handleLike` flips the local like flag; nothing is stored. */
    method HandleLike()
      modifies this`liked
      ensures liked == !old(liked)
    {
      liked := !liked;
    }

    /** The pause icon is drawn exactly while the video is paused. */
    function ShowsPauseIcon(): (shown: bool)
      reads this
      ensures shown <==> paused
    {
      paused
    }
  }

  /** Becoming active (or inactive) overrides a manual press made before. */
  method PressThenSwitch(p: Player)
    modifies p
    ensures p.isActive == !old(p.isActive)
    ensures p.paused == !p.isActive && p.ShowsPauseIcon() == old(p.isActive)
  {
    p.Press();
    p.SetActive(!p.isActive);
  }
}
