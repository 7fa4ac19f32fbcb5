/** The like/follow/comment/share column of the web feed
    (app/components/InteractionBar.js). */
module InteractionBar {

  /** The like counter a bar would show if it were not liked: liking adds one
      on top of it, unliking takes it away again. */
  function BaseLikes(isLiked: bool, likes: int): int {
    likes - (if isLiked then 1 else 0)
  }

  /** `toggleLike` as a function of the two fields it touches. */
  function ToggledLike(isLiked: bool, likes: int): (r: (bool, int))
    ensures r.0 == !isLiked
    // the counter follows the flag and keeps the baseline
    ensures BaseLikes(r.0, r.1) == BaseLikes(isLiked, likes)
  {
    var liked := !isLiked;
    (liked, likes + (if liked then 1 else -1))
  }

  /** Two toggles in a row restore the flag and the counter. */
  lemma ToggleLikeTwice(isLiked: bool, likes: int)
    ensures var once := ToggledLike(isLiked, likes);
            ToggledLike(once.0, once.1) == (isLiked, likes)
  {
  }

  class Bar {
    var videoId: string
    var likes: int
    var comments: int
    var shares: int
    var isLiked: bool
    var isFollowing: bool

    constructor ()
      ensures videoId == "" && likes == 0 && comments == 0 && shares == 0
      ensures !isLiked && !isFollowing
    {
      videoId := "";
      likes := 0;
      comments := 0;
      shares := 0;
      isLiked := false;
      isFollowing := false;
    }

    /** `toggleLike`: flips the flag and moves the counter by one in the
        same direction; the other fields are outside its frame. */
    method ToggleLike()
      modifies this`isLiked, this`likes
      ensures (isLiked, likes) == ToggledLike(old(isLiked), old(likes))
      ensures isLiked == !old(isLiked)
      ensures likes == old(likes) + (if isLiked then 1 else -1)
    {
      isLiked := !isLiked;
      likes := likes + (if isLiked then 1 else -1);
    }

    /** `toggleFollow`: flips `isFollowing` only. */
    method ToggleFollow()
      modifies this`isFollowing
      ensures isFollowing == !old(isFollowing)
    {
      isFollowing := !isFollowing;
    }
  }

  /** Liking and unliking again is invisible, whatever the starting state. */
  method LikeTwice(bar: Bar)
    modifies bar
    ensures bar.isLiked == old(bar.isLiked) && bar.likes == old(bar.likes)
    ensures bar.isFollowing == old(bar.isFollowing)
    ensures bar.comments == old(bar.comments) && bar.shares == old(bar.shares)
  {
    bar.ToggleLike();
    bar.ToggleLike();
  }
}
