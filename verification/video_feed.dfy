/** The web feed component (app/components/VideoFeed.js): touch swipes and
    wheel ticks move a single `currentIndex` through the list of videos, the
    container is translated by `currentIndex * 100` vh, and only the video at
    `currentIndex` is told to play. */
module VideoFeed {
  import ActiveItem

  /** A feed entry as the web feed holds it. */
  datatype Video = Video(
    id: string, url: string, username: string, description: string,
    likes: int, comments: int, shares: int)

  /** A swipe must travel strictly more than this many pixels to count. */
  const ScrollThreshold: real := 50.0

  /** The two entries `loadVideos` installs. */
  const FirstSample := Video("1", "https://sample-videos.com/video321/mp4/720/big_buck_bunny_720p_1mb.mp4",
    "@testuser1", "첫 번째 테스트 비디오입니다 #틱톡클론 #테스트", 1234, 56, 12)
  const SecondSample := Video("2", "https://sample-videos.com/video321/mp4/720/big_buck_bunny_720p_2mb.mp4",
    "@testuser2", "두 번째 테스트 비디오입니다 #개발중", 5678, 123, 45)

  function SampleVideos(): (r: seq<Video>)
    ensures |r| == 2 && r[0].id == "1" && r[1].id == "2"
  {
    [FirstSample, SecondSample]
  }

  function Abs(x: real): real {
    if x < 0.0 then -x else x
  }

  /** A valid position in a list of `count` items; an empty list pins the
      index at 0. */
  predicate InRange(index: int, count: int) {
    if count <= 0 then index == 0 else 0 <= index < count
  }

  /** The index after one step in direction `forward` (`true`: next video),
      refused at the last, respectively first, item. */
  function StepIndex(index: int, count: int, forward: bool): (r: int)
    ensures forward ==> r == (if index < count - 1 then index + 1 else index)
    ensures !forward ==> r == (if index > 0 then index - 1 else index)
  {
    if forward && index < count - 1 then index + 1
    else if !forward && index > 0 then index - 1
    else index
  }

  /** The index after a touch that went down at `startY` and was released at
      `endY` (`handleTouchEnd`). */
  function TouchEndIndex(index: int, count: int, startY: real, endY: real): (r: int)
    // a movement of at most the threshold snaps back
    ensures Abs(startY - endY) <= ScrollThreshold ==> r == index
    // an upward swipe advances by one unless already on the last item
    ensures startY - endY > ScrollThreshold ==> r == (if index < count - 1 then index + 1 else index)
    // a downward swipe goes back by one unless already on the first item
    ensures startY - endY < -ScrollThreshold ==> r == (if index > 0 then index - 1 else index)
    ensures index - 1 <= r <= index + 1
    ensures InRange(index, count) ==> InRange(r, count)
  {
    var diff := startY - endY;
    if Abs(diff) > ScrollThreshold then
      (if diff > 0.0 then StepIndex(index, count, true)
       else StepIndex(index, count, false))
    else index
  }

  /** The index after one wheel event (`handleWheel`): no threshold, only
      the sign of `deltaY` matters. */
  function WheelIndex(index: int, count: int, deltaY: real): (r: int)
    ensures deltaY == 0.0 ==> r == index
    ensures deltaY > 0.0 ==> r == (if index < count - 1 then index + 1 else index)
    ensures deltaY < 0.0 ==> r == (if index > 0 then index - 1 else index)
    ensures index - 1 <= r <= index + 1
    ensures InRange(index, count) ==> InRange(r, count)
  {
    if deltaY > 0.0 then StepIndex(index, count, true)
    else if deltaY < 0.0 then StepIndex(index, count, false)
    else index
  }

  /** The index after a run of wheel events, in order. */
  function WheelRun(index: int, count: int, deltas: seq<real>): int
    decreases |deltas|
  {
    if deltas == [] then index else WheelRun(WheelIndex(index, count, deltas[0]), count, deltas[1..])
  }

  function Min(a: int, b: int): int {
    if a <= b then a else b
  }

  function Max(a: int, b: int): int {
    if a <= b then b else a
  }

  /** Scrolling down by `n` ticks from a valid position stops at the last
      item, and scrolling up stops at the first: the index clamps, it never
      wraps around. */
  lemma {:induction false} WheelRunClamps(index: int, count: int, deltas: seq<real>)
    requires count > 0 && InRange(index, count)
    ensures (forall i :: 0 <= i < |deltas| ==> deltas[i] > 0.0) ==>
      WheelRun(index, count, deltas) == Min(index + |deltas|, count - 1)
    ensures (forall i :: 0 <= i < |deltas| ==> deltas[i] < 0.0) ==>
      WheelRun(index, count, deltas) == Max(index - |deltas|, 0)
    decreases |deltas|
  {
    if deltas != [] {
      var next := WheelIndex(index, count, deltas[0]);
      WheelRunClamps(next, count, deltas[1..]);
      assert forall i :: 1 <= i < |deltas| ==> deltas[1..][i - 1] == deltas[i];
    }
  }

  /** Any run of wheel events keeps a valid index valid. */
  lemma {:induction false} WheelRunInRange(index: int, count: int, deltas: seq<real>)
    requires InRange(index, count)
    ensures InRange(WheelRun(index, count, deltas), count)
    ensures index - |deltas| <= WheelRun(index, count, deltas) <= index + |deltas|
    decreases |deltas|
  {
    if deltas != [] {
      WheelRunInRange(WheelIndex(index, count, deltas[0]), count, deltas[1..]);
    }
  }

  class Feed {
    var videos: seq<Video>
    var currentIndex: int
    var touchStartY: real
    /** The container's `translateY`, in vh (upwards). */
    var offsetVh: int

    /** The container shows the current video. */
    ghost predicate Valid()
      reads this
    {
      offsetVh == currentIndex * 100
    }

    constructor ()
      ensures Valid()
      ensures videos == [] && currentIndex == 0 && touchStartY == 0.0 && offsetVh == 0
    {
      videos := [];
      currentIndex := 0;
      touchStartY := 0.0;
      offsetVh := 0;
    }

    /** `loadVideos`: installs the sample entries; the index is left as it is. */
    method LoadVideos()
      modifies this`videos
      ensures videos == SampleVideos()
    {
      videos := SampleVideos();
    }

    /** `handleTouchStart`: only remembers where the finger went down. */
    method HandleTouchStart(y: real)
      modifies this`touchStartY
      ensures touchStartY == y
    {
      touchStartY := y;
    }

    /** `handleTouchEnd`. */
    method HandleTouchEnd(endY: real)
      requires Valid()
      modifies this`currentIndex, this`offsetVh
      ensures Valid()
      ensures currentIndex == TouchEndIndex(old(currentIndex), |videos|, touchStartY, endY)
    {
      var diff := touchStartY - endY;
      if Abs(diff) > ScrollThreshold {
        if diff > 0.0 && currentIndex < |videos| - 1 {
          NextVideo();
        } else if diff < 0.0 && currentIndex > 0 {
          PreviousVideo();
        }
      }
    }

    /** `handleWheel`. */
    method HandleWheel(deltaY: real)
      requires Valid()
      modifies this`currentIndex, this`offsetVh
      ensures Valid()
      ensures currentIndex == WheelIndex(old(currentIndex), |videos|, deltaY)
    {
      if deltaY > 0.0 && currentIndex < |videos| - 1 {
        NextVideo();
      } else if deltaY < 0.0 && currentIndex > 0 {
        PreviousVideo();
      }
    }

    /** `nextVideo`: one step forward, then scroll the container to it. */
    method NextVideo()
      modifies this`currentIndex, this`offsetVh
      ensures Valid()
      ensures currentIndex == old(currentIndex) + 1
    {
      currentIndex := currentIndex + 1;
      ScrollToVideo();
    }

    /** `previousVideo`: one step back, then scroll the container to it. */
    method PreviousVideo()
      modifies this`currentIndex, this`offsetVh
      ensures Valid()
      ensures currentIndex == old(currentIndex) - 1
    {
      currentIndex := currentIndex - 1;
      ScrollToVideo();
    }

    /** `scrollToVideo`. */
    method ScrollToVideo()
      modifies this`offsetVh
      ensures Valid()
    {
      offsetVh := currentIndex * 100;
    }

    /** The `isPlaying` flags given to the rendered players: at most one is
        raised, and exactly one while the index is valid for a non-empty feed. */
    function PlayingFlags(): (r: seq<bool>)
      reads this
      ensures |r| == |videos|
      ensures forall i :: 0 <= i < |r| ==> (r[i] <==> i == currentIndex)
      ensures ActiveItem.CountRaised(r) <= 1
      ensures |videos| > 0 && InRange(currentIndex, |videos|) ==> ActiveItem.CountRaised(r) == 1
    {
      ActiveItem.AtMostOneActive(|videos|, currentIndex);
      ActiveItem.Flags(|videos|, currentIndex)
    }
  }

  /** A freshly connected feed: the samples are loaded and every gesture
      keeps the index on one of them. */
  method ConnectedFeed() returns (feed: Feed)
    ensures fresh(feed) && feed.Valid()
    ensures feed.videos == SampleVideos() && feed.currentIndex == 0
    ensures InRange(feed.currentIndex, |feed.videos|)
  {
    feed := new Feed();
    feed.LoadVideos();
  }
}
