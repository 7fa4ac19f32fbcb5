/** The native feed screen (src/screens/HomeScreen.js): loads the newest ten
    videos, falls back to two built-in samples when the backend fails, and
    tracks which page of the list is in view. The backend's answer is a
    parameter of the completion step. */
module HomeScreen {
  import opened Wrappers
  import ActiveItem
  import NativeVideoPlayer

  type FeedItem = NativeVideoPlayer.FeedItem

  /** `SAMPLE_VIDEOS`: the two videos shown when the backend cannot be used. */
  const DanceSample := NativeVideoPlayer.FeedItem(
    "1", "https://commondatastorage.googleapis.com/gtv-videos-bucket/sample/BigBuckBunny.mp4",
    "멋진 댄스 챌린지! 함께 추어요 💃 #댄스 #챌린지 #트렌드 #fyp", Some("dancer_kim"),
    12500, 230, 145, Some("♬ Original Sound - dancer_kim"))
  const CookingSample := NativeVideoPlayer.FeedItem(
    "2", "https://commondatastorage.googleapis.com/gtv-videos-bucket/sample/ElephantsDream.mp4",
    "오늘의 요리 🍳 초간단 파스타 레시피 #요리 #레시피 #파스타 #먹방", Some("cook_lee"),
    8700, 156, 89, Some("♬ Cooking Time - BGM President"))

  function SampleVideos(): (r: seq<FeedItem>)
    ensures |r| == 2 && r[0].id == "1" && r[1].id == "2"
  {
    [DanceSample, CookingSample]
  }

  /** A backend error object; its `message` may be missing. */
  datatype BackendError = BackendError(message: Option<string>)

  /** How the videos query ended: it answered `{ data, error }`, or it threw. */
  datatype LoadOutcome =
    | Responded(data: Option<seq<FeedItem>>, error: Option<BackendError>)
    | Threw(thrown: BackendError)

  /** The list shown after a load. */
  function LoadedVideos(outcome: LoadOutcome): (r: seq<FeedItem>)
    ensures outcome.Threw? ==> r == SampleVideos()
    ensures outcome.Responded? && outcome.error.Some? ==> r == SampleVideos()
    ensures outcome.Responded? && outcome.error.None? && outcome.data.None? ==> r == SampleVideos()
    ensures outcome.Responded? && outcome.error.None? && outcome.data.Some? ==> r == outcome.data.value
  {
    match outcome
    case Threw(_) => SampleVideos()
    case Responded(data, error) =>
      if error.Some? then SampleVideos() else data.GetOr(SampleVideos())
  }

  /** The error recorded after a load: the message of the error that occurred. */
  function LoadedError(outcome: LoadOutcome): (r: Option<string>)
    ensures outcome.Threw? ==> r == outcome.thrown.message
    ensures outcome.Responded? && outcome.error.Some? ==> r == outcome.error.value.message
    ensures outcome.Responded? && outcome.error.None? ==> r == None
  {
    match outcome
    case Threw(e) => e.message
    case Responded(_, error) => if error.Some? then error.value.message else None
  }

  /** The only way to end up with an empty feed is a successful answer that
      holds no rows; every failure shows the samples. */
  lemma EmptyFeedOnlyFromEmptyAnswer(outcome: LoadOutcome)
    ensures LoadedVideos(outcome) == [] <==> outcome == Responded(Some([]), None)
  {
  }

  class Screen {
    var videos: seq<FeedItem>
    var currentIndex: int
    var loading: bool
    var error: Option<string>

    constructor ()
      ensures videos == [] && currentIndex == 0 && loading && error == None
    {
      videos := [];
      currentIndex := 0;
      loading := true;
      error := None;
    }

    /** `loadVideos` up to its `await`: the spinner is on and the previous
        error is cleared. */
    method StartLoad()
      modifies this`loading, this`error
      ensures loading && error == None
    {
      loading := true;
      error := None;
    }

    /** The rest of `loadVideos`, given how the query ended: the list is set,
        a failure records its message (a success leaves `error` as the start
        of the load cleared it), and `loading` is off on every path. */
    method FinishLoad(outcome: LoadOutcome)
      modifies this`videos, this`error, this`loading
      ensures videos == LoadedVideos(outcome)
      ensures outcome.Responded? && outcome.error.None? ==> error == old(error)
      ensures !(outcome.Responded? && outcome.error.None?) ==> error == LoadedError(outcome)
      ensures !loading
    {
      match outcome {
        case Threw(e) =>
          error := e.message;
          videos := SampleVideos();
        case Responded(data, err) =>
          if err.Some? {
            error := err.value.message;
            videos := SampleVideos();
          } else {
            videos := data.GetOr(SampleVideos());
          }
      }
      loading := false;
    }

    /** `onViewableItemsChanged`: the first item in view becomes current; an
        empty list of viewable items changes nothing. */
    method OnViewableItemsChanged(viewableIndices: seq<int>)
      modifies this`currentIndex
      ensures viewableIndices != [] ==> currentIndex == viewableIndices[0]
      ensures viewableIndices == [] ==> currentIndex == old(currentIndex)
    {
      if |viewableIndices| > 0 {
        currentIndex := viewableIndices[0];
      }
    }

    /** The `isActive` property of each rendered player: only the current
        index is active, so at most one video plays. */
    function ActiveFlags(): (r: seq<bool>)
      reads this
      ensures |r| == |videos|
      ensures forall i :: 0 <= i < |r| ==> (r[i] <==> i == currentIndex)
      ensures ActiveItem.CountRaised(r) <= 1
      ensures ActiveItem.CountRaised(r) == 1 <==> 0 <= currentIndex < |videos|
    {
      ActiveItem.AtMostOneActive(|videos|, currentIndex);
      ActiveItem.Flags(|videos|, currentIndex)
    }

    /** The error banner is drawn when `error` is truthy: a recorded,
        non-empty message. */
    function ShowsErrorBanner(): (shown: bool)
      reads this
      ensures shown <==> error.Some? && error.value != ""
    {
      error.Some? && error.value != ""
    }
  }

  /** A complete load: whatever happened, the screen leaves the spinner with
      a list to show, and it is non-empty unless the backend answered with
      no rows. */
  method Load(screen: Screen, outcome: LoadOutcome)
    modifies screen
    ensures !screen.loading
    ensures screen.videos == [] ==> outcome == Responded(Some([]), None)
    ensures screen.error == LoadedError(outcome)
  {
    screen.StartLoad();
    screen.FinishLoad(outcome);
    EmptyFeedOnlyFromEmptyAnswer(outcome);
  }
}
