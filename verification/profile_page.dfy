/** The profile screen (app/pages/ProfilePage.js): a mocked profile with six
    videos, the videos liked on this device (ids kept in local storage under
    `likedVideos`), and three tabs over a thumbnail grid. The current time and
    the stored id list are parameters. */
module ProfilePage {
  import opened Wrappers
  import opened Subsequences

  const DayMs: int := 86400000

  datatype ProfileVideo = ProfileVideo(
    id: string, thumbnail: string, views: int, likes: int, createdAt: int, description: string)

  datatype Stats = Stats(following: int, followers: int, likes: int)

  datatype User = User(
    id: string, username: string, fullName: string, bio: string,
    profilePicture: Option<string>, verified: bool, website: string)

  const MockIds: seq<string> := ["1", "2", "3", "4", "5", "6"]
  const MockViews: seq<int> := [125400, 89234, 234567, 45678, 156789, 67890]
  const MockLikes: seq<int> := [12540, 8923, 23456, 4567, 15678, 6789]
  const MockDescriptions: seq<string> := [
    "새로운 댄스 챌린지!", "오늘의 맛집 발견!", "ㅋㅋㅋㅋ 이거 보고 안 웃으면 인정",
    "제주도 여행 브이로그", "우리집 강아지가 너무 귀여워요", "요리 레시피 공개!"]
  const ThumbnailPrefix := "https://picsum.photos/200/300?random="

  /** The six mocked videos, the k-th (from 0) with id k + 1, created k days
      before `now`. */
  function MockVideos(now: int): (r: seq<ProfileVideo>)
    ensures |r| == 6
    ensures forall k :: 0 <= k < 6 ==> r[k].id == MockIds[k] && r[k].createdAt == now - k * DayMs
  {
    seq(6, k requires 0 <= k < 6 =>
      ProfileVideo(MockIds[k], ThumbnailPrefix + MockIds[k], MockViews[k], MockLikes[k],
                   now - k * DayMs, MockDescriptions[k]))
  }

  /** `videos.filter(v => likedIds.includes(v.id))`. */
  function LikedVideos(videos: seq<ProfileVideo>, likedIds: seq<string>): (r: seq<ProfileVideo>)
    ensures forall v :: v in r <==> v in videos && v.id in likedIds
    ensures IsSubsequence(r, videos)
    ensures likedIds == [] ==> r == []
  {
    if videos == [] then []
    else
      var rest := LikedVideos(videos[1..], likedIds);
      assert videos == [videos[0]] + videos[1..];
      if videos[0].id in likedIds then
        assert ([videos[0]] + rest)[1..] == rest;
        [videos[0]] + rest
      else
        SubsequenceDropHead(rest, videos);
        rest
  }

  /** Every video whose id is stored appears in the liked list as often as
      in `videos`. */
  lemma {:induction false} LikedVideosCounts(videos: seq<ProfileVideo>, likedIds: seq<string>)
    ensures forall v: ProfileVideo :: v.id in likedIds ==> multiset(LikedVideos(videos, likedIds))[v] == multiset(videos)[v]
  {
    if videos != [] {
      var rest := LikedVideos(videos[1..], likedIds);
      LikedVideosCounts(videos[1..], likedIds);
      assert videos == [videos[0]] + videos[1..];
      assert multiset(videos) == multiset{videos[0]} + multiset(videos[1..]);
      if videos[0].id in likedIds {
        assert LikedVideos(videos, likedIds) == [videos[0]] + rest;
      } else {
        assert LikedVideos(videos, likedIds) == rest;
        forall v: ProfileVideo | v.id in likedIds
          ensures multiset(rest)[v] == multiset(videos)[v]
        {
          assert v != videos[0];
        }
      }
    }
  }

  /** With every id stored, the liked list is the whole list. */
  lemma {:induction false} LikedVideosAll(videos: seq<ProfileVideo>, likedIds: seq<string>)
    requires forall v :: v in videos ==> v.id in likedIds
    ensures LikedVideos(videos, likedIds) == videos
  {
    if videos != [] {
      LikedVideosAll(videos[1..], likedIds);
    }
  }

  /** The liked list depends only on which ids are stored, not on their
      order or repetitions. */
  lemma {:induction false} LikedVideosSameIds(videos: seq<ProfileVideo>, a: seq<string>, b: seq<string>)
    requires forall x :: x in a <==> x in b
    ensures LikedVideos(videos, a) == LikedVideos(videos, b)
  {
    if videos != [] {
      LikedVideosSameIds(videos[1..], a, b);
    }
  }

  /** What the grid holds. */
  datatype GridContent = Thumbnails(videos: seq<ProfileVideo>) | EmptyPlaceholder

  /** The grid for a tab: every video on 'videos', the liked ones on 'liked'
      when there are any, and the single "no content yet" cell otherwise
      (always on 'private'). */
  function Grid(activeTab: string, videos: seq<ProfileVideo>, liked: Option<seq<ProfileVideo>>): (g: GridContent)
    ensures activeTab == "videos" ==> g == Thumbnails(videos)
    ensures activeTab != "videos" && activeTab == "liked" && liked.Some? && liked.value != [] ==>
      g == Thumbnails(liked.value)
    ensures activeTab != "videos" && !(activeTab == "liked" && liked.Some? && liked.value != []) ==>
      g == EmptyPlaceholder
  {
    if activeTab == "videos" then Thumbnails(videos)
    else if activeTab == "liked" && liked.Some? && |liked.value| > 0 then Thumbnails(liked.value)
    else EmptyPlaceholder
  }

  /** What the page draws: only the loading view until the user is known. */
  datatype View = LoadingView | ProfileView(user: User, stats: Stats, grid: GridContent)

  class Page {
    var userId: string
    var isOwnProfile: bool
    var user: Option<User>
    var videos: seq<ProfileVideo>
    var stats: Stats
    var activeTab: string
    var likedVideosList: Option<seq<ProfileVideo>>

    constructor ()
      ensures userId == "test-user-1" && isOwnProfile
      ensures user == None && videos == [] && stats == Stats(0, 0, 0)
      ensures activeTab == "videos" && likedVideosList == None
    {
      userId := "test-user-1";
      isOwnProfile := true;
      user := None;
      videos := [];
      stats := Stats(0, 0, 0);
      activeTab := "videos";
      likedVideosList := None;
    }

    /** `loadUserData`: the mocked profile, stats and videos, and the liked
        list filtered from them by the stored ids (`None`: nothing stored,
        read as `[]`). */
    method LoadUserData(now: int, storedLikedIds: Option<seq<string>>)
      modifies this`user, this`stats, this`videos, this`likedVideosList
      ensures user.Some? && user.value.id == userId && user.value.username == "k_creator"
      ensures stats == Stats(324, 157000, 2345000)
      ensures videos == MockVideos(now)
      ensures likedVideosList == Some(LikedVideos(videos, storedLikedIds.GetOr([])))
    {
      user := Some(User(
        userId, "k_creator", "김크리에이터",
        "일상을 특별하게 ✨\n춤, 요리, 여행 콘텐츠\n협업문의: creator@email.com",
        None, true, "linktr.ee/k_creator"));
      stats := Stats(324, 157000, 2345000);
      videos := MockVideos(now);
      var likedIds := storedLikedIds.GetOr([]);
      likedVideosList := Some(LikedVideos(videos, likedIds));
    }

    method SwitchTab(tab: string)
      modifies this`activeTab
      ensures activeTab == tab
    {
      activeTab := tab;
    }

    function Render(): (v: View)
      reads this
      ensures user.None? <==> v == LoadingView
      ensures user.Some? ==> v.grid == Grid(activeTab, videos, likedVideosList)
    {
      match user
      case None => LoadingView
      case Some(u) => ProfileView(u, stats, Grid(activeTab, videos, likedVideosList))
    }
  }

  /** After loading with no liked ids stored, the 'liked' tab shows the
      placeholder; with every id stored it shows all six videos. */
  method LikedTabAfterLoad(page: Page, now: int, storedLikedIds: Option<seq<string>>)
    modifies page
    ensures page.Render().ProfileView?
    ensures storedLikedIds.None? ==> page.Render().grid == EmptyPlaceholder
    ensures storedLikedIds == Some(MockIds) ==> page.Render().grid == Thumbnails(MockVideos(now))
  {
    page.LoadUserData(now, storedLikedIds);
    page.SwitchTab("liked");
    var liked := LikedVideos(page.videos, storedLikedIds.GetOr([]));
    assert page.likedVideosList == Some(liked);
    if storedLikedIds == Some(MockIds) {
      forall v | v in page.videos
        ensures v.id in MockIds
      {
        var k :| 0 <= k < 6 && page.videos[k] == v;
      }
      LikedVideosAll(page.videos, MockIds);
      assert liked == MockVideos(now) && |liked| == 6;
    } else if storedLikedIds.None? {
      assert liked == [];
    }
  }
}
