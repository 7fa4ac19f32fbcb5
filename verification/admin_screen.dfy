/** The admin screen (src/screens/AdminScreen.js): seeds the backend with
    sample users, videos, likes and comments, and empties it again. Each
    backend call is recorded as a write; the rows and errors the backend
    answers with, and the random picks of comment author and text, are
    parameters. */
module AdminScreen {
  import opened Wrappers
  import JsText

  datatype SeedUser = SeedUser(
    username: string, email: string, fullName: string, bio: string,
    profilePicture: Option<string>, verified: bool)

  datatype SampleVideo = SampleVideo(
    title: string, description: string, videoUrl: string, thumbnailUrl: string,
    tags: seq<string>, category: string, duration: int, viewsCount: int, isPrivate: bool)

  /** A sample video with its author. */
  datatype VideoInsert = VideoInsert(video: SampleVideo, userId: string)

  datatype LikeInsert = LikeInsert(videoId: string, userId: string)

  datatype CommentInsert = CommentInsert(videoId: string, userId: string, content: string)

  /** One request sent to the backend. */
  datatype Write =
    | InsertUsers(users: seq<SeedUser>)
    | InsertVideos(videos: seq<VideoInsert>)
    | InsertLikes(likes: seq<LikeInsert>)
    | InsertComments(comments: seq<CommentInsert>)
    | DeleteAll(table: string)

  const DancerKim := SeedUser("dancer_kim", "dancer@example.com", "김댄서", "춤추는 것을 좋아해요 💃", None, true)
  const CookLee := SeedUser("cook_lee", "cook@example.com", "이요리", "맛있는 요리 레시피 공유합니다 🍳", None, false)
  const TravelPark := SeedUser("travel_park", "travel@example.com", "박여행", "세계 여행중 ✈️", None, true)

  function SampleUsers(): (r: seq<SeedUser>)
    ensures |r| == 3
  {
    [DancerKim, CookLee, TravelPark]
  }

  const DanceVideo := SampleVideo("멋진 댄스 챌린지", "#댄스 #챌린지 #춤스타그램",
    "https://commondatastorage.googleapis.com/gtv-videos-bucket/sample/BigBuckBunny.mp4",
    "https://picsum.photos/200/300?random=1", ["댄스", "챌린지", "트렌드"], "dance", 30, 1000, false)
  const CookingVideo := SampleVideo("오늘의 요리", "초간단 파스타 레시피 #요리 #레시피 #파스타",
    "https://commondatastorage.googleapis.com/gtv-videos-bucket/sample/ElephantsDream.mp4",
    "https://picsum.photos/200/300?random=2", ["요리", "레시피", "파스타"], "cooking", 45, 2000, false)
  const TravelVideo := SampleVideo("제주도 여행 브이로그", "제주도 맛집 투어 #제주도 #여행 #맛집",
    "https://commondatastorage.googleapis.com/gtv-videos-bucket/sample/ForBiggerBlazes.mp4",
    "https://picsum.photos/200/300?random=3", ["여행", "제주도", "브이로그"], "travel", 60, 3000, false)

  function SampleVideos(): (r: seq<SampleVideo>)
    ensures |r| == 3
    ensures forall i :: 0 <= i < |r| ==> !r[i].isPrivate
  {
    [DanceVideo, CookingVideo, TravelVideo]
  }

  const SampleComments: seq<string> := ["멋져요! 👍", "대박이네요 ㅋㅋㅋ", "저도 해보고 싶어요", "우와 진짜 잘하시네요"]

  function Min(a: int, b: int): int {
    if a < b then a else b
  }

  /** `videosToInsert`: sample video i is written by user `i mod |users|`.
      With no users the lookup throws (`None`) as soon as there is a video
      to assign. */
  function VideosToInsert(samples: seq<SampleVideo>, userIds: seq<string>): (r: Option<seq<VideoInsert>>)
    ensures r.None? <==> userIds == [] && samples != []
    ensures r.Some? ==> |r.value| == |samples|
    ensures r.Some? ==> forall i :: 0 <= i < |samples| ==>
      r.value[i].video == samples[i] && r.value[i].userId == userIds[i % |userIds|]
  {
    if userIds == [] && samples != [] then None
    else if samples == [] then Some([])
    else Some(seq(|samples|, i requires 0 <= i < |samples| => VideoInsert(samples[i], userIds[i % |userIds|])))
  }

  /** Round-robin authorship: while there are users enough, video `i` is
      written by user `i`; every author is one of the users. */
  lemma RoundRobinAuthors(samples: seq<SampleVideo>, userIds: seq<string>)
    requires userIds != []
    ensures var r := VideosToInsert(samples, userIds).value;
      && (forall i :: 0 <= i < |samples| && i < |userIds| ==> r[i].userId == userIds[i])
      && (forall i :: 0 <= i < |samples| ==> r[i].userId in userIds)
  {
    var r := VideosToInsert(samples, userIds).value;
    forall i | 0 <= i < |samples| && i < |userIds| ensures r[i].userId == userIds[i] {
      ModBelow(i, |userIds|);
    }
  }

  lemma ModBelow(i: int, n: int)
    requires 0 <= i < n
    ensures i % n == i
  {
    var q, r := i / n, i % n;
    assert i == q * n + r && 0 <= r < n;
  }

  /** The likes of one video: one from each of the first `min(2, |users|)`
      users, in user order. */
  function LikesOf(videoId: string, userIds: seq<string>): (r: seq<LikeInsert>)
    ensures |r| == Min(2, |userIds|)
    ensures forall i :: 0 <= i < |r| ==> r[i] == LikeInsert(videoId, userIds[i])
  {
    seq(Min(2, |userIds|), i requires 0 <= i < Min(2, |userIds|) => LikeInsert(videoId, userIds[i]))
  }

  /** All likes, video by video in the order the videos came back. */
  function LikePairs(videoIds: seq<string>, userIds: seq<string>): seq<LikeInsert> {
    if videoIds == [] then []
    else LikePairs(videoIds[..|videoIds| - 1], userIds) + LikesOf(videoIds[|videoIds| - 1], userIds)
  }

  /** The like list has `|videos| * min(2, |users|)` entries. */
  lemma {:induction false} LikePairsLength(videoIds: seq<string>, userIds: seq<string>)
    ensures |LikePairs(videoIds, userIds)| == |videoIds| * Min(2, |userIds|)
  {
    if videoIds != [] {
      var n := |videoIds| - 1;
      LikePairsLength(videoIds[..n], userIds);
      assert |videoIds| * Min(2, |userIds|) == n * Min(2, |userIds|) + Min(2, |userIds|);
    }
  }

  /** With `m = min(2, |users|)`, entry `v * m + i` pairs video `v` with
      user `i`. */
  lemma {:induction false} LikePairsAt(videoIds: seq<string>, userIds: seq<string>, v: int, i: int)
    requires 0 <= v < |videoIds| && 0 <= i < Min(2, |userIds|)
    ensures v * Min(2, |userIds|) + i < |LikePairs(videoIds, userIds)|
    ensures LikePairs(videoIds, userIds)[v * Min(2, |userIds|) + i] == LikeInsert(videoIds[v], userIds[i])
  {
    var m := Min(2, |userIds|);
    var n := |videoIds| - 1;
    var init := videoIds[..n];
    var prefix := LikePairs(init, userIds);
    LikePairsLength(init, userIds);
    assert LikePairs(videoIds, userIds) == prefix + LikesOf(videoIds[n], userIds);
    if v < n {
      MulStep(v, n, m, i);
      LikePairsAt(init, userIds, v, i);
    } else {
      assert v * m + i == |prefix| + i;
    }
  }

  /** Entry `i` of block `v` lies before block `n` when `v < n`. */
  lemma {:induction false} MulStep(v: int, n: int, m: int, i: int)
    requires 0 <= v < n && 0 <= i < m
    ensures v * m + i < n * m
    decreases n - v
  {
    assert n * m == (n - 1) * m + m;
    if v < n - 1 {
      MulStep(v, n - 1, m, i);
    }
  }

  /** The nested loops that fill `likes`. */
  method BuildLikes(videoIds: seq<string>, userIds: seq<string>) returns (likes: seq<LikeInsert>)
    ensures likes == LikePairs(videoIds, userIds)
  {
    likes := [];
    var v := 0;
    while v < |videoIds|
      invariant 0 <= v <= |videoIds|
      invariant likes == LikePairs(videoIds[..v], userIds)
    {
      var m := Min(2, |userIds|);
      var i := 0;
      while i < m
        invariant 0 <= i <= m
        invariant likes == LikePairs(videoIds[..v], userIds) + LikesOf(videoIds[v], userIds)[..i]
      {
        likes := likes + [LikeInsert(videoIds[v], userIds[i])];
        i := i + 1;
      }
      assert videoIds[..v + 1][..v] == videoIds[..v];
      v := v + 1;
    }
    assert videoIds[..v] == videoIds;
  }

  /** The comment list: two per video, in video order. The author and the
      text of comment `k` are the random picks `pickUser(k)` and
      `pickContent(k)`, reduced into range as `Math.floor(Math.random() * n)`
      would be. */
  function CommentsFor(videoIds: seq<string>, userIds: seq<string>, pickUser: nat -> nat, pickContent: nat -> nat)
    : (r: seq<CommentInsert>)
    requires videoIds != [] ==> userIds != []
    ensures |r| == 2 * |videoIds|
    ensures forall k :: 0 <= k < |r| ==>
      r[k].videoId == videoIds[k / 2] && r[k].userId in userIds && r[k].content in SampleComments
  {
    seq(2 * |videoIds|, k requires 0 <= k < 2 * |videoIds| =>
      CommentInsert(videoIds[k / 2], userIds[pickUser(k) % |userIds|], SampleComments[pickContent(k) % |SampleComments|]))
  }

  /** The nested loops that fill `comments`. */
  method BuildComments(videoIds: seq<string>, userIds: seq<string>, pickUser: nat -> nat, pickContent: nat -> nat)
    returns (comments: seq<CommentInsert>)
    requires videoIds != [] ==> userIds != []
    ensures comments == CommentsFor(videoIds, userIds, pickUser, pickContent)
  {
    ghost var spec := CommentsFor(videoIds, userIds, pickUser, pickContent);
    comments := [];
    var v := 0;
    while v < |videoIds|
      invariant 0 <= v <= |videoIds|
      invariant comments == spec[..2 * v]
    {
      var i := 0;
      while i < 2
        invariant 0 <= i <= 2
        invariant comments == spec[..2 * v + i]
      {
        var k := 2 * v + i;
        assert k / 2 == v;
        comments := comments + [CommentInsert(videoIds[v], userIds[pickUser(k) % |userIds|],
                                              SampleComments[pickContent(k) % |SampleComments|])];
        assert spec[..k + 1] == spec[..k] + [spec[k]];
        i := i + 1;
      }
      v := v + 1;
    }
  }

  const UsersErrorPrefix := "사용자 생성 오류: "
  const VideosErrorPrefix := "비디오 생성 오류: "

  /** The status line the screen shows, as a value; `StatusText` is the
      text drawn for it. */
  datatype Status =
    | Idle
    | SeedingStarted | CreatingUsers | UsersCreated(count: nat)
    | CreatingVideos | VideosCreated(count: nat)
    | AddingLikes | AddingComments | Seeded
    | Clearing | Cleared
    | Failed(message: string)

  function StatusText(st: Status): string {
    match st
    case Idle => ""
    case SeedingStarted => "시작: 데이터베이스 시딩..."
    case CreatingUsers => "사용자 생성중..."
    case UsersCreated(n) => JsText.DecimalString(n) + "명의 사용자가 생성되었습니다."
    case CreatingVideos => "비디오 생성중..."
    case VideosCreated(n) => JsText.DecimalString(n) + "개의 비디오가 생성되었습니다."
    case AddingLikes => "좋아요 추가중..."
    case AddingComments => "댓글 추가중..."
    case Seeded => "✅ 데이터베이스 시딩 완료!"
    case Clearing => "데이터베이스 정리중..."
    case Cleared => "✅ 데이터베이스 정리 완료!"
    case Failed(m) => "❌ 오류: " + m
  }

  /** The likes and comments requests of a seeding run: each is sent only
      when it has at least one row. */
  method BuildLikesAndComments(videoIds: seq<string>, userIds: seq<string>,
                               pickUser: nat -> nat, pickContent: nat -> nat)
    returns (tail: seq<Write>)
    requires videoIds != [] ==> userIds != []
    ensures var likes := LikePairs(videoIds, userIds);
      var comments := CommentsFor(videoIds, userIds, pickUser, pickContent);
      tail == (if likes != [] then [InsertLikes(likes)] else [])
              + (if comments != [] then [InsertComments(comments)] else [])
  {
    var likes := BuildLikes(videoIds, userIds);
    tail := [];
    if |likes| > 0 {
      tail := [InsertLikes(likes)];
    }
    var comments := BuildComments(videoIds, userIds, pickUser, pickContent);
    if |comments| > 0 {
      tail := tail + [InsertComments(comments)];
    }
  }

  /** What the backend answered to the users insert and the videos insert:
      the ids of the rows written, or the error's message. */
  datatype InsertOutcome = Inserted(ids: seq<string>) | InsertError(message: string)

  class Screen {
    var loading: bool
    var status: Status

    constructor ()
      ensures !loading && status == Idle
    {
      loading := false;
      status := Idle;
    }

    /** `seedDatabase`. A users error aborts before any video is written,
        and so does a videos error before any like; with no user at all the
        author lookup throws (`typeErrorMessage`). Likes and comments are
        sent only when there are some, and their errors are only logged:
        seeding still reports success. `loading` is off on every path. */
    method SeedDatabase(usersOutcome: InsertOutcome, videosOutcome: InsertOutcome,
                        pickUser: nat -> nat, pickContent: nat -> nat, typeErrorMessage: string)
      returns (writes: seq<Write>)
      modifies this
      ensures !loading
      ensures |writes| >= 1 && writes[0] == InsertUsers(SampleUsers())
      ensures usersOutcome.InsertError? ==>
        writes == [InsertUsers(SampleUsers())] && status == Failed(UsersErrorPrefix + usersOutcome.message)
      ensures usersOutcome.Inserted? && usersOutcome.ids == [] ==>
        writes == [InsertUsers(SampleUsers())] && status == Failed(typeErrorMessage)
      ensures usersOutcome.Inserted? && usersOutcome.ids != [] ==>
        |writes| >= 2 && writes[1] == InsertVideos(VideosToInsert(SampleVideos(), usersOutcome.ids).value)
      ensures usersOutcome.Inserted? && usersOutcome.ids != [] && videosOutcome.InsertError? ==>
        |writes| == 2 && status == Failed(VideosErrorPrefix + videosOutcome.message)
      ensures usersOutcome.Inserted? && usersOutcome.ids != [] && videosOutcome.Inserted? ==>
        var users, videos := usersOutcome.ids, videosOutcome.ids;
        var likes := LikePairs(videos, users);
        var comments := CommentsFor(videos, users, pickUser, pickContent);
        && writes == [InsertUsers(SampleUsers()), InsertVideos(VideosToInsert(SampleVideos(), users).value)]
                     + (if likes != [] then [InsertLikes(likes)] else [])
                     + (if comments != [] then [InsertComments(comments)] else [])
        && status == Seeded
    {
      loading := true;
      status := SeedingStarted;
      status := CreatingUsers;
      writes := [InsertUsers(SampleUsers())];
      if usersOutcome.InsertError? {
        status := Failed(UsersErrorPrefix + usersOutcome.message);
        loading := false;
        return;
      }
      var users := usersOutcome.ids;
      status := UsersCreated(|users|);
      status := CreatingVideos;
      var toInsert := VideosToInsert(SampleVideos(), users);
      if toInsert.None? {
        status := Failed(typeErrorMessage);
        loading := false;
        return;
      }
      writes := writes + [InsertVideos(toInsert.value)];
      if videosOutcome.InsertError? {
        status := Failed(VideosErrorPrefix + videosOutcome.message);
        loading := false;
        return;
      }
      var videos := videosOutcome.ids;
      status := VideosCreated(|videos|);
      status := AddingLikes;
      var tail := BuildLikesAndComments(videos, users, pickUser, pickContent);
      status := AddingComments;  // the source shows it between the two requests
      writes := writes + tail;
      status := Seeded;
      loading := false;
    }

    /** `clearDatabase`: likes, comments, videos and users are deleted in
        that order, each request sent after the previous one finished. A
        request that throws (`throwsAt`, counting from 0) ends the sequence
        there; errors the backend answers with are not looked at. */
    method ClearDatabase(throwsAt: Option<nat>, thrownMessage: string) returns (writes: seq<Write>)
      modifies this
      ensures !loading
      ensures var all := [DeleteAll("likes"), DeleteAll("comments"), DeleteAll("videos"), DeleteAll("users")];
        if throwsAt.Some? && throwsAt.value < 4 then
          writes == all[..throwsAt.value + 1] && status == Failed(thrownMessage)
        else
          writes == all && status == Cleared
    {
      loading := true;
      status := Clearing;
      var tables := ["likes", "comments", "videos", "users"];
      writes := [];
      var k := 0;
      while k < 4
        invariant 0 <= k <= 4
        invariant throwsAt.Some? ==> k <= throwsAt.value
        invariant writes == seq(k, j requires 0 <= j < k => DeleteAll(tables[j]))
      {
        writes := writes + [DeleteAll(tables[k])];
        if throwsAt == Some(k) {
          status := Failed(thrownMessage);
          loading := false;
          return;
        }
        k := k + 1;
      }
      status := Cleared;
      loading := false;
    }
  }
}
