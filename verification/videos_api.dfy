/** The data-access layer (src/api/videos.js). Every backend query is
    described as a value; the backend itself is a parameter that maps the
    query to its response `{ data, error }`. The two reads turn any failure
    into an empty list, the two writes pass the failure on to the caller. */
module VideosApi {
  import opened Wrappers

  const DefaultPage: int := 0
  const DefaultLimit: int := 10

  datatype ApiError = ApiError(message: string)

  /** The `{ data, error }` pair a query resolves to. */
  datatype Response<T> = Response(data: Option<T>, error: Option<ApiError>)

  /** The embedded author: `{}` when the join found nothing. */
  datatype UserInfo = EmptyUser | User(id: string, username: string, profilePicture: Option<string>, verified: bool)

  /** One row of an embedded `count` aggregate. */
  datatype CountRow = CountRow(count: Option<int>)

  /** A `videos` row with its embedded author and aggregates, as returned. */
  datatype VideoRow = VideoRow(
    id: string, userId: string, description: string, videoUrl: string,
    createdAt: int, isPrivate: bool,
    user: Option<UserInfo>, likes: Option<seq<CountRow>>, comments: Option<seq<CountRow>>)

  /** A row after `getVideos`' mapping: the row's own fields, the author
      defaulted to `{}`, and the two counters. */
  datatype FeedVideo = FeedVideo(row: VideoRow, user: UserInfo, likesCount: int, commentsCount: int)

  /** The `videos` query: public rows only, newest first, the inclusive
      row range `[rangeFrom, rangeTo]`. */
  datatype VideosQuery = VideosQuery(
    isPrivateEquals: bool, orderColumn: string, ascending: bool, rangeFrom: int, rangeTo: int)

  function VideosPageQuery(page: int, limit: int): (q: VideosQuery)
    ensures !q.isPrivateEquals && q.orderColumn == "created_at" && !q.ascending
    ensures q.rangeFrom == page * limit
    // the inclusive range holds exactly `limit` rows
    ensures q.rangeTo - q.rangeFrom + 1 == limit
  {
    VideosQuery(false, "created_at", false, page * limit, (page + 1) * limit - 1)
  }

  /** Consecutive pages are adjacent: page `p + 1` starts right after page `p`. */
  lemma PagesAdjacent(page: int, limit: int)
    ensures VideosPageQuery(page + 1, limit).rangeFrom == VideosPageQuery(page, limit).rangeTo + 1
  {
  }

  /** With a positive limit, different pages never share a row. */
  lemma PagesDisjoint(p: int, q: int, limit: int)
    requires p < q && limit > 0
    ensures VideosPageQuery(p, limit).rangeTo < VideosPageQuery(q, limit).rangeFrom
  {
    assert (q - (p + 1)) * limit >= 0;
    assert q * limit == (p + 1) * limit + (q - (p + 1)) * limit;
  }

  /** `rows?.[0]?.count || 0`: the first aggregate row's count, where a
      missing array, a missing row, a missing count and 0 all give 0. */
  function FirstCount(rows: Option<seq<CountRow>>): (n: int)
    ensures rows.None? || rows.value == [] || rows.value[0].count.None? ==> n == 0
    ensures rows.Some? && rows.value != [] && rows.value[0].count.Some? ==> n == rows.value[0].count.value
  {
    match rows
    case None => 0
    case Some(rs) =>
      if rs == [] then 0
      else match rs[0].count
        case None => 0
        case Some(c) => c
  }

  /** The mapping applied to every row of `getVideos`. */
  function ToFeedVideo(v: VideoRow): (f: FeedVideo)
    ensures f.row == v
    ensures v.user.Some? ==> f.user == v.user.value
    ensures v.user.None? ==> f.user == EmptyUser
  {
    FeedVideo(v, v.user.GetOr(EmptyUser), FirstCount(v.likes), FirstCount(v.comments))
  }

  /** `getVideos(page, limit)` against `backend`: an absent argument takes its
      default; any error, and a response without data, give `[]`; otherwise
      the rows are mapped one for one, in order. */
  function GetVideos(page: Option<int>, limit: Option<int>, backend: VideosQuery -> Response<seq<VideoRow>>): (r: seq<FeedVideo>)
    ensures var resp := backend(VideosPageQuery(page.GetOr(DefaultPage), limit.GetOr(DefaultLimit)));
      && (resp.error.Some? || resp.data.None? ==> r == [])
      && (resp.error.None? && resp.data.Some? ==>
            |r| == |resp.data.value|
            && forall i :: 0 <= i < |r| ==>
                 r[i] == ToFeedVideo(resp.data.value[i])
                 && r[i].row == resp.data.value[i]
                 && r[i].likesCount == FirstCount(resp.data.value[i].likes)
                 && r[i].commentsCount == FirstCount(resp.data.value[i].comments))
  {
    var resp := backend(VideosPageQuery(page.GetOr(DefaultPage), limit.GetOr(DefaultLimit)));
    if resp.error.Some? then []
    else match resp.data
      case None => []
      case Some(rows) => seq(|rows|, i requires 0 <= i < |rows| => ToFeedVideo(rows[i]))
  }

  /** Omitting the arguments asks for the first ten rows. */
  lemma GetVideosDefaults(backend: VideosQuery -> Response<seq<VideoRow>>)
    ensures GetVideos(None, None, backend) == GetVideos(Some(0), Some(10), backend)
    ensures VideosPageQuery(DefaultPage, DefaultLimit).rangeFrom == 0
    ensures VideosPageQuery(DefaultPage, DefaultLimit).rangeTo == 9
  {
  }

  datatype CommentRow = CommentRow(
    id: string, videoId: string, userId: string, content: string, createdAt: int, user: Option<UserInfo>)

  /** The `comments` query of a video, newest first. */
  datatype CommentsQuery = CommentsQuery(videoId: string, orderColumn: string, ascending: bool)

  /** `getComments(videoId)`: an error gives `[]`; otherwise the data is passed
      through as it came, `null` (`None`) included. */
  function GetComments(videoId: string, backend: CommentsQuery -> Response<seq<CommentRow>>): (r: Option<seq<CommentRow>>)
    ensures var resp := backend(CommentsQuery(videoId, "created_at", false));
      && (resp.error.Some? ==> r == Some([]))
      && (resp.error.None? ==> r == resp.data)
  {
    var resp := backend(CommentsQuery(videoId, "created_at", false));
    if resp.error.Some? then Some([]) else resp.data
  }

  /** The row `addComment` inserts. */
  datatype CommentInsert = CommentInsert(videoId: string, userId: string, content: string)

  /** `addComment(videoId, userId, content)`: an error is rethrown
      (`Failure`), otherwise the inserted row comes back. */
  function AddComment(videoId: string, userId: string, content: string,
                      backend: CommentInsert -> Response<CommentRow>): (r: Result<Option<CommentRow>, ApiError>)
    ensures var resp := backend(CommentInsert(videoId, userId, content));
      && (resp.error.Some? ==> r == Failure(resp.error.value))
      && (resp.error.None? ==> r == Success(resp.data))
  {
    var resp := backend(CommentInsert(videoId, userId, content));
    if resp.error.Some? then Failure(resp.error.value) else Success(resp.data)
  }

  /** A like: who liked which video. */
  datatype Like = Like(videoId: string, userId: string)

  /** The likes table after a successful toggle of `like`. */
  function ToggledLikes(likes: set<Like>, like: Like): (r: set<Like>)
    ensures like in r <==> like !in likes
    ensures r - {like} == likes - {like}
  {
    if like in likes then likes - {like} else likes + {like}
  }

  /** Two successful toggles of the same pair restore the table. */
  lemma ToggleLikesTwice(likes: set<Like>, like: Like)
    ensures ToggledLikes(ToggledLikes(likes, like), like) == likes
  {
  }

  /** The likes table, as the toggle sees it. */
  class LikesTable {
    var likes: set<Like>

    constructor (initial: set<Like>)
      ensures likes == initial
    {
      likes := initial;
    }

    /** `likeVideo(videoId, userId)`: look the pair up, then delete it if it
        was found and insert it otherwise. A failed lookup reads as "not
        found" (only the data of that query is inspected). A failed write
        leaves the table as it was and is rethrown; a successful one reports
        whether the pair is now liked. */
    method LikeVideo(videoId: string, userId: string, lookupFailed: bool, writeError: Option<ApiError>)
      returns (r: Result<bool, ApiError>)
      modifies this
      ensures var like := Like(videoId, userId);
        var found := !lookupFailed && like in old(likes);
        && (writeError.Some? ==> likes == old(likes) && r == Failure(writeError.value))
        && (writeError.None? && found ==> likes == old(likes) - {like} && r == Success(false))
        && (writeError.None? && !found ==> likes == old(likes) + {like} && r == Success(true))
      ensures r.Success? ==> (r.value <==> Like(videoId, userId) in likes)
    {
      var like := Like(videoId, userId);
      var existing := !lookupFailed && like in likes;
      if existing {
        if writeError.Some? {
          return Failure(writeError.value);
        }
        likes := likes - {like};
        return Success(false);
      } else {
        if writeError.Some? {
          return Failure(writeError.value);
        }
        likes := likes + {like};
        return Success(true);
      }
    }
  }

  /** With working lookups, a successful call is exactly `ToggledLikes`. */
  method LikeVideoToggles(table: LikesTable, videoId: string, userId: string)
    modifies table
    ensures table.likes == ToggledLikes(old(table.likes), Like(videoId, userId))
  {
    var r := table.LikeVideo(videoId, userId, false, None);
  }
}
