/** The comment sheet (app/components/CommentsPanel.js): loading the comments
    of a video behind an `isLoading` guard, optimistic posting of a comment
    under a temporary id, and the relative-time labels.

    Each handler that awaits the backend is split at its `await`: the first
    method is what runs synchronously on the user's action, the second is the
    continuation run when the result (or the failure) arrives. Times are
    milliseconds since the epoch. */
module CommentsPanel {
  import opened Wrappers
  import JsText
  import Subsequences

  datatype CommentUser = CommentUser(username: string, profilePicture: Option<string>)

  datatype Comment = Comment(id: string, content: string, createdAt: int, user: CommentUser)

  /** What the load continuation receives: the fetched list, or an error
      thrown while the fetch was being set up. */
  datatype LoadOutcome = Loaded(comments: seq<Comment>) | LoadThrew

  /** The id given to a comment typed at time `now`. */
  function TempId(now: nat): (r: string)
    ensures JsText.StartsWith(r, "temp-")
  {
    "temp-" + JsText.DecimalString(now)
  }

  /** Comments typed at different times get different temporary ids. */
  lemma TempIdInjective(m: nat, n: nat)
    requires TempId(m) == TempId(n)
    ensures m == n
  {
    assert JsText.DecimalString(m) == TempId(m)[5..];
    assert JsText.DecimalString(n) == TempId(n)[5..];
    JsText.DecimalInjective(m, n);
  }

  /** The placeholder shown while a comment is being posted. */
  function TempComment(now: nat, text: string): (r: Comment)
    ensures r.id == TempId(now) && r.content == text && r.createdAt == now
  {
    Comment(TempId(now), text, now, CommentUser("testuser", None))
  }

  /** The fallback list used when loading throws. */
  function MockComments(now: int): (r: seq<Comment>)
    ensures |r| == 2 && r[0].id == "1" && r[1].id == "2"
    ensures r[0].createdAt == now && r[1].createdAt == now - 3600000
  {
    [ Comment("1", "와 정말 멋져요! 👏", now, CommentUser("user1", None)),
      Comment("2", "대박이네요 ㅋㅋㅋ", now - 3600000, CommentUser("user2", None)) ]
  }

  /** `comments.map(c => c.id === id ? replacement : c)`. */
  function ReplaceById(cs: seq<Comment>, id: string, replacement: Comment): (r: seq<Comment>)
    ensures |r| == |cs|
    ensures forall i :: 0 <= i < |cs| ==> r[i] == (if cs[i].id == id then replacement else cs[i])
  {
    if cs == [] then []
    else [if cs[0].id == id then replacement else cs[0]] + ReplaceById(cs[1..], id, replacement)
  }

  /** `comments.filter(c => c.id !== id)`. */
  function RemoveById(cs: seq<Comment>, id: string): (r: seq<Comment>)
    ensures |r| <= |cs|
    ensures forall i :: 0 <= i < |r| ==> r[i].id != id && r[i] in cs
  {
    if cs == [] then []
    else if cs[0].id == id then RemoveById(cs[1..], id)
    else [cs[0]] + RemoveById(cs[1..], id)
  }

  /** Every comment with another id survives the removal, as often as
      before and in its order. */
  lemma {:induction false} RemoveByIdKeepsOthers(cs: seq<Comment>, id: string)
    ensures Subsequences.IsSubsequence(RemoveById(cs, id), cs)
    ensures forall c: Comment :: c.id != id ==> multiset(RemoveById(cs, id))[c] == multiset(cs)[c]
  {
    if cs != [] {
      var rest := RemoveById(cs[1..], id);
      RemoveByIdKeepsOthers(cs[1..], id);
      assert cs == [cs[0]] + cs[1..];
      if cs[0].id == id {
        Subsequences.SubsequenceDropHead(rest, cs);
      } else {
        assert ([cs[0]] + rest)[1..] == rest;
      }
    }
  }

  predicate HasId(cs: seq<Comment>, id: string) {
    exists i :: 0 <= i < |cs| && cs[i].id == id
  }

  /** Removing an id that the list does not hold changes nothing. */
  lemma {:induction false} RemoveAbsentId(cs: seq<Comment>, id: string)
    requires !HasId(cs, id)
    ensures RemoveById(cs, id) == cs
  {
    if cs != [] {
      assert !HasId(cs[1..], id) by {
        forall i | 0 <= i < |cs[1..]| ensures cs[1..][i].id != id {
          assert cs[1..][i] == cs[i + 1];
        }
      }
      RemoveAbsentId(cs[1..], id);
    }
  }

  /** Rolling back a failed post restores the list as it was before the
      post, provided the temporary id was not already in use. */
  lemma RollbackRestores(temp: Comment, cs: seq<Comment>)
    requires !HasId(cs, temp.id)
    ensures RemoveById([temp] + cs, temp.id) == cs
  {
    assert ([temp] + cs)[1..] == cs;
    RemoveAbsentId(cs, temp.id);
  }

  /** Confirming a post puts the server's comment where the placeholder was
      and leaves every other comment where it was. */
  lemma ConfirmReplacesInPlace(temp: Comment, cs: seq<Comment>, saved: Comment)
    requires !HasId(cs, temp.id)
    ensures ReplaceById([temp] + cs, temp.id, saved) == [saved] + cs
  {
    var r := ReplaceById([temp] + cs, temp.id, saved);
    forall i | 1 <= i < |r| ensures r[i] == cs[i - 1] {
      assert ([temp] + cs)[i] == cs[i - 1];
    }
  }

  /** How long ago something happened, in the panel's coarsest fitting unit. */
  datatype Age = JustNow | MinutesAgo(minutes: int) | HoursAgo(hours: int) | DaysAgo(days: int)

  /** The bucket for a difference of `diff` milliseconds (`formatTime`). A
      date in the future counts as just now. */
  function AgeOf(diff: int): (r: Age)
    ensures r.JustNow? <==> diff < 60000
    ensures r.MinutesAgo? ==> 1 <= r.minutes < 60 && r.minutes * 60000 <= diff < (r.minutes + 1) * 60000
    ensures r.HoursAgo? ==> 1 <= r.hours < 24 && r.hours * 3600000 <= diff < (r.hours + 1) * 3600000
    ensures r.DaysAgo? ==> 1 <= r.days && r.days * 86400000 <= diff < (r.days + 1) * 86400000
    ensures r.MinutesAgo? <==> 60000 <= diff < 3600000
    ensures r.HoursAgo? <==> 3600000 <= diff < 86400000
  {
    if diff < 60000 then JustNow
    else if diff < 3600000 then MinutesAgo(diff / 60000)
    else if diff < 86400000 then HoursAgo(diff / 3600000)
    else DaysAgo(diff / 86400000)
  }

  /** The label text for an age. */
  function AgeLabel(a: Age): string {
    match a
    case JustNow => "방금"
    case MinutesAgo(m) => JsText.DecimalString(if m < 0 then 0 else m) + "분 전"
    case HoursAgo(h) => JsText.DecimalString(if h < 0 then 0 else h) + "시간 전"
    case DaysAgo(d) => JsText.DecimalString(if d < 0 then 0 else d) + "일 전"
  }

  /** `formatTime(createdAt)` evaluated at time `now`: "just now" exactly
      below one minute, otherwise the whole number of minutes, hours or
      days elapsed, in the first unit whose next step is not reached. */
  function FormatTime(createdAt: int, now: int): (r: string)
    ensures r == "방금" <==> now - createdAt < 60000
    ensures 60000 <= now - createdAt < 3600000 ==>
      r == JsText.DecimalString((now - createdAt) / 60000) + "분 전"
    ensures 3600000 <= now - createdAt < 86400000 ==>
      r == JsText.DecimalString((now - createdAt) / 3600000) + "시간 전"
    ensures 86400000 <= now - createdAt ==>
      r == JsText.DecimalString((now - createdAt) / 86400000) + "일 전"
  {
    AgeLabelJustNow(AgeOf(now - createdAt));
    AgeLabel(AgeOf(now - createdAt))
  }

  /** Only the first bucket reads "방금": every other label starts with a
      digit. */
  lemma AgeLabelJustNow(a: Age)
    ensures AgeLabel(a) == "방금" <==> a.JustNow?
  {
    if !a.JustNow? {
      var n := match a
        case MinutesAgo(m) => m
        case HoursAgo(h) => h
        case DaysAgo(d) => d
        case JustNow => 0;
      var digits := JsText.DecimalString(if n < 0 then 0 else n);
      assert AgeLabel(a)[0] == digits[0];
      assert JsText.IsDigitChar(digits[0]) && !JsText.IsDigitChar('방');
    }
  }

  /** An older comment never shows a smaller age: the buckets are ordered. */
  lemma AgeMonotone(d1: int, d2: int)
    requires d1 <= d2
    ensures AgeRank(AgeOf(d1)) <= AgeRank(AgeOf(d2))
  {
    if 60000 <= d1 && d2 < 3600000 {
      assert (d1 / 60000) * 60000 <= d1 <= d2 < (d2 / 60000 + 1) * 60000;
    } else if 3600000 <= d1 && d2 < 86400000 {
      assert (d1 / 3600000) * 3600000 <= d1 <= d2 < (d2 / 3600000 + 1) * 3600000;
    } else if 86400000 <= d1 {
      assert (d1 / 86400000) * 86400000 <= d1 <= d2 < (d2 / 86400000 + 1) * 86400000;
    }
  }

  /** Position of an age on one scale of milliseconds (lower bound of its bucket). */
  function AgeRank(a: Age): int {
    match a
    case JustNow => 0
    case MinutesAgo(m) => m * 60000
    case HoursAgo(h) => h * 3600000
    case DaysAgo(d) => d * 86400000
  }

  class Panel {
    var videoId: string
    var isOpen: bool
    var comments: seq<Comment>
    var isLoading: bool
    var commentText: string
    var currentUserId: string

    constructor ()
      ensures videoId == "" && !isOpen && comments == [] && !isLoading
      ensures commentText == "" && currentUserId == "test-user-1"
    {
      videoId := "";
      isOpen := false;
      comments := [];
      isLoading := false;
      commentText := "";
      currentUserId := "test-user-1";
    }

    /** `loadComments` up to its `await`: returns at once while a load is
        in flight, otherwise raises `isLoading` and starts the fetch. */
    method BeginLoadComments() returns (started: bool)
      modifies this`isLoading
      ensures started <==> !old(isLoading)
      ensures isLoading
    {
      if isLoading {
        return false;
      }
      isLoading := true;
      started := true;
    }

    /** The rest of `loadComments`: take the fetched list, or fall back to
        the two mock comments if setting up the fetch threw; `isLoading` is
        cleared on both paths. */
    method FinishLoadComments(outcome: LoadOutcome, now: int)
      modifies this`comments, this`isLoading
      ensures !isLoading
      ensures comments == match outcome
        case Loaded(cs) => cs
        case LoadThrew => MockComments(now)
    {
      match outcome {
        case Loaded(cs) =>
          comments := cs;
        case LoadThrew =>
          LoadMockComments(now);
      }
      isLoading := false;
    }

    /** `loadMockComments`. */
    method LoadMockComments(now: int)
      modifies this`comments
      ensures comments == MockComments(now)
    {
      comments := MockComments(now);
    }

    /** `addComment` up to its `await`: a blank draft does nothing; any
        other draft goes to the top of the list under a temporary id and the
        input is cleared. The temporary id is returned to the continuation. */
    method AddComment(now: nat) returns (tempId: Option<string>)
      modifies this`comments, this`commentText
      ensures JsText.Trim(old(commentText)) == [] ==>
        tempId == None && comments == old(comments) && commentText == old(commentText)
      ensures JsText.Trim(old(commentText)) != [] ==>
        && tempId == Some(TempId(now))
        && comments == [TempComment(now, old(commentText))] + old(comments)
        && commentText == ""
    {
      if JsText.Trim(commentText) == [] {
        return None;
      }
      var temp := TempComment(now, commentText);
      comments := [temp] + comments;
      commentText := "";
      tempId := Some(temp.id);
    }

    /** The `comment-added` continuation: the server's record replaces the
        placeholder wherever it now is. */
    method CommentAdded(tempId: string, saved: Comment)
      modifies this`comments
      ensures comments == ReplaceById(old(comments), tempId, saved)
    {
      comments := ReplaceById(comments, tempId, saved);
    }

    /** The `catch` continuation: the placeholder is dropped. */
    method CommentFailed(tempId: string)
      modifies this`comments
      ensures comments == RemoveById(old(comments), tempId)
    {
      comments := RemoveById(comments, tempId);
    }
  }

  /** A post followed directly by its failure leaves the list as it was
      (given the temporary id is not already in the list). */
  method PostThenFail(panel: Panel, now: nat)
    requires !HasId(panel.comments, TempId(now))
    modifies panel
    ensures panel.comments == old(panel.comments)
  {
    var tempId := panel.AddComment(now);
    if tempId.Some? {
      panel.CommentFailed(tempId.value);
      RollbackRestores(TempComment(now, old(panel.commentText)), old(panel.comments));
    }
  }

  /** A post followed directly by its confirmation shows the saved comment
      on top and the earlier comments unchanged below it. */
  method PostThenConfirm(panel: Panel, now: nat, saved: Comment)
    requires !HasId(panel.comments, TempId(now))
    requires JsText.Trim(panel.commentText) != []
    modifies panel
    ensures panel.comments == [saved] + old(panel.comments)
    ensures panel.commentText == ""
  {
    var tempId := panel.AddComment(now);
    panel.CommentAdded(tempId.value, saved);
    ConfirmReplacesInPlace(TempComment(now, old(panel.commentText)), old(panel.comments), saved);
  }
}
