/** The upload form (app/pages/UploadPage.js): file choice, description with
    the hashtags found in it, three switches, and the upload that validates
    the form and resets it afterwards. Alerts are returned as their text; the
    preview URL and the outcome of the (mock) upload are parameters. */
module UploadPage {
  import opened Wrappers
  import JsText

  datatype VideoFile = VideoFile(name: string, mimeType: string)

  const PickVideoAlert := "비디오 파일을 선택해주세요"
  const MissingInputAlert := "비디오와 설명을 모두 입력해주세요"
  const UploadedAlert := "비디오가 성공적으로 업로드되었습니다!"
  const UploadFailedAlert := "업로드 중 오류가 발생했습니다"

  /** A character of `[\w가-힣]`: ASCII letter, digit, underscore, or a
      precomposed Hangul syllable (U+AC00 to U+D7A3). */
  predicate IsTagChar(c: char) {
    || ('A' <= c <= 'Z') || ('a' <= c <= 'z') || ('0' <= c <= '9') || c == '_'
    || ('가' <= c <= '힣')
  }

  /** A non-empty word made of tag characters only. */
  predicate IsTagWord(t: string) {
    |t| >= 1 && forall i :: 0 <= i < |t| ==> IsTagChar(t[i])
  }

  /** Length of the run of tag characters at the start of `s`. */
  function TagRunLength(s: string): (n: nat)
    ensures n <= |s|
    ensures forall i :: 0 <= i < n ==> IsTagChar(s[i])
    ensures n < |s| ==> !IsTagChar(s[n])
  {
    if s != [] && IsTagChar(s[0]) then 1 + TagRunLength(s[1..]) else 0
  }

  /** A `#` at position `p` directly followed by a tag character: where the
      pattern `#[\w가-힣]+` can start. */
  predicate HashTagAt(s: string, p: int) {
    0 <= p < |s| - 1 && s[p] == '#' && IsTagChar(s[p + 1])
  }

  /** One match of the pattern: the `#` at `at` and the tag after it. */
  datatype TagMatch = TagMatch(at: nat, tag: string)

  /** `m` is a match in `s`: a `#` followed by a run of tag characters that
      cannot be extended (the text ends, or a non-tag character follows). */
  predicate MatchesAt(s: string, m: TagMatch) {
    && m.at + 1 + |m.tag| <= |s|
    && s[m.at] == '#'
    && IsTagWord(m.tag)
    && s[m.at + 1..m.at + 1 + |m.tag|] == m.tag
    && (m.at + 1 + |m.tag| == |s| || !IsTagChar(s[m.at + 1 + |m.tag|]))
  }

  /** Moves matches found in a suffix starting at `d` to positions in the
      whole text. */
  function Shift(ms: seq<TagMatch>, d: nat): seq<TagMatch> {
    seq(|ms|, k requires 0 <= k < |ms| => TagMatch(ms[k].at + d, ms[k].tag))
  }

  lemma MatchShift(s: string, d: nat, m: TagMatch)
    requires d <= |s| && MatchesAt(s[d..], m)
    ensures MatchesAt(s, TagMatch(m.at + d, m.tag))
  {
    var e := m.at + 1 + |m.tag|;
    assert s[d..][m.at] == s[m.at + d];
    assert s[d..][m.at + 1..e] == s[m.at + d + 1..e + d];
    if e < |s[d..]| {
      assert s[d..][e] == s[e + d];
    }
  }

  lemma ShiftMatches(s: string, d: nat, ms: seq<TagMatch>)
    requires d <= |s|
    requires AllMatch(s[d..], ms)
    ensures AllMatch(s, Shift(ms, d))
  {
    forall k | 0 <= k < |ms|
      ensures MatchesAt(s, Shift(ms, d)[k])
    {
      MatchShift(s, d, ms[k]);
    }
  }

  /** Every element of `ms` is a match in `s`. */
  predicate AllMatch(s: string, ms: seq<TagMatch>) {
    forall k :: 0 <= k < |ms| ==> MatchesAt(s, ms[k])
  }

  /** The matches come in text order and do not overlap. */
  predicate InTextOrder(ms: seq<TagMatch>) {
    forall k, j :: 0 <= k < j < |ms| ==> ms[k].at + 1 + |ms[k].tag| <= ms[j].at
  }

  lemma ShiftInTextOrder(ms: seq<TagMatch>, d: nat)
    requires InTextOrder(ms)
    ensures InTextOrder(Shift(ms, d))
  {
    var r := Shift(ms, d);
    forall k, j | 0 <= k < j < |r|
      ensures r[k].at + 1 + |r[k].tag| <= r[j].at
    {
      assert r[k].at == ms[k].at + d && r[j].at == ms[j].at + d && r[k].tag == ms[k].tag;
    }
  }

  /** A match found after the first run, put behind the first match, keeps
      the text order. */
  lemma PrependInTextOrder(first: TagMatch, rest: seq<TagMatch>, d: nat)
    requires first.at + 1 + |first.tag| <= d
    requires InTextOrder(rest)
    ensures InTextOrder([first] + Shift(rest, d))
  {
    ShiftInTextOrder(rest, d);
    var r := [first] + Shift(rest, d);
    forall k, j | 0 <= k < j < |r|
      ensures r[k].at + 1 + |r[k].tag| <= r[j].at
    {
      if k == 0 {
        assert r[j] == Shift(rest, d)[j - 1];
      } else {
        assert r[k] == Shift(rest, d)[k - 1] && r[j] == Shift(rest, d)[j - 1];
      }
    }
  }

  /** A match starts where the pattern can start. */
  lemma MatchStartsAtHash(s: string, m: TagMatch)
    requires MatchesAt(s, m)
    ensures HashTagAt(s, m.at)
  {
    assert s[m.at + 1..m.at + 1 + |m.tag|][0] == s[m.at + 1];
  }

  /** The first match of a text that starts with `#` and a tag character,
      followed by the matches found after its run, satisfy both
      properties. */
  lemma MatchThenRest(s: string, n: nat, rest: seq<TagMatch>)
    requires HashTagAt(s, 0) && n == TagRunLength(s[1..])
    requires AllMatch(s[1 + n..], rest) && InTextOrder(rest)
    ensures AllMatch(s, [TagMatch(0, s[1..1 + n])] + Shift(rest, 1 + n))
    ensures InTextOrder([TagMatch(0, s[1..1 + n])] + Shift(rest, 1 + n))
  {
    var first := TagMatch(0, s[1..1 + n]);
    assert MatchesAt(s, first) by {
      assert s[1..][..n] == s[1..1 + n];
    }
    ShiftMatches(s, 1 + n, rest);
    PrependInTextOrder(first, rest, 1 + n);
    var ms := [first] + Shift(rest, 1 + n);
    forall k | 0 <= k < |ms|
      ensures MatchesAt(s, ms[k])
    {
      if k > 0 {
        assert ms[k] == Shift(rest, 1 + n)[k - 1];
      }
    }
  }

  /** `description.match(/#[\w가-힣]+/g)`: scanning left to right, a `#`
      directly followed by a tag character starts a match that takes the
      longest run of tag characters after it, and the scan resumes after
      that run; any other character is skipped. */
  function HashtagMatches(s: string): seq<TagMatch>
    decreases |s|
  {
    if s == [] then []
    else if HashTagAt(s, 0) then
      var n := TagRunLength(s[1..]);
      [TagMatch(0, s[1..1 + n])] + Shift(HashtagMatches(s[1 + n..]), 1 + n)
    else
      Shift(HashtagMatches(s[1..]), 1)
  }

  /** Every match found is a `#` followed by a maximal run of tag
      characters, and the matches come in text order without overlapping. */
  lemma {:induction false} HashtagMatchesSound(s: string)
    ensures AllMatch(s, HashtagMatches(s))
    ensures InTextOrder(HashtagMatches(s))
    decreases |s|
  {
    if s == [] {
    } else if HashTagAt(s, 0) {
      var n := TagRunLength(s[1..]);
      HashtagMatchesSound(s[1 + n..]);
      MatchThenRest(s, n, HashtagMatches(s[1 + n..]));
    } else {
      var rest := HashtagMatches(s[1..]);
      HashtagMatchesSound(s[1..]);
      ShiftMatches(s, 1, rest);
      ShiftInTextOrder(rest, 1);
    }
  }

  /** The scan at a `#` followed by a tag character. */
  lemma HashtagMatchesAtHash(s: string)
    requires HashTagAt(s, 0)
    ensures var n := TagRunLength(s[1..]);
      HashtagMatches(s) == [TagMatch(0, s[1..1 + n])] + Shift(HashtagMatches(s[1 + n..]), 1 + n)
  {
    assert s != [];
  }

  /** The scan at any other character. */
  lemma HashtagMatchesElsewhere(s: string)
    requires s != [] && !HashTagAt(s, 0)
    ensures HashtagMatches(s) == Shift(HashtagMatches(s[1..]), 1)
  {
  }

  /** No place where the pattern can start: no match (the `|| []`). */
  lemma NoHashTagNoMatch(s: string)
    ensures (forall p :: !HashTagAt(s, p)) ==> HashtagMatches(s) == []
  {
    var ms := HashtagMatches(s);
    if ms != [] {
      HashtagMatchesSound(s);
      assert MatchesAt(s, ms[0]);
      MatchStartsAtHash(s, ms[0]);
    }
  }

  /** Some match in `ms` starts at position `p`. */
  predicate HasMatchAt(ms: seq<TagMatch>, p: int) {
    exists k :: 0 <= k < |ms| && ms[k].at == p
  }

  lemma ShiftHasMatchAt(ms: seq<TagMatch>, d: nat, p: int)
    requires HasMatchAt(ms, p)
    ensures HasMatchAt(Shift(ms, d), p + d)
  {
    var k :| 0 <= k < |ms| && ms[k].at == p;
    assert Shift(ms, d)[k].at == p + d;
  }

  lemma PrependHasMatchAt(m: TagMatch, ms: seq<TagMatch>, p: int)
    requires HasMatchAt(ms, p)
    ensures HasMatchAt([m] + ms, p)
  {
    var k :| 0 <= k < |ms| && ms[k].at == p;
    assert ([m] + ms)[k + 1] == ms[k];
  }

  /** Every place where the pattern can start is the start of a match: a
      `#` is never a tag character, so no run swallows one. */
  lemma {:induction false} HashtagMatchesComplete(s: string, p: int)
    requires HashTagAt(s, p)
    ensures HasMatchAt(HashtagMatches(s), p)
    decreases |s|
  {
    if HashTagAt(s, 0) {
      var n := TagRunLength(s[1..]);
      HashtagMatchesAtHash(s);
      var first := TagMatch(0, s[1..1 + n]);
      var rest := HashtagMatches(s[1 + n..]);
      if p == 0 {
        assert ([first] + Shift(rest, 1 + n))[0].at == p;
      } else {
        HashAfterRun(s, p);
        HashTagInSuffix(s, 1 + n, p);
        HashtagMatchesComplete(s[1 + n..], p - 1 - n);
        ShiftHasMatchAt(rest, 1 + n, p - 1 - n);
        PrependHasMatchAt(first, Shift(rest, 1 + n), p);
      }
    } else {
      HashtagMatchesElsewhere(s);
      HashTagInSuffix(s, 1, p);
      HashtagMatchesComplete(s[1..], p - 1);
      ShiftHasMatchAt(HashtagMatches(s[1..]), 1, p - 1);
    }
  }

  /** A second place where the pattern can start lies beyond the run of the
      first, since `#` is not a tag character. */
  lemma HashAfterRun(s: string, p: int)
    requires HashTagAt(s, 0) && HashTagAt(s, p) && p != 0
    ensures p > TagRunLength(s[1..])
  {
    var n := TagRunLength(s[1..]);
    forall i | 1 <= i <= n
      ensures s[i] != '#'
    {
      assert s[i] == s[1..][i - 1];
    }
  }

  lemma HashTagInSuffix(s: string, d: nat, p: int)
    requires HashTagAt(s, p) && d <= p
    ensures HashTagAt(s[d..], p - d)
  {
    assert s[d..][p - d] == s[p];
    assert s[d..][p - d + 1] == s[p + 1];
  }

  /** The tags of some matches, in the same order. */
  function Tags(ms: seq<TagMatch>): (r: seq<string>)
    ensures |r| == |ms|
    ensures forall k :: 0 <= k < |r| ==> r[k] == ms[k].tag
  {
    seq(|ms|, k requires 0 <= k < |ms| => ms[k].tag)
  }

  lemma TagsOfShift(ms: seq<TagMatch>, d: nat)
    ensures Tags(Shift(ms, d)) == Tags(ms)
  {
  }

  lemma TagsOfPrepend(m: TagMatch, ms: seq<TagMatch>)
    ensures Tags([m] + ms) == [m.tag] + Tags(ms)
  {
    var a, b := Tags([m] + ms), [m.tag] + Tags(ms);
    forall k | 0 <= k < |a|
      ensures a[k] == b[k]
    {
      if k > 0 {
        assert ([m] + ms)[k] == ms[k - 1];
      }
    }
  }

  /** `.map(tag => tag.substring(1))`: the tags of the matches, in order of
      occurrence, without their `#`; no place where the pattern can start
      gives no tags. */
  function ExtractHashtags(s: string): (r: seq<string>)
    ensures |r| == |HashtagMatches(s)|
    ensures forall k :: 0 <= k < |r| ==> r[k] == HashtagMatches(s)[k].tag
    ensures forall k :: 0 <= k < |r| ==> IsTagWord(r[k]) && '#' !in r[k]
    ensures (forall p :: !HashTagAt(s, p)) ==> r == []
  {
    var ms := HashtagMatches(s);
    HashtagMatchesSound(s);
    TagWordsHaveNoHash(s, ms);
    NoHashTagNoMatch(s);
    Tags(ms)
  }

  lemma TagWordsHaveNoHash(s: string, ms: seq<TagMatch>)
    requires AllMatch(s, ms)
    ensures forall k :: 0 <= k < |ms| ==> IsTagWord(ms[k].tag) && '#' !in ms[k].tag
  {
    forall k | 0 <= k < |ms|
      ensures IsTagWord(ms[k].tag) && '#' !in ms[k].tag
    {
      assert MatchesAt(s, ms[k]);
      TagWordHasNoHash(ms[k].tag);
    }
  }

  /** `#` is not a tag character, so a tag word never contains one. */
  lemma TagWordHasNoHash(t: string)
    requires IsTagWord(t)
    ensures '#' !in t
  {
    forall i | 0 <= i < |t|
      ensures t[i] != '#'
    {
      assert IsTagChar(t[i]);
    }
  }

  /** Writes tags out as `#t1 #t2 ... ` (each followed by a space). */
  function HashtagText(tags: seq<string>): string {
    if tags == [] then "" else "#" + tags[0] + " " + HashtagText(tags[1..])
  }

  /** A run of tag characters stops at the first other character. */
  lemma {:induction false} TagRunOfWord(t: string, rest: string)
    requires forall i :: 0 <= i < |t| ==> IsTagChar(t[i])
    requires rest == [] || !IsTagChar(rest[0])
    ensures TagRunLength(t + rest) == |t|
  {
    if t != [] {
      assert (t + rest)[1..] == t[1..] + rest;
      TagRunOfWord(t[1..], rest);
    } else {
      assert t + rest == rest;
    }
  }

  /** One step of the scan over `#t rest`, where the run `t` stops at
      `rest`: the match yields `t` and the scan resumes at `rest`. */
  lemma ExtractHashtagsStep(t: string, rest: string)
    requires IsTagWord(t)
    requires rest == [] || !IsTagChar(rest[0])
    ensures ExtractHashtags("#" + t + rest) == [t] + ExtractHashtags(rest)
  {
    var s := "#" + t + rest;
    assert s[1..] == t + rest;
    TagRunOfWord(t, rest);
    assert HashTagAt(s, 0) by {
      assert s[1] == t[0];
    }
    assert s[1..1 + |t|] == t;
    assert s[1 + |t|..] == rest;
    HashtagMatchesAtHash(s);
    var ms := HashtagMatches(rest);
    TagsOfPrepend(TagMatch(0, t), Shift(ms, 1 + |t|));
    TagsOfShift(ms, 1 + |t|);
  }

  /** A character that cannot start a match is skipped: together with
      `ExtractHashtagsStep` this determines the tags of every text. */
  lemma ExtractHashtagsSkip(s: string)
    requires s != [] && !HashTagAt(s, 0)
    ensures ExtractHashtags(s) == ExtractHashtags(s[1..])
  {
    HashtagMatchesElsewhere(s);
    TagsOfShift(HashtagMatches(s[1..]), 1);
  }

  /** Reading the hashtags back out of `#t1 #t2 ... ` gives the tags back. */
  lemma {:induction false} ExtractHashtagText(tags: seq<string>)
    requires forall k :: 0 <= k < |tags| ==> IsTagWord(tags[k])
    ensures ExtractHashtags(HashtagText(tags)) == tags
  {
    if tags != [] {
      var t, tail := tags[0], HashtagText(tags[1..]);
      assert HashtagText(tags) == "#" + t + (" " + tail);
      ExtractHashtagsStep(t, " " + tail);
      assert (" " + tail)[1..] == tail;
      ExtractHashtagText(tags[1..]);
    }
  }

  /** `togglePrivacy`: 'public' becomes 'private', anything else 'public'. */
  function ToggledPrivacy(p: string): (r: string)
    ensures r == "public" || r == "private"
    ensures r == "private" <==> p == "public"
  {
    if p == "public" then "private" else "public"
  }

  /** Two toggles restore either of the two settings. */
  lemma TogglePrivacyTwice(p: string)
    requires p == "public" || p == "private"
    ensures ToggledPrivacy(ToggledPrivacy(p)) == p
  {
  }

  class Page {
    var selectedFile: Option<VideoFile>
    var videoPreviewUrl: Option<string>
    var description: string
    var hashtags: seq<string>
    var privacy: string
    var allowComments: bool
    var allowDuet: bool
    var isUploading: bool

    /** Every form field holds its initial value. */
    ghost predicate IsPristine()
      reads this
    {
      && selectedFile == None && videoPreviewUrl == None
      && description == "" && hashtags == []
      && privacy == "public" && allowComments && allowDuet
    }

    constructor ()
      ensures IsPristine() && !isUploading
    {
      selectedFile := None;
      videoPreviewUrl := None;
      description := "";
      hashtags := [];
      privacy := "public";
      allowComments := true;
      allowDuet := true;
      isUploading := false;
    }

    /** `handleFileSelect`: only a file whose MIME type starts with
        `video/` is taken (with `previewUrl` as its object URL); anything
        else, or no file, raises an alert and changes nothing. */
    method HandleFileSelect(file: Option<VideoFile>, previewUrl: string) returns (alert: Option<string>)
      modifies this`selectedFile, this`videoPreviewUrl
      ensures file.Some? && JsText.StartsWith(file.value.mimeType, "video/") ==>
        selectedFile == file && videoPreviewUrl == Some(previewUrl) && alert == None
      ensures !(file.Some? && JsText.StartsWith(file.value.mimeType, "video/")) ==>
        selectedFile == old(selectedFile) && videoPreviewUrl == old(videoPreviewUrl)
        && alert == Some(PickVideoAlert)
    {
      if file.Some? && JsText.StartsWith(file.value.mimeType, "video/") {
        selectedFile := file;
        videoPreviewUrl := Some(previewUrl);
        alert := None;
      } else {
        alert := Some(PickVideoAlert);
      }
    }

    /** `handleDescriptionChange`: the hashtags always follow the text. */
    method HandleDescriptionChange(value: string)
      modifies this`description, this`hashtags
      ensures description == value && hashtags == ExtractHashtags(value)
    {
      description := value;
      hashtags := ExtractHashtags(description);
    }

    method TogglePrivacy()
      modifies this`privacy
      ensures privacy == ToggledPrivacy(old(privacy))
    {
      privacy := if privacy == "public" then "private" else "public";
    }

    method ToggleComments()
      modifies this`allowComments
      ensures allowComments == !old(allowComments)
    {
      allowComments := !allowComments;
    }

    method ToggleDuet()
      modifies this`allowDuet
      ensures allowDuet == !old(allowDuet)
    {
      allowDuet := !allowDuet;
    }

    /** `uploadVideo` up to its `await`: without a file or with a blank
        description it alerts and stops before `isUploading` is raised. */
    method StartUpload() returns (started: bool, alert: Option<string>)
      modifies this`isUploading
      ensures started <==> selectedFile.Some? && JsText.Trim(description) != []
      ensures !started ==> alert == Some(MissingInputAlert) && isUploading == old(isUploading)
      ensures started ==> alert == None && isUploading
    {
      if selectedFile.None? || JsText.Trim(description) == [] {
        return false, Some(MissingInputAlert);
      }
      isUploading := true;
      started, alert := true, None;
    }

    /** The rest of `uploadVideo`: on success the form is reset and the app
        navigates home; on failure the form is kept. `isUploading` ends false
        on both paths. */
    method FinishUpload(failed: bool) returns (alert: string, navigateHome: bool)
      modifies this
      ensures !isUploading
      ensures !failed ==> IsPristine() && alert == UploadedAlert && navigateHome
      ensures failed ==> alert == UploadFailedAlert && !navigateHome
      ensures failed ==>
        && selectedFile == old(selectedFile) && videoPreviewUrl == old(videoPreviewUrl)
        && description == old(description) && hashtags == old(hashtags)
        && privacy == old(privacy) && allowComments == old(allowComments)
        && allowDuet == old(allowDuet)
    {
      if !failed {
        alert := UploadedAlert;
        selectedFile := None;
        videoPreviewUrl := None;
        description := "";
        hashtags := [];
        privacy := "public";
        allowComments := true;
        allowDuet := true;
        navigateHome := true;
      } else {
        alert := UploadFailedAlert;
        navigateHome := false;
      }
      isUploading := false;
    }
  }
}
