/** The web home page (app/pages/HomePage.js): hosts the feed and opens the
    comments panel for the video an `open-comments` event names. */
module HomePage {
  import opened Wrappers

  /** The properties handed to the comments panel. */
  datatype PanelProps = PanelProps(videoId: Option<string>, isOpen: bool)

  class Page {
    var commentsOpen: bool
    var currentVideoId: Option<string>

    /** A closed panel has no video. */
    ghost predicate Valid()
      reads this
    {
      !commentsOpen ==> currentVideoId == None
    }

    /** The intended initial state (the constructor omits `super()`). */
    constructor ()
      ensures !commentsOpen && currentVideoId == None
      ensures Valid()
    {
      commentsOpen := false;
      currentVideoId := None;
    }

    /** `open-comments`: the event's video id (possibly missing) becomes
        current and the panel opens. */
    method OpenComments(videoId: Option<string>)
      modifies this
      ensures commentsOpen && currentVideoId == videoId
      ensures Valid()
    {
      currentVideoId := videoId;
      commentsOpen := true;
    }

    /** `close-comments`: the panel closes and forgets its video. */
    method CloseComments()
      modifies this
      ensures !commentsOpen && currentVideoId == None
      ensures Valid()
    {
      commentsOpen := false;
      currentVideoId := None;
    }

    /** The panel sees exactly the page's two fields. */
    function Panel(): (p: PanelProps)
      reads this
      ensures p.videoId == currentVideoId && p.isOpen == commentsOpen
      ensures Valid() && !p.isOpen ==> p.videoId == None
    {
      PanelProps(currentVideoId, commentsOpen)
    }
  }

  /** Opening and closing again returns the page to its initial state,
      whatever video was opened. */
  method OpenThenClose(page: Page, videoId: Option<string>)
    modifies page
    ensures !page.commentsOpen && page.currentVideoId == None
    ensures page.Panel() == PanelProps(None, false)
  {
    page.OpenComments(videoId);
    page.CloseComments();
  }
}
