/** The web feed's player (app/components/VideoPlayer.js): a component that
    keeps `isPlaying`/`isMuted` flags and, once its `<video>` element has been
    found, drives that element's play state and sound. The element is a small
    class of its own, since the component changes it in place. */
module WebVideoPlayer {

  /** The parts of an HTML video element the player touches. `play()` is
      taken to succeed. */
  class VideoElement {
    var paused: bool
    var muted: bool
    var preload: string
    var playsInline: bool

    constructor (paused0: bool, muted0: bool)
      ensures paused == paused0 && muted == muted0
      ensures preload == "auto" && !playsInline
    {
      paused := paused0;
      muted := muted0;
      preload := "auto";
      playsInline := false;
    }

    method Play()
      modifies this`paused
      ensures !paused
    {
      paused := false;
    }

    method Pause()
      modifies this`paused
      ensures paused
    {
      paused := true;
    }
  }

  const MutedIcon := "🔇"
  const SoundIcon := "🔊"

  class Player {
    var videoUrl: string
    var isPlaying: bool
    var isMuted: bool
    var showControls: bool
    var videoRef: VideoElement?

    constructor ()
      ensures videoUrl == "" && isPlaying && !isMuted && !showControls && videoRef == null
    {
      videoUrl := "";
      isPlaying := true;
      isMuted := false;
      showControls := false;
      videoRef := null;
    }

    /** The mute flag describes the element: what the icon shows is what
        the element does. */
    ghost predicate MuteInSync()
      reads this, videoRef
    {
      videoRef != null ==> videoRef.muted == isMuted
    }

    /** `setupVideo` as written (after its timer): the element found (if
        any) is tuned, and when the player is meant to be playing it is
        muted and started so that autoplay is allowed. `isMuted` is left
        as it was. */
    method SetupVideoAsWritten(video: VideoElement?)
      modifies this`videoRef, video
      ensures videoRef == (if video == null then old(videoRef) else video)
      ensures video != null ==> video.preload == "metadata" && video.playsInline
      ensures video != null && isPlaying ==> video.muted && !video.paused
      ensures video != null && !isPlaying ==>
        video.muted == old(video.muted) && video.paused == old(video.paused)
      ensures isMuted == old(isMuted) && isPlaying == old(isPlaying)
    {
      if video != null {
        video.preload := "metadata";
        video.playsInline := true;
        if isPlaying {
          video.muted := true;
          video.Play();
        }
        videoRef := video;
      }
    }

    /** `setupVideo` with the mute flag kept in step: muting the element for
        autoplay also records `isMuted`. */
    method SetupVideo(video: VideoElement?)
      modifies this`videoRef, this`isMuted, video
      requires video != null && !isPlaying ==> video.muted == isMuted
      requires video == null ==> MuteInSync()
      ensures videoRef == (if video == null then old(videoRef) else video)
      ensures video != null ==> video.preload == "metadata" && video.playsInline
      ensures video != null && isPlaying ==> video.muted && isMuted && !video.paused
      ensures video != null && !isPlaying ==> isMuted == old(isMuted)
      ensures video == null ==> isMuted == old(isMuted)
      ensures isPlaying == old(isPlaying)
      ensures MuteInSync()
    {
      if video != null {
        video.preload := "metadata";
        video.playsInline := true;
        if isPlaying {
          video.muted := true;
          isMuted := true;
          video.Play();
        }
        videoRef := video;
      }
    }

    /** `togglePlay`: without an element nothing happens; otherwise the
        element is paused or started and the flag flips. */
    method TogglePlay()
      modifies this`isPlaying, videoRef
      ensures videoRef == null ==> isPlaying == old(isPlaying)
      ensures videoRef != null ==>
        isPlaying == !old(isPlaying) && videoRef.paused == !isPlaying
        && videoRef.muted == old(videoRef.muted)
        && videoRef.preload == old(videoRef.preload)
        && videoRef.playsInline == old(videoRef.playsInline)
    {
      if videoRef != null {
        if isPlaying {
          videoRef.Pause();
        } else {
          videoRef.Play();
        }
        isPlaying := !isPlaying;
      }
    }

    /** `toggleMute`: without an element nothing happens; otherwise the flag
        flips and the element takes the new value. */
    method ToggleMute()
      modifies this`isMuted, videoRef
      ensures videoRef == null ==> isMuted == old(isMuted)
      ensures videoRef != null ==> isMuted == !old(isMuted) && videoRef.muted == isMuted
      ensures videoRef != null ==> videoRef.paused == old(videoRef.paused)
      ensures MuteInSync()
    {
      if videoRef != null {
        isMuted := !isMuted;
        videoRef.muted := isMuted;
      }
    }

    /** The round play button is drawn exactly while the player is not
        playing. */
    function ShowsPlayOverlay(): (shown: bool)
      reads this
      ensures shown <==> !isPlaying
    {
      !isPlaying
    }

    /** The icon of the mute button. */
    function MuteIcon(): (icon: string)
      reads this
      ensures icon == MutedIcon <==> isMuted
      ensures icon == SoundIcon <==> !isMuted
    {
      if isMuted then MutedIcon else SoundIcon
    }
  }

  /** As written: a fresh player whose element starts with sound shows the
      sound icon while the element is muted, and the first press of the
      button leaves the element muted. */
  method MuteMismatchAsWritten(video: VideoElement) returns (player: Player)
    requires !video.muted
    modifies video
    ensures player.videoRef == video && fresh(player)
    ensures video.muted && player.MuteIcon() == SoundIcon
    ensures !player.MuteInSync()
  {
    player := new Player();
    player.SetupVideoAsWritten(video);
    assert video.muted;
  }

  /** As written, continued: pressing the sound icon once changes the icon
      but the element was muted before and is muted after. */
  method FirstMutePressAsWritten(video: VideoElement) returns (player: Player)
    requires !video.muted
    modifies video
    ensures player.videoRef == video && fresh(player)
    ensures video.muted && player.MuteIcon() == MutedIcon
  {
    player := MuteMismatchAsWritten(video);
    player.ToggleMute();
  }

  /** Corrected: after setup the icon matches the element, and the first
      press of the button turns the sound on. */
  method FirstMutePress(video: VideoElement) returns (player: Player)
    requires !video.muted
    modifies video
    ensures player.videoRef == video && fresh(player)
    ensures player.MuteInSync()
    ensures !video.muted && player.MuteIcon() == SoundIcon
  {
    player := new Player();
    player.SetupVideo(video);
    assert player.MuteIcon() == MutedIcon;
    player.ToggleMute();
  }
}
