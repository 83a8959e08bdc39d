/**
 * Concrete runs of the sequence engine, driven the way the studio drives it:
 * each change of the current index, the playing flag or the URL map is
 * followed by one run of the engine effect (Activate), and each animation frame
 * by one Tick with the surface's position and natural duration.
 */
module Scenarios {
  import opened Wrappers
  import opened ClipSettings
  import opened Sequencer

  /**
   * Three segments, clips for segments 1 and 2 only, segment 1 trimmed to
   * [1 s, 3 s] with a cut: playback starts on segment 1 at 1 s, cuts to
   * segment 2 at 3 s (segment 0 is never visited) and stops when segment 2
   * reaches its natural end.
   */
  method TrimmedClipCutsToNext() returns (visited: seq<nat>, startedAt: real)
    ensures visited == [1, 2] && startedAt == 1.0
  {
    var p := LoadTrimmedScript();
    p.PlaySequence();
    p.Activate();
    visited, startedAt := [p.currentIndex], p.surface.position;
    assert p.active == Some(Clip(1.0, 3.0, Cut, 0.0));

    p.Tick(2.9, Some(6.0));
    assert p.currentIndex == 1 && !p.isTransitioning;
    p.Tick(3.0, Some(6.0));
    assert p.isPlaying && p.currentIndex == 2;

    p.Activate();
    visited := visited + [p.currentIndex];
    assert p.active == Some(Default);
    p.Tick(6.0, Some(6.0));
    assert p.Stopped();
  }

  /** The studio state of the scenario above before Play Sequence is pressed. */
  method LoadTrimmedScript() returns (p: SequencePlayer)
    ensures fresh(p) && p.Valid() && p.hasResult && p.segmentCount == 3
    ensures p.urls == map[1 := "blob:clip-1", 2 := "blob:clip-2"]
    ensures p.store[1] == Clip(1.0, 3.0, Cut, 0.0) && p.store[2] == Default
    ensures !p.isPlaying && !p.isTransitioning && p.active == None
  {
    p := new SequencePlayer();
    p.ScriptLoaded(3);
    p.ClipReady(1, "blob:clip-1");
    p.ClipReady(2, "blob:clip-2");
    p.EditClip(1, SetTrimStart(1.0));
    p.EditClip(1, SetTrimEnd(3.0));
  }

  /**
   * One segment with a fading clip of 8 s and no trim end: the overlay comes on
   * at 7.5 s, and at 8 s the sequence stops with the overlay off.
   */
  method FadeOnLastClip() returns (overlayAt7: bool, overlayAt7Half: bool, playingAfterEnd: bool, overlayAfterEnd: bool)
    ensures !overlayAt7 && overlayAt7Half && !playingAfterEnd && !overlayAfterEnd
  {
    var p := new SequencePlayer();
    p.ScriptLoaded(1);
    p.ClipReady(0, "blob:clip-0");
    p.EditClip(0, SetTransition(Fade));

    p.PlaySequence();
    p.Activate();
    assert p.surface.position == 0.0;

    p.Tick(7.0, Some(8.0));
    overlayAt7 := p.isTransitioning;
    p.Tick(7.5, Some(8.0));
    overlayAt7Half := p.isTransitioning;
    p.Tick(8.0, Some(8.0));
    playingAfterEnd, overlayAfterEnd := p.isPlaying, p.isTransitioning;
  }

  /**
   * Editing the trim end of the clip that is playing does not move its end:
   * the engine keeps the settings it captured when the clip started.
   */
  method EditWhilePlayingKeepsCapturedEnd() returns (indexAfterOldEnd: nat)
    ensures indexAfterOldEnd == 1
  {
    var p := new SequencePlayer();
    p.ScriptLoaded(2);
    p.ClipReady(0, "blob:clip-0");
    p.ClipReady(1, "blob:clip-1");
    p.EditClip(0, SetTrimEnd(3.0));

    p.PlaySequence();
    p.Activate();
    p.EditClip(0, SetTrimEnd(5.0));
    p.Tick(3.0, Some(8.0));
    indexAfterOldEnd := p.currentIndex;
  }

  /**
   * A thumbnail's play button pressed inside the fade window of a playing clip:
   * as written, the sequence stops but the fade overlay stays on over the clip
   * the user picked, also after the engine effect has run again; with the
   * correction it goes off.
   */
  method OverlayAfterThumbnailSelect() returns (overlayAsWritten: bool, overlayCorrected: bool)
    ensures overlayAsWritten && !overlayCorrected
  {
    var p := new SequencePlayer();
    p.ScriptLoaded(2);
    p.ClipReady(0, "blob:clip-0");
    p.ClipReady(1, "blob:clip-1");
    p.EditClip(0, SetTransition(Fade));
    p.PlaySequence();
    p.Activate();
    p.Tick(7.6, Some(8.0));
    assert p.isTransitioning;

    p.SelectClipAsWritten(1);
    assert !p.isPlaying && !p.OverlayOnlyWhilePlaying();
    p.Activate();
    overlayAsWritten := p.isTransitioning;

    var q := new SequencePlayer();
    q.ScriptLoaded(2);
    q.ClipReady(0, "blob:clip-0");
    q.ClipReady(1, "blob:clip-1");
    q.EditClip(0, SetTransition(Fade));
    q.PlaySequence();
    q.Activate();
    q.Tick(7.6, Some(8.0));
    q.SelectClip(1);
    overlayCorrected := q.isTransitioning;
  }
}
