/**
 * The clip-sequence playback engine of the studio editor
 * (components/GeneratorModal.tsx): one video surface is driven through the
 * segments that have a generated clip, in segment order, honouring each clip's
 * trim bounds and signalling a fade overlay just before a clip ends.
 *
 * The pure part (which index comes next, what one run of the engine effect
 * decides) is written as functions; the engine itself is the class
 * SequencePlayer, whose fields are the component's state variables.
 */
module Sequencer {
  import opened Wrappers
  import opened ClipSettings

  type Url = string

  /** The clip URL map, keyed by segment index. */
  type Urls = map<nat, Url>

  /** Length of the fade window before a clip's effective end, in seconds. */
  const FadeWindow: real := 0.5

  /** `videoUrls[i]` is truthy: there is a URL for segment `i` and it is not empty. */
  predicate HasUrl(urls: Urls, i: nat)
  {
    i in urls && urls[i] != ""
  }

  /**
   * The forward scan: the first index at or after `from` that has a URL, or,
   * when there is none below `segmentCount`, the point where the scan gives up
   * (`segmentCount`, or `from` itself when it already starts past the end).
   */
  function ScanFrom(urls: Urls, from: nat, segmentCount: nat): (j: nat)
    decreases segmentCount - from
    ensures from <= j
    ensures j < segmentCount ==> HasUrl(urls, j)
    ensures j == from || j <= segmentCount
    ensures forall k :: from <= k < j ==> !HasUrl(urls, k)
  {
    if from >= segmentCount || HasUrl(urls, from) then from else ScanFrom(urls, from + 1, segmentCount)
  }

  /**
   * The engine's `while` loop that steps past segments without a URL: it stops
   * where the forward scan does.
   */
  method NextWithUrl(urls: Urls, from: nat, segmentCount: nat) returns (next: nat)
    ensures next == ScanFrom(urls, from, segmentCount)
  {
    next := from;
    while next < segmentCount && !HasUrl(urls, next)
      invariant from <= next
      invariant ScanFrom(urls, next, segmentCount) == ScanFrom(urls, from, segmentCount)
      decreases segmentCount - next
    {
      next := next + 1;
    }
  }

  /**
   * `findIndex` over the segments: the smallest segment index that has a URL,
   * or -1 when no segment has one.
   */
  function FirstWithUrl(urls: Urls, segmentCount: nat): (r: int)
    ensures r == -1 <==> forall k :: 0 <= k < segmentCount ==> !HasUrl(urls, k)
    ensures r != -1 ==> 0 <= r < segmentCount && HasUrl(urls, r)
    ensures r != -1 ==> forall k :: 0 <= k < r ==> !HasUrl(urls, k)
  {
    var j := ScanFrom(urls, 0, segmentCount);
    if j < segmentCount then j else -1
  }

  /**
   * The end of a clip as the engine sees it: the trim end when one is set,
   * otherwise the clip's natural duration (None while the surface has not
   * loaded the clip's metadata, where JavaScript has NaN).
   */
  function EffectiveEnd(clip: Clip, natural: Option<real>): Option<real>
  {
    if clip.trimEnd > 0.0 then Some(clip.trimEnd) else natural
  }

  /** The playing clip has reached its effective end. */
  predicate ClipEnded(clip: Clip, natural: Option<real>, position: real)
  {
    var end := EffectiveEnd(clip, natural);
    end.Some? && position >= end.value
  }

  /** The position lies in the fade window of a clip whose transition is a fade. */
  predicate InFadeWindow(clip: Clip, natural: Option<real>, position: real)
  {
    var end := EffectiveEnd(clip, natural);
    clip.transition == Fade && end.Some? && position >= end.value - FadeWindow
  }

  /** What one run of the engine effect decides for the current index. */
  datatype Activation =
    | Advance(next: nat)  // no URL or no settings here: move on by one
    | Halt                // no URL or no settings here, and this is the last segment
    | Start(clip: Clip)   // play this clip with these settings

  function ActivationAt(urls: Urls, store: Store, segmentCount: nat, index: nat): (a: Activation)
    ensures a.Advance? ==> a.next == index + 1 && a.next < segmentCount
    ensures !a.Start? ==> a == (if index + 1 < segmentCount then Advance(index + 1) else Halt)
    ensures a.Start? <==> HasUrl(urls, index) && index in store
    ensures a.Start? ==> a.clip == store[index]
  {
    if !HasUrl(urls, index) || index !in store then
      if index + 1 < segmentCount then Advance(index + 1) else Halt
    else
      Start(store[index])
  }

  /** Where a chain of engine runs that starts at `index` comes to rest. */
  datatype Landing = LandsOn(index: nat, clip: Clip) | Stops

  function Settle(urls: Urls, store: Store, segmentCount: nat, index: nat): Landing
    decreases segmentCount - index
  {
    match ActivationAt(urls, store, segmentCount, index)
    case Advance(next) => Settle(urls, store, segmentCount, next)
    case Halt => Stops
    case Start(clip) => LandsOn(index, clip)
  }

  /**
   * With a seeded store (a record for every segment and no other), stepping one
   * index at a time from `index` lands on the first index at or after `index`
   * that has a URL, with that index's settings, or stops when there is none.
   */
  lemma {:induction false} SettleFindsNextClip(urls: Urls, store: Store, segmentCount: nat, index: nat)
    requires forall i: nat :: i in store <==> i < segmentCount
    decreases segmentCount - index
    ensures var j := ScanFrom(urls, index, segmentCount);
            Settle(urls, store, segmentCount, index) == if j < segmentCount then LandsOn(j, store[j]) else Stops
  {
    match ActivationAt(urls, store, segmentCount, index)
    case Advance(next) =>
      SettleFindsNextClip(urls, store, segmentCount, next);
    case Halt =>
    case Start(clip) =>
  }

  /** A clip whose transition is a cut never raises the fade overlay. */
  lemma CutNeverFades(clip: Clip, natural: Option<real>, position: real)
    requires clip.transition == Cut
    ensures !InFadeWindow(clip, natural, position)
  {
  }

  /** The video element the engine drives. */
  datatype Surface = Surface(src: Url, position: real, paused: bool)

  class SequencePlayer {
    /** A generated script is present (`result` is not null). */
    var hasResult: bool
    /** `result.segments.length`. */
    var segmentCount: nat
    /** `videoUrls`. */
    var urls: Urls
    /** `clipSettings`. */
    var store: Store
    /** `isPlayingSequence`. */
    var isPlaying: bool
    /** `currentSequenceIndex`. */
    var currentIndex: nat
    /** `isTransitioning`: the fade overlay is shown. */
    var isTransitioning: bool
    /**
     * The settings captured by the frame loop of the current engine run, or None
     * when no frame is scheduled.
     */
    var active: Option<Clip>
    /** The studio's video element. */
    var surface: Surface

    /** A frame loop runs only while the sequence plays. */
    ghost predicate LoopOnlyWhilePlaying()
      reads this
    {
      active.Some? ==> isPlaying
    }

    /** The fade overlay is shown only while the sequence plays. */
    ghost predicate OverlayOnlyWhilePlaying()
      reads this
    {
      isTransitioning ==> isPlaying
    }

    /** The settings store holds one record per segment and no other. */
    ghost predicate Seeded()
      reads this
    {
      forall i: nat :: i in store <==> i < segmentCount
    }

    /**
     * What every operation needs and keeps, including the thumbnail button as
     * written.
     */
    ghost predicate Coherent()
      reads this
    {
      LoopOnlyWhilePlaying() && Seeded()
    }

    /** The full player invariant, which the thumbnail button as written can break. */
    ghost predicate Valid()
      reads this
    {
      Coherent() && OverlayOnlyWhilePlaying()
    }

    /** The state `stopSequence` leaves behind. */
    ghost predicate Stopped()
      reads this
    {
      !isPlaying && !isTransitioning && active.None? && surface.paused
    }

    /** The modal before any script exists. */
    constructor ()
      ensures Valid() && Stopped()
      ensures !hasResult && segmentCount == 0 && urls == map[] && store == map[]
      ensures currentIndex == 0
    {
      hasResult, segmentCount := false, 0;
      urls, store := map[], map[];
      isPlaying, currentIndex, isTransitioning := false, 0, false;
      active := None;
      surface := Surface("", 0.0, true);
    }

    /**
     * A script with `count` segments arrives: the clip URLs were reset when its
     * generation began, and the settings store is seeded. The URL reset ends the
     * current frame loop; the sequence flags are left as they were.
     */
    method ScriptLoaded(count: nat)
      requires Coherent()
      modifies this
      ensures Coherent() && (old(Valid()) ==> Valid())
      ensures hasResult && segmentCount == count && urls == map[] && store == Seed(count)
      ensures active == None
      ensures isPlaying == old(isPlaying) && currentIndex == old(currentIndex)
      ensures isTransitioning == old(isTransitioning) && surface == old(surface)
    {
      urls := map[];
      hasResult, segmentCount := true, count;
      store := Seed(count);
      active := None;
    }

    /**
     * A clip generation for `index` has resolved with `url`. The URL map is a
     * dependency of the engine effect, so the current frame loop ends.
     */
    method ClipReady(index: nat, url: Url)
      requires Coherent()
      modifies this
      ensures Coherent() && (old(Valid()) ==> Valid())
      ensures urls == old(urls)[index := url] && active == None
      ensures hasResult == old(hasResult) && segmentCount == old(segmentCount) && store == old(store)
      ensures isPlaying == old(isPlaying) && currentIndex == old(currentIndex)
      ensures isTransitioning == old(isTransitioning) && surface == old(surface)
    {
      urls := urls[index := url];
      active := None;
    }

    /**
     * A thumbnail's metadata reports the clip's real duration. Only the store
     * changes: the clip that is playing keeps the settings it started with.
     */
    method MetadataLoaded(index: nat, duration: real)
      requires Coherent()
      modifies this
      ensures Coherent() && (old(Valid()) ==> Valid())
      ensures store == RecordDuration(old(store), index, duration)
      ensures active == old(active) && surface == old(surface)
      ensures hasResult == old(hasResult) && segmentCount == old(segmentCount) && urls == old(urls)
      ensures isPlaying == old(isPlaying) && currentIndex == old(currentIndex)
      ensures isTransitioning == old(isTransitioning)
    {
      store := RecordDuration(store, index, duration);
    }

    /**
     * The user edits a trim bound or the transition of segment `index`. The
     * settings store is not a dependency of the engine effect, so the clip in
     * motion keeps the settings captured when it started.
     */
    method EditClip(index: nat, e: Edit)
      requires Coherent()
      modifies this
      ensures Coherent() && (old(Valid()) ==> Valid())
      ensures store == ApplyEdit(old(store), index, e)
      ensures active == old(active) && surface == old(surface)
      ensures hasResult == old(hasResult) && segmentCount == old(segmentCount) && urls == old(urls)
      ensures isPlaying == old(isPlaying) && currentIndex == old(currentIndex)
      ensures isTransitioning == old(isTransitioning)
    {
      store := ApplyEdit(store, index, e);
    }

    /**
     * "Preview Full Video": starts at the first segment that has a clip. Without a
     * script, or without any clip, nothing changes. The engine effect (and so the
     * frame loop) restarts only when the index or the playing flag changes.
     */
    method PlaySequence()
      requires Coherent()
      modifies this
      ensures Coherent() && (old(Valid()) ==> Valid())
      ensures var first := FirstWithUrl(urls, segmentCount);
        if !hasResult || first == -1 then
          unchanged(this)
        else
          && isPlaying && currentIndex == first && !isTransitioning
          && active == (if old(isPlaying) && old(currentIndex) == first then old(active) else None)
          && surface == old(surface)
      ensures hasResult == old(hasResult) && segmentCount == old(segmentCount)
      ensures urls == old(urls) && store == old(store)
    {
      if !hasResult {
        return;
      }
      var first := FirstWithUrl(urls, segmentCount);
      if first == -1 {
        return;
      }
      if first != currentIndex || !isPlaying {
        active := None;
      }
      currentIndex, isPlaying, isTransitioning := first, true, false;
    }

    /**
     * Halts the sequence and pauses the surface, keeping the current index.
     * Stopping a stopped player changes nothing.
     */
    method StopSequence()
      requires Coherent()
      modifies this
      ensures Valid() && Stopped()
      ensures old(Stopped()) ==> unchanged(this)
      ensures currentIndex == old(currentIndex)
      ensures surface == old(surface).(paused := true)
      ensures hasResult == old(hasResult) && segmentCount == old(segmentCount)
      ensures urls == old(urls) && store == old(store)
    {
      isPlaying, isTransitioning := false, false;
      active := None;
      surface := surface.(paused := true);
    }

    /**
     * One run of the engine effect, which the runtime performs after any change
     * of the current index, the playing flag or the URL map (the previous run's
     * frame loop having been cancelled). While playing, an index without a URL
     * or settings moves on by one (or stops at the last segment); otherwise the
     * surface loads the clip, seeks to its trim start and plays, and a frame
     * loop starts with the settings of this moment.
     */
    method Activate()
      requires Coherent()
      modifies this
      ensures Coherent() && (old(Valid()) ==> Valid())
      ensures hasResult == old(hasResult) && segmentCount == old(segmentCount)
      ensures urls == old(urls) && store == old(store)
      ensures !old(isPlaying) || !hasResult ==>
        && active == None && isPlaying == old(isPlaying) && currentIndex == old(currentIndex)
        && isTransitioning == old(isTransitioning) && surface == old(surface)
      ensures old(isPlaying) && hasResult ==>
        match ActivationAt(urls, store, segmentCount, old(currentIndex))
        case Advance(next) =>
          && isPlaying && currentIndex == next && active == None
          && isTransitioning == old(isTransitioning) && surface == old(surface)
        case Halt =>
          Stopped() && currentIndex == old(currentIndex) && surface == old(surface).(paused := true)
        case Start(clip) =>
          && isPlaying && currentIndex == old(currentIndex) && active == Some(clip)
          && isTransitioning == old(isTransitioning)
          && surface == Surface(urls[currentIndex], clip.trimStart, false)
    {
      active := None;
      if !isPlaying || !hasResult {
        return;
      }
      if !HasUrl(urls, currentIndex) || currentIndex !in store {
        var next := currentIndex + 1;
        if next < segmentCount {
          currentIndex := next;
        } else {
          StopSequence();
        }
        return;
      }
      var clip := store[currentIndex];
      surface := Surface(urls[currentIndex], clip.trimStart, false);
      active := Some(clip);
    }

    /**
     * One animation frame of the engine's loop, given the surface's current
     * position and its natural duration. Inside the fade window of a fading clip
     * the overlay comes on; at the effective end the scan moves to the next
     * segment with a URL (overlay off, loop over) or the sequence stops. Before
     * the end only the overlay flag can change. Only the settings captured at
     * activation are consulted, never the store.
     */
    method Tick(position: real, natural: Option<real>)
      requires Coherent()
      modifies this
      ensures Coherent() && (old(Valid()) ==> Valid())
      ensures hasResult == old(hasResult) && segmentCount == old(segmentCount)
      ensures urls == old(urls) && store == old(store)
      ensures old(active).None? ==> unchanged(this)
      ensures old(active).Some? && !ClipEnded(old(active).value, natural, position) ==>
        && isPlaying && currentIndex == old(currentIndex) && active == old(active)
        && surface == old(surface)
        && isTransitioning == (old(isTransitioning) || InFadeWindow(old(active).value, natural, position))
      ensures old(active).Some? && ClipEnded(old(active).value, natural, position) ==>
        var next := ScanFrom(urls, old(currentIndex) + 1, segmentCount);
        && active == None && !isTransitioning
        && (next < segmentCount ==> isPlaying && currentIndex == next && surface == old(surface))
        && (next >= segmentCount ==>
              Stopped() && currentIndex == old(currentIndex) && surface == old(surface).(paused := true))
      ensures isPlaying && currentIndex != old(currentIndex) ==> currentIndex > old(currentIndex)
    {
      if active.None? {
        return;
      }
      var clip := active.value;
      var end := EffectiveEnd(clip, natural);
      if clip.transition == Fade && end.Some? && position >= end.value - FadeWindow {
        isTransitioning := true;
      }
      if end.Some? && position >= end.value {
        var next := NextWithUrl(urls, currentIndex + 1, segmentCount);
        if next < segmentCount {
          currentIndex := next;
          isTransitioning := false;
        } else {
          StopSequence();
        }
        active := None;
      }
    }

    /**
     * The play button on a thumbnail, as written: the surface plays that clip
     * from its start, the sequence stops and the index moves to `index`, but the
     * fade overlay flag is left as it was.
     */
    method SelectClipAsWritten(index: nat)
      requires Coherent()
      requires HasUrl(urls, index)
      modifies this
      ensures Coherent()
      ensures !isPlaying && currentIndex == index && active == None
      ensures isTransitioning == old(isTransitioning)
      ensures hasResult == old(hasResult) && segmentCount == old(segmentCount)
      ensures urls == old(urls) && store == old(store)
      ensures surface == Surface(urls[index], 0.0, false)
    {
      surface := Surface(urls[index], 0.0, false);
      isPlaying := false;
      currentIndex := index;
      active := None;
    }

    /**
     * The play button on a thumbnail, corrected: as above, and the fade overlay
     * is cleared as every other way of leaving the sequence clears it.
     */
    method SelectClip(index: nat)
      requires Coherent()
      requires HasUrl(urls, index)
      modifies this
      ensures Valid()
      ensures !isPlaying && !isTransitioning && currentIndex == index && active == None
      ensures hasResult == old(hasResult) && segmentCount == old(segmentCount)
      ensures urls == old(urls) && store == old(store)
      ensures surface == Surface(urls[index], 0.0, false)
    {
      surface := Surface(urls[index], 0.0, false);
      isPlaying, isTransitioning := false, false;
      currentIndex := index;
      active := None;
    }
  }
}
