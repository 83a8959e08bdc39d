/**
 * The per-clip settings store of the studio editor (components/GeneratorModal.tsx).
 *
 * Every segment index owns one record: where playback starts (trimStart), where it
 * ends (trimEnd, 0 meaning "the whole clip"), the transition into the next clip and
 * the real duration reported by the clip's metadata (0 while unknown). The store is
 * a map from segment index to record, replaced wholesale by each update, as React's
 * functional state updaters do.
 */
module ClipSettings {

  /** 'none' (shown as "None (Cut)") or 'fade' (shown as "Fade Black"). */
  datatype Transition = Cut | Fade

  datatype Clip = Clip(trimStart: real, trimEnd: real, transition: Transition, duration: real)

  type Store = map<nat, Clip>

  /** The record every segment starts with. */
  const Default: Clip := Clip(0.0, 0.0, Cut, 0.0)

  /**
   * The store built when a script arrives, one segment after another as the
   * forEach does: one default record per segment, nothing else.
   */
  function Seed(segmentCount: nat): (store: Store)
    ensures forall i: nat :: i in store <==> i < segmentCount
    ensures forall i :: i in store ==> store[i] == Default
  {
    if segmentCount == 0 then map[] else Seed(segmentCount - 1)[segmentCount - 1 := Default]
  }

  /** True when the record at `index` has not yet seen its clip's metadata. */
  predicate AwaitingMetadata(store: Store, index: nat)
  {
    index in store && store[index].duration == 0.0
  }

  /**
   * The metadata handler's updater: the first observation of a clip's duration
   * records it and makes it the trim end; once a duration is known (or when the
   * index has no record) the store is returned as it was.
   */
  function RecordDuration(store: Store, index: nat, duration: real): (r: Store)
    ensures r.Keys == store.Keys
    ensures forall j :: j in store && j != index ==> r[j] == store[j]
    ensures AwaitingMetadata(store, index) ==>
      && r[index].duration == duration
      && r[index].trimEnd == duration
      && r[index].trimStart == store[index].trimStart
      && r[index].transition == store[index].transition
    ensures !AwaitingMetadata(store, index) ==> r == store
  {
    if AwaitingMetadata(store, index) then
      store[index := store[index].(duration := duration, trimEnd := duration)]
    else
      store
  }

  /** One change made through the studio's three inputs. */
  datatype Edit = SetTrimStart(start: real) | SetTrimEnd(end: real) | SetTransition(kind: Transition)

  /** The record after one edit: a copy with one field replaced. */
  function Applied(c: Clip, e: Edit): (r: Clip)
    ensures r.duration == c.duration
  {
    match e
    case SetTrimStart(t) => c.(trimStart := t)
    case SetTrimEnd(t) => c.(trimEnd := t)
    case SetTransition(k) => c.(transition := k)
  }

  /**
   * Merges one edit into the record at `index`; no value is validated or clamped.
   * An index without a record is left alone (see README, "Left out").
   */
  function ApplyEdit(store: Store, index: nat, e: Edit): (r: Store)
    ensures r.Keys == store.Keys
    ensures forall j :: j in store && j != index ==> r[j] == store[j]
    ensures index in store ==>
      && r[index].duration == store[index].duration
      && (e.SetTrimStart? ==> r[index] == store[index].(trimStart := e.start))
      && (e.SetTrimEnd? ==> r[index] == store[index].(trimEnd := e.end))
      && (e.SetTransition? ==> r[index] == store[index].(transition := e.kind))
  {
    if index in store then store[index := Applied(store[index], e)] else store
  }

  /** Seeding gives every segment a record whose duration still awaits the metadata. */
  lemma SeedAwaitsMetadata(segmentCount: nat, index: nat)
    ensures AwaitingMetadata(Seed(segmentCount), index) <==> index < segmentCount
  {
  }

  /**
   * Only the first observation counts: once a non-zero duration has been recorded,
   * a later metadata event for the same index, whatever duration it reports,
   * leaves the store exactly as it is.
   */
  lemma {:induction false} SecondRecordingIsIgnored(store: Store, index: nat, first: real, second: real)
    requires first != 0.0
    ensures var once := RecordDuration(store, index, first);
            RecordDuration(once, index, second) == once
  {
    var once := RecordDuration(store, index, first);
    if AwaitingMetadata(store, index) {
      assert once[index].duration == first;
    }
    assert !AwaitingMetadata(once, index);
  }

  /** Recording the same duration twice is the same as recording it once. */
  lemma RecordDurationIdempotent(store: Store, index: nat, duration: real)
    ensures var once := RecordDuration(store, index, duration);
            RecordDuration(once, index, duration) == once
  {
  }

  /**
   * A trim end the user has edited after the metadata arrived survives any later
   * metadata event.
   */
  lemma EditedTrimEndSurvivesMetadata(store: Store, index: nat, end: real, duration: real)
    requires index in store && store[index].duration != 0.0
    ensures var edited := ApplyEdit(store, index, SetTrimEnd(end));
            RecordDuration(edited, index, duration)[index].trimEnd == end
  {
  }

  /**
   * A trim end the user edited before the clip's metadata arrived does not
   * survive: the metadata event tests only the duration, so it overwrites the
   * edited trim end with the reported duration (the trim start and transition
   * stay as edited).
   */
  lemma EarlyTrimEndIsOverwritten(store: Store, index: nat, end: real, duration: real)
    requires AwaitingMetadata(store, index)
    ensures var edited := ApplyEdit(store, index, SetTrimEnd(end));
            var recorded := RecordDuration(edited, index, duration)[index];
            && recorded.trimEnd == duration && recorded.duration == duration
            && recorded.trimStart == store[index].trimStart
            && recorded.transition == store[index].transition
  {
    var edited := ApplyEdit(store, index, SetTrimEnd(end));
    assert AwaitingMetadata(edited, index);
  }
}
