// The play-queue controller of the audio context provider
// (src/contexts/audioContext.tsx): a list of snap ids, an index into it, the
// snap being played and the play/pause flag. Each callback is one sequential
// transition on the provider's state cells. Results of the network and of the
// Web Audio pipeline are parameters: `pick` is what the popular-snap request
// chose, `load` is what fetching the snap and starting its audio produced.
module AudioQueue {
  import opened JsText

  /** The parts of a fetched snap this model needs. */
  datatype Snap = Snap(id: int, streamUrl: string)

  /** What `loadSnapById` obtained: the fetch failed (the error is logged and
      nothing changes), or the snap arrived and its audio did or did not start. */
  datatype LoadOutcome = FetchFailed | Fetched(snap: Snap, audioStarted: bool)

  /** The playback cells that loading a snap writes. */
  datatype Playback = Playback(snapId: Option<int>, snap: Option<Snap>, playing: bool, hasSource: bool)

  /** The effect of `loadSnapById(id)`: on a successful fetch the current snap
      and its id are set; once the audio starts, a source exists and playback is on. */
  function Loaded(p: Playback, id: int, load: LoadOutcome): (r: Playback)
    ensures load.FetchFailed? ==> r == p
    ensures load.Fetched? ==> r.snapId == Some(id) && r.snap == Some(load.snap)
    ensures load.Fetched? && load.audioStarted ==> r.playing && r.hasSource
    ensures load.Fetched? && !load.audioStarted ==> r.playing == p.playing && r.hasSource == p.hasSource
  {
    match load
    case FetchFailed => p
    case Fetched(s, started) =>
      Playback(Some(id), Some(s), if started then true else p.playing, if started then true else p.hasSource)
  }

  /** `Array.prototype.indexOf`: the first position of `x`, or -1. */
  function IndexOf(s: seq<int>, x: int): (r: int)
    ensures -1 <= r < |s|
    ensures r == -1 <==> x !in s
    ensures r >= 0 ==> s[r] == x && x !in s[..r]
  {
    if s == [] then -1
    else if s[0] == x then 0
    else
      var k := IndexOf(s[1..], x);
      if k == -1 then -1
      else
        assert s[..k + 1] == [s[0]] + s[1..][..k];
        k + 1
  }

  /** `queue.filter(id => id !== x)`. */
  function Without(s: seq<int>, x: int): (r: seq<int>)
    ensures |r| <= |s|
    ensures forall y :: y in r <==> y in s && y != x
  {
    if s == [] then []
    else if s[0] == x then Without(s[1..], x)
    else [s[0]] + Without(s[1..], x)
  }

  /** Filtering distributes over concatenation; with the singleton cases this
      says the surviving ids keep their relative order. */
  lemma {:induction false} WithoutAppend(a: seq<int>, b: seq<int>, x: int)
    ensures Without(a + b, x) == Without(a, x) + Without(b, x)
  {
    if a != [] {
      assert (a + b)[0] == a[0] && (a + b)[1..] == a[1..] + b;
      WithoutAppend(a[1..], b, x);
    } else {
      assert a + b == b;
    }
  }

  /** Every id other than `x` occurs in the filtered queue as often as before. */
  lemma {:induction false} WithoutCounts(s: seq<int>, x: int, y: int)
    requires y != x
    ensures multiset(Without(s, x))[y] == multiset(s)[y]
    ensures multiset(Without(s, x))[x] == 0
  {
    if s != [] {
      WithoutCounts(s[1..], x, y);
      assert s == [s[0]] + s[1..];
    }
  }

  class AudioPlayer {
    var queue: seq<int>
    var currentIndex: int
    var currentSnapId: Option<int>
    var currentSnap: Option<Snap>
    var isPlaying: bool
    var hasSource: bool
    var autoPlayEnabled: bool

    /** The index is never below -1 (its initial value), and a current snap id
        is set together with the current snap. */
    ghost predicate Valid()
      reads this
    {
      currentIndex >= -1 && (currentSnapId.Some? <==> currentSnap.Some?)
    }

    function Now(): Playback
      reads this
    {
      Playback(currentSnapId, currentSnap, isPlaying, hasSource)
    }

    constructor ()
      ensures Valid()
      ensures queue == [] && currentIndex == -1 && currentSnapId == None && currentSnap == None
      ensures !isPlaying && !hasSource && autoPlayEnabled
    {
      queue := [];
      currentIndex := -1;
      currentSnapId := None;
      currentSnap := None;
      isPlaying := false;
      hasSource := false;
      autoPlayEnabled := true;
    }

    method TogglePlayPause()
      modifies this
      ensures isPlaying == !old(isPlaying)
      ensures queue == old(queue) && currentIndex == old(currentIndex)
      ensures currentSnapId == old(currentSnapId) && currentSnap == old(currentSnap)
      ensures hasSource == old(hasSource) && autoPlayEnabled == old(autoPlayEnabled)
    {
      if isPlaying {
        isPlaying := false;
      } else {
        isPlaying := true;
      }
    }

    method SetAutoPlayEnabled(enabled: bool)
      modifies this`autoPlayEnabled
      ensures autoPlayEnabled == enabled
    {
      autoPlayEnabled := enabled;
    }

    method AddToQueue(id: int)
      requires Valid()
      modifies this`queue
      ensures Valid()
      ensures queue == old(queue) + [id]
    {
      queue := queue + [id];
    }

    method AddAllToQueue(ids: seq<int>)
      requires Valid()
      modifies this`queue
      ensures Valid()
      ensures queue == old(queue) + ids
    {
      queue := queue + ids;
    }

    method LoadSnapById(id: int, load: LoadOutcome)
      requires Valid()
      modifies this`currentSnapId, this`currentSnap, this`isPlaying, this`hasSource
      ensures Valid()
      ensures Now() == Loaded(old(Now()), id, load)
    {
      match load {
        case FetchFailed =>
        case Fetched(snap, started) =>
          currentSnap := Some(snap);
          currentSnapId := Some(id);
          if started {
            hasSource := true;
            isPlaying := true;
          }
      }
    }

    /** Plays the entry after the current one; at the end of the queue, with
        autoplay on and a truthy recommended id, appends that id and plays it. */
    method PlayNext(pick: Option<int>, load: LoadOutcome)
      requires Valid()
      modifies this
      ensures Valid()
      ensures autoPlayEnabled == old(autoPlayEnabled)
      ensures old(currentIndex) < |old(queue)| - 1 ==>
        queue == old(queue) && currentIndex == old(currentIndex) + 1 &&
        0 <= currentIndex < |queue| &&
        Now() == Loaded(old(Now()), queue[currentIndex], load)
      ensures old(currentIndex) >= |old(queue)| - 1 && old(autoPlayEnabled) && pick.Some? && pick.value != 0 ==>
        queue == old(queue) + [pick.value] && currentIndex == |old(queue)| &&
        queue[currentIndex] == pick.value &&
        Now() == Loaded(old(Now()), pick.value, load)
      ensures old(currentIndex) >= |old(queue)| - 1 && (!old(autoPlayEnabled) || pick == None || pick == Some(0)) ==>
        queue == old(queue) && currentIndex == old(currentIndex) && Now() == old(Now())
    {
      if currentIndex < |queue| - 1 {
        var nextIndex := currentIndex + 1;
        var nextSnapId := queue[nextIndex];
        currentIndex := nextIndex;
        LoadSnapById(nextSnapId, load);
      } else if autoPlayEnabled {
        if pick.Some? && pick.value != 0 {
          var length := |queue|;
          AddToQueue(pick.value);
          currentIndex := length;
          LoadSnapById(pick.value, load);
        }
      }
    }

    /** The audio source's `onended` handler: playback stops, then the next
        entry is played as by `PlayNext`. */
    method TrackEnded(pick: Option<int>, load: LoadOutcome)
      requires Valid()
      modifies this
      ensures Valid()
      ensures old(currentIndex) >= |old(queue)| - 1 && old(autoPlayEnabled) && pick.Some? && pick.value != 0 ==>
        queue == old(queue) + [pick.value] && currentIndex == |old(queue)| &&
        Now() == Loaded(old(Now()).(playing := false), pick.value, load)
      ensures old(currentIndex) < |old(queue)| - 1 ==>
        queue == old(queue) && currentIndex == old(currentIndex) + 1 &&
        Now() == Loaded(old(Now()).(playing := false), queue[currentIndex], load)
      ensures old(currentIndex) >= |old(queue)| - 1 && (!old(autoPlayEnabled) || pick == None || pick == Some(0)) ==>
        queue == old(queue) && currentIndex == old(currentIndex) && Now() == old(Now()).(playing := false)
      ensures autoPlayEnabled == old(autoPlayEnabled)
    {
      isPlaying := false;
      PlayNext(pick, load);
    }

    /** Drops every occurrence of `id`; when it is the snap being played, the
        next entry is played. The index is not adjusted to the shorter queue. */
    method RemoveFromQueue(id: int, pick: Option<int>, load: LoadOutcome)
      requires Valid()
      modifies this
      ensures Valid()
      ensures old(currentSnapId) != Some(id) ==>
        queue == Without(old(queue), id) && currentIndex == old(currentIndex) && Now() == old(Now())
      ensures old(currentSnapId) == Some(id) && old(currentIndex) < |Without(old(queue), id)| - 1 ==>
        queue == Without(old(queue), id) && currentIndex == old(currentIndex) + 1 &&
        Now() == Loaded(old(Now()), queue[currentIndex], load)
      ensures old(currentSnapId) == Some(id) && old(currentIndex) >= |Without(old(queue), id)| - 1 &&
              old(autoPlayEnabled) && pick.Some? && pick.value != 0 ==>
        queue == Without(old(queue), id) + [pick.value] && currentIndex == |Without(old(queue), id)| &&
        Now() == Loaded(old(Now()), pick.value, load)
      ensures old(currentSnapId) == Some(id) && old(currentIndex) >= |Without(old(queue), id)| - 1 &&
              (!old(autoPlayEnabled) || pick == None || pick == Some(0)) ==>
        queue == Without(old(queue), id) && currentIndex == old(currentIndex) && Now() == old(Now())
      ensures autoPlayEnabled == old(autoPlayEnabled)
    {
      queue := Without(queue, id);
      if currentSnapId == Some(id) {
        PlayNext(pick, load);
      }
    }

    /** Empties the queue and stops playback. */
    method ClearQueue()
      modifies this
      ensures Valid()
      ensures queue == [] && currentIndex == -1
      ensures currentSnapId == None && currentSnap == None
      ensures !hasSource && !isPlaying
      ensures autoPlayEnabled == old(autoPlayEnabled)
    {
      queue := [];
      currentSnapId := None;
      currentSnap := None;
      currentIndex := -1;
      hasSource := false;
      isPlaying := false;
    }

    /** Plays the entry before the current one, if there is one. */
    method PlayPrevious(load: LoadOutcome)
      requires Valid()
      modifies this
      ensures Valid()
      ensures queue == old(queue) && autoPlayEnabled == old(autoPlayEnabled)
      ensures 0 < old(currentIndex) <= |old(queue)| ==>
        currentIndex == old(currentIndex) - 1 && 0 <= currentIndex < |queue| &&
        Now() == Loaded(old(Now()), queue[currentIndex], load)
      ensures old(currentIndex) > |old(queue)| ==> currentIndex == old(currentIndex) - 1 && Now() == old(Now())
      ensures old(currentIndex) <= 0 ==> currentIndex == old(currentIndex) && Now() == old(Now())
    {
      if currentIndex > 0 && currentIndex - 1 < |queue| {
        var prevIndex := currentIndex - 1;
        var prevSnapId := queue[prevIndex];
        currentIndex := prevIndex;
        LoadSnapById(prevSnapId, load);
      } else if currentIndex > 0 {
        // The index lies past the end of a queue that shrank: the entry read
        // is undefined and fetching it fails, so only the index moves.
        currentIndex := currentIndex - 1;
      }
    }

    /** Plays `id`: jumps to its first occurrence, or appends it and jumps there. */
    method PlaySnapById(id: int, load: LoadOutcome)
      requires Valid()
      modifies this
      ensures Valid()
      ensures id in old(queue) ==>
        queue == old(queue) && currentIndex == IndexOf(old(queue), id)
      ensures id !in old(queue) ==>
        queue == old(queue) + [id] && currentIndex == |old(queue)|
      ensures 0 <= currentIndex < |queue| && queue[currentIndex] == id
      ensures id !in queue[..currentIndex]
      ensures Now() == Loaded(old(Now()), id, load)
      ensures autoPlayEnabled == old(autoPlayEnabled)
    {
      var index := IndexOf(queue, id);
      if index != -1 {
        currentIndex := index;
        LoadSnapById(id, load);
      } else {
        var length := |queue|;
        AddToQueue(id);
        currentIndex := length;
        assert queue[..currentIndex] == old(queue);
        LoadSnapById(id, load);
      }
    }

    /** Replaces the queue by the single snap `id` and plays it. */
    method PlaySnap(id: int, load: LoadOutcome)
      requires Valid()
      modifies this
      ensures Valid()
      ensures queue == [id] && currentIndex == 0
      ensures Now() == Loaded(old(Now()), id, load)
      ensures autoPlayEnabled == old(autoPlayEnabled)
    {
      queue := [id];
      currentIndex := 0;
      LoadSnapById(id, load);
    }
  }
}
