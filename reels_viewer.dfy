/**
 * The reels carousel: a fixed list of reels and the index of the one shown.
 * Next and previous step the index round the list; the progress bar has one
 * segment per reel and highlights the current one.
 */
module ReelsViewer {
  import Marks

  datatype Reel = Reel(id: nat, title: string, creator: string, likes: nat, gradient: string)

  const Reels: seq<Reel> := [
    Reel(1, "Sunset Anime Girl", "ArtistName1", 1234, "from-orange-400 via-red-400 to-pink-500"),
    Reel(2, "Moonlight Warrior", "ArtistName2", 987, "from-blue-400 via-purple-400 to-indigo-500"),
    Reel(3, "Cherry Blossom Dream", "ArtistName3", 2345, "from-pink-400 via-rose-400 to-red-400")
  ]

  /** `(prev + 1) % n`: one step forward, from the last index back to the first. */
  function NextIndex(i: nat, n: nat): (j: nat)
    requires i < n
    ensures j < n
    ensures j == if i == n - 1 then 0 else i + 1
  {
    (i + 1) % n
  }

  /** `(prev - 1 + n) % n`: one step back, from the first index round to the last. */
  function PrevIndex(i: nat, n: nat): (j: nat)
    requires i < n
    ensures j < n
    ensures j == if i == 0 then n - 1 else i - 1
  {
    (i - 1 + n) % n
  }

  /** Previous undoes next and next undoes previous. */
  lemma NextPrevRoundTrip(i: nat, n: nat)
    requires i < n
    ensures PrevIndex(NextIndex(i, n), n) == i
    ensures NextIndex(PrevIndex(i, n), n) == i
  {
  }

  /** Next taken `k` times. */
  function NextTimes(i: nat, n: nat, k: nat): (j: nat)
    requires i < n
    ensures j < n
  {
    if k == 0 then i else NextIndex(NextTimes(i, n, k - 1), n)
  }

  /** Within one lap, next taken `k` times moves `k` places on, wrapping past the end once. */
  lemma {:induction false} NextTimesWithinLap(i: nat, n: nat, k: nat)
    requires i < n && k <= n
    ensures NextTimes(i, n, k) == if i + k < n then i + k else i + k - n
  {
    if k > 0 {
      NextTimesWithinLap(i, n, k - 1);
    }
  }

  /** Taking next once per reel returns to the starting reel. */
  lemma FullCycle(i: nat, n: nat)
    requires i < n
    ensures NextTimes(i, n, n) == i
  {
    NextTimesWithinLap(i, n, n);
  }

  /** `a` steps followed by `b` steps are `a + b` steps. */
  lemma {:induction false} NextTimesCompose(i: nat, n: nat, a: nat, b: nat)
    requires i < n
    ensures NextTimes(i, n, a + b) == NextTimes(NextTimes(i, n, a), n, b)
  {
    if b > 0 {
      NextTimesCompose(i, n, a, b - 1);
    }
  }

  /** Any number of extra full laps changes nothing. */
  lemma NextTimesPeriodic(i: nat, n: nat, k: nat)
    requires i < n
    ensures NextTimes(i, n, n + k) == NextTimes(i, n, k)
  {
    NextTimesCompose(i, n, n, k);
    FullCycle(i, n);
  }

  /** The progress bar: one segment per reel, highlighted when it is the current one. */
  function ProgressSegments(currentReel: nat, n: nat): (segments: seq<bool>)
    ensures |segments| == n
  {
    seq(n, index => index == currentReel)
  }

  /** Exactly one segment is highlighted, the current reel's. */
  lemma OneSegmentHighlighted(currentReel: nat, n: nat)
    requires currentReel < n
    ensures Marks.OnlyMarked(ProgressSegments(currentReel, n), currentReel)
    ensures Marks.CountMarked(ProgressSegments(currentReel, n)) == 1
  {
    Marks.OnlyMarkedCountsOne(ProgressSegments(currentReel, n), currentReel);
  }

  class Carousel {
    const reels: seq<Reel>
    var currentReel: nat

    ghost predicate Valid()
      reads this
    {
      currentReel < |reels|
    }

    constructor ()
      ensures Valid() && reels == Reels && |reels| == 3 && currentReel == 0
    {
      reels := Reels;
      currentReel := 0;
    }

    method NextReel()
      requires Valid()
      modifies this
      ensures Valid() && currentReel == NextIndex(old(currentReel), |reels|)
    {
      currentReel := (currentReel + 1) % |reels|;
    }

    method PrevReel()
      requires Valid()
      modifies this
      ensures Valid() && currentReel == PrevIndex(old(currentReel), |reels|)
    {
      currentReel := (currentReel - 1 + |reels|) % |reels|;
    }

    /** The reel the viewer draws. */
    function Current(): (reel: Reel)
      requires Valid()
      reads this
      ensures reel in reels
    {
      reels[currentReel]
    }
  }

  /** Three presses of next on a fresh viewer come back to the first reel, passing through the other two. */
  method NextThreeTimes() returns (seen: seq<nat>)
    ensures seen == [0, 1, 2, 0]
  {
    var viewer := new Carousel();
    seen := [viewer.currentReel];
    viewer.NextReel();
    seen := seen + [viewer.currentReel];
    viewer.NextReel();
    seen := seen + [viewer.currentReel];
    viewer.NextReel();
    seen := seen + [viewer.currentReel];
  }
}
