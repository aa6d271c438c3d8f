/**
 * The playback buffer: a bounded FIFO of samples, a histogram of how full it was,
 * and the integer arithmetic that decides how much of the oldest audio to drop.
 * The `ringbuf` FIFO is a sequence with a capacity; `push_slice_overwrite` keeps
 * the newest samples and `skip` drops the oldest.
 */
module AudioBuffer {
  const AUDIO_BUFFER_MS := 3000
  const BUCKETS := 30
  const SHRINK_INTERVAL := 12000
  /** The source's N. */
  const SHARE := 4

  /** The bucket the histogram pass settles on after looking at the first `n`. */
  function Peak(h: seq<nat>, n: nat): (p: nat)
    requires n <= |h|
    ensures p == 0 || 1 <= p < n
  {
    if n <= 1 then 0
    else
      var p := Peak(h, n - 1);
      if h[n - 1] > (if p == 0 then 0 else h[p]) then n - 1 else p
  }

  /** The least index of a largest positive count among buckets 1..n-1, 0 if those are all zero. */
  ghost predicate IsPeak(h: seq<nat>, n: nat, p: nat)
    requires n <= |h|
  {
    && (p == 0 || 1 <= p < n)
    && (p == 0 ==> forall i :: 1 <= i < n ==> h[i] == 0)
    && (p > 0 ==> h[p] > 0 && forall i :: 1 <= i < n ==> h[i] <= h[p] && (i < p ==> h[i] < h[p]))
  }

  lemma {:induction false} PeakIsLeastLargest(h: seq<nat>, n: nat)
    requires n <= |h|
    ensures IsPeak(h, n, Peak(h, n))
  {
    if n > 1 {
      PeakIsLeastLargest(h, n - 1);
    }
  }

  /** How many zero counts the histogram pass meets before the first other one. */
  function LeadingZeros(h: seq<nat>, n: nat): (z: nat)
    requires n <= |h|
    ensures z <= n
  {
    if n == 0 then 0
    else
      var z := LeadingZeros(h, n - 1);
      if h[n - 1] == 0 && z == n - 1 then n else z
  }

  /** The first `z` counts are zero and the next one is not. */
  ghost predicate IsZeroRun(h: seq<nat>, n: nat, z: nat)
    requires n <= |h|
  {
    z <= n && (forall i :: 0 <= i < z ==> h[i] == 0) && (z < n ==> h[z] != 0)
  }

  lemma {:induction false} LeadingZerosIsRun(h: seq<nat>, n: nat)
    requires n <= |h|
    ensures IsZeroRun(h, n, LeadingZeros(h, n))
  {
    if n > 0 {
      LeadingZerosIsRun(h, n - 1);
    }
  }

  /** The bucket a level falls into: tenths of a second, capped. */
  function Bucket(having: nat, perSecond: nat): (b: nat)
    requires perSecond > 0
    ensures b < BUCKETS
  {
    var b := having * 10 / perSecond;
    if b > BUCKETS - 1 then BUCKETS - 1 else b
  }

  lemma BucketIsTenths(having: nat, perSecond: nat)
    requires perSecond > 0
    ensures var b := Bucket(having, perSecond);
            b * perSecond <= 10 * having && (b < BUCKETS - 1 ==> 10 * having < (b + 1) * perSecond)
  {
    var q, r := having * 10 / perSecond, having * 10 % perSecond;
    assert having * 10 == q * perSecond + r;
    if q > BUCKETS - 1 {
      assert (BUCKETS - 1) * perSecond <= q * perSecond;
    }
  }

  function CountLevel(h: seq<nat>, having: nat, perSecond: nat): seq<nat>
    requires perSecond > 0 && |h| == BUCKETS
  {
    var b := Bucket(having, perSecond);
    h[b := h[b] + 1]
  }

  /** The first call only starts the clock; after that the statistics are read every 12 seconds. */
  predicate Due(lastShrink: int, now: int) {
    lastShrink != 0 && now >= lastShrink + SHRINK_INTERVAL
  }

  predicate Even(n: nat) {
    n % 2 == 0
  }

  lemma EvenSum(a: nat, b: nat)
    requires Even(b)
    ensures Even(a + b) <==> Even(a)
  {
  }

  function Min(a: nat, b: nat): nat {
    if a <= b then a else b
  }

  /** `(x + 1) & !1` */
  function RoundUpToEven(x: nat): (r: nat)
    ensures Even(r) && x <= r <= x + 1
  {
    if Even(x) then x else x + 1
  }

  /** A quarter of the level's share of the ring, in whole stereo frames. */
  function SkipFor(capacity: nat, level: nat): (skip: nat)
    ensures Even(skip)
  {
    RoundUpToEven(capacity * level / (BUCKETS * SHARE))
  }

  /** How much of `held` samples the statistics let go. */
  function DropAmount(h: seq<nat>, capacity: nat, held: nat): (drop: nat)
    requires |h| == BUCKETS
    ensures Even(drop)
    ensures drop > 0 ==> 3 * drop < held && Peak(h, BUCKETS) >= 6
  {
    var peak := Peak(h, BUCKETS);
    if peak < 6 then 0
    else
      var limit := LeadingZeros(h, BUCKETS) * 2 / 3 * SHARE;
      var level := if peak > limit then limit else peak;
      var skip := SkipFor(capacity, level);
      if held > skip * 3 && skip > 0 then skip else 0
  }

  /** The even number nearest to a quarter of the level's share of the ring, the larger one of two. */
  ghost predicate IsQuarter(capacity: nat, level: nat, q: nat) {
    Even(q) && 120 * (q - 1) <= capacity * level < 120 * (q + 1)
  }

  /**
   * What the statistics let go, from the counts alone. With the peak at bucket p >= 6
   * and z empty buckets before the first level ever met, it is a quarter of the lesser
   * of p and four times two thirds of z, unless that is a third or more of what is held.
   */
  ghost predicate RightDrop(h: seq<nat>, capacity: nat, held: nat, drop: nat)
    requires |h| == BUCKETS
  {
    exists p: nat, z: nat, q: nat ::
      && IsPeak(h, BUCKETS, p) && IsZeroRun(h, BUCKETS, z)
      && IsQuarter(capacity, Min(p, 4 * (2 * z / 3)), q)
      && drop == if p >= 6 && q > 0 && 3 * q < held then q else 0
  }

  lemma SkipIsQuarter(capacity: nat, level: nat)
    ensures IsQuarter(capacity, level, SkipFor(capacity, level))
  {
    var x := capacity * level;
    var whole := x / 120;
    assert 120 * whole <= x < 120 * (whole + 1);
  }

  lemma DropIsRight(h: seq<nat>, capacity: nat, held: nat)
    requires |h| == BUCKETS
    ensures RightDrop(h, capacity, held, DropAmount(h, capacity, held))
  {
    var p, z := Peak(h, BUCKETS), LeadingZeros(h, BUCKETS);
    PeakIsLeastLargest(h, BUCKETS);
    LeadingZerosIsRun(h, BUCKETS);
    var level := Min(p, 4 * (2 * z / 3));
    SkipIsQuarter(capacity, level);
  }

  lemma OneQuarter(capacity: nat, level: nat, q: nat, q': nat)
    requires IsQuarter(capacity, level, q) && IsQuarter(capacity, level, q')
    ensures q == q'
  {
    assert q - 1 < q' + 1 && q' - 1 < q + 1;
  }

  lemma OnePeak(h: seq<nat>, p: nat, p': nat)
    requires |h| == BUCKETS && IsPeak(h, BUCKETS, p) && IsPeak(h, BUCKETS, p')
    ensures p == p'
  {
  }

  lemma OneZeroRun(h: seq<nat>, z: nat, z': nat)
    requires |h| == BUCKETS && IsZeroRun(h, BUCKETS, z) && IsZeroRun(h, BUCKETS, z')
    ensures z == z'
  {
  }

  /** The counts leave no choice. */
  lemma OneRightDrop(h: seq<nat>, capacity: nat, held: nat, drop: nat, drop': nat)
    requires |h| == BUCKETS && RightDrop(h, capacity, held, drop) && RightDrop(h, capacity, held, drop')
    ensures drop == drop'
  {
    var p: nat, z: nat, q: nat :|
      && IsPeak(h, BUCKETS, p) && IsZeroRun(h, BUCKETS, z)
      && IsQuarter(capacity, Min(p, 4 * (2 * z / 3)), q)
      && drop == if p >= 6 && q > 0 && 3 * q < held then q else 0;
    var p': nat, z': nat, q': nat :|
      && IsPeak(h, BUCKETS, p') && IsZeroRun(h, BUCKETS, z')
      && IsQuarter(capacity, Min(p', 4 * (2 * z' / 3)), q')
      && drop' == if p' >= 6 && q' > 0 && 3 * q' < held then q' else 0;
    OnePeak(h, p, p');
    OneZeroRun(h, z, z');
    OneQuarter(capacity, Min(p, 4 * (2 * z / 3)), q, q');
  }

  /**
   * A drop is at most a quarter of the most frequent level, rounded up to whole
   * stereo frames, and nothing at all is dropped when bucket 0 or 1 was ever hit.
   */
  lemma DropIsModest(h: seq<nat>, perSecond: nat, held: nat)
    requires |h| == BUCKETS
    ensures 40 * DropAmount(h, 3 * perSecond, held) <= perSecond * Peak(h, BUCKETS) + 40
    ensures h[0] + h[1] > 0 ==> DropAmount(h, 3 * perSecond, held) == 0
  {
    var peak, zeros := Peak(h, BUCKETS), LeadingZeros(h, BUCKETS);
    LeadingZerosIsRun(h, BUCKETS);
    if peak >= 6 {
      var limit := zeros * 2 / 3 * SHARE;
      QuarterOfLevel(perSecond, if peak > limit then limit else peak, peak);
    }
  }

  lemma QuarterOfLevel(perSecond: nat, level: nat, peak: nat)
    requires level <= peak
    ensures 40 * (3 * perSecond * level / 120) <= perSecond * peak
    ensures level == 0 ==> 3 * perSecond * level / 120 == 0
  {
    var product := perSecond * level;
    assert 3 * perSecond * level == 3 * product;
    assert product <= perSecond * peak;
  }

  /**
   * The loop that finds the peak and the leading zeros while it wipes the array
   * it reads: nothing ahead of the index is touched, and of what is behind only
   * the current peak is still there.
   */
  method HistogramPass(h: array<nat>) returns (max: nat, zero: nat)
    requires h.Length == BUCKETS
    modifies h
    ensures max == Peak(old(h[..]), BUCKETS)
    ensures zero == LeadingZeros(old(h[..]), BUCKETS)
    ensures forall i :: 0 <= i < BUCKETS ==> h[i] == 0
  {
    zero, max := 0, 0;
    ghost var counts := h[..];
    for i := 0 to BUCKETS
      invariant max == Peak(counts, i) && zero == LeadingZeros(counts, i)
      invariant forall j :: i <= j < BUCKETS ==> h[j] == counts[j]
      invariant forall j :: 0 <= j < i && j != max ==> h[j] == 0
      invariant i > 0 ==> h[max] == if max == 0 then 0 else counts[max]
    {
      if h[i] == 0 && zero == i {
        zero := zero + 1;
      }
      if h[i] > h[max] {
        h[max] := 0;
        max := i;
      } else {
        h[i] := 0;
      }
    }
    h[max] := 0;
  }

  /** The oldest held samples are gone, as many as the counts let go. */
  ghost predicate Shrunk<T>(h: seq<nat>, capacity: nat, held: seq<T>, left: seq<T>)
    requires |h| == BUCKETS
  {
    && |left| <= |held|
    && var drop := |held| - |left|; left == held[drop..] && RightDrop(h, capacity, |held|, drop)
  }

  /** The newest `capacity` samples. */
  function Newest<T>(s: seq<T>, capacity: nat): (r: seq<T>)
    ensures |r| == if |s| <= capacity then |s| else capacity
  {
    if |s| <= capacity then s else s[|s| - capacity..]
  }

  /** The held samples are the end of the stream. */
  ghost predicate IsTail<T>(held: seq<T>, stream: seq<T>) {
    |held| <= |stream| && held == stream[|stream| - |held|..]
  }

  lemma DropKeepsTail<T>(stream: seq<T>, held: seq<T>, n: nat)
    requires IsTail(held, stream) && n <= |held|
    ensures IsTail(held[n..], stream)
  {
  }

  /** Held samples that are the end of the stream stay so when more is appended to both. */
  lemma AppendKeepsTail<T>(stream: seq<T>, held: seq<T>, pcm: seq<T>, capacity: nat)
    requires IsTail(held, stream)
    ensures IsTail(Newest(held + pcm, capacity), stream + pcm)
  {
    var r, s := Newest(held + pcm, capacity), stream + pcm;
    assert held + pcm == s[|s| - |held + pcm|..];
  }

  lemma AppendKeepsEven(stream: nat, held: nat, pcm: nat, capacity: nat)
    ensures Even(stream) && Even(pcm) ==> Even(stream + pcm)
    ensures Even(held) && Even(pcm) && Even(capacity) ==> Even(if held + pcm <= capacity then held + pcm else capacity)
  {
    if Even(pcm) {
      EvenSum(stream, pcm);
      EvenSum(held, pcm);
    }
  }

  /** Making room first and pushing then keeps what pushing over the brim would keep. */
  lemma SkipThenPush<T>(held: seq<T>, pcm: seq<T>, capacity: nat)
    requires |pcm| <= capacity < |held| + |pcm|
    ensures Newest(held[|held| + |pcm| - capacity..] + pcm, capacity) == Newest(held + pcm, capacity)
  {
  }

  /** The ring operations of `append_pcm2`: drop what would not fit, push, and count. */
  method Push<T>(held: seq<T>, pcm: seq<T>, capacity: nat) returns (ring: seq<T>, having: nat)
    requires |held| <= capacity
    ensures ring == Newest(held + pcm, capacity) && having == |ring|
  {
    if |pcm| > capacity {
      return Newest(held + pcm, capacity), capacity;
    }
    ring := held;
    var total := |held| + |pcm|;
    if total > capacity {
      SkipThenPush(held, pcm, capacity);
      ring := held[total - capacity..];
    }
    ring := Newest(ring + pcm, capacity);
    having := |ring|;
  }

  /**
   * What can happen to a buffer between two ring locks: samples are appended, the
   * statistics shrink it, the output plays, or another buffer resets the clock.
   * Between an append and the shrink that follows it the output may play.
   */
  datatype Op<T> = Append(pcm: seq<T>) | Shrink(having: nat, now: int) | Play(frames: nat) | OtherShrink(now: int)

  predicate WholeFrames<T>(op: Op<T>) {
    match op
    case Append(pcm) => Even(|pcm|)
    case Play(frames) => Even(frames)
    case Shrink(_, _) | OtherShrink(_) => true
  }

  /** What a run appends, in order. */
  function Appended<T>(ops: seq<Op<T>>): seq<T> {
    if ops == [] then []
    else Appended(ops[..|ops| - 1]) + PcmOf(ops[|ops| - 1])
  }

  function PcmOf<T>(op: Op<T>): seq<T> {
    match op
    case Append(pcm) => pcm
    case _ => []
  }

  /** The time of the last shrink, one for all buffers of the process. */
  class ShrinkClock {
    var last: int

    constructor ()
      ensures last == 0
    {
      last := 0;
    }
  }

  class AudioBuffer<T(0)> {
    var held: seq<T>
    var capacity: nat
    var perSecond: nat
    const histogram: array<nat>
    const clock: ShrinkClock
    /** Everything appended since the buffer was last resized. */
    ghost var stream: seq<T>

    ghost predicate Valid()
      reads this
    {
      && histogram.Length == BUCKETS
      && capacity == 3 * perSecond
      && |held| <= capacity
      && IsTail(held, stream)
    }

    /** Fed and played in whole stereo frames so far: the first held sample is a left one. */
    ghost predicate Stereo()
      reads this
    {
      Even(capacity) && Even(|stream|) && Even(|held|)
    }

    constructor (clock: ShrinkClock)
      ensures Valid() && Stereo() && stream == [] && fresh(histogram) && this.clock == clock
      ensures capacity == 288_000 && histogram[..] == seq(BUCKETS, i => 0)
    {
      held, stream, this.clock := [], [], clock;
      perSecond := 48_000 * 2;
      capacity := 48_000 * 2 * AUDIO_BUFFER_MS / 1000;
      histogram := new nat[BUCKETS](i => 0);
    }

    /** Replaces the ring when the capacity changes; the samples in it are gone. */
    method Resize(sampleRate: nat, channels: nat)
      requires Valid()
      modifies this
      ensures Valid() && histogram[..] == old(histogram[..])
      ensures perSecond == sampleRate * channels
      ensures if perSecond == old(perSecond) then held == old(held) && stream == old(stream) else held == [] && stream == []
      ensures channels == 2 && old(Stereo()) ==> Stereo()
    {
      var rate := sampleRate * channels;
      var newCapacity := rate * AUDIO_BUFFER_MS / 1000;
      if newCapacity != capacity {
        held, stream := [], [];
        capacity := newCapacity;
        perSecond := rate;
      }
    }

    /** Keeps the most recent `capacity` samples and tells how many there are. */
    method AppendPcm2(pcm: seq<T>) returns (having: nat)
      requires Valid()
      modifies this
      ensures Valid() && capacity == old(capacity) && perSecond == old(perSecond)
      ensures held == Newest(old(held) + pcm, capacity) && having == |held|
      ensures stream == old(stream) + pcm
      ensures old(Stereo()) && Even(|pcm|) ==> Stereo()
    {
      AppendKeepsTail(stream, held, pcm, capacity);
      AppendKeepsEven(|stream|, |held|, |pcm|, capacity);
      held, having := Push(held, pcm, capacity);
      stream := stream + pcm;
    }

    /** The statistics' verdict on how much to skip; the histogram starts afresh. */
    method ReadStatistics() returns (skip: nat)
      requires Valid()
      modifies histogram
      ensures RightDrop(old(histogram[..]), capacity, |held|, skip) && Even(skip) && skip <= |held|
      ensures histogram[..] == seq(BUCKETS, i => 0)
    {
      DropIsRight(histogram[..], capacity, |held|);
      var max, zero := HistogramPass(histogram);
      assert histogram[..] == seq(BUCKETS, i => 0);
      zero := zero * 2 / 3;
      if max < 6 {
        return 0;
      } else if max > zero * SHARE {
        max := zero * SHARE;
      }
      skip := SkipFor(capacity, max);
      if !(|held| > skip * 3 && skip > 0) {
        skip := 0;
      }
    }

    /**
     * Counts the level and, at most every 12 seconds, drops old audio by the
     * statistics. The level is divided by the rate, so that must not be zero.
     */
    method TryShrink(having: nat, now: int)
      requires Valid() && perSecond > 0
      modifies this, histogram, clock
      ensures Valid() && capacity == old(capacity) && perSecond == old(perSecond) && stream == old(stream)
      ensures var counts, due := CountLevel(old(histogram[..]), having, perSecond), Due(old(clock.last), now);
              && histogram[..] == (if due then seq(BUCKETS, i => 0) else counts)
              && clock.last == (if old(clock.last) == 0 || due then now else old(clock.last))
              && (if due then Shrunk(counts, capacity, old(held), held) else held == old(held))
      ensures old(Stereo()) ==> Stereo()
    {
      var i := Bucket(having, perSecond);
      histogram[i] := histogram[i] + 1;
      if clock.last == 0 {
        clock.last := now;
        return;
      } else if now < clock.last + SHRINK_INTERVAL {
        return;
      }
      clock.last := now;
      var skip := ReadStatistics();
      EvenSum(|held| - skip, skip);
      DropKeepsTail(stream, held, skip);
      held := held[skip..];
    }

    method AppendPcm(pcm: seq<T>, now: int)
      requires Valid() && perSecond > 0
      modifies this, histogram, clock
      ensures Valid() && capacity == old(capacity) && perSecond == old(perSecond)
      ensures stream == old(stream) + pcm
      ensures var kept := Newest(old(held) + pcm, capacity);
              var counts, due := CountLevel(old(histogram[..]), |kept|, perSecond), Due(old(clock.last), now);
              && histogram[..] == (if due then seq(BUCKETS, i => 0) else counts)
              && clock.last == (if old(clock.last) == 0 || due then now else old(clock.last))
              && (if due then Shrunk(counts, capacity, kept, held) else held == kept)
      ensures old(Stereo()) && Even(|pcm|) ==> Stereo()
    {
      var having := AppendPcm2(pcm);
      TryShrink(having, now);
    }

    /** The output callback: as many samples as there are, then silence. */
    method Fill(data: array<T>, silence: T)
      requires Valid()
      modifies this, data
      ensures Valid() && capacity == old(capacity) && perSecond == old(perSecond)
      ensures stream == old(stream)
      ensures var n := Min(data.Length, |old(held)|);
              && held == old(held)[n..]
              && data[..] == old(held)[..n] + seq(data.Length - n, i => silence)
      ensures old(Stereo()) && Even(data.Length) ==> Stereo()
    {
      var n := data.Length;
      if |held| < n {
        n := |held|;
      }
      if Even(n) {
        EvenSum(|held| - n, n);
      }
      DropKeepsTail(stream, held, n);
      var elems := held[..n];
      held := held[n..];
      for i := 0 to data.Length
        modifies data
        invariant forall j :: 0 <= j < i ==> data[j] == if j < n then elems[j] else silence
      {
        data[i] := if i < n then elems[i] else silence;
      }
    }

    method Do(op: Op<T>, silence: T)
      requires Valid() && perSecond > 0
      modifies this, histogram, clock
      ensures Valid() && capacity == old(capacity) && perSecond == old(perSecond)
      ensures stream == old(stream) + PcmOf(op)
      ensures old(Stereo()) && WholeFrames(op) ==> Stereo()
    {
      match op
      case Append(pcm) => var _ := AppendPcm2(pcm);
      case Shrink(having, now) => TryShrink(having, now);
      case OtherShrink(now) => clock.last := now;
      case Play(frames) =>
        var data := new T[frames];
        Fill(data, silence);
    }

    /**
     * Any run of appends, shrinks and plays without a resize, in any order: what is
     * held is the most recent contiguous run of everything appended, never more than
     * the capacity, and it starts with a left sample if only whole frames went in
     * and out.
     */
    method Drive(ops: seq<Op<T>>, silence: T)
      requires Valid() && perSecond > 0
      modifies this, histogram, clock
      ensures Valid() && capacity == old(capacity)
      ensures stream == old(stream) + Appended(ops)
      ensures |held| <= capacity && IsTail(held, stream)
      ensures old(Stereo()) && (forall i :: 0 <= i < |ops| ==> WholeFrames(ops[i])) ==>
                Even(|stream| - |held|)
    {
      ghost var whole := Stereo() && forall i :: 0 <= i < |ops| ==> WholeFrames(ops[i]);
      for i := 0 to |ops|
        invariant Valid() && capacity == old(capacity) && perSecond > 0
        invariant stream == old(stream) + Appended(ops[..i])
        invariant whole ==> Stereo()
      {
        assert ops[..i + 1][..i] == ops[..i];
        Do(ops[i], silence);
      }
      assert ops[..|ops|] == ops;
      if whole {
        EvenSum(|stream| - |held|, |held|);
      }
    }
  }
}
