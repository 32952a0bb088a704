/** Which frames `extract_path` samples from a video. The division is exact. */
module FrameSampling {
  import opened Wrappers

  datatype VideoError = NotOpened | NoFrames | NothingDecoded

  function FrameIndex(i: nat, total: nat, count: nat): nat
    requires count > 0
  {
    i * total / count
  }

  function SampleCount(frameCount: int): (n: nat)
    ensures n >= 1 && n >= frameCount && (n == 1 || n == frameCount)
  {
    if frameCount > 1 then frameCount else 1
  }

  /** The JPEGs of the frames that could be read and encoded, in order. */
  function Decoded<F>(total: nat, count: nat, read: nat -> Option<F>, upTo: nat): seq<F>
    requires count > 0
  {
    if upTo == 0 then []
    else
      var frame := read(FrameIndex(upTo - 1, total, count));
      Decoded(total, count, read, upTo - 1) + if frame.Some? then [frame.value] else []
  }

  /** `extract_path`: read is what seeking to a frame, reading it and encoding it gives. */
  method ExtractPath<F>(isOpened: bool, totalFrames: int, frameCount: int, read: nat -> Option<F>)
    returns (r: Result<seq<F>, VideoError>)
    ensures !isOpened ==> r == Err(NotOpened)
    ensures isOpened && totalFrames <= 0 ==> r == Err(NoFrames)
    ensures isOpened && totalFrames > 0 ==>
      var n := SampleCount(frameCount);
      var frames := Decoded(totalFrames, n, read, n);
      r == if frames == [] then Err(NothingDecoded) else Ok(frames)
  {
    if !isOpened { return Err(NotOpened); }
    if totalFrames <= 0 { return Err(NoFrames); }
    var count := SampleCount(frameCount);
    var frames: seq<F> := [];
    for i := 0 to count
      invariant frames == Decoded(totalFrames, count, read, i)
    {
      var frame := read(FrameIndex(i, totalFrames, count));
      if frame.Some? { frames := frames + [frame.value]; }
    }
    if frames == [] { return Err(NothingDecoded); }
    return Ok(frames);
  }

  /** The frames are those of the picked samples: the readable ones, each once, in order. */
  ghost predicate PickedFrom<F>(total: nat, count: nat, read: nat -> Option<F>, upTo: nat,
                                picks: seq<nat>, frames: seq<F>)
    requires count > 0
  {
    && |picks| == |frames| <= upTo
    && (forall a, b :: 0 <= a < b < |picks| ==> picks[a] < picks[b])
    && (forall i: nat :: i in picks <==> i < upTo && read(FrameIndex(i, total, count)).Some?)
    && (forall k :: 0 <= k < |picks| ==> read(FrameIndex(picks[k], total, count)) == Some(frames[k]))
  }

  lemma PickOne<F>(total: nat, count: nat, read: nat -> Option<F>, i: nat, picks: seq<nat>, frames: seq<F>)
    requires count > 0 && PickedFrom(total, count, read, i, picks, frames)
    ensures var frame := read(FrameIndex(i, total, count));
      if frame.Some? then PickedFrom(total, count, read, i + 1, picks + [i], frames + [frame.value])
      else PickedFrom(total, count, read, i + 1, picks, frames)
  {
    assert forall a :: 0 <= a < |picks| ==> picks[a] in picks;
  }

  lemma DecodedGrows<F>(total: nat, count: nat, read: nat -> Option<F>, i: nat)
    requires count > 0
    ensures var frame, frames := read(FrameIndex(i, total, count)), Decoded(total, count, read, i);
      Decoded(total, count, read, i + 1) == if frame.Some? then frames + [frame.value] else frames
  {}

  /** At most one frame per sample: every readable one, in order, and nothing else. */
  lemma {:induction false} DecodedAreTheReadable<F>(total: nat, count: nat, read: nat -> Option<F>, upTo: nat)
    requires count > 0
    ensures exists picks :: PickedFrom(total, count, read, upTo, picks, Decoded(total, count, read, upTo))
  {
    if upTo == 0 {
      assert PickedFrom(total, count, read, 0, [], Decoded(total, count, read, 0));
    } else {
      DecodedAreTheReadable(total, count, read, upTo - 1);
      var picks :| PickedFrom(total, count, read, upTo - 1, picks, Decoded(total, count, read, upTo - 1));
      PickOne(total, count, read, upTo - 1, picks, Decoded(total, count, read, upTo - 1));
      DecodedGrows(total, count, read, upTo - 1);
    }
  }

  // ---- Evenness ------------------------------------------------------------

  lemma Distributes(a: int, b: int, c: int)
    ensures (a - b) * c == a * c - b * c && (a + b) * c == a * c + b * c
  {}

  lemma AtLeast(k: int, c: int)
    requires c > 0
    ensures k >= 1 ==> k * c >= c
    ensures k <= -1 ==> k * c <= -c
  {
    if k >= 1 { Grows(k - 1, c); } else if k <= -1 { Grows(-k - 1, c); }
    Distributes(k, 1, c);
    Distributes(k, -1, c);
  }

  lemma Grows(k: int, c: int)
    requires k >= 0 && c > 0
    ensures k * c >= 0
  {}

  /** A number has one quotient and remainder. */
  lemma Quotient(a: int, c: int, q: int, r: int)
    requires c > 0 && a == q * c + r && 0 <= r < c
    ensures a / c == q
  {
    var d, t := a / c, a % c;
    assert a == d * c + t;
    Distributes(q, d, c);
    AtLeast(q - d, c);
  }

  /** Adding b to a moves the quotient by b / c, or one more. */
  lemma QuotientMoves(a: nat, b: nat, c: nat)
    requires c > 0
    ensures b / c <= (a + b) / c - a / c <= b / c + 1
  {
    var q, s, r, t := a / c, b / c, a % c, b % c;
    assert a == q * c + r && b == s * c + t;
    Distributes(q, s, c);
    Distributes(q + s, 1, c);
    if r + t < c { Quotient(a + b, c, q + s, r + t); } else { Quotient(a + b, c, q + s + 1, r + t - c); }
  }

  /** Every gap between neighbours is total / count or one more, so gaps differ by at most one. */
  lemma GapsDifferByAtMostOne(i: nat, total: nat, count: nat)
    requires count > 0
    ensures total / count <= FrameIndex(i + 1, total, count) - FrameIndex(i, total, count) <= total / count + 1
  {
    Distributes(i, 1, total);
    QuotientMoves(i * total, total, count);
  }

  lemma {:induction false} Ordered(i: nat, j: nat, total: nat, count: nat)
    requires count > 0 && i <= j
    ensures FrameIndex(i, total, count) + (j - i) * (total / count) <= FrameIndex(j, total, count)
    decreases j
  {
    if i < j {
      Ordered(i, j - 1, total, count);
      GapsDifferByAtMostOne(j - 1, total, count);
      Distributes(j - 1 - i, 1, total / count);
    }
  }

  /** The samples start at the first frame, stay inside the video, and reach to within one gap of its end. */
  lemma SamplesSpanTheVideo(i: nat, total: nat, count: nat)
    requires i < count && total > 0
    ensures FrameIndex(0, total, count) == 0
    ensures 0 <= FrameIndex(i, total, count) < total
    ensures i == count - 1 ==> total - FrameIndex(i, total, count) <= total / count + 1
  {
    FirstIsZero(total, count);
    Below(i, total, count);
    if i == count - 1 {
      GapsDifferByAtMostOne(i, total, count);
      LastIsTotal(total, count);
    }
  }

  lemma FirstIsZero(total: nat, count: nat)
    requires count > 0
    ensures FrameIndex(0, total, count) == 0
  {
    assert 0 * total == 0;
  }

  lemma LastIsTotal(total: nat, count: nat)
    requires count > 0
    ensures FrameIndex(count, total, count) == total
  {
    assert count * total == total * count;
    Quotient(count * total, count, total, 0);
  }

  lemma Below(i: nat, total: nat, count: nat)
    requires i < count && total > 0
    ensures FrameIndex(i, total, count) < total
  {
    var q, r := FrameIndex(i, total, count), i * total % count;
    assert i * total == q * count + r;
    Distributes(count, i, total);
    AtLeast(count - i, total);
    Distributes(q, total, count);
    AtLeast(q - total, count);
  }

  /** No frame is sampled twice if and only if there are at least as many frames as samples, or one sample. */
  lemma DistinctIff(total: nat, count: nat)
    requires total > 0 && count > 0
    ensures (forall i, j :: 0 <= i < j < count ==> FrameIndex(i, total, count) < FrameIndex(j, total, count))
            <==> count <= total || count == 1
  {
    if count <= total {
      Quotients(total, count);
      forall i, j | 0 <= i < j < count ensures FrameIndex(i, total, count) < FrameIndex(j, total, count) {
        Ordered(i, j, total, count);
        assert (j - i) * (total / count) >= 1 by { Positive(j - i, total / count); }
      }
    } else if count > 1 {
      FirstIsZero(total, count);
      assert FrameIndex(1, total, count) == 0 by { assert 1 * total == total; Quotient(total, count, 0, total); }
    }
  }

  lemma Quotients(total: nat, count: nat)
    requires 0 < count <= total
    ensures total / count >= 1
  {
    QuotientMoves(total - count, count, count);
  }

  lemma Positive(a: nat, b: nat)
    requires a >= 1 && b >= 1
    ensures a * b >= 1
  {}
}
