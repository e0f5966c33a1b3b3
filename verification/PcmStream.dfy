/** The audio callback's chunked sample queue, as a queue of single samples. */
module PcmStream {
  import opened Results
  import opened Sequences
  import opened Words

  /** An atomic counter of 64 bits; `fetch_add` and `fetch_sub` wrap. */
  class AtomicCell {
    var value: U64

    constructor (initial: U64)
      ensures value == initial
    {
      value := initial;
    }

    method FetchAdd(n: nat)
      modifies this
      ensures value == WrapAdd(old(value), n)
    {
      value := WrapAdd(value, n);
    }

    method FetchSub(n: nat)
      modifies this
      ensures value == WrapSub(old(value), n)
    {
      value := WrapSub(value, n);
    }

    /** `compare_exchange` */
    method CompareExchange(current: U64, next: U64) returns (ok: bool)
      modifies this
      ensures ok == (old(value) == current)
      ensures value == if ok then next else old(value)
    {
      ok := value == current;
      if ok {
        value := next;
      }
    }
  }

  /** The read position lies in the front chunk, or is zero when there is none. */
  predicate Fits<T>(chunks: seq<seq<T>>, offset: nat) {
    if chunks == [] then offset == 0 else offset <= |chunks[0]|
  }

  /** The samples not yet mixed: the rest of the front chunk and all later chunks. */
  function Pending<T>(chunks: seq<seq<T>>, offset: nat): seq<T>
    requires Fits(chunks, offset)
  {
    if chunks == [] then [] else chunks[0][offset..] + Concat(chunks[1..])
  }

  lemma {:induction false} PendingLength<T>(chunks: seq<seq<T>>, offset: nat)
    requires Fits(chunks, offset)
    ensures |Pending(chunks, offset)| == |Concat(chunks)| - offset
  {
  }

  lemma {:induction false} PendingAppend<T>(chunks: seq<seq<T>>, offset: nat, last: seq<T>)
    requires Fits(chunks, offset)
    ensures Fits(chunks + [last], offset)
    ensures Pending(chunks + [last], offset) == Pending(chunks, offset) + last
  {
    if chunks == [] {
      assert chunks + [last] == [last];
      assert [last][1..] == [];
    } else {
      assert (chunks + [last])[0] == chunks[0];
      assert (chunks + [last])[1..] == chunks[1..] + [last];
      ConcatAppend(chunks[1..], last);
    }
  }

  lemma {:induction false} PendingPop<T>(chunks: seq<seq<T>>)
    requires chunks != []
    ensures Fits(chunks[1..], 0)
    ensures Pending(chunks, |chunks[0]|) == Pending(chunks[1..], 0)
  {
    var rest := chunks[1..];
    assert chunks[0][|chunks[0]|..] == [];
    if rest != [] {
      assert rest[0][0..] == rest[0];
    }
  }

  lemma {:induction false} PendingTake<T>(chunks: seq<seq<T>>, offset: nat)
    requires chunks != [] && offset < |chunks[0]|
    ensures Pending(chunks, offset) == [chunks[0][offset]] + Pending(chunks, offset + 1)
  {
    assert chunks[0][offset..] == [chunks[0][offset]] + chunks[0][offset + 1..];
    Appended([chunks[0][offset]], chunks[0][offset + 1..], Concat(chunks[1..]));
  }

  function Scaled(sample: real, volume: real): real { sample * volume }

  /** What a period of output holds after `samples` were added to its front. */
  function Mixed(output: seq<real>, samples: seq<real>, volume: real): (mixed: seq<real>)
    ensures |mixed| == |output|
  {
    seq(|output|, i requires 0 <= i < |output| =>
      if i < |samples| then output[i] + Scaled(samples[i], volume) else output[i])
  }

  /** Each position gets the sample at the same position, times the volume; past the samples nothing changes. */
  lemma {:induction false} MixedAt(output: seq<real>, samples: seq<real>, volume: real)
    ensures forall i :: 0 <= i < |output| ==>
      Mixed(output, samples, volume)[i] == output[i] + (if i < |samples| then samples[i] * volume else 0.0)
  {
  }

  lemma {:induction false} NothingMixed(output: seq<real>, samples: seq<real>, volume: real)
    requires output == []
    ensures Mixed(output, samples, volume) == output
  {
  }

  lemma {:induction false} NoFrames(channels: nat)
    ensures channels > 0 ==> Frames(0, channels) == 0
  {
  }

  lemma {:induction false} MixedOne(
    output: seq<real>, now: seq<real>, done: seq<real>, sample: real, volume: real)
    requires |done| < |output| && now == Mixed(output, done, volume)
    ensures now[|done| := now[|done|] + Scaled(sample, volume)] == Mixed(output, done + [sample], volume)
  {
  }

  /** Samples beyond the end of the output do not matter. */
  lemma {:induction false} MixedPrefix(output: seq<real>, done: seq<real>, rest: seq<real>, volume: real)
    requires |done| == |output| || rest == []
    ensures Mixed(output, done + rest, volume) == Mixed(output, done, volume)
  {
    if rest == [] {
      assert done + rest == done;
    }
  }

  /** Playing does not depend on how the output is cut into periods. */
  lemma {:induction false} MixingSplits(first: seq<real>, second: seq<real>, samples: seq<real>, volume: real)
    ensures Mixed(first + second, samples, volume)
         == Mixed(first, samples, volume) + Mixed(second, samples[MinNat(|first|, |samples|)..], volume)
  {
    var k := MinNat(|first|, |samples|);
    var whole, parts := Mixed(first + second, samples, volume),
                        Mixed(first, samples, volume) + Mixed(second, samples[k..], volume);
    forall i | 0 <= i < |whole|
      ensures whole[i] == parts[i]
    {
      if |first| <= i && i < |samples| {
        assert samples[k..][i - |first|] == samples[i];
      }
    }
  }

  function Product(a: nat, b: nat): nat { a * b }

  /** `samples / channels` */
  function Frames(samples: nat, channels: nat): (frames: nat)
    requires channels > 0
    ensures Product(frames, channels) <= samples < Product(frames, channels) + channels
    ensures frames <= samples
  {
    var frames := samples / channels;
    assert frames <= samples by { Grows(frames, channels); }
    frames
  }

  lemma {:induction false} Grows(n: nat, factor: nat)
    requires factor > 0
    ensures n <= n * factor
  {
    assert n * factor == n + n * (factor - 1);
  }

  method AddAt(output: array<real>, index: nat, x: real)
    requires index < output.Length
    modifies output
    ensures output[..] == old(output[..])[index := old(output[..])[index] + x]
  {
    output[index] := output[index] + x;
  }

  /** The channel from the writers to the audio callback. */
  class Channel {
    var queue: seq<seq<real>>
    var open: bool

    constructor ()
      ensures queue == [] && open
    {
      queue, open := [], true;
    }

    /** Fails, leaving the samples with the caller, once the receiver is gone. */
    method Send(samples: seq<real>) returns (ok: bool)
      modifies this
      ensures ok == old(open) && open == old(open)
      ensures queue == if ok then old(queue) + [samples] else old(queue)
    {
      ok := open;
      if ok {
        queue := queue + [samples];
      }
    }

    method TryRecv() returns (samples: Option<seq<real>>)
      modifies this
      ensures open == old(open)
      ensures samples.None? <==> old(queue) == []
      ensures samples.None? ==> queue == []
      ensures samples.Some? ==> old(queue) == [samples.value] + queue
    {
      if queue == [] {
        samples := None;
      } else {
        samples := Some(queue[0]);
        queue := queue[1..];
      }
    }
  }

  class Stream {
    var chunks: seq<seq<real>>
    var offset: nat
    var queuedSamples: nat
    var volume: real
    var active: bool

    ghost predicate Valid()
      reads this
    {
      && Fits(chunks, offset)
      && queuedSamples == |Concat(chunks)| - offset
    }

    /** The queue as one sequence of samples. */
    ghost function Samples(): (samples: seq<real>)
      requires Valid()
      reads this
    {
      Pending(chunks, offset)
    }

    constructor (volume: real)
      ensures Valid() && Samples() == [] && !active && this.volume == volume
    {
      chunks, offset, queuedSamples := [], 0, 0;
      this.volume := volume;
      active := false;
    }

    /** One received buffer; an empty one is dropped. */
    method PushChunk(samples: seq<real>)
      requires Valid()
      modifies this
      ensures Valid() && volume == old(volume)
      ensures Samples() == old(Samples()) + samples
      ensures active == (old(active) || samples != [])
    {
      if samples != [] {
        PendingAppend(chunks, offset, samples);
        ConcatAppend(chunks, samples);
        active := true;
        queuedSamples := queuedSamples + |samples|;
        chunks := chunks + [samples];
      }
    }

    /** Takes everything the channel holds. */
    method DrainRx(rx: Channel)
      requires Valid()
      modifies this, rx
      ensures Valid() && rx.queue == [] && volume == old(volume)
      ensures Samples() == old(Samples()) + Concat(old(rx.queue))
      ensures active == (old(active) || Concat(old(rx.queue)) != [])
    {
      ghost var all := old(Samples()) + Concat(old(rx.queue));
      var next := rx.TryRecv();
      while next.Some?
        invariant Valid() && volume == old(volume)
        invariant next.None? ==> rx.queue == []
        invariant all == Samples() + (if next.None? then [] else next.value + Concat(rx.queue))
        invariant (active || (next.Some? && next.value + Concat(rx.queue) != []))
               == (old(active) || Concat(old(rx.queue)) != [])
        decreases next.Some?, |rx.queue|
      {
        ghost var before, later := Samples(), rx.queue;
        PushChunk(next.value);
        Appended(before, next.value, Concat(later));
        next := rx.TryRecv();
      }
    }

    /** Moves the read position past one sample of the front chunk. */
    method TakeSample() returns (sample: real)
      requires Valid() && chunks != [] && offset < |chunks[0]|
      modifies this
      ensures Valid() && active == old(active) && volume == old(volume) && chunks == old(chunks)
      ensures old(Samples()) == [sample] + Samples()
    {
      PendingTake(chunks, offset);
      sample := chunks[0][offset];
      offset := offset + 1;
      queuedSamples := SaturatingSub(queuedSamples, 1);
    }

    /** Drops a front chunk that has been read to its end. */
    method PopChunk()
      requires Valid() && chunks != [] && offset >= |chunks[0]|
      modifies this
      ensures Valid() && active == old(active) && volume == old(volume) && chunks == old(chunks[1..])
      ensures Samples() == old(Samples())
    {
      PendingPop(chunks);
      chunks := chunks[1..];
      offset := 0;
    }

    /** The copying loop: stops when the output is full or no chunk is left. */
    method MixSamples(output: array<real>) returns (consumed: nat)
      requires Valid()
      modifies this, output
      ensures Valid() && active == old(active) && volume == old(volume)
      ensures consumed == MinNat(output.Length, |old(Samples())|)
      ensures output[..] == Mixed(old(output[..]), old(Samples()), volume)
      ensures Samples() == old(Samples())[consumed..]
    {
      ghost var before, samples, done := output[..], Samples(), [];
      ghost var now := before;
      var index, gain := 0, volume;
      consumed := 0;
      while index < output.Length && chunks != []
        invariant Valid() && active == old(active) && volume == old(volume)
        invariant index == consumed == |done| <= output.Length
        invariant samples == done + Samples()
        invariant output[..] == now
        invariant now == Mixed(before, done, gain)
        decreases |chunks|, output.Length - index
      {
        if offset >= |chunks[0]| {
          PopChunk();
        } else {
          var sample := TakeSample();
          Appended(done, [sample], Samples());
          MixedOne(before, now, done, sample, gain);
          now := now[index := now[index] + Scaled(sample, gain)];
          AddAt(output, index, Scaled(sample, gain));
          done := done + [sample];
          consumed := consumed + 1;
          index := index + 1;
        }
      }
      MixedPrefix(before, done, Samples(), gain);
    }

    /**
     * Adds the first samples of the queue, times the volume, to the output at the matching positions, gives their
     * room back, and counts the frames it could not fill while the stream is active.
     */
    method MixInto(output: array<real>, queued: AtomicCell, underruns: AtomicCell, channels: nat)
      requires Valid() && queued != underruns
      modifies this, output, queued, underruns
      ensures Valid() && active == old(active) && volume == old(volume)
      ensures output[..] == Mixed(old(output[..]), old(Samples()), volume)
      ensures forall i :: 0 <= i < output.Length ==>
        output[i] == old(output[..])[i] + (if i < |old(Samples())| then old(Samples())[i] * volume else 0.0)
      ensures Samples() == old(Samples())[MinNat(output.Length, |old(Samples())|)..]
      ensures queued.value == WrapSub(old(queued.value), MinNat(output.Length, |old(Samples())|))
      ensures underruns.value == WrapAdd(old(underruns.value),
        if active && channels > 0 then Frames(output.Length - MinNat(output.Length, |old(Samples())|), channels) else 0)
    {
      hide Mixed, Scaled, Pending, Frames;
      ghost var before, samples := output[..], Samples();
      if output.Length == 0 {
        NothingMixed(before, samples, volume);
        NoFrames(channels);
        assert Samples()[0..] == Samples();
      } else {
        MixQueued(output, queued, underruns, channels);
      }
      MixedAt(before, samples, volume);
      assert forall i :: 0 <= i < output.Length ==> output[i] == output[..][i];
    }

    /** The same for a period that is not empty. */
    method MixQueued(output: array<real>, queued: AtomicCell, underruns: AtomicCell, channels: nat)
      requires Valid() && queued != underruns && output.Length > 0
      modifies this, output, queued, underruns
      ensures Valid() && active == old(active) && volume == old(volume)
      ensures output[..] == Mixed(old(output[..]), old(Samples()), volume)
      ensures Samples() == old(Samples())[MinNat(output.Length, |old(Samples())|)..]
      ensures queued.value == WrapSub(old(queued.value), MinNat(output.Length, |old(Samples())|))
      ensures underruns.value == WrapAdd(old(underruns.value),
        if active && channels > 0 then Frames(output.Length - MinNat(output.Length, |old(Samples())|), channels) else 0)
    {
      PendingLength(chunks, offset);
      if queuedSamples == 0 {
        assert output[..] == Mixed(old(output[..]), [], volume);
        if active && channels > 0 {
          var missingFrames := Frames(output.Length, channels);
          if missingFrames > 0 {
            underruns.FetchAdd(missingFrames);
          }
        }
        return;
      }
      var consumed := MixSamples(output);
      if consumed > 0 {
        queued.FetchSub(consumed);
      }
      if active && consumed < output.Length && channels > 0 {
        var missingFrames := Frames(output.Length - consumed, channels);
        if missingFrames > 0 {
          underruns.FetchAdd(missingFrames);
        }
      }
    }

    method Clear()
      modifies this
      ensures Valid() && Samples() == [] && !active && volume == old(volume)
    {
      chunks, offset, queuedSamples, active := [], 0, 0, false;
    }
  }
}
