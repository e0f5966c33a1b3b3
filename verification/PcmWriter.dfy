/** The writer's push, run against a counter that other threads keep changing. */
module PcmWriter {
  import opened Results
  import opened Sequences
  import opened PcmStream
  import opened Words
  import opened PcmProtocol

  /** A value of the counter that stood there at first or was left there by the others. */
  predicate Stems(v: U64, others: seq<U64>, first: U64) {
    v == first || (others != [] && (v == others[0] || Stems(v, others[1..], first)))
  }

  predicate Suffix<T(==)>(whole: seq<T>, rest: seq<T>) {
    rest == whole || (whole != [] && Suffix(whole[1..], rest))
  }

  lemma {:induction false} StemsFromSuffix(others: seq<U64>, first: U64, rest: seq<U64>, v: U64)
    requires Suffix(others, rest) && Stems(v, rest, first)
    ensures Stems(v, others, first)
  {
    if rest != others {
      StemsFromSuffix(others[1..], first, rest, v);
    }
  }

  lemma {:induction false} SuffixNext<T>(whole: seq<T>, rest: seq<T>)
    requires Suffix(whole, rest) && rest != []
    ensures Suffix(whole, rest[1..])
  {
    if rest != whole {
      SuffixNext(whole[1..], rest);
    }
  }

  lemma {:induction false} StemsNext(others: seq<U64>, first: U64, rest: seq<U64>, v: U64)
    requires Suffix(others, rest) && Stems(v, others, first)
    ensures rest != [] ==> Stems(rest[0], others, first) && Suffix(others, rest[1..])
  {
    if rest != [] {
      StemsFromSuffix(others, first, rest, rest[0]);
      SuffixNext(others, rest);
    }
  }

  class Writer {
    const tx: Channel
    const queued: AtomicCell
    const cfg: Config
    /** Everything this writer has put into the channel. */
    ghost var delivered: seq<real>
    /** Its finished pushes. */
    ghost var calls: seq<Call>

    /** What was delivered is what the pushes took. */
    ghost predicate Logged()
      reads this
    {
      delivered == Delivered(calls)
    }

    constructor (tx: Channel, queued: AtomicCell, cfg: Config)
      ensures this.tx == tx && this.queued == queued && this.cfg == cfg && delivered == [] && calls == []
    {
      this.tx, this.queued, this.cfg := tx, queued, cfg;
      delivered, calls := [], [];
    }

    /** Other threads act: the counter takes the next value they leave in it, if there is one. */
    method Interfere(others: seq<U64>) returns (rest: seq<U64>)
      modifies queued
      ensures others == [] ==> rest == [] && queued.value == old(queued.value)
      ensures others != [] ==> rest == others[1..] && queued.value == others[0]
    {
      rest := others;
      if others != [] {
        queued.value := others[0];
        rest := others[1..];
      }
    }

    /**
     * The compare-and-exchange loop. `others` lists what other threads leave in the counter before each of
     * this thread's operations on it. Returns 0 when the counter read left no room for a frame. The accesses
     * made are those of a writer that holds `kept`.
     */
    method Reserve(kept: seq<real>, others: seq<U64>, ghost start: Point)
      returns (n: nat, found: U64, rest: seq<U64>, ghost trace: seq<Access>, ghost end: Point)
      requires cfg.channels > 0 && |kept| >= cfg.channels
      requires start.thread.place == Loading(kept) && start.counter == queued.value && start.others == others
      modifies queued
      ensures n == 0 <==> cfg.Room(found) == 0
      ensures n > 0 ==> n == cfg.WriteLength(found, kept) && queued.value == found + n <= cfg.maxSamples
      ensures Stems(found, others, old(queued.value)) && Suffix(others, rest)
      ensures n == 0 ==> queued.value == found
      ensures Follows(cfg, start, trace, end)
      ensures end == Point(AfterReserve(start.thread, kept, n), queued.value, rest)
    {
      rest, trace, end := others, [], start;
      while true
        invariant Follows(cfg, start, trace, end) && end == Point(start.thread, queued.value, rest)
        invariant Stems(queued.value, others, old(queued.value)) && Suffix(others, rest)
        decreases |rest|
      {
        FollowsOneMore(cfg, start, trace, end, Reads(end.Found()));
        trace, end := trace + [Reads(end.Found())], end.After(cfg, Reads(end.Found()));
        StemsNext(others, old(queued.value), rest, queued.value);
        rest := Interfere(rest);
        found := queued.value;
        if cfg.Room(found) == 0 {
          return 0, found, rest, trace, end;
        }
        n := cfg.WriteLength(found, kept);
        FollowsOneMore(cfg, start, trace, end, Exchanges(end.Found()));
        trace, end := trace + [Exchanges(end.Found())], end.After(cfg, Exchanges(end.Found()));
        StemsNext(others, old(queued.value), rest, queued.value);
        rest := Interfere(rest);
        var ok := queued.CompareExchange(found, WrapAdd(found, n));
        if ok {
          return;
        }
      }
    }

    /** Sends what was reserved for; without a receiver the reservation is taken back. */
    method Transfer(sent: seq<real>, remainder: seq<real>, n: nat, ghost held: U64, others: seq<U64>,
        ghost start: Point)
      returns (result: Result<(), seq<real>>, ghost taken: seq<real>, ghost left: U64,
               ghost trace: seq<Access>, ghost end: Point)
      requires sent != [] && n == |sent| && start.thread.place == Sending(sent, remainder)
      requires start.counter == queued.value == held && start.others == others
      modifies tx, queued, this`delivered
      ensures tx.open == old(tx.open)
      ensures tx.queue == if tx.open then old(tx.queue) + [sent] else old(tx.queue)
      ensures delivered == old(delivered) + taken && taken == if tx.open then sent else []
      ensures result == if !tx.open then Err(sent + remainder)
        else if remainder == [] then Ok(()) else Err(remainder)
      ensures tx.open ==> queued.value == old(queued.value)
      ensures !tx.open ==> queued.value == WrapSub(left, n) && Stems(left, others, held)
      ensures Follows(cfg, start, trace, end)
      ensures end.thread == start.thread.Finish(taken, result) && end.counter == queued.value
    {
      left, trace, end := 0, [], start;
      Grown(delivered);
      var ok := tx.Send(sent);
      FollowsOneMore(cfg, start, trace, end, Sends(ok));
      trace, end := trace + [Sends(ok)], end.After(cfg, Sends(ok));
      if ok {
        delivered := delivered + sent;
        return if remainder == [] then Ok(()) else Err(remainder), sent, 0, trace, end;
      }
      FollowsOneMore(cfg, start, trace, end, Releases(end.Found()));
      trace, end := trace + [Releases(end.Found())], end.After(cfg, Releases(end.Found()));
      var rest := Interfere(others);
      left := queued.value;
      queued.FetchSub(n);
      return Err(sent + remainder), [], left, trace, end;
    }

    /** A push of whole frames, after the cut. */
    method PushKept(kept: seq<real>, others: seq<U64>, ghost start: Point)
      returns (result: Result<(), seq<real>>, ghost taken: seq<real>, ghost found: U64, ghost left: U64,
               ghost trace: seq<Access>, ghost end: Point)
      requires cfg.Usable() && |kept| >= cfg.channels && cfg.Aligned(kept) == kept
      requires start.thread.place == Loading(kept) && start.counter == queued.value && start.others == others
      modifies tx, queued, this`delivered
      ensures tx.open == old(tx.open)
      ensures tx.queue == if taken == [] then old(tx.queue) else old(tx.queue) + [taken]
      ensures delivered == old(delivered) + taken
      ensures Call(kept, taken, result).Honest(cfg)
      ensures Stems(found, others, old(queued.value))
      ensures taken == Took(cfg, kept, tx.open, found) && queued.value == Left(cfg, kept, tx.open, found, left)
      ensures !tx.open ==> Stems(left, others, Held(cfg, kept, found))
      ensures Follows(cfg, start, trace, end)
      ensures end.thread == start.thread.Finish(taken, result) && end.counter == queued.value
    {
      Grown(delivered);
      ghost var first, second, mid;
      var n, seen, rest;
      n, seen, rest, first, mid := Reserve(kept, others, start);
      BothHonest(cfg, kept, seen, n);
      if n == 0 {
        NoRoom(cfg, kept, tx.open, others, seen);
        return Err(kept), [], seen, seen, first, mid;
      }
      var sent, remainder := kept[..n], kept[n..];
      ghost var held := seen + n;
      result, taken, left, second, end := Transfer(sent, remainder, n, held, rest, mid);
      FollowsOn(cfg, start, first, mid, second, end);
      found, trace := seen, first + second;
      Explained(cfg, kept, n, held, tx.open, others, rest, found, left, queued.value);
    }

    /**
     * A push that sent something reserved its room in one exchange, and sent as many whole frames as the
     * counter left room for then; a push that sent nothing left the channel alone, and takes its reservation out of
     * whatever the counter then held. Its accesses (`trace`) are those of one writer of the interleaving
     * system, from rest to rest.
     */
    method TryPush(samples: seq<real>, others: seq<U64>)
      returns (result: Result<(), seq<real>>, ghost taken: seq<real>, ghost found: U64, ghost left: U64,
               ghost trace: seq<Access>, ghost end: Point)
      modifies tx, queued, this`delivered, this`calls
      ensures Call(samples, taken, result).Honest(cfg)
      ensures calls == old(calls) + [Call(samples, taken, result)] && (old(Logged()) ==> Logged())
      ensures tx.open == old(tx.open)
      ensures tx.queue == if taken == [] then old(tx.queue) else old(tx.queue) + [taken]
      ensures delivered == old(delivered) + taken
      ensures taken == Took(cfg, cfg.Aligned(samples), tx.open, found)
      ensures cfg.Aligned(samples) == [] ==> queued.value == old(queued.value)
      ensures cfg.Aligned(samples) != [] ==>
        && Stems(found, others, old(queued.value))
        && queued.value == Left(cfg, cfg.Aligned(samples), tx.open, found, left)
        && (!tx.open ==> Stems(left, others, Held(cfg, cfg.Aligned(samples), found)))
      ensures Follows(cfg, Point(Thread(Idle, [], []), old(queued.value), others), trace, end)
      ensures end.thread == Thread(Idle, samples, [Call(samples, taken, result)]) && end.counter == queued.value
    {
      ghost var start, first := Point(Thread(Idle, [], []), queued.value, others), Begins(samples);
      FollowsOneMore(cfg, start, [], start, first);
      taken, found, left, trace, end := [], 0, 0, [first], start.After(cfg, first);
      Grown(delivered);
      if samples == [] || cfg.maxSamples == 0 || cfg.channels == 0 {
        Log(samples, [], Ok(()));
        return Ok(()), [], 0, 0, trace, end;
      }
      var alignedLen := Product(Frames(|samples|, cfg.channels), cfg.channels);
      if alignedLen == 0 {
        Log(samples, [], Ok(()));
        return Ok(()), [], 0, 0, trace, end;
      }
      var kept := samples;
      if alignedLen < |kept| {
        kept := kept[..alignedLen];
      }
      assert kept == cfg.Aligned(samples);
      AlignedHasFrame(cfg, samples);
      AlignedTwice(cfg, samples);
      ghost var begun, more := end, [];
      result, taken, found, left, more, end := PushKept(kept, others, end);
      FollowsOn(cfg, start, trace, begun, more, end);
      trace := trace + more;
      Log(samples, taken, result);
    }

    /** Notes a finished push. */
    ghost method Log(samples: seq<real>, taken: seq<real>, result: Result<(), seq<real>>)
      modifies this`calls
      ensures calls == old(calls) + [Call(samples, taken, result)]
      ensures Delivered(calls) == Delivered(old(calls)) + taken
    {
      ghost var call := Call(samples, taken, result);
      assert (calls + [call])[..|calls|] == calls;
      calls := calls + [call];
    }
  }

  /** The counter right after a reservation against `found`. */
  ghost function Held(cfg: Config, kept: seq<real>, found: U64): U64 {
    if !cfg.Usable() || cfg.Room(found) == 0 then found else found + cfg.WriteLength(found, kept)
  }

  /** What a push that keeps `kept` and finds `found` in the counter sends. */
  ghost function Took(cfg: Config, kept: seq<real>, open: bool, found: U64): seq<real> {
    if !open || !cfg.Usable() || cfg.Room(found) == 0 then [] else kept[..cfg.WriteLength(found, kept)]
  }

  /** The counter after such a push; without a receiver the reservation comes out of what then was there. */
  ghost function Left(cfg: Config, kept: seq<real>, open: bool, found: U64, left: U64): U64 {
    if open then Held(cfg, kept, found) else WrapSub(left, Held(cfg, kept, found) - found)
  }

  /** A push takes whole frames, no more than fit, and takes some when there is room for one. */
  lemma {:induction false} TookWhatFits(cfg: Config, kept: seq<real>, open: bool, found: U64)
    ensures var taken := Took(cfg, kept, open, found);
      && taken <= kept && (taken != [] ==> open && cfg.WholeFrames(|taken|) && found + |taken| <= cfg.maxSamples)
      && (open && cfg.Usable() && |kept| >= cfg.channels ==>
            (taken == [] <==> cfg.maxSamples < found + cfg.channels))
  {
    if cfg.Usable() {
      OnlyWholeFrames(cfg, found, kept);
    }
  }

  /** A push takes all it keeps exactly when there is a receiver and room for every frame. */
  lemma {:induction false} TookAllIff(cfg: Config, samples: seq<real>, open: bool, found: U64)
    requires cfg.Aligned(samples) != []
    ensures cfg.channels > 0
    ensures Took(cfg, cfg.Aligned(samples), open, found) == cfg.Aligned(samples)
       <==> open && cfg.Room(found) >= Frames(|samples|, cfg.channels)
    ensures open && cfg.Room(found) < Frames(|samples|, cfg.channels) ==>
      cfg.Room(Held(cfg, cfg.Aligned(samples), found)) == 0
  {
    var kept, frames := cfg.Aligned(samples), Frames(|samples|, cfg.channels);
    FrameCountIsUnique(cfg, kept, frames);
    if 0 < cfg.Room(found) < frames {
      ScalesApart(cfg.Room(found), frames, cfg.channels);
      FullAfterRoom(cfg, found);
    }
  }

  /** Once all room is reserved, none is left. */
  lemma {:induction false} FullAfterRoom(cfg: Config, found: U64)
    requires cfg.channels > 0 && cfg.Room(found) > 0
    ensures cfg.Room(found + Product(cfg.Room(found), cfg.channels)) == 0
  {
    var left := cfg.maxSamples - found - Product(cfg.Room(found), cfg.channels);
    if Frames(left, cfg.channels) > 0 {
      Scales(1, Frames(left, cfg.channels), cfg.channels);
    }
  }

  /** A push that sends a reservation, and one that cannot, both account for their whole input. */
  lemma {:induction false} BothHonest(cfg: Config, kept: seq<real>, found: U64, n: nat)
    requires cfg.Usable() && kept != [] && cfg.Aligned(kept) == kept && n <= |kept|
    requires n > 0 ==> n == cfg.WriteLength(found, kept)
    ensures kept[..n] + kept[n..] == kept
    ensures Call(kept, [], Err(kept)).Honest(cfg)
    ensures n > 0 ==> Call(kept, kept[..n], if kept[n..] == [] then Ok(()) else Err(kept[n..])).Honest(cfg)
  {
    OnlyWholeFrames(cfg, found, kept);
    Grown(kept);
    Grown(kept[..n]);
  }

  lemma {:induction false} Explained(cfg: Config, kept: seq<real>, n: nat, held: U64, open: bool, others: seq<U64>,
                                     rest: seq<U64>, found: U64, left: U64, counter: U64)
    requires cfg.Usable() && cfg.Room(found) > 0 && 0 < n <= |kept| && n == cfg.WriteLength(found, kept)
    requires held == found + n <= cfg.maxSamples && (open ==> counter == held)
    requires !open ==> counter == WrapSub(left, n) && Stems(left, rest, held)
    requires Suffix(others, rest)
    ensures (if open then kept[..n] else []) == Took(cfg, kept, open, found)
    ensures counter == Left(cfg, kept, open, found, left)
    ensures !open ==> Stems(left, others, Held(cfg, kept, found))
  {
    if !open {
      StemsFromSuffix(others, held, rest, left);
    }
  }

  lemma {:induction false} NoRoom(cfg: Config, kept: seq<real>, open: bool, others: seq<U64>, found: U64)
    requires cfg.Usable() && cfg.Room(found) == 0
    ensures [] == Took(cfg, kept, open, found) && found == Left(cfg, kept, open, found, found)
    ensures Stems(found, others, Held(cfg, kept, found))
  {
  }

  lemma {:induction false} AlignedTwice(cfg: Config, samples: seq<real>)
    requires cfg.Usable()
    ensures cfg.Aligned(cfg.Aligned(samples)) == cfg.Aligned(samples)
  {
    OnlyWholeFrames(cfg, 0, samples);
    KeptWholeIff(cfg, cfg.Aligned(samples));
  }

  /** Where a reservation of `n` samples leaves a writer; one of nothing ends its push. */
  ghost function AfterReserve(t: Thread, kept: seq<real>, n: nat): Thread
    requires n <= |kept|
  {
    if n == 0 then t.Finish([], Err(kept)) else t.(place := Sending(kept[..n], kept[n..]))
  }

  lemma {:induction false} FollowsOn(
      cfg: Config, from: Point, first: seq<Access>, mid: Point, second: seq<Access>, to: Point)
    requires Follows(cfg, from, first, mid) && Follows(cfg, mid, second, to)
    ensures Follows(cfg, from, first + second, to)
    decreases |first|
  {
    if first == [] {
      Grown(second);
    } else {
      FollowsOn(cfg, from.After(cfg, first[0]), first[1..], mid, second, to);
      assert (first + second)[1..] == first[1..] + second;
    }
  }
}
