/** Any number of writers and the audio callback, sharing one counter of queued samples. */
module PcmProtocol {
  import opened Results
  import opened Sequences
  import opened PcmStream
  import opened Words

  datatype Config = Config(channels: nat, maxSamples: U64)
  {
    /** A writer that could ever deliver something. */
    predicate Usable() {
      maxSamples > 0 && channels > 0
    }

    /** What a push keeps of its input: whole frames only, nothing at all on an unusable writer. */
    function Aligned(samples: seq<real>): (kept: seq<real>)
      ensures kept <= samples
      ensures Usable() ==> |samples| - |kept| < channels
    {
      if !Usable() then [] else samples[..Product(Frames(|samples|, channels), channels)]
    }

    ghost predicate WholeFrames(n: nat) {
      exists frames: nat :: IsFrames(n, frames)
    }

    ghost predicate IsFrames(n: nat, frames: nat) {
      n == Product(frames, channels)
    }

    /** Frames that still fit when the counter reads `current`. */
    function Room(current: nat): (frames: nat)
      requires channels > 0
      ensures frames > 0 ==> current + Product(frames, channels) <= maxSamples
      ensures frames == 0 ==> maxSamples < current + channels
    {
      Frames(SaturatingSub(maxSamples, current), channels)
    }

    /** How many samples one reservation takes. */
    function WriteLength(current: nat, samples: seq<real>): (n: nat)
      requires channels > 0
      ensures n <= |samples|
      ensures Room(current) > 0 ==> current + n <= maxSamples
      ensures Room(current) > 0 && |samples| >= channels ==> n >= channels
    {
      var frames := MinNat(Room(current), Frames(|samples|, channels));
      assert frames > 0 ==> Product(frames, channels) >= channels by {
        if frames > 0 { Scales(1, frames, channels); }
      }
      assert Product(frames, channels) <= Product(Room(current), channels) by {
        Scales(frames, Room(current), channels);
      }
      assert Product(frames, channels) <= Product(Frames(|samples|, channels), channels) by {
        Scales(frames, Frames(|samples|, channels), channels);
      }
      assert |samples| >= channels ==> Frames(|samples|, channels) > 0;
      Product(frames, channels)
    }
  }

  lemma {:induction false} Scales(a: nat, b: nat, factor: nat)
    requires a <= b
    ensures Product(a, factor) <= Product(b, factor)
  {
    assert b * factor == a * factor + (b - a) * factor;
  }

  /** One finished push: what came in, what was sent, and what the caller was told. */
  datatype Call = Call(input: seq<real>, taken: seq<real>, result: Result<(), seq<real>>)
  {
    /** What the caller still owns. */
    function Returned(): seq<real> {
      if result.Ok? then [] else result.error
    }

    /** Nothing of the kept input is lost or duplicated, and an error always hands something back. */
    ghost predicate Honest(cfg: Config) {
      && taken + Returned() == cfg.Aligned(input)
      && (result.Err? ==> result.error != [])
      && (taken != [] ==> cfg.WholeFrames(|taken|))
    }
  }

  lemma {:induction false} ScalesApart(a: nat, b: nat, factor: nat)
    requires a < b
    ensures Product(a, factor) + factor <= Product(b, factor)
  {
    assert b * factor == a * factor + factor + (b - a - 1) * factor;
  }

  lemma {:induction false} OnlyWholeFrames(cfg: Config, current: nat, samples: seq<real>)
    requires cfg.Usable()
    ensures cfg.WholeFrames(|cfg.Aligned(samples)|)
    ensures cfg.WholeFrames(cfg.WriteLength(current, samples))
  {
    assert cfg.IsFrames(|cfg.Aligned(samples)|, Frames(|samples|, cfg.channels));
    var frames := MinNat(cfg.Room(current), Frames(|samples|, cfg.channels));
    assert cfg.IsFrames(cfg.WriteLength(current, samples), frames);
  }

  /** A push keeps its input in full exactly when it is empty, or whole frames on a usable writer. */
  lemma {:induction false} KeptWholeIff(cfg: Config, input: seq<real>)
    ensures cfg.Aligned(input) == input <==> input == [] || (cfg.Usable() && cfg.WholeFrames(|input|))
  {
    if cfg.Usable() {
      OnlyWholeFrames(cfg, 0, input);
      if cfg.WholeFrames(|input|) {
        var frames: nat :| cfg.IsFrames(|input|, frames);
        FrameCountIsUnique(cfg, input, frames);
      }
    }
  }

  lemma {:induction false} FrameCountIsUnique(cfg: Config, input: seq<real>, frames: nat)
    requires cfg.channels > 0 && cfg.IsFrames(|input|, frames)
    ensures frames == Frames(|input|, cfg.channels)
  {
    var kept := Frames(|input|, cfg.channels);
    if frames < kept {
      ScalesApart(frames, kept, cfg.channels);
    } else if kept < frames {
      ScalesApart(kept, frames, cfg.channels);
    }
  }

  lemma {:induction false} WholeRest(cfg: Config, n: nat, part: nat)
    requires cfg.WholeFrames(n) && cfg.WholeFrames(part) && part <= n && cfg.channels > 0
    ensures cfg.WholeFrames(n - part)
  {
    var a: nat :| cfg.IsFrames(n, a);
    var b: nat :| cfg.IsFrames(part, b);
    if a < b {
      ScalesApart(a, b, cfg.channels);
    }
    assert Product(a - b, cfg.channels) == Product(a, cfg.channels) - Product(b, cfg.channels);
    assert cfg.IsFrames(n - part, a - b);
  }

  datatype Place =
    | Idle
    | Loading(samples: seq<real>)
    | Swapping(samples: seq<real>, current: nat)
    | Sending(sent: seq<real>, remainder: seq<real>)
    | GivingBack(sent: seq<real>, remainder: seq<real>)

  datatype Thread = Thread(place: Place, input: seq<real>, calls: seq<Call>)
  {
    predicate Reserving() {
      place.Sending? || place.GivingBack?
    }

    /** Room this writer has reserved and neither used nor given back. */
    function Reserved(): nat {
      if Reserving() then |place.sent| else 0
    }

    /** The samples of the push in progress. */
    function Held(): seq<real> {
      match place
      case Idle => []
      case Loading(samples) => samples
      case Swapping(samples, _) => samples
      case Sending(sent, remainder) => sent + remainder
      case GivingBack(sent, remainder) => sent + remainder
    }

    function Finish(taken: seq<real>, result: Result<(), seq<real>>): Thread {
      Thread(Idle, input, calls + [Call(input, taken, result)])
    }
  }

  /** One access of a push to what the threads share, with the value it finds there. */
  datatype Access =
    | Begins(input: seq<real>)
    | Reads(seen: U64)
    | Exchanges(seen: U64)
    | Sends(open: bool)
    | Releases(seen: U64)
  {
    predicate OnCounter() {
      Reads? || Exchanges? || Releases?
    }
  }

  /** Reading and exchanging divide by the channel count; no writer without channels gets that far. */
  predicate CanDo(cfg: Config, t: Thread, access: Access) {
    match access
    case Begins(_) => t.place.Idle?
    case Reads(_) => t.place.Loading? && cfg.channels > 0
    case Exchanges(_) => t.place.Swapping? && cfg.channels > 0
    case Sends(_) => t.place.Sending?
    case Releases(_) => t.place.GivingBack?
  }

  /** Where a writer goes next. */
  function Acted(cfg: Config, t: Thread, access: Access): Thread
    requires CanDo(cfg, t, access)
  {
    match access
    case Begins(input) =>
      var samples := cfg.Aligned(input);
      if samples == [] then t.(input := input).Finish([], Ok(())) else t.(place := Loading(samples), input := input)
    case Reads(seen) =>
      if cfg.Room(seen) == 0 then t.Finish([], Err(t.place.samples))
      else t.(place := Swapping(t.place.samples, seen))
    case Exchanges(seen) =>
      if seen != t.place.current then t.(place := Loading(t.place.samples)) else
      var n := cfg.WriteLength(seen, t.place.samples);
      t.(place := Sending(t.place.samples[..n], t.place.samples[n..]))
    case Sends(open) =>
      if !open then t.(place := GivingBack(t.place.sent, t.place.remainder))
      else t.Finish(t.place.sent, if t.place.remainder == [] then Ok(()) else Err(t.place.remainder))
    case Releases(_) => t.Finish([], Err(t.place.sent + t.place.remainder))
  }

  /** What an access leaves in the counter. */
  function Leaves(cfg: Config, t: Thread, access: Access): U64
    requires CanDo(cfg, t, access) && access.OnCounter()
  {
    match access
    case Reads(seen) => seen
    case Exchanges(seen) => WrapAdd(seen, Acted(cfg, t, access).Reserved())
    case Releases(seen) => WrapSub(seen, t.Reserved())
  }

  datatype Message = Message(writer: nat, samples: seq<real>)

  datatype Callback = Waiting | Draining(length: nat) | Mixing(length: nat) | Returning(consumed: nat)

  /** `played`, `sent` and `lost` only record; the rest is what the threads share. */
  datatype State = State(
    queued: U64,
    threads: seq<Thread>,
    channel: seq<Message>,
    open: bool,
    callback: Callback,
    stream: seq<real>,
    played: seq<real>,
    sent: seq<Message>,
    lost: nat)

  datatype Step =
    | Push(writer: nat, samples: seq<real>)
    | Load(writer: nat)
    | Swap(writer: nat)
    | Send(writer: nat)
    | GiveBack(writer: nat)
    | Begin(length: nat)
    | Receive
    | Drained
    | Mix
    | Return
    | Close

  function Initial(writers: nat): State {
    State(0, seq(writers, _ => Thread(Idle, [], [])), [], true, Waiting, [], [], [], 0)
  }

  predicate WriterStep(step: Step) {
    step.Push? || step.Load? || step.Swap? || step.Send? || step.GiveBack?
  }

  /** What a writer's step finds in the shared state. */
  function AccessOf(s: State, step: Step): Access
    requires WriterStep(step)
  {
    match step
    case Push(_, input) => Begins(input)
    case Load(_) => Reads(s.queued)
    case Swap(_) => Exchanges(s.queued)
    case Send(_) => Sends(s.open)
    case GiveBack(_) => Releases(s.queued)
  }

  predicate Enabled(cfg: Config, s: State, step: Step) {
    match step
    case Begin(_) => s.open && s.callback.Waiting?
    case Receive => s.callback.Draining? && s.channel != []
    case Drained => s.callback.Draining? && s.channel == []
    case Mix => s.callback.Mixing?
    case Return => s.callback.Returning?
    case Close => s.open && s.callback.Waiting?
    case _ => step.writer < |s.threads| && CanDo(cfg, s.threads[step.writer], AccessOf(s, step))
  }

  /** The writer's own part of a step. */
  function Moved(cfg: Config, s: State, step: Step): Thread
    requires WriterStep(step) && Enabled(cfg, s, step)
  {
    Acted(cfg, s.threads[step.writer], AccessOf(s, step))
  }

  function Next(cfg: Config, s: State, step: Step): State {
    if !Enabled(cfg, s, step) then s else
    match step
    case Push(w, _) => s.(threads := s.threads[w := Moved(cfg, s, step)])
    case Load(w) => s.(threads := s.threads[w := Moved(cfg, s, step)])
    case Swap(w) =>
      s.(threads := s.threads[w := Moved(cfg, s, step)], queued := Leaves(cfg, s.threads[w], Exchanges(s.queued)))
    case Send(w) =>
      var delivered := if s.open then [Message(w, s.threads[w].place.sent)] else [];
      s.(threads := s.threads[w := Moved(cfg, s, step)], channel := s.channel + delivered, sent := s.sent + delivered)
    case GiveBack(w) =>
      s.(threads := s.threads[w := Moved(cfg, s, step)], queued := Leaves(cfg, s.threads[w], Releases(s.queued)))
    case Begin(length) => s.(callback := Draining(length))
    case Receive => s.(channel := s.channel[1..], stream := s.stream + s.channel[0].samples)
    case Drained => s.(callback := Mixing(s.callback.length))
    case Mix =>
      var k := MinNat(s.callback.length, |s.stream|);
      s.(callback := Returning(k), stream := s.stream[k..], played := s.played + s.stream[..k])
    case Return => s.(callback := Waiting, queued := WrapSub(s.queued, s.callback.consumed))
    case Close => s.(open := false, channel := [], stream := [], lost := |s.stream| + |Flat(s.channel)|)
  }

  function Run(cfg: Config, s: State, steps: seq<Step>): State
    decreases |steps|
  {
    if steps == [] then s else Run(cfg, Next(cfg, s, steps[0]), steps[1..])
  }

  /** All samples of a list of messages, in order. */
  function Flat(messages: seq<Message>): seq<real> {
    if messages == [] then [] else messages[0].samples + Flat(messages[1..])
  }

  /** The samples one writer sent, in the order it sent them. */
  function SentBy(messages: seq<Message>, w: nat): seq<real> {
    if messages == [] then [] else
    var last := messages[|messages| - 1];
    SentBy(messages[..|messages| - 1], w) + (if last.writer == w then last.samples else [])
  }

  function Reserved(threads: seq<Thread>): nat {
    if threads == [] then 0 else threads[0].Reserved() + Reserved(threads[1..])
  }

  /** Everything a writer was told it had delivered. */
  function Delivered(calls: seq<Call>): seq<real> {
    if calls == [] then [] else Delivered(calls[..|calls| - 1]) + calls[|calls| - 1].taken
  }

  ghost predicate AllHonest(cfg: Config, calls: seq<Call>) {
    calls == [] || (AllHonest(cfg, calls[..|calls| - 1]) && calls[|calls| - 1].Honest(cfg))
  }

  /** A push in progress still holds its whole kept input, and has reserved whole frames only. */
  ghost predicate PlaceOk(cfg: Config, t: Thread) {
    t.place.Idle? || (
      && cfg.Usable()
      && t.Held() == cfg.Aligned(t.input) != []
      && (t.place.Swapping? ==> cfg.Room(t.place.current) > 0)
      && (t.Reserving() ==> cfg.WholeFrames(|t.place.sent|) && t.place.sent != [])
    )
  }

  /** What holds of one writer, given the samples of its that went through the channel. */
  ghost predicate ThreadOk(cfg: Config, t: Thread, mine: seq<real>) {
    && PlaceOk(cfg, t)
    && AllHonest(cfg, t.calls)
    && Delivered(t.calls) == mine
  }

  ghost predicate WritersOk(cfg: Config, threads: seq<Thread>, sent: seq<Message>) {
    forall w: nat :: w < |threads| ==> ThreadOk(cfg, threads[w], SentBy(sent, w))
  }

  /** The shared counter: reserved, in the channel, in the stream, consumed but not given back, and lost. */
  ghost predicate CounterOk(cfg: Config, s: State) {
    && s.queued == Reserved(s.threads) + |Flat(s.channel)| + |s.stream|
                   + (if s.callback.Returning? then s.callback.consumed else 0) + s.lost
    && s.queued <= cfg.maxSamples
    && (s.open ==> s.lost == 0)
  }

  /** Samples are played in the order in which they entered the channel, each once. */
  ghost predicate OrderOk(s: State) {
    if s.open then Flat(s.sent) == s.played + (s.stream + Flat(s.channel))
    else s.played <= Flat(s.sent) && s.channel == [] && s.stream == [] && s.callback.Waiting?
  }

  ghost predicate Inv(cfg: Config, s: State) {
    WritersOk(cfg, s.threads, s.sent) && CounterOk(cfg, s) && OrderOk(s)
  }

  // ----- Sums and logs -----

  lemma {:induction false} ReservedReplaced(threads: seq<Thread>, w: nat, t: Thread)
    requires w < |threads|
    ensures Reserved(threads[w := t]) + threads[w].Reserved() == Reserved(threads) + t.Reserved()
  {
    if w == 0 {
      assert threads[w := t][1..] == threads[1..];
    } else {
      ReservedReplaced(threads[1..], w - 1, t);
      assert threads[w := t][1..] == threads[1..][w - 1 := t];
    }
  }

  lemma {:induction false} ReservedIsPart(threads: seq<Thread>, w: nat)
    requires w < |threads|
    ensures threads[w].Reserved() <= Reserved(threads)
  {
    if w > 0 {
      ReservedIsPart(threads[1..], w - 1);
    }
  }

  lemma {:induction false} ReservedWithin(cfg: Config, s: State, w: nat)
    requires CounterOk(cfg, s) && w < |s.threads|
    ensures s.threads[w].Reserved() <= s.queued
  {
    ReservedIsPart(s.threads, w);
  }

  lemma {:induction false} FlatAppend(messages: seq<Message>, last: Message)
    ensures Flat(messages + [last]) == Flat(messages) + last.samples
  {
    if messages == [] {
      assert messages + [last] == [last];
      assert [last][1..] == [];
    } else {
      FlatAppend(messages[1..], last);
      assert (messages + [last])[1..] == messages[1..] + [last];
      assert (messages + [last])[0] == messages[0];
      Appended(messages[0].samples, Flat(messages[1..]), last.samples);
    }
  }

  lemma {:induction false} SentByAppend(messages: seq<Message>, last: Message, w: nat)
    ensures SentBy(messages + [last], w) == SentBy(messages, w) + (if last.writer == w then last.samples else [])
  {
    assert (messages + [last])[..|messages|] == messages;
  }

  lemma {:induction false} FinishOk(cfg: Config, t: Thread, taken: seq<real>, result: Result<(), seq<real>>,
      mine: seq<real>)
    requires AllHonest(cfg, t.calls) && Delivered(t.calls) == mine
    requires Call(t.input, taken, result).Honest(cfg)
    ensures ThreadOk(cfg, t.Finish(taken, result), mine + taken)
  {
    var call := Call(t.input, taken, result);
    assert (t.calls + [call])[..|t.calls|] == t.calls;
  }

  lemma {:induction false} HandedBack(cfg: Config, t: Thread, mine: seq<real>)
    requires ThreadOk(cfg, t, mine) && !t.place.Idle?
    ensures ThreadOk(cfg, t.Finish([], Err(t.Held())), mine)
  {
    assert [] + t.Held() == t.Held();
    Grown(mine);
    FinishOk(cfg, t, [], Err(t.Held()), mine);
  }

  // ----- What a step keeps of the writer that takes it -----

  lemma {:induction false} BeginsKeeps(cfg: Config, t: Thread, input: seq<real>, mine: seq<real>)
    requires CanDo(cfg, t, Begins(input)) && ThreadOk(cfg, t, mine)
    ensures ThreadOk(cfg, Acted(cfg, t, Begins(input)), mine)
  {
    if cfg.Aligned(input) == [] {
      Grown(mine);
      FinishOk(cfg, t.(input := input), [], Ok(()), mine);
    }
  }

  lemma {:induction false} ReadsKeeps(cfg: Config, t: Thread, seen: U64, mine: seq<real>)
    requires CanDo(cfg, t, Reads(seen)) && ThreadOk(cfg, t, mine)
    ensures ThreadOk(cfg, Acted(cfg, t, Reads(seen)), mine)
  {
    if cfg.Room(seen) == 0 {
      HandedBack(cfg, t, mine);
    }
  }

  lemma {:induction false} ExchangesKeeps(cfg: Config, t: Thread, seen: U64, mine: seq<real>)
    requires CanDo(cfg, t, Exchanges(seen)) && ThreadOk(cfg, t, mine)
    ensures ThreadOk(cfg, Acted(cfg, t, Exchanges(seen)), mine)
  {
    if seen == t.place.current {
      AlignedHasFrame(cfg, t.input);
      OnlyWholeFrames(cfg, seen, t.place.samples);
      var n := cfg.WriteLength(seen, t.place.samples);
      assert t.place.samples[..n] + t.place.samples[n..] == t.place.samples;
    }
  }

  lemma {:induction false} SendsKeeps(cfg: Config, t: Thread, open: bool, mine: seq<real>)
    requires CanDo(cfg, t, Sends(open)) && ThreadOk(cfg, t, mine)
    ensures ThreadOk(cfg, Acted(cfg, t, Sends(open)), if open then mine + t.place.sent else mine)
  {
    if open {
      FinishOk(cfg, t, t.place.sent, if t.place.remainder == [] then Ok(()) else Err(t.place.remainder), mine);
    }
  }

  lemma {:induction false} ReleasesKeeps(cfg: Config, t: Thread, seen: U64, mine: seq<real>)
    requires CanDo(cfg, t, Releases(seen)) && ThreadOk(cfg, t, mine)
    ensures ThreadOk(cfg, Acted(cfg, t, Releases(seen)), mine)
  {
    HandedBack(cfg, t, mine);
  }

  lemma {:induction false} AlignedHasFrame(cfg: Config, input: seq<real>)
    requires cfg.Usable() && cfg.Aligned(input) != []
    ensures |cfg.Aligned(input)| >= cfg.channels
  {
    var frames := Frames(|input|, cfg.channels);
    if frames > 0 {
      Scales(1, frames, cfg.channels);
    }
  }

  lemma {:induction false} SenderOnly(cfg: Config, threads: seq<Thread>, sent: seq<Message>, w: nat, t: Thread,
      message: Message)
    requires WritersOk(cfg, threads, sent) && w < |threads| && message.writer == w
    requires ThreadOk(cfg, t, SentBy(sent, w) + message.samples)
    ensures WritersOk(cfg, threads[w := t], sent + [message])
  {
    forall v: nat | v < |threads|
      ensures ThreadOk(cfg, threads[w := t][v], SentBy(sent + [message], v))
    {
      SentByAppend(sent, message, v);
      if v != w {
        Grown(SentBy(sent, v));
        assert ThreadOk(cfg, threads[v], SentBy(sent, v));
      }
    }
  }

  lemma {:induction false} OneMoved(cfg: Config, threads: seq<Thread>, sent: seq<Message>, w: nat, t: Thread)
    requires WritersOk(cfg, threads, sent) && w < |threads| && ThreadOk(cfg, t, SentBy(sent, w))
    ensures WritersOk(cfg, threads[w := t], sent)
  {
  }

  // ----- What every step keeps -----

  lemma {:induction false} SendKeepsWriters(cfg: Config, s: State, w: nat)
    requires WritersOk(cfg, s.threads, s.sent) && Enabled(cfg, s, Send(w))
    ensures var next := Next(cfg, s, Send(w)); WritersOk(cfg, next.threads, next.sent)
  {
    var t := Moved(cfg, s, Send(w));
    SendsKeeps(cfg, s.threads[w], s.open, SentBy(s.sent, w));
    if s.open {
      SenderOnly(cfg, s.threads, s.sent, w, t, Message(w, s.threads[w].place.sent));
    } else {
      Grown(s.sent);
      OneMoved(cfg, s.threads, s.sent, w, t);
    }
  }

  lemma {:induction false} WriterKept(cfg: Config, s: State, step: Step)
    requires WriterStep(step) && !step.Send?
    requires WritersOk(cfg, s.threads, s.sent) && Enabled(cfg, s, step)
    ensures ThreadOk(cfg, Moved(cfg, s, step), SentBy(s.sent, step.writer))
  {
    var t, mine := s.threads[step.writer], SentBy(s.sent, step.writer);
    match step
    case Push(_, input) => BeginsKeeps(cfg, t, input, mine);
    case Load(_) => ReadsKeeps(cfg, t, s.queued, mine);
    case Swap(_) => ExchangesKeeps(cfg, t, s.queued, mine);
    case GiveBack(_) => ReleasesKeeps(cfg, t, s.queued, mine);
  }

  lemma {:induction false} WritersKept(cfg: Config, s: State, step: Step)
    requires WritersOk(cfg, s.threads, s.sent) && Enabled(cfg, s, step)
    ensures var next := Next(cfg, s, step); WritersOk(cfg, next.threads, next.sent)
  {
    if step.Send? {
      SendKeepsWriters(cfg, s, step.writer);
    } else if WriterStep(step) {
      WriterKept(cfg, s, step);
      OneMoved(cfg, s.threads, s.sent, step.writer, Moved(cfg, s, step));
    }
  }

  lemma {:induction false} SwapCounter(cfg: Config, s: State, w: nat)
    requires Enabled(cfg, s, Swap(w)) && ThreadOk(cfg, s.threads[w], SentBy(s.sent, w)) && CounterOk(cfg, s)
    ensures CounterOk(cfg, Next(cfg, s, Swap(w)))
  {
    ReservedReplaced(s.threads, w, Moved(cfg, s, Swap(w)));
  }

  lemma {:induction false} GiveBackCounter(cfg: Config, s: State, w: nat)
    requires CounterOk(cfg, s) && Enabled(cfg, s, GiveBack(w))
    ensures CounterOk(cfg, Next(cfg, s, GiveBack(w)))
  {
    ReservedReplaced(s.threads, w, Moved(cfg, s, GiveBack(w)));
    ReservedWithin(cfg, s, w);
  }

  lemma {:induction false} SendCounter(cfg: Config, s: State, w: nat)
    requires CounterOk(cfg, s) && Enabled(cfg, s, Send(w))
    ensures CounterOk(cfg, Next(cfg, s, Send(w)))
  {
    ReservedReplaced(s.threads, w, Moved(cfg, s, Send(w)));
    if s.open {
      FlatAppend(s.channel, Message(w, s.threads[w].place.sent));
    } else {
      Grown(s.channel);
    }
  }

  lemma {:induction false} CounterKept(cfg: Config, s: State, step: Step)
    requires WritersOk(cfg, s.threads, s.sent) && CounterOk(cfg, s) && Enabled(cfg, s, step)
    ensures CounterOk(cfg, Next(cfg, s, step))
  {
    match step
    case Push(w, _) => ReservedReplaced(s.threads, w, Moved(cfg, s, step));
    case Load(w) => ReservedReplaced(s.threads, w, Moved(cfg, s, step));
    case Swap(w) => SwapCounter(cfg, s, w);
    case GiveBack(w) => GiveBackCounter(cfg, s, w);
    case Send(w) => SendCounter(cfg, s, w);
    case _ =>
  }

  lemma {:induction false} OrderKept(cfg: Config, s: State, step: Step)
    requires OrderOk(s) && Enabled(cfg, s, step)
    ensures OrderOk(Next(cfg, s, step))
  {
    match step
    case Send(w) =>
      if s.open {
        var message := Message(w, s.threads[w].place.sent);
        FlatAppend(s.channel, message);
        FlatAppend(s.sent, message);
        Appended(s.played, s.stream + Flat(s.channel), message.samples);
        Appended(s.stream, Flat(s.channel), message.samples);
      } else {
        Grown(s.channel);
        Grown(s.sent);
      }
    case Receive =>
      Appended(s.stream, s.channel[0].samples, Flat(s.channel[1..]));
    case Mix =>
      var k := MinNat(s.callback.length, |s.stream|);
      assert s.stream == s.stream[..k] + s.stream[k..];
      Appended(s.stream[..k], s.stream[k..], Flat(s.channel));
      Appended(s.played, s.stream[..k], s.stream[k..] + Flat(s.channel));
    case _ =>
  }

  lemma {:induction false} StepKeeps(cfg: Config, s: State, step: Step)
    requires Inv(cfg, s)
    ensures Inv(cfg, Next(cfg, s, step))
  {
    if Enabled(cfg, s, step) {
      WritersKept(cfg, s, step);
      CounterKept(cfg, s, step);
      OrderKept(cfg, s, step);
    }
  }

  lemma {:induction false} InitialOk(cfg: Config, writers: nat)
    ensures Inv(cfg, Initial(writers))
  {
    NothingReserved(writers);
  }

  lemma {:induction false} NothingReserved(writers: nat)
    ensures Reserved(Initial(writers).threads) == 0
  {
    if writers > 0 {
      NothingReserved(writers - 1);
      assert Initial(writers).threads[1..] == Initial(writers - 1).threads;
    }
  }

  /** Main result: every interleaving of writers and callback keeps the books. */
  lemma {:induction false} EveryRunKeepsTheBooks(cfg: Config, s: State, steps: seq<Step>)
    requires Inv(cfg, s)
    ensures Inv(cfg, Run(cfg, s, steps))
    decreases |steps|
  {
    if steps != [] {
      StepKeeps(cfg, s, steps[0]);
      EveryRunKeepsTheBooks(cfg, Next(cfg, s, steps[0]), steps[1..]);
    }
  }

  lemma {:induction false} BooksAt(cfg: Config, writers: nat, steps: seq<Step>)
    ensures Inv(cfg, Run(cfg, Initial(writers), steps))
  {
    InitialOk(cfg, writers);
    EveryRunKeepsTheBooks(cfg, Initial(writers), steps);
  }

  /** The counter is exact, stays within the capacity, and no `fetch_sub` takes more than it holds. */
  lemma {:induction false} CounterIsExact(cfg: Config, writers: nat, steps: seq<Step>)
    ensures var s := Run(cfg, Initial(writers), steps);
      && s.queued == Reserved(s.threads) + |Flat(s.channel)| + |s.stream|
                     + (if s.callback.Returning? then s.callback.consumed else 0) + s.lost
      && s.queued <= cfg.maxSamples
      && (s.callback.Returning? ==> s.callback.consumed <= s.queued)
      && (forall w: nat :: w < |s.threads| ==> s.threads[w].Reserved() <= s.queued)
      && (s.open ==> s.lost == 0)
  {
    var s := Run(cfg, Initial(writers), steps);
    BooksAt(cfg, writers, steps);
    forall w: nat | w < |s.threads|
      ensures s.threads[w].Reserved() <= s.queued
    {
      ReservedWithin(cfg, s, w);
    }
  }

  /** Once every writer and the callback are at rest, only samples still to be played occupy room. */
  lemma {:induction false} RoomComesBack(cfg: Config, writers: nat, steps: seq<Step>)
    requires var s := Run(cfg, Initial(writers), steps);
      s.open && s.callback.Waiting? && forall w: nat :: w < |s.threads| ==> s.threads[w].place.Idle?
    ensures var s := Run(cfg, Initial(writers), steps);
      s.queued == |Flat(s.sent)| - |s.played|
  {
    var s := Run(cfg, Initial(writers), steps);
    BooksAt(cfg, writers, steps);
    NoneReserved(s.threads);
  }

  lemma {:induction false} NoneReserved(threads: seq<Thread>)
    requires forall w: nat :: w < |threads| ==> threads[w].place.Idle?
    ensures Reserved(threads) == 0
  {
    if threads != [] {
      NoneReserved(threads[1..]);
    }
  }

  /** What is played is exactly what was sent, in channel order; nothing is skipped while the engine lives. */
  lemma {:induction false} PlaybackFollowsTheChannel(cfg: Config, writers: nat, steps: seq<Step>)
    ensures var s := Run(cfg, Initial(writers), steps);
      && s.played <= Flat(s.sent)
      && (s.open ==> Flat(s.sent) == s.played + (s.stream + Flat(s.channel)))
  {
    BooksAt(cfg, writers, steps);
  }

  /** Every finished push delivered exactly the part it did not hand back, and nothing else was sent for it. */
  lemma {:induction false} PushesAreHonest(cfg: Config, writers: nat, steps: seq<Step>, w: nat)
    requires w < |Run(cfg, Initial(writers), steps).threads|
    ensures var s := Run(cfg, Initial(writers), steps);
      && (forall i: nat :: i < |s.threads[w].calls| ==> s.threads[w].calls[i].Honest(cfg))
      && SentBy(s.sent, w) == Delivered(s.threads[w].calls)
  {
    var s := Run(cfg, Initial(writers), steps);
    BooksAt(cfg, writers, steps);
    assert ThreadOk(cfg, s.threads[w], SentBy(s.sent, w));
    forall i: nat | i < |s.threads[w].calls|
      ensures s.threads[w].calls[i].Honest(cfg)
    {
      HonestAt(cfg, s.threads[w].calls, i);
    }
  }

  /** The part of the first `n` samples in the channel's order that one writer sent. */
  function HeardOf(messages: seq<Message>, n: nat, w: nat): seq<real> {
    if messages == [] then [] else
    var k := MinNat(n, |messages[0].samples|);
    (if messages[0].writer == w then messages[0].samples[..k] else []) + HeardOf(messages[1..], n - k, w)
  }

  lemma {:induction false} SentByFirst(first: Message, messages: seq<Message>, w: nat)
    ensures SentBy([first] + messages, w) == (if first.writer == w then first.samples else []) + SentBy(messages, w)
  {
    if messages == [] {
      Grown([first]);
      assert [first][..0] == [];
      Grown(if first.writer == w then first.samples else []);
    } else {
      var init, last := messages[..|messages| - 1], messages[|messages| - 1];
      SentByFirst(first, init, w);
      assert [first] + messages == ([first] + init) + [last];
      SentByAppend([first] + init, last, w);
      Appended(if first.writer == w then first.samples else [], SentBy(init, w),
               if last.writer == w then last.samples else []);
    }
  }

  lemma {:induction false} HeardOfNothing(messages: seq<Message>, w: nat)
    ensures HeardOf(messages, 0, w) == []
  {
    if messages != [] {
      HeardOfNothing(messages[1..], w);
    }
  }

  lemma {:induction false} StartOfFirst(part: seq<real>, first: seq<real>, rest: seq<real>)
    requires part <= first
    ensures part + [] <= first + rest
  {
  }

  lemma {:induction false} PrefixAfter(start: seq<real>, part: seq<real>, whole: seq<real>)
    requires part <= whole
    ensures start + part <= start + whole
  {
  }

  /** What is heard of a writer is a prefix of what it sent. */
  lemma {:induction false} HeardIsPrefix(messages: seq<Message>, n: nat, w: nat)
    ensures HeardOf(messages, n, w) <= SentBy(messages, w)
  {
    if messages != [] {
      hide SentBy;
      var first, rest := messages[0], messages[1..];
      HeadAndRest(messages);
      SentByFirst(first, rest, w);
      var own := if first.writer == w then first.samples else [];
      var k := MinNat(n, |first.samples|);
      var part, later := if first.writer == w then first.samples[..k] else [], HeardOf(rest, n - k, w);
      assert HeardOf(messages, n, w) == part + later && SentBy(messages, w) == own + SentBy(rest, w);
      if n <= |first.samples| {
        HeardOfNothing(rest, w);
        StartOfFirst(part, own, SentBy(rest, w));
      } else {
        HeardIsPrefix(rest, n - k, w);
        assert part == own;
        PrefixAfter(own, later, SentBy(rest, w));
      }
    }
  }

  /** With a single writer, what is heard of it is all that is heard. */
  lemma {:induction false} HeardOfOnly(messages: seq<Message>, n: nat, w: nat)
    requires n <= |Flat(messages)| && forall i :: 0 <= i < |messages| ==> messages[i].writer == w
    ensures HeardOf(messages, n, w) == Flat(messages)[..n]
  {
    if messages != [] {
      var first, rest := messages[0].samples, messages[1..];
      if n <= |first| {
        HeardOfNothing(rest, w);
        assert (first + Flat(rest))[..n] == first[..n];
      } else {
        HeardOfOnly(rest, n - |first|, w);
        assert (first + Flat(rest))[..n] == first + Flat(rest)[..n - |first|];
      }
    }
  }

  lemma {:induction false} SendersExist(cfg: Config, s: State, steps: seq<Step>, writers: nat)
    requires |s.threads| == writers && forall i :: 0 <= i < |s.sent| ==> s.sent[i].writer < writers
    ensures var last := Run(cfg, s, steps);
      |last.threads| == writers && forall i :: 0 <= i < |last.sent| ==> last.sent[i].writer < writers
    decreases |steps|
  {
    if steps != [] {
      SendersExist(cfg, Next(cfg, s, steps[0]), steps[1..], writers);
    }
  }

  /**
   * In every run, what is heard of a writer is a prefix of what its finished pushes took, in their order; a single
   * writer hears nothing else.
   */
  lemma {:induction false} WriterIsHeardInOrder(cfg: Config, writers: nat, steps: seq<Step>, w: nat)
    requires w < writers
    ensures var s := Run(cfg, Initial(writers), steps);
      && |s.threads| == writers
      && HeardOf(s.sent, |s.played|, w) <= Delivered(s.threads[w].calls)
      && (writers == 1 ==> s.played == HeardOf(s.sent, |s.played|, w))
  {
    var s := Run(cfg, Initial(writers), steps);
    SendersExist(cfg, Initial(writers), steps, writers);
    PushesAreHonest(cfg, writers, steps, w);
    HeardIsPrefix(s.sent, |s.played|, w);
    PlaybackFollowsTheChannel(cfg, writers, steps);
    if writers == 1 {
      HeardOfOnly(s.sent, |s.played|, w);
    }
  }

  lemma {:induction false} HonestAt(cfg: Config, calls: seq<Call>, i: nat)
    requires AllHonest(cfg, calls) && i < |calls|
    ensures calls[i].Honest(cfg)
  {
    if i < |calls| - 1 {
      HonestAt(cfg, calls[..|calls| - 1], i);
    }
  }

  // ----- One push by itself -----

  /** A writer among others: they leave the next of `others` in the counter before each of its accesses to it. */
  datatype Point = Point(thread: Thread, counter: U64, others: seq<U64>)
  {
    /** What the next access to the counter finds. */
    function Found(): U64 {
      if others == [] then counter else others[0]
    }

    predicate Allows(cfg: Config, access: Access) {
      CanDo(cfg, thread, access) && (access.OnCounter() ==> access.seen == Found())
    }

    function After(cfg: Config, access: Access): Point
      requires Allows(cfg, access)
    {
      if access.OnCounter() then
        Point(Acted(cfg, thread, access), Leaves(cfg, thread, access), if others == [] then [] else others[1..])
      else Point(Acted(cfg, thread, access), counter, others)
    }
  }

  /** The accesses lead a writer from one point to another. */
  ghost predicate Follows(cfg: Config, from: Point, trace: seq<Access>, to: Point)
    decreases |trace|
  {
    if trace == [] then from == to
    else from.Allows(cfg, trace[0]) && Follows(cfg, from.After(cfg, trace[0]), trace[1..], to)
  }

  lemma {:induction false} FollowsOneMore(cfg: Config, from: Point, trace: seq<Access>, to: Point, access: Access)
    requires Follows(cfg, from, trace, to) && to.Allows(cfg, access)
    ensures Follows(cfg, from, trace + [access], to.After(cfg, access))
    decreases |trace|
  {
    if trace == [] {
      assert trace + [access] == [access];
      assert [access][1..] == [];
    } else {
      FollowsOneMore(cfg, from.After(cfg, trace[0]), trace[1..], to, access);
      assert (trace + [access])[1..] == trace[1..] + [access];
    }
  }

  /** The accesses of one writer during a run. */
  ghost function TraceOf(cfg: Config, s: State, steps: seq<Step>, w: nat): seq<Access>
    decreases |steps|
  {
    if steps == [] then [] else
    var rest := TraceOf(cfg, Next(cfg, s, steps[0]), steps[1..], w);
    if Enabled(cfg, s, steps[0]) && WriterStep(steps[0]) && steps[0].writer == w
    then [AccessOf(s, steps[0])] + rest else rest
  }

  /** The values these accesses find in the counter. */
  ghost function SeenIn(trace: seq<Access>): seq<U64> {
    if trace == [] then [] else
    (if trace[0].OnCounter() then [trace[0].seen] else []) + SeenIn(trace[1..])
  }

  /** In every run each writer goes through its own accesses as if it were alone with what they find. */
  lemma {:induction false} RunsFollow(cfg: Config, s: State, steps: seq<Step>, w: nat, counter: U64)
    returns (end: Point)
    requires w < |s.threads|
    ensures var trace, last := TraceOf(cfg, s, steps, w), Run(cfg, s, steps);
      && w < |last.threads| && end.thread == last.threads[w] && end.others == []
      && Follows(cfg, Point(s.threads[w], counter, SeenIn(trace)), trace, end)
    decreases |steps|
  {
    if steps == [] {
      end := Point(s.threads[w], counter, []);
    } else {
      var step, next := steps[0], Next(cfg, s, steps[0]);
      var rest := TraceOf(cfg, next, steps[1..], w);
      if Enabled(cfg, s, step) && WriterStep(step) && step.writer == w {
        var access := AccessOf(s, step);
        assert ([access] + rest)[1..] == rest;
        end := RunsFollow(cfg, next, steps[1..], w,
          if access.OnCounter() then Leaves(cfg, s.threads[w], access) else counter);
        StartsWith(cfg, s.threads[w], counter, access, rest, end);
      } else {
        StaysWhere(cfg, s, step, w);
        end := RunsFollow(cfg, next, steps[1..], w, counter);
      }
    }
  }

  lemma {:induction false} StaysWhere(cfg: Config, s: State, step: Step, w: nat)
    requires w < |s.threads|
    requires !(Enabled(cfg, s, step) && WriterStep(step) && step.writer == w)
    ensures w < |Next(cfg, s, step).threads| && Next(cfg, s, step).threads[w] == s.threads[w]
  {
  }

  lemma {:induction false} StartsWith(
      cfg: Config, t: Thread, counter: U64, access: Access, rest: seq<Access>, end: Point)
    requires CanDo(cfg, t, access)
    requires Follows(cfg, Point(Acted(cfg, t, access),
      if access.OnCounter() then Leaves(cfg, t, access) else counter, SeenIn(rest)), rest, end)
    ensures Follows(cfg, Point(t, counter, SeenIn([access] + rest)), [access] + rest, end)
  {
    assert ([access] + rest)[1..] == rest;
    if access.OnCounter() {
      assert ([access.seen] + SeenIn(rest))[1..] == SeenIn(rest);
    } else {
      Grown(SeenIn(rest));
    }
  }
}
