/** The callback's turn on the sample stream, and the same turn in the single steps of the interleaving system. */
module PcmCallback {
  import opened Results
  import opened Sequences
  import opened Words
  import opened PcmStream
  import opened PcmProtocol

  /** A turn with `messages` buffers in the channel. */
  function TurnSteps(length: nat, messages: nat): seq<Step> {
    [Begin(length)] + Receives(messages) + [Drained, Mix, Return]
  }

  function Receives(messages: nat): seq<Step> {
    if messages == 0 then [] else [Receive] + Receives(messages - 1)
  }

  lemma {:induction false} RunJoins(cfg: Config, s: State, first: seq<Step>, second: seq<Step>)
    ensures Run(cfg, s, first + second) == Run(cfg, Run(cfg, s, first), second)
    decreases |first|
  {
    if first == [] {
      Grown(second);
    } else {
      assert (first + second)[1..] == first[1..] + second;
      RunJoins(cfg, Next(cfg, s, first[0]), first[1..], second);
    }
  }

  lemma {:induction false} RunOne(cfg: Config, s: State, step: Step)
    ensures Run(cfg, s, [step]) == Next(cfg, s, step)
  {
    assert [step][1..] == [];
  }

  /** Receiving everything there is moves the channel behind the stream. */
  lemma {:induction false} ReceiveAll(cfg: Config, s: State)
    requires s.callback.Draining?
    ensures Run(cfg, s, Receives(|s.channel|)) == s.(channel := [], stream := s.stream + Flat(s.channel))
    decreases |s.channel|
  {
    if s.channel == [] {
      Grown(s.stream);
    } else {
      var next := Next(cfg, s, Receive);
      RunOne(cfg, s, Receive);
      RunJoins(cfg, s, [Receive], Receives(|s.channel| - 1));
      ReceiveAll(cfg, next);
      Appended(s.stream, s.channel[0].samples, Flat(s.channel[1..]));
    }
  }

  /** The state after a turn that nobody interrupts. */
  function AfterTurn(s: State, length: nat): State {
    var all := s.stream + Flat(s.channel);
    var k := MinNat(length, |all|);
    s.(channel := [], stream := all[k..], played := s.played + all[..k], queued := WrapSub(s.queued, k))
  }

  lemma {:induction false} ThreeSteps(cfg: Config, s: State, first: Step, second: Step, third: Step)
    ensures Run(cfg, s, [first, second, third]) == Next(cfg, Next(cfg, Next(cfg, s, first), second), third)
  {
    hide Next;
    var one, two := Next(cfg, s, first), Next(cfg, Next(cfg, s, first), second);
    RunOne(cfg, s, first);
    RunOne(cfg, one, second);
    RunOne(cfg, two, third);
    assert [first, second, third] == ([first] + [second]) + [third];
    RunJoins(cfg, s, [first], [second]);
    RunJoins(cfg, s, [first] + [second], [third]);
  }

  /** Once the channel is empty, the rest of the turn. */
  lemma {:induction false} MixInSteps(cfg: Config, s: State)
    requires s.callback.Draining? && s.channel == []
    ensures Run(cfg, s, [Drained, Mix, Return]) == AfterTurn(s, s.callback.length).(callback := Waiting)
  {
    ThreeSteps(cfg, s, Drained, Mix, Return);
    Grown(s.stream);
  }

  lemma {:induction false} TurnInSteps(cfg: Config, s: State, length: nat)
    requires s.open && s.callback.Waiting?
    ensures Run(cfg, s, TurnSteps(length, |s.channel|)) == AfterTurn(s, length)
  {
    var begun := Next(cfg, s, Begin(length));
    var received := Run(cfg, begun, Receives(|s.channel|));
    RunOne(cfg, s, Begin(length));
    RunJoins(cfg, s, [Begin(length)], Receives(|s.channel|));
    RunJoins(cfg, s, [Begin(length)] + Receives(|s.channel|), [Drained, Mix, Return]);
    ReceiveAll(cfg, begun);
    MixInSteps(cfg, received);
    Grown(received.stream);
  }

  // ---------- From a push to the listener ----------

  function PushSteps(w: nat, samples: seq<real>): seq<Step> {
    [Push(w, samples), Load(w), Swap(w), Send(w)]
  }

  /** An empty counter leaves room for everything that is not longer than the capacity. */
  lemma {:induction false} AllFits(cfg: Config, samples: seq<real>)
    requires cfg.Usable() && samples != [] && cfg.WholeFrames(|samples|) && |samples| <= cfg.maxSamples
    ensures cfg.Aligned(samples) == samples && cfg.Room(0) > 0 && cfg.WriteLength(0, samples) == |samples|
  {
    KeptWholeIff(cfg, samples);
    AlignedHasFrame(cfg, samples);
    var room, frames := cfg.Room(0), Frames(|samples|, cfg.channels);
    if room < frames {
      ScalesApart(room, frames, cfg.channels);
    }
  }

  /** What a push into an empty engine leaves: one buffer in the channel, reserved for, and the call's record. */
  function AfterPush(s: State, w: nat, samples: seq<real>): State
    requires w < |s.threads| && s.queued + |samples| < U64_LIMIT
  {
    s.(queued := s.queued + |samples|, channel := s.channel + [Message(w, samples)],
       sent := s.sent + [Message(w, samples)],
       threads := s.threads[w := Thread(Idle, samples, s.threads[w].calls + [Call(samples, samples, Ok(()))])])
  }

  lemma {:induction false} PushInSteps(cfg: Config, s: State, w: nat, samples: seq<real>)
    requires cfg.Usable() && samples != [] && cfg.WholeFrames(|samples|) && |samples| <= cfg.maxSamples
    requires w < |s.threads| && s.threads[w].place.Idle? && s.open && s.queued == 0
    ensures Run(cfg, s, PushSteps(w, samples)) == AfterPush(s, w, samples)
  {
    AllFits(cfg, samples);
    assert samples[..|samples|] == samples && samples[|samples|..] == [];
    var pushed := Next(cfg, s, Push(w, samples));
    assert pushed == s.(threads := s.threads[w := s.threads[w].(place := Loading(samples), input := samples)]);
    var loaded := Next(cfg, pushed, Load(w));
    assert loaded.threads[w].place == Swapping(samples, 0);
    var swapped := Next(cfg, loaded, Swap(w));
    assert swapped.threads[w].place == Sending(samples, []) && swapped.queued == |samples|;
    ThreeSteps(cfg, pushed, Load(w), Swap(w), Send(w));
    assert PushSteps(w, samples)[1..] == [Load(w), Swap(w), Send(w)];
    assert Next(cfg, swapped, Send(w)).threads == AfterPush(s, w, samples).threads;
  }

  /** A push of whole frames that fit is heard: it is taken whole, played in the next turn, and its room comes back. */
  lemma {:induction false} PushCanBeHeard(cfg: Config, writers: nat, w: nat, samples: seq<real>)
    requires cfg.Usable() && samples != [] && cfg.WholeFrames(|samples|) && |samples| <= cfg.maxSamples
    requires w < writers
    ensures var s := Run(cfg, Initial(writers), PushSteps(w, samples) + TurnSteps(|samples|, 1));
      && s.played == samples && s.queued == 0 && s.channel == [] && s.stream == [] && s.open
      && w < |s.threads| && s.threads[w].calls == [Call(samples, samples, Ok(()))]
  {
    var first := Initial(writers);
    var sent := AfterPush(first, w, samples);
    PushInSteps(cfg, first, w, samples);
    RunJoins(cfg, first, PushSteps(w, samples), TurnSteps(|samples|, 1));
    TurnInSteps(cfg, sent, |samples|);
    assert sent.channel == [Message(w, samples)];
    assert Flat(sent.channel) == samples by {
      assert [Message(w, samples)][1..] == [];
      Grown(samples);
    }
    assert sent.stream + samples == samples && samples[..|samples|] == samples && samples[|samples|..] == [];
  }

  /** What the callback and the writers share is what a state of the system says. */
  ghost predicate Mirrors(s: State, stream: Stream, rx: Channel, queued: AtomicCell)
    requires stream.Valid()
    reads stream, rx, queued
  {
    s.stream == stream.Samples() && Flat(s.channel) == Concat(rx.queue) && s.queued == queued.value
  }

  /**
   * The stream's part of a callback: what was received goes to the stream, and as much of it as there is output
   * for is mixed. `s` is the state of the system it starts in; an empty period is no turn.
   */
  method MixStream(stream: Stream, rx: Channel, output: array<real>, queued: AtomicCell, underruns: AtomicCell,
      channels: nat, ghost cfg: Config, ghost s: State)
    requires stream.Valid() && queued != underruns
    requires s.open && s.callback.Waiting? && Mirrors(s, stream, rx, queued)
    modifies stream, rx, output, queued, underruns
    ensures stream.Valid()
    ensures output.Length == 0 ==> Mirrors(s, stream, rx, queued)
    ensures output.Length > 0 ==>
      var after := Run(cfg, s, TurnSteps(output.Length, |s.channel|));
      && Mirrors(after, stream, rx, queued) && s.played <= after.played
      && output[..] == Mixed(old(output[..]), after.played[|s.played|..], stream.volume)
      && var heard := after.played[|s.played|..];
         forall i :: 0 <= i < output.Length ==>
           output[i] == old(output[..])[i] + (if i < |heard| then heard[i] * stream.volume else 0.0)
  {
    hide Mixed, Scaled, Pending, TurnSteps;
    if output.Length == 0 {
      return;
    }
    stream.DrainRx(rx);
    ghost var before, all := output[..], stream.Samples();
    stream.MixInto(output, queued, underruns, channels);
    ghost var k := MinNat(output.Length, |all|);
    TurnInSteps(cfg, s, output.Length);
    assert (s.played + all[..k])[|s.played|..] == all[..k];
    assert all == all[..k] + all[k..];
    MixedPrefix(before, all[..k], all[k..], stream.volume);
    MixedAt(before, all[..k], stream.volume);
  }
}
