/** The audio section of the video worker: packets waiting to be converted, buffers waiting for room. */
module VideoWorker {
  import opened Results
  import opened Sequences
  import opened PcmStream
  import opened Words
  import opened PcmProtocol
  import opened PcmWriter

  const OUTPUT_CHANNELS: nat := 2
  const AUDIO_MAX_AHEAD_MS: nat := 2000
  const AUDIO_END_MARGIN_MS: nat := 500

  datatype Packet = Packet(playMs: nat, channels: nat, sampleRate: nat, samples: seq<real>)

  /** A converter may depend on the packets converted before; it can fail to be created. */
  type Converter = (seq<Packet>, Packet) -> Result<seq<real>, string>

  datatype Verdict = Continue | Wait | Failed(error: string)

  function AtLeastOne(n: nat): nat { if n == 0 then 1 else n }

  /** Frames held in a list of buffers. */
  function FramesIn(buffers: seq<seq<real>>, channels: nat): nat
    requires channels > 0
  {
    if buffers == [] then 0 else Frames(|buffers[0]|, channels) + FramesIn(buffers[1..], channels)
  }

  lemma {:induction false} FramesInAppend(buffers: seq<seq<real>>, last: seq<real>, channels: nat)
    requires channels > 0
    ensures FramesIn(buffers + [last], channels) == FramesIn(buffers, channels) + Frames(|last|, channels)
  {
    if buffers == [] {
      assert buffers + [last] == [last];
      assert [last][1..] == [];
    } else {
      FramesInAppend(buffers[1..], last, channels);
      assert (buffers + [last])[1..] == buffers[1..] + [last];
    }
  }

  /** What pushes keep of a list of buffers: the whole frames of each. */
  ghost function Kept(cfg: Config, buffers: seq<seq<real>>): seq<real> {
    if buffers == [] then [] else cfg.Aligned(buffers[0]) + Kept(cfg, buffers[1..])
  }

  lemma {:induction false} KeptAppend(cfg: Config, buffers: seq<seq<real>>, last: seq<real>)
    ensures Kept(cfg, buffers + [last]) == Kept(cfg, buffers) + cfg.Aligned(last)
  {
    if buffers == [] {
      assert buffers + [last] == [last];
      assert [last][1..] == [];
    } else {
      KeptAppend(cfg, buffers[1..], last);
      assert (buffers + [last])[1..] == buffers[1..] + [last];
      Appended(cfg.Aligned(buffers[0]), Kept(cfg, buffers[1..]), cfg.Aligned(last));
    }
  }

  lemma {:induction false} KeptOfNone(cfg: Config)
    ensures Kept(cfg, []) == []
  {
  }

  lemma {:induction false} KeptOfOne(cfg: Config, buffer: seq<real>)
    ensures Kept(cfg, [buffer]) == cfg.Aligned(buffer)
  {
    assert [buffer][1..] == [];
    Grown(cfg.Aligned(buffer));
  }

  ghost predicate AllAligned(cfg: Config, buffers: seq<seq<real>>) {
    forall i :: 0 <= i < |buffers| ==> cfg.Aligned(buffers[i]) == buffers[i]
  }

  lemma {:induction false} KeptIsShorter(cfg: Config, buffers: seq<seq<real>>)
    ensures |Kept(cfg, buffers)| <= |Concat(buffers)|
  {
    if buffers != [] {
      KeptIsShorter(cfg, buffers[1..]);
    }
  }

  /** Pushes keep all of some buffers exactly when each of them is whole frames. */
  lemma {:induction false} KeptAllIff(cfg: Config, buffers: seq<seq<real>>)
    ensures Kept(cfg, buffers) == Concat(buffers) <==> AllAligned(cfg, buffers)
  {
    if buffers != [] {
      var first, rest := buffers[0], buffers[1..];
      KeptAllIff(cfg, rest);
      KeptIsShorter(cfg, rest);
      assert AllAligned(cfg, buffers) <==> cfg.Aligned(first) == first && AllAligned(cfg, rest) by {
        assert forall i :: 0 < i < |buffers| ==> buffers[i] == rest[i - 1];
      }
      SameLengths(cfg.Aligned(first), Kept(cfg, rest), first, Concat(rest));
    }
  }

  /** A prefix followed by something no longer is the whole followed by the other only when both pairs agree. */
  lemma {:induction false} SameLengths(part: seq<real>, less: seq<real>, whole: seq<real>, more: seq<real>)
    requires part <= whole && |less| <= |more|
    ensures part + less == whole + more <==> part == whole && less == more
  {
    if part + less == whole + more {
      assert less == (part + less)[|part|..] && more == (whole + more)[|whole|..];
    }
  }

  /** One more buffer delivered whole. */
  lemma {:induction false} KeptNext(cfg: Config, before: seq<real>, buffers: seq<seq<real>>, sent: nat)
    requires sent < |buffers|
    ensures buffers[sent..][0] == buffers[sent] && buffers[sent..][1..] == buffers[sent + 1..]
    ensures before + Kept(cfg, buffers[..sent]) + cfg.Aligned(buffers[sent])
         == before + Kept(cfg, buffers[..sent + 1])
  {
    assert buffers[..sent + 1] == buffers[..sent] + [buffers[sent]];
    KeptAppend(cfg, buffers[..sent], buffers[sent]);
    Appended(before, Kept(cfg, buffers[..sent]), cfg.Aligned(buffers[sent]));
  }

  lemma {:induction false} KeptSplit(cfg: Config, buffers: seq<seq<real>>, k: nat)
    requires k <= |buffers|
    ensures Kept(cfg, buffers) == Kept(cfg, buffers[..k]) + Kept(cfg, buffers[k..])
    decreases |buffers| - k
  {
    if k == |buffers| {
      assert buffers[..k] == buffers;
      Grown(Kept(cfg, buffers));
    } else {
      KeptSplit(cfg, buffers, k + 1);
      KeptNext(cfg, [], buffers, k);
      Grown(Kept(cfg, buffers[..k]));
      Grown(Kept(cfg, buffers[..k + 1]));
      Appended(Kept(cfg, buffers[..k]), cfg.Aligned(buffers[k]), Kept(cfg, buffers[k + 1..]));
    }
  }

  /** Buffer `sent` was delivered in part: what was delivered and what waits are together what was there. */
  lemma {:induction false} KeptAround(cfg: Config, before: seq<real>, buffers: seq<seq<real>>, sent: nat,
      waiting: seq<seq<real>>, earlier: seq<real>, delivered: seq<real>)
    requires sent < |buffers| && waiting != [] && waiting[1..] == buffers[sent..][1..]
    requires earlier == before + Kept(cfg, buffers[..sent]) && cfg.Aligned(waiting[0]) == waiting[0]
    requires delivered + waiting[0] == earlier + cfg.Aligned(buffers[sent..][0])
    ensures delivered + Kept(cfg, waiting) == before + Kept(cfg, buffers)
  {
    KeptNext(cfg, before, buffers, sent);
    KeptSplit(cfg, buffers, sent + 1);
    Appended(delivered, waiting[0], Kept(cfg, waiting[1..]));
    Appended(before, Kept(cfg, buffers[..sent + 1]), Kept(cfg, buffers[sent + 1..]));
  }

  /** What a push tells its caller. */
  lemma {:induction false} TakenIff(cfg: Config, samples: seq<real>, taken: seq<real>,
      result: Result<(), seq<real>>, open: bool, found: U64)
    requires Call(samples, taken, result).Honest(cfg) && taken == Took(cfg, cfg.Aligned(samples), open, found)
    ensures result.Ok? ==> taken == cfg.Aligned(samples)
    ensures result.Ok? <==>
      (cfg.Aligned(samples) == [] || (open && cfg.Room(found) >= Frames(|samples|, cfg.channels)))
    ensures result.Err? ==>
      && cfg.channels > 0 && cfg.Aligned(result.error) == result.error
      && (open ==> cfg.Room(Held(cfg, cfg.Aligned(samples), found)) == 0)
  {
    Grown(taken);
    if cfg.Aligned(samples) != [] {
      TookAllIff(cfg, samples, open, found);
      if result.Err? {
        RestIsWhole(cfg, samples, taken, result.error);
      }
    }
  }

  /** One of the pushes from some point on took something, or had nothing whole to take. */
  ghost predicate Useful(calls: seq<Call>, from: nat) {
    exists k :: from <= k < |calls| && UsefulCall(calls[k])
  }

  ghost predicate UsefulCall(call: Call) {
    call.result.Ok? || |call.result.error| < |call.input|
  }

  lemma {:induction false} NoCallsYet(calls: seq<Call>)
    ensures !Useful(calls, |calls|)
  {
  }

  lemma {:induction false} LastCall(calls: seq<Call>, call: Call)
    ensures Useful(calls + [call], |calls|) <==> UsefulCall(call)
  {
    assert (calls + [call])[|calls|] == call;
  }

  lemma {:induction false} UsefulJoins(first: seq<Call>, second: seq<Call>, third: seq<Call>)
    requires first <= second <= third
    ensures Useful(third, |first|) <==> Useful(second, |first|) || Useful(third, |second|)
  {
    if k :| |first| <= k < |second| && UsefulCall(second[k]) {
      assert third[k] == second[k];
    }
    if k :| |first| <= k < |third| && UsefulCall(third[k]) && k < |second| {
      assert second[k] == third[k];
    }
  }

  /** What happens between two rounds of the audio section, and what it reads. */
  datatype Round = Round(packets: seq<Packet>, audioNowMs: Option<nat>, others: seq<seq<U64>>)

  function Received(rounds: seq<Round>): seq<Packet> {
    if rounds == [] then [] else Received(rounds[..|rounds| - 1]) + rounds[|rounds| - 1].packets
  }

  class AudioWorker {
    const writer: Writer
    const outRate: nat
    const outChannels: nat
    const prebufferMaxFrames: nat
    const converter: Converter

    var pendingAudio: seq<Packet>
    var pendingSamples: seq<seq<real>>
    var pendingSampleFrames: nat
    var audioBaseMs: Option<nat>
    var decodedAudioFrames: U64
    var lastAudioMs: Option<nat>
    var audioEndSent: bool

    /** The packets already converted, in order; they stand for the converter's own state. */
    var processed: seq<Packet>

    constructor (writer: Writer, outRate: nat, outChannels: nat, prebufferMaxFrames: nat, converter: Converter)
      ensures this.writer == writer && this.outRate == outRate && this.outChannels == AtLeastOne(outChannels)
      ensures this.prebufferMaxFrames == prebufferMaxFrames && this.converter == converter
      ensures pendingAudio == [] && pendingSamples == [] && pendingSampleFrames == 0 && processed == []
      ensures audioBaseMs == None && decodedAudioFrames == 0 && lastAudioMs == None && !audioEndSent
      ensures Valid() && (writer.delivered == [] && writer.calls == [] ==> Conserves())
    {
      this.writer, this.outRate, this.outChannels := writer, outRate, AtLeastOne(outChannels);
      this.prebufferMaxFrames, this.converter := prebufferMaxFrames, converter;
      pendingAudio, pendingSamples, pendingSampleFrames, processed := [], [], 0, [];
      audioBaseMs, decodedAudioFrames, lastAudioMs, audioEndSent := None, 0, None, false;
    }

    /** A packet in the output's own format passes unchanged; any other goes through the converter. */
    function Output(history: seq<Packet>, packet: Packet): Result<seq<real>, string> {
      if packet.sampleRate == outRate && AtLeastOne(packet.channels) == outChannels then Ok(packet.samples)
      else converter(history, packet)
    }

    /** The stream a list of packets decodes to. */
    ghost function Decoded(packets: seq<Packet>): seq<real> {
      if packets == [] then [] else
      var init, last := packets[..|packets| - 1], packets[|packets| - 1];
      Decoded(init) + (if Output(init, last).Ok? then Output(init, last).value else [])
    }

    /** What a push keeps of one converted packet. */
    ghost function KeptOutput(history: seq<Packet>, packet: Packet): seq<real> {
      if Output(history, packet).Ok? then writer.cfg.Aligned(Output(history, packet).value) else []
    }

    /** What can be delivered of the stream a list of packets decodes to: the whole frames of each packet. */
    ghost function Deliverable(packets: seq<Packet>): seq<real> {
      if packets == [] then [] else
      Deliverable(packets[..|packets| - 1]) + KeptOutput(packets[..|packets| - 1], packets[|packets| - 1])
    }

    /** Whether converting a packet adds to the time of the stream. */
    predicate Counts(history: seq<Packet>, packet: Packet) {
      outRate > 0 && Output(history, packet).Ok? && Output(history, packet).value != []
    }

    /** The frames a list of packets decodes to, up to the counter's width. */
    function FramesOf(packets: seq<Packet>): U64
      requires outChannels > 0
    {
      if packets == [] then 0 else
      var init, last := packets[..|packets| - 1], packets[|packets| - 1];
      if Counts(init, last) then Saturated(FramesOf(init) + Frames(|Output(init, last).value|, outChannels))
      else FramesOf(init)
    }

    /** Where the stream of a list of packets ends, in milliseconds, if it has begun. */
    function EndOf(packets: seq<Packet>): Option<nat>
      requires outChannels > 0
    {
      if packets == [] then None else
      var init, last := packets[..|packets| - 1], packets[|packets| - 1];
      if Counts(init, last) then Some(Frames(Saturated(FramesOf(packets) * 1000), outRate)) else EndOf(init)
    }

    /** A converted packet that is whole frames, for a writer that can take them. */
    ghost predicate Whole(history: seq<Packet>, packet: Packet) {
      match Output(history, packet)
      case Err(_) => true
      case Ok(samples) => samples == [] || (writer.cfg.Usable() && writer.cfg.WholeFrames(|samples|))
    }

    ghost predicate AllWhole(packets: seq<Packet>) {
      packets == [] ||
        (AllWhole(packets[..|packets| - 1]) && Whole(packets[..|packets| - 1], packets[|packets| - 1]))
    }

    ghost predicate Valid()
      reads this
    {
      && outChannels > 0 && pendingSampleFrames == FramesIn(pendingSamples, outChannels)
      && decodedAudioFrames == FramesOf(processed) && lastAudioMs == EndOf(processed)
    }

    /** No frame fits any more as the counter stands, or nobody receives. */
    ghost predicate NoRoomLeft()
      reads writer, writer.tx, writer.queued
    {
      !writer.tx.open || (writer.cfg.channels > 0 && writer.cfg.Room(writer.queued.value) == 0)
    }

    /** No frame is lost, repeated or reordered between the decoder and the channel. */
    ghost predicate Conserves()
      reads this, writer
    {
      && writer.Logged() && WholeWaits()
      && writer.delivered + Kept(writer.cfg, pendingSamples) == Deliverable(processed)
    }

    /** As long as every converted packet was whole frames, so is every waiting buffer. */
    ghost predicate WholeWaits()
      reads this
    {
      AllWhole(processed) ==> AllAligned(writer.cfg, pendingSamples)
    }

    /** The packets of `all` were converted in order up to one that no converter could be made for. */
    ghost predicate StoppedAt(all: seq<Packet>, error: string)
      reads this
    {
      && |processed| < |all|
      && processed == all[..|processed|] && pendingAudio == all[|processed| + 1..]
      && Output(processed, all[|processed|]) == Err(error)
    }

    /**
     * Offers one buffer to the writer; what it does not take goes back to the front of the queue. The buffer is
     * taken exactly when it holds no whole frame, or there is a receiver and the counter, as some thread left it,
     * had room for all its frames. `found` is that value of the counter.
     */
    method Offer(samples: seq<real>, others: seq<U64>) returns (accepted: bool, moved: bool, ghost found: U64)
      requires Valid()
      modifies this`pendingSamples, this`pendingSampleFrames, writer, writer.tx, writer.queued
      ensures Valid() && (old(writer.Logged()) ==> writer.Logged()) && writer.tx.open == old(writer.tx.open)
      ensures accepted <==>
        (writer.cfg.Aligned(samples) == [] ||
          (writer.tx.open && writer.cfg.Room(found) >= Frames(|samples|, writer.cfg.channels)))
      ensures writer.cfg.Aligned(samples) != [] ==> Stems(found, others, old(writer.queued.value))
      ensures accepted ==>
        && pendingSamples == old(pendingSamples)
        && writer.delivered == old(writer.delivered) + writer.cfg.Aligned(samples)
      ensures !accepted ==>
        && pendingSamples != [] && pendingSamples == [pendingSamples[0]] + old(pendingSamples)
        && pendingSamples[0] != [] && writer.cfg.Aligned(pendingSamples[0]) == pendingSamples[0]
        && writer.delivered + pendingSamples[0] == old(writer.delivered) + writer.cfg.Aligned(samples)
        && NoRoomLeft()
      ensures moved <==> accepted || |pendingSamples[0]| < |samples|
      ensures old(writer.calls) <= writer.calls
      ensures moved <==> Useful(writer.calls, |old(writer.calls)|)
    {
      var result;
      ghost var taken, left, trace, end;
      result, taken, found, left, trace, end := writer.TryPush(samples, others);
      TakenIff(writer.cfg, samples, taken, result, writer.tx.open, found);
      LastCall(old(writer.calls), Call(samples, taken, result));
      match result
      case Ok(_) =>
        return true, true, found;
      case Err(rest) =>
        Appended(old(writer.delivered), taken, rest);
        pendingSampleFrames := pendingSampleFrames + Frames(|rest|, outChannels);
        pendingSamples := [rest] + pendingSamples;
        return false, |rest| < |samples|, found;
    }

    /** Takes the first waiting buffer and offers it. */
    method DeliverFirst(others: seq<U64>) returns (accepted: bool, moved: bool)
      requires Valid() && pendingSamples != []
      modifies this`pendingSamples, this`pendingSampleFrames, writer, writer.tx, writer.queued
      ensures Valid() && (old(writer.Logged()) ==> writer.Logged())
      ensures accepted ==>
        && pendingSamples == old(pendingSamples[1..])
        && writer.delivered == old(writer.delivered) + writer.cfg.Aligned(old(pendingSamples[0]))
      ensures !accepted ==>
        && StoppedWith(old(pendingSamples)) && NoRoomLeft()
        && writer.delivered + pendingSamples[0]
             == old(writer.delivered) + writer.cfg.Aligned(old(pendingSamples[0]))
      ensures moved <==> accepted || |pendingSamples[0]| < |old(pendingSamples[0])|
      ensures old(writer.calls) <= writer.calls
      ensures moved <==> Useful(writer.calls, |old(writer.calls)|)
    {
      var samples := pendingSamples[0];
      pendingSampleFrames := SaturatingSub(pendingSampleFrames, Frames(|samples|, outChannels));
      pendingSamples := pendingSamples[1..];
      ghost var found;
      accepted, moved, found := Offer(samples, others);
    }

    /** A part of the first of these buffers is waiting, and all the others. */
    ghost predicate StoppedWith(buffers: seq<seq<real>>)
      reads this
    {
      && buffers != [] && pendingSamples != [] && pendingSamples[1..] == buffers[1..]
      && pendingSamples[0] != [] && writer.cfg.Aligned(pendingSamples[0]) == pendingSamples[0]
    }

    /**
     * Sends waiting buffers in order: the first `sent` of them whole, then what there is room for of the next.
     * It stops early only when no frame fits any more, or nobody receives.
     */
    method DeliverPending(others: seq<seq<U64>>)
      returns (released: bool, unused: seq<seq<U64>>, ghost sent: nat)
      requires Valid() && Conserves()
      modifies this`pendingSamples, this`pendingSampleFrames, writer, writer.tx, writer.queued
      ensures Valid() && Conserves() && sent <= |old(pendingSamples)|
      ensures pendingSamples == [] <==> sent == |old(pendingSamples)|
      ensures pendingSamples == [] ==>
        writer.delivered == old(writer.delivered) + Kept(writer.cfg, old(pendingSamples))
      ensures pendingSamples != [] ==>
        && StoppedWith(old(pendingSamples)[sent..]) && NoRoomLeft()
        && writer.delivered + pendingSamples[0] == old(writer.delivered)
             + Kept(writer.cfg, old(pendingSamples)[..sent]) + writer.cfg.Aligned(old(pendingSamples)[sent])
      ensures released <==>
        sent > 0 || (pendingSamples != [] && |pendingSamples[0]| < |old(pendingSamples)[0]|)
      ensures old(writer.calls) <= writer.calls
      ensures released <==> Useful(writer.calls, |old(writer.calls)|)
    {
      released, unused, sent := false, others, 0;
      ghost var log := writer.calls;
      NoCallsYet(log);
      ghost var buffers, before := pendingSamples, writer.delivered;
      Grown(before);
      assert buffers[..|buffers|] == buffers;
      while pendingSamples != []
        invariant Valid() && writer.Logged() && sent <= |buffers| && pendingSamples == buffers[sent..]
        invariant writer.delivered == before + Kept(writer.cfg, buffers[..sent])
        invariant released <==> sent > 0
        invariant log <= writer.calls && (released <==> Useful(writer.calls, |log|))
        decreases |pendingSamples|
      {
        var interference := if unused == [] then [] else unused[0];
        unused := if unused == [] then [] else unused[1..];
        ghost var earlier := writer.delivered;
        ghost var calls := writer.calls;
        var accepted, moved := DeliverFirst(interference);
        UsefulJoins(log, calls, writer.calls);
        released := released || moved;
        if !accepted {
          KeptAround(writer.cfg, before, buffers, sent, pendingSamples, earlier, writer.delivered);
          break;
        }
        KeptNext(writer.cfg, before, buffers, sent);
        sent := sent + 1;
      }
      Grown(writer.delivered);
    }

    /** Playback time of a packet, relative to the first packet seen. */
    function PacketMs(packet: Packet): nat
      reads this
    {
      SaturatingSub(packet.playMs, if audioBaseMs.Some? then audioBaseMs.value else packet.playMs)
    }

    predicate PrebufferFull(audioNowMs: Option<nat>)
      reads this
    {
      audioNowMs.None? && prebufferMaxFrames > 0 && pendingSampleFrames >= prebufferMaxFrames
    }

    predicate TooEarly(packet: Packet, audioNowMs: Option<nat>)
      reads this
    {
      audioNowMs.Some? && PacketMs(packet) > audioNowMs.value + AUDIO_MAX_AHEAD_MS
    }

    /** Counts converted frames; the end of the audio is measured from them. */
    method CountDecoded(samples: seq<real>)
      requires outChannels > 0
      modifies this`decodedAudioFrames, this`lastAudioMs
      ensures outRate == 0 ==> decodedAudioFrames == old(decodedAudioFrames) && lastAudioMs == old(lastAudioMs)
      ensures outRate > 0 ==>
        && decodedAudioFrames == Saturated(old(decodedAudioFrames) + Frames(|samples|, outChannels))
        && lastAudioMs == Some(Frames(Saturated(decodedAudioFrames * 1000), outRate))
    {
      if outRate > 0 {
        decodedAudioFrames := Saturated(decodedAudioFrames + Frames(|samples|, outChannels));
        lastAudioMs := Some(Frames(Saturated(decodedAudioFrames * 1000), outRate));
      }
    }

    /** A packet passes unchanged exactly when rate and channel count are the output's; no channels count as one. */
    lemma {:induction false} OutputIs(history: seq<Packet>, packet: Packet)
      requires outChannels > 0
      ensures var same := packet.sampleRate == outRate &&
          (packet.channels == outChannels || (packet.channels == 0 && outChannels == 1));
        Output(history, packet) == if same then Ok(packet.samples) else converter(history, packet)
    {
    }

    /**
     * The next packet stays exactly when, before playback, the waiting frames reach the limit, if there is one; or
     * when, during playback, it is to be played more than two seconds after now, counted from the first packet.
     */
    lemma {:induction false} GatedIff(audioNowMs: Option<nat>)
      requires Valid() && pendingAudio != []
      ensures Gated(audioNowMs) <==>
        match audioNowMs
        case None => prebufferMaxFrames > 0 && FramesIn(pendingSamples, outChannels) >= prebufferMaxFrames
        case Some(now) => audioBaseMs.Some? && pendingAudio[0].playMs > audioBaseMs.value + now + 2000
    {
    }

    /** The next packet is not looked at: enough is buffered, or it lies too far ahead. */
    predicate Gated(audioNowMs: Option<nat>)
      requires pendingAudio != []
      reads this
    {
      PrebufferFull(audioNowMs) || TooEarly(pendingAudio[0], audioNowMs)
    }

    /** While playing, converted samples wait only because no frame fits any more, or nobody receives. */
    ghost predicate BuffersWaitForRoom(audioNowMs: Option<nat>)
      reads this, writer, writer.tx, writer.queued
    {
      audioNowMs.Some? && pendingSamples != [] ==> NoRoomLeft()
    }

    /** Converted samples wait for room, or before playback; packets wait at a gate or behind waiting samples. */
    ghost predicate WaitsForAReason(audioNowMs: Option<nat>)
      reads this, writer, writer.tx, writer.queued
    {
      && BuffersWaitForRoom(audioNowMs)
      && (pendingAudio != [] ==> Gated(audioNowMs) || (audioNowMs.Some? && pendingSamples != []))
    }

    /**
     * Converts one packet and sends or keeps the result, unless the packet has to wait at a gate; then nothing at
     * all changes. While playing, a converted packet lets the next one wait exactly when its samples were not all
     * taken.
     */
    method ProcessPacket(audioNowMs: Option<nat>, others: seq<U64>) returns (verdict: Verdict, moved: bool)
      requires Valid() && Conserves() && pendingAudio != []
      requires audioNowMs.Some? ==> pendingSamples == []
      modifies this, writer, writer.tx, writer.queued
      ensures Valid() && Conserves() && audioEndSent == old(audioEndSent)
      ensures old(writer.calls) <= writer.calls
      ensures moved <==> Useful(writer.calls, |old(writer.calls)|)
      ensures old(Gated(audioNowMs)) ==>
        verdict.Wait? && !moved && unchanged(this, writer, writer.tx, writer.queued)
      ensures !old(Gated(audioNowMs)) ==>
        && pendingAudio == old(pendingAudio[1..])
        && audioBaseMs == (if old(audioBaseMs).Some? then old(audioBaseMs) else Some(old(pendingAudio[0]).playMs))
        && (if Output(old(processed), old(pendingAudio[0])).Err?
            then verdict == Failed(Output(old(processed), old(pendingAudio[0])).error) && processed == old(processed)
            else !verdict.Failed? && processed == old(processed) + [old(pendingAudio[0])])
        && (verdict.Wait? <==> !verdict.Failed? && audioNowMs.Some? && pendingSamples != [])
        && (audioNowMs.None? ==> writer.delivered == old(writer.delivered))
        && BuffersWaitForRoom(audioNowMs)
    {
      hide Kept, Deliverable, FramesIn, FramesOf, EndOf, Output, NoRoomLeft, Useful;
      NoCallsYet(writer.calls);
      var packet := pendingAudio[0];
      HeadAndRest(pendingAudio);
      pendingAudio := pendingAudio[1..];
      if PrebufferFull(audioNowMs) {
        pendingAudio := [packet] + pendingAudio;
        return Wait, false;
      }
      if audioBaseMs.None? {
        audioBaseMs := Some(packet.playMs);
      }
      if TooEarly(packet, audioNowMs) {
        pendingAudio := [packet] + pendingAudio;
        return Wait, false;
      }
      verdict, moved := ConvertPacket(packet, audioNowMs, others);
    }

    /** Converts one packet and sends or keeps the result. */
    method ConvertPacket(packet: Packet, audioNowMs: Option<nat>, others: seq<U64>)
      returns (verdict: Verdict, moved: bool)
      requires Valid() && Conserves()
      requires audioNowMs.Some? ==> pendingSamples == []
      modifies this`processed, this`decodedAudioFrames, this`lastAudioMs,
        this`pendingSamples, this`pendingSampleFrames, writer, writer.tx, writer.queued
      ensures Valid() && Conserves()
      ensures if Output(old(processed), packet).Err?
        then verdict == Failed(Output(old(processed), packet).error) && processed == old(processed)
          && pendingSamples == old(pendingSamples)
        else !verdict.Failed? && processed == old(processed) + [packet]
      ensures verdict.Wait? <==> !verdict.Failed? && audioNowMs.Some? && pendingSamples != []
      ensures audioNowMs.None? ==> writer.delivered == old(writer.delivered)
      ensures BuffersWaitForRoom(audioNowMs)
      ensures old(writer.calls) <= writer.calls
      ensures moved <==> Useful(writer.calls, |old(writer.calls)|)
    {
      hide Useful;
      NoCallsYet(writer.calls);
      var output := Output(processed, packet);
      if output.Err? {
        return Failed(output.error), false;
      }
      var samples := output.value;
      DeliverableStep(processed, packet);
      TimeStep(processed, packet);
      WholeStep(processed, packet);
      KeptOutputWholeIff(processed, packet);
      if samples == [] {
        processed := processed + [packet];
        Grown(writer.delivered + Kept(writer.cfg, pendingSamples));
        return Continue, false;
      }
      CountDecoded(samples);
      processed := processed + [packet];
      var accepted;
      accepted, moved := SendOrKeep(samples, audioNowMs, others);
      verdict := if accepted then Continue else Wait;
    }

    /** New samples go to the writer while playing, and to the end of the queue before. */
    method SendOrKeep(samples: seq<real>, audioNowMs: Option<nat>, others: seq<U64>)
      returns (accepted: bool, moved: bool)
      requires Valid() && writer.Logged() && WholeWaits()
      requires AllWhole(processed) ==> writer.cfg.Aligned(samples) == samples
      requires writer.delivered + Kept(writer.cfg, pendingSamples) + writer.cfg.Aligned(samples)
            == Deliverable(processed)
      requires audioNowMs.Some? ==> pendingSamples == []
      modifies this`pendingSamples, this`pendingSampleFrames, writer, writer.tx, writer.queued
      ensures Valid() && Conserves() && BuffersWaitForRoom(audioNowMs)
      ensures audioNowMs.Some? ==> (accepted <==> pendingSamples == [])
      ensures audioNowMs.None? ==>
        accepted && pendingSamples == old(pendingSamples) + [samples] && writer.delivered == old(writer.delivered)
      ensures old(writer.calls) <= writer.calls
      ensures moved <==> Useful(writer.calls, |old(writer.calls)|)
    {
      hide AllWhole, Deliverable, FramesOf, EndOf, Kept, FramesIn, Useful;
      NoCallsYet(writer.calls);
      if audioNowMs.Some? {
        KeptOfNone(writer.cfg);
        Grown(writer.delivered);
        ghost var found;
        accepted, moved, found := Offer(samples, others);
        Grown(writer.delivered);
        if !accepted {
          assert pendingSamples == [pendingSamples[0]];
          KeptOfOne(writer.cfg, pendingSamples[0]);
        }
      } else {
        KeptAppend(writer.cfg, pendingSamples, samples);
        FramesInAppend(pendingSamples, samples, outChannels);
        Appended(writer.delivered, Kept(writer.cfg, pendingSamples), writer.cfg.Aligned(samples));
        pendingSampleFrames := pendingSampleFrames + Frames(|samples|, outChannels);
        pendingSamples := pendingSamples + [samples];
        accepted, moved := true, false;
      }
    }

    lemma {:induction false} DeliverableStep(history: seq<Packet>, packet: Packet)
      ensures Deliverable(history + [packet]) == Deliverable(history) + KeptOutput(history, packet)
    {
      assert (history + [packet])[..|history|] == history;
    }

    lemma {:induction false} WholeStep(history: seq<Packet>, packet: Packet)
      ensures AllWhole(history + [packet]) <==> AllWhole(history) && Whole(history, packet)
    {
      assert (history + [packet])[..|history|] == history;
    }

    lemma {:induction false} TimeStep(history: seq<Packet>, packet: Packet)
      requires outChannels > 0
      ensures FramesOf(history + [packet])
           == if Counts(history, packet)
              then Saturated(FramesOf(history) + Frames(|Output(history, packet).value|, outChannels))
              else FramesOf(history)
      ensures EndOf(history + [packet])
           == if Counts(history, packet)
              then Some(Frames(Saturated(FramesOf(history + [packet]) * 1000), outRate))
              else EndOf(history)
    {
      assert (history + [packet])[..|history|] == history;
    }

    /** What waiting packets will add, after a given history. */
    ghost function DeliverableFrom(history: seq<Packet>, packets: seq<Packet>): seq<real>
      decreases |packets|
    {
      if packets == [] then [] else
      KeptOutput(history, packets[0]) + DeliverableFrom(history + [packets[0]], packets[1..])
    }

    lemma {:induction false} DeliverableSplits(history: seq<Packet>, packets: seq<Packet>)
      ensures Deliverable(history + packets) == Deliverable(history) + DeliverableFrom(history, packets)
      decreases |packets|
    {
      if packets == [] {
        Grown(history);
        Grown(Deliverable(history));
      } else {
        var head, rest := packets[0], packets[1..];
        HeadAndRest(packets);
        Appended(history, [head], rest);
        DeliverableSplits(history + [head], rest);
        DeliverableStep(history, head);
        Appended(Deliverable(history), KeptOutput(history, head), DeliverableFrom(history + [head], rest));
      }
    }

    /** Delivered samples, waiting buffers and waiting packets make up what can be delivered of the stream. */
    lemma {:induction false} StreamIsWhole()
      requires Conserves()
      ensures writer.delivered + Kept(writer.cfg, pendingSamples) + DeliverableFrom(processed, pendingAudio)
           == Deliverable(processed + pendingAudio)
    {
      DeliverableSplits(processed, pendingAudio);
    }

    /** When every converted packet was whole frames, nothing at all is missing: the decoded stream. */
    lemma {:induction false} WholeStreamIsKept()
      requires Conserves() && AllWhole(processed)
      ensures writer.delivered + Concat(pendingSamples) == Decoded(processed)
    {
      KeptAllIff(writer.cfg, pendingSamples);
      NothingDroppedIff(processed);
    }

    lemma {:induction false} DeliverableIsShorter(packets: seq<Packet>)
      ensures |Deliverable(packets)| <= |Decoded(packets)|
    {
      if packets != [] {
        DeliverableIsShorter(packets[..|packets| - 1]);
      }
    }

    lemma {:induction false} KeptOutputWholeIff(history: seq<Packet>, packet: Packet)
      requires Output(history, packet).Ok?
      ensures KeptOutput(history, packet) <= Output(history, packet).value
      ensures KeptOutput(history, packet) == Output(history, packet).value <==> Whole(history, packet)
    {
      KeptWholeIff(writer.cfg, Output(history, packet).value);
    }

    /** The whole decoded stream can be delivered exactly when every converted packet is whole frames. */
    lemma {:induction false} NothingDroppedIff(packets: seq<Packet>)
      ensures Deliverable(packets) == Decoded(packets) <==> AllWhole(packets)
    {
      if packets != [] {
        var init, last := packets[..|packets| - 1], packets[|packets| - 1];
        NothingDroppedIff(init);
        DeliverableIsShorter(init);
        if Output(init, last).Ok? {
          KeptOutputWholeIff(init, last);
          SamePieces(Deliverable(init), KeptOutput(init, last), Decoded(init), Output(init, last).value);
        } else {
          Grown(Deliverable(init));
          Grown(Decoded(init));
        }
      }
    }

    /** The decoder hands over more packets. */
    method ReceivePackets(packets: seq<Packet>)
      modifies this`pendingAudio
      ensures processed + pendingAudio == old(processed + pendingAudio) + packets
    {
      Appended(processed, pendingAudio, packets);
      pendingAudio := pendingAudio + packets;
    }

    /** Converts packets until one has to wait. */
    method ProcessPackets(audioNowMs: Option<nat>, others: seq<seq<U64>>)
      returns (verdict: Verdict, released: bool)
      requires Valid() && Conserves()
      requires audioNowMs.Some? ==> pendingSamples == []
      modifies this, writer, writer.tx, writer.queued
      ensures Valid() && Conserves() && audioEndSent == old(audioEndSent)
      ensures !verdict.Failed? ==>
        processed + pendingAudio == old(processed + pendingAudio) && WaitsForAReason(audioNowMs)
      ensures verdict.Failed? ==> StoppedAt(old(processed + pendingAudio), verdict.error)
      ensures audioNowMs.None? ==> writer.delivered == old(writer.delivered)
      ensures old(writer.calls) <= writer.calls
      ensures released <==> Useful(writer.calls, |old(writer.calls)|)
    {
      hide Useful;
      verdict, released := Continue, false;
      ghost var log := writer.calls;
      NoCallsYet(log);
      var unused := others;
      ghost var all := processed + pendingAudio;
      while pendingAudio != [] && verdict.Continue?
        invariant Valid() && Conserves() && audioEndSent == old(audioEndSent)
        invariant verdict.Continue? && audioNowMs.Some? ==> pendingSamples == []
        invariant verdict.Wait? ==> WaitsForAReason(audioNowMs)
        invariant !verdict.Failed? ==> processed + pendingAudio == all
        invariant verdict.Failed? ==> StoppedAt(all, verdict.error)
        invariant audioNowMs.None? ==> writer.delivered == old(writer.delivered)
        invariant log <= writer.calls && (released <==> Useful(writer.calls, |log|))
        decreases verdict.Continue?, |pendingAudio|
      {
        var interference := if unused == [] then [] else unused[0];
        unused := if unused == [] then [] else unused[1..];
        var moved;
        ghost var before, waiting, calls := processed, pendingAudio, writer.calls;
        verdict, moved := ProcessPacket(audioNowMs, interference);
        UsefulJoins(log, calls, writer.calls);
        released := released || moved;
        AllAround(before, waiting);
      }
    }

    /** A list of packets around one of them. */
    lemma {:induction false} AllAround(before: seq<Packet>, waiting: seq<Packet>)
      requires waiting != []
      ensures before + waiting == before + [waiting[0]] + waiting[1..]
      ensures (before + waiting)[..|before|] == before && (before + waiting)[|before|] == waiting[0]
      ensures (before + waiting)[|before| + 1..] == waiting[1..]
    {
    }

    /** Reports the end of the audio once, when nothing waits and playback is past the last sample. */
    method CheckEnded(audioNowMs: Option<nat>) returns (ended: bool)
      modifies this`audioEndSent
      ensures ended <==>
        && audioNowMs.Some? && lastAudioMs.Some? && !old(audioEndSent)
        && pendingAudio == [] && pendingSamples == []
        && audioNowMs.value > Saturated(lastAudioMs.value + 500)
      ensures audioEndSent == (old(audioEndSent) || ended)
    {
      ended := false;
      if audioNowMs.Some? && lastAudioMs.Some? {
        if !audioEndSent && pendingAudio == [] && pendingSamples == []
            && audioNowMs.value > Saturated(lastAudioMs.value + AUDIO_END_MARGIN_MS) {
          ended := true;
          audioEndSent := true;
        }
      }
    }

    /** A round before the end is checked: waiting samples are sent, then packets converted. */
    method SendAndConvert(audioNowMs: Option<nat>, others: seq<seq<U64>>)
      returns (error: Option<string>, didWork: bool)
      requires Valid() && Conserves()
      modifies this, writer, writer.tx, writer.queued
      ensures Valid() && Conserves() && audioEndSent == old(audioEndSent)
      ensures error.None? ==>
        processed + pendingAudio == old(processed + pendingAudio) && WaitsForAReason(audioNowMs)
      ensures error.Some? ==> StoppedAt(old(processed + pendingAudio), error.value)
      ensures audioNowMs.None? ==> writer.delivered == old(writer.delivered)
      ensures old(writer.calls) <= writer.calls
      ensures didWork <==> Useful(writer.calls, |old(writer.calls)|)
    {
      hide Kept, Deliverable, Gated, FramesIn, FramesOf, EndOf, Useful;
      error, didWork := None, false;
      NoCallsYet(writer.calls);
      var unused := others;
      if audioNowMs.Some? {
        ghost var sent;
        didWork, unused, sent := DeliverPending(unused);
      }
      if pendingSamples == [] || audioNowMs.None? {
        ghost var calls := writer.calls;
        var verdict, released := ProcessPackets(audioNowMs, unused);
        UsefulJoins(old(writer.calls), calls, writer.calls);
        didWork := didWork || released;
        if verdict.Failed? {
          error := Some(verdict.error);
        }
      }
    }

    /**
     * One round of the audio section. Whatever the writer takes, delivered samples, waiting buffers and waiting
     * packets together remain what can be delivered of the stream that was received, and what waits does so for a
     * reason. The end is reported exactly when it was not before, nothing waits, and playback is 500 ms past the
     * last sample; then all of the stream was delivered.
     */
    method PumpAudio(audioNowMs: Option<nat>, others: seq<seq<U64>>)
      returns (error: Option<string>, ended: bool, didWork: bool)
      requires Valid() && Conserves()
      modifies this, writer, writer.tx, writer.queued
      ensures Valid() && Conserves()
      ensures error.None? ==>
        processed + pendingAudio == old(processed + pendingAudio) && WaitsForAReason(audioNowMs)
      ensures error.Some? ==> StoppedAt(old(processed + pendingAudio), error.value)
      ensures audioNowMs.None? ==> writer.delivered == old(writer.delivered)
      ensures ended <==>
        && error.None? && audioNowMs.Some? && EndOf(processed).Some? && !old(audioEndSent)
        && pendingAudio == [] && pendingSamples == []
        && audioNowMs.value > Saturated(EndOf(processed).value + 500)
      ensures ended ==> writer.delivered == Deliverable(old(processed + pendingAudio))
      ensures old(writer.calls) <= writer.calls
      ensures didWork <==> Useful(writer.calls, |old(writer.calls)|)
      ensures audioEndSent == (old(audioEndSent) || ended)
    {
      hide Kept, Deliverable, FramesIn, FramesOf;
      error, didWork := SendAndConvert(audioNowMs, others);
      if error.Some? {
        return error, false, didWork;
      }
      ended := CheckEnded(audioNowMs);
      if ended {
        AllDelivered();
      }
    }

    /** With nothing waiting, all that can be delivered was. */
    lemma {:induction false} AllDelivered()
      requires Conserves() && pendingAudio == [] && pendingSamples == []
      ensures writer.delivered == Deliverable(processed + pendingAudio)
    {
      Grown(writer.delivered);
      Grown(processed);
    }

    /** Packets arrive, then one round of the audio section runs. */
    method RunRound(round: Round) returns (error: Option<string>, ended: bool)
      requires Valid() && Conserves()
      modifies this, writer, writer.tx, writer.queued
      ensures Valid() && Conserves()
      ensures error.None? ==>
        && processed + pendingAudio == old(processed + pendingAudio) + round.packets
        && WaitsForAReason(round.audioNowMs)
      ensures error.Some? ==> StoppedAt(old(processed + pendingAudio) + round.packets, error.value)
      ensures ended ==> !old(audioEndSent)
      ensures audioEndSent == (old(audioEndSent) || ended)
    {
      ReceivePackets(round.packets);
      var didWork;
      error, ended, didWork := PumpAudio(round.audioNowMs, round.others);
    }

    /**
     * The thread's loop: packets arrive, then one round of the audio section runs, until a packet cannot be
     * converted. Returns how many rounds ran and how often the end was reported.
     */
    method RunRounds(rounds: seq<Round>) returns (error: Option<string>, ran: nat, ends: nat)
      requires Valid() && Conserves()
      modifies this, writer, writer.tx, writer.queued
      ensures Valid() && Conserves() && ran <= |rounds|
      ensures error.None? ==>
        ran == |rounds| && processed + pendingAudio == old(processed + pendingAudio) + Received(rounds)
      ensures error.None? && rounds != [] ==> WaitsForAReason(rounds[|rounds| - 1].audioNowMs)
      ensures error.Some? ==> StoppedAt(old(processed + pendingAudio) + Received(rounds[..ran]), error.value)
      ensures ends == if audioEndSent && !old(audioEndSent) then 1 else 0
    {
      assert Received(rounds[..0]) == [];
      hide Received, Kept, Deliverable, Gated, FramesIn, FramesOf, EndOf, Output, Useful;
      error, ran, ends := None, 0, 0;
      ghost var start, all := processed + pendingAudio, processed + pendingAudio;
      Grown(start);
      while ran < |rounds| && error.None?
        invariant ran <= |rounds| && Valid() && Conserves()
        invariant all == start + Received(rounds[..ran])
        invariant error.None? ==> processed + pendingAudio == all
        invariant error.None? && ran > 0 ==> WaitsForAReason(rounds[ran - 1].audioNowMs)
        invariant error.Some? ==> StoppedAt(all, error.value)
        invariant ends == if audioEndSent && !old(audioEndSent) then 1 else 0
        invariant old(audioEndSent) ==> audioEndSent
      {
        var round := rounds[ran];
        ReceivedStep(start, rounds, ran);
        all := all + round.packets;
        var ended;
        error, ended := RunRound(round);
        ends := ends + if ended then 1 else 0;
        ran := ran + 1;
      }
      assert rounds[..|rounds|] == rounds;
    }
  }

  lemma {:induction false} ReceivedStep(start: seq<Packet>, rounds: seq<Round>, k: nat)
    requires k < |rounds|
    ensures start + Received(rounds[..k + 1]) == start + Received(rounds[..k]) + rounds[k].packets
  {
    assert rounds[..k + 1][..k] == rounds[..k];
    Appended(start, Received(rounds[..k]), rounds[k].packets);
  }

  lemma {:induction false} SamePieces(a: seq<real>, b: seq<real>, whole: seq<real>, part: seq<real>)
    requires |a| <= |whole| && b <= part
    ensures a + b == whole + part <==> a == whole && b == part
  {
    if a + b == whole + part {
      assert a == (a + b)[..|a|] && whole == (whole + part)[..|whole|];
    }
  }

  lemma {:induction false} RestIsWhole(cfg: Config, samples: seq<real>, taken: seq<real>, rest: seq<real>)
    requires cfg.Usable() && cfg.Aligned(samples) == taken + rest
    requires taken != [] ==> cfg.WholeFrames(|taken|)
    ensures cfg.Aligned(rest) == rest
  {
    OnlyWholeFrames(cfg, 0, samples);
    if taken == [] {
      assert taken + rest == rest;
    } else {
      WholeRest(cfg, |taken + rest|, |taken|);
    }
    KeptWholeIff(cfg, rest);
  }

  /** A worker on a fresh writer of the stereo engine, over any number of rounds. */
  method PlayStereo(maxSamples: U64, outRate: nat, prebufferMaxFrames: nat, converter: Converter, rounds: seq<Round>)
    returns (worker: AudioWorker, error: Option<string>, ends: nat)
    ensures worker.outChannels == OUTPUT_CHANNELS == worker.writer.cfg.channels && worker.Valid()
    ensures error.None? ==>
      worker.writer.delivered + Kept(worker.writer.cfg, worker.pendingSamples)
        + worker.DeliverableFrom(worker.processed, worker.pendingAudio) == worker.Deliverable(Received(rounds))
    ensures error.None? && worker.pendingSamples == [] && worker.pendingAudio == [] ==>
      (worker.writer.delivered == worker.Decoded(Received(rounds)) <==> worker.AllWhole(Received(rounds)))
    ensures ends <= 1
  {
    var tx := new Channel();
    var queued := new AtomicCell(0);
    var writer := new Writer(tx, queued, Config(OUTPUT_CHANNELS, maxSamples));
    worker := new AudioWorker(writer, outRate, OUTPUT_CHANNELS, prebufferMaxFrames, converter);
    var ran;
    error, ran, ends := worker.RunRounds(rounds);
    assert [] + Received(rounds) == Received(rounds);
    worker.StreamIsWhole();
    worker.NothingDroppedIff(Received(rounds));
    Grown(worker.writer.delivered);
  }

  /**
   * From the decoder to the listener: in any run of writers and callback in which writer `w` is the worker's,
   * with the pushes it has made so far, what is heard of it is a prefix of what the processed packets decode to,
   * up to the frames cut off; of the decoded stream itself when every packet was whole frames.
   */
  lemma {:induction false} ListenerHearsStream(worker: AudioWorker, writers: nat, steps: seq<Step>, w: nat)
    requires worker.Conserves() && w < writers
    requires var s := Run(worker.writer.cfg, Initial(writers), steps);
      w < |s.threads| && s.threads[w].calls == worker.writer.calls
    ensures var s := Run(worker.writer.cfg, Initial(writers), steps); var heard := HeardOf(s.sent, |s.played|, w);
      && heard <= worker.Deliverable(worker.processed)
      && (worker.AllWhole(worker.processed) ==> heard <= worker.Decoded(worker.processed))
      && (writers == 1 ==> s.played == heard)
  {
    WriterIsHeardInOrder(worker.writer.cfg, writers, steps, w);
    worker.NothingDroppedIff(worker.processed);
  }

  /** A packet in the engine's own format that ends within a frame loses that part of a frame. */
  lemma {:induction false} HalfFrameIsDropped(worker: AudioWorker, left: real, right: real, half: real)
    requires worker.outChannels == OUTPUT_CHANNELS == worker.writer.cfg.channels && worker.writer.cfg.Usable()
    ensures var packets := [Packet(0, OUTPUT_CHANNELS, worker.outRate, [left, right, half])];
      worker.Decoded(packets) == [left, right, half] && worker.Deliverable(packets) == [left, right]
  {
    var packet := Packet(0, OUTPUT_CHANNELS, worker.outRate, [left, right, half]);
    assert [packet][..0] == [];
    assert Frames(3, OUTPUT_CHANNELS) == 1;
    assert worker.writer.cfg.Aligned([left, right, half]) == [left, right];
  }
}
