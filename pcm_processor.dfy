/**
 * The audio worklet that turns microphone samples into 16-bit PCM chunks
 * (frontend/src/services/pcm-processor.js): each sample in [-1, 1] becomes a
 * little-endian signed 16-bit integer, the bytes collect in a buffer, and a
 * full buffer of 9600 bytes is posted to the page; a STOP message flushes
 * what is left and stops the processor.
 *
 * Samples are real numbers (the worklet's floats, without rounding or NaN);
 * the messages posted on the port are recorded in `posted`.
 */
module PCM {
  import opened Wrappers

  // ---------------------------------------------------------------------
  // One sample
  // ---------------------------------------------------------------------

  /** `Math.max(-1, Math.min(1, x))`. */
  function Clamp(x: real): (r: real)
    ensures -1.0 <= r <= 1.0
    ensures -1.0 <= x <= 1.0 ==> r == x
  {
    var upper := if 1.0 < x then 1.0 else x;
    if -1.0 > upper then -1.0 else upper
  }

  /** Truncation toward zero, as the bitwise operators apply to their operand. */
  function Truncate(r: real): (n: int)
    ensures r >= 0.0 ==> n as real <= r < n as real + 1.0
    ensures r < 0.0 ==> n as real - 1.0 < r <= n as real
  {
    if r >= 0.0 then r.Floor else -((-r).Floor)
  }

  /** The 16-bit value of a sample: negative samples scale by 0x8000, others by 0x7fff. */
  function ToInt16(x: real): (n: int)
    ensures -32768 <= n <= 32767
    ensures x >= 1.0 ==> n == 32767
    ensures x <= -1.0 ==> n == -32768
    ensures (n < 0 ==> x < 0.0) && (x >= 0.0 ==> n >= 0)
  {
    var s := Clamp(x);
    Truncate(if s < 0.0 then s * 32768.0 else s * 32767.0)
  }

  /** `n & 0xff` and `(n >> 8) & 0xff`: the low and high byte of the two's-complement value. */
  function EncodeSample(n: int): (bytes: seq<Byte>)
    ensures |bytes| == 2
  {
    [n % 256, (n / 256) % 256]
  }

  /** Reading a little-endian signed 16-bit value, as the transcription service does. */
  function DecodeSample(lo: Byte, hi: Byte): (n: int)
    ensures -32768 <= n <= 32767
  {
    var u := lo + 256 * hi;
    if u >= 32768 then u - 65536 else u
  }

  /** Every 16-bit value survives encoding. */
  lemma DecodeEncodeSample(n: int)
    requires -32768 <= n <= 32767
    ensures var b := EncodeSample(n); DecodeSample(b[0], b[1]) == n
  {
    var q := n / 256;
    var lo := n % 256;
    assert n == 256 * q + lo;
    assert -128 <= q <= 127;
    if q >= 0 {
      assert q % 256 == q;
    } else {
      assert q % 256 == q + 256;
    }
  }

  // ---------------------------------------------------------------------
  // Streams of samples and chunks of bytes
  // ---------------------------------------------------------------------

  function EncodeAll(xs: seq<int>): (bytes: seq<Byte>)
    ensures |bytes| == 2 * |xs|
  {
    if |xs| == 0 then [] else EncodeAll(xs[..|xs| - 1]) + EncodeSample(xs[|xs| - 1])
  }

  function DecodeAll(bytes: seq<Byte>): (xs: seq<int>)
    requires |bytes| % 2 == 0
    ensures 2 * |xs| == |bytes|
  {
    if |bytes| == 0 then []
    else DecodeAll(bytes[..|bytes| - 2]) + [DecodeSample(bytes[|bytes| - 2], bytes[|bytes| - 1])]
  }

  predicate AllInt16(xs: seq<int>) {
    forall i :: 0 <= i < |xs| ==> -32768 <= xs[i] <= 32767
  }

  /** The byte stream decodes back to the samples it was made from. */
  lemma {:induction false} DecodeEncodeAll(xs: seq<int>)
    requires AllInt16(xs)
    ensures DecodeAll(EncodeAll(xs)) == xs
  {
    if |xs| > 0 {
      var init := xs[..|xs| - 1];
      var last := xs[|xs| - 1];
      DecodeEncodeAll(init);
      DecodeEncodeSample(last);
      var bytes := EncodeAll(xs);
      assert bytes == EncodeAll(init) + EncodeSample(last);
      assert bytes[..|bytes| - 2] == EncodeAll(init);
      assert init + [last] == xs;
    }
  }

  lemma EncodeAllAppend(xs: seq<int>, x: int)
    ensures EncodeAll(xs + [x]) == EncodeAll(xs) + EncodeSample(x)
  {
    assert (xs + [x])[..|xs|] == xs;
  }

  /** The bytes of the posted chunks, in order. */
  function Concat(chunks: seq<seq<Byte>>): (bytes: seq<Byte>)
  {
    if |chunks| == 0 then [] else Concat(chunks[..|chunks| - 1]) + chunks[|chunks| - 1]
  }

  lemma ConcatAppend(chunks: seq<seq<Byte>>, c: seq<Byte>)
    ensures Concat(chunks + [c]) == Concat(chunks) + c
  {
    assert (chunks + [c])[..|chunks|] == chunks;
  }

  /** The 16-bit values of one channel's samples. */
  function Converted(channel: seq<real>): (xs: seq<int>)
    ensures |xs| == |channel| && AllInt16(xs)
  {
    seq(|channel|, i requires 0 <= i < |channel| => ToInt16(channel[i]))
  }

  // ---------------------------------------------------------------------
  // The worklet
  // ---------------------------------------------------------------------

  /** The size of a full chunk: 4800 16-bit samples. */
  const ChunkBytes: nat := 9600

  /** Every chunk is full. */
  predicate AllFull(chunks: seq<seq<Byte>>) {
    forall k :: 0 <= k < |chunks| ==> |chunks[k]| == ChunkBytes
  }

  /** Full chunks posted after the earlier ones leave those in place. */
  lemma GrowthIsFull(before: seq<seq<Byte>>, added: seq<seq<Byte>>)
    requires AllFull(added)
    ensures var p := before + added;
      && p[..|before|] == before
      && forall k :: |before| <= k < |p| ==> |p[k]| == ChunkBytes
  {
    var p := before + added;
    assert forall k :: |before| <= k < |p| ==> p[k] == added[k - |before|];
  }

  /** One more full chunk posted keeps the chunks posted so far as the earlier ones plus full ones. */
  lemma FullStep(before: seq<seq<Byte>>, added: seq<seq<Byte>>, chunk: seq<Byte>)
    requires AllFull(added) && |chunk| == ChunkBytes
    ensures before + added + [chunk] == before + (added + [chunk]) && AllFull(added + [chunk])
  {
    var a := added + [chunk];
    assert forall k :: 0 <= k < |a| ==> a[k] == if k < |added| then added[k] else chunk;
  }

  /** Converting one more sample appends its 16-bit value to the samples taken in. */
  lemma ConvertedStep(before: seq<int>, channel: seq<real>, i: nat)
    requires i < |channel|
    ensures before + Converted(channel)[..i] + [ToInt16(channel[i])] == before + Converted(channel)[..i + 1]
  {
    assert Converted(channel)[..i + 1] == Converted(channel)[..i] + [ToInt16(channel[i])];
  }

  /**
   * Nothing is lost or reordered: the posted chunks followed by the buffer
   * are the encoding of every sample taken in; the buffer never holds a
   * full chunk; every chunk is a whole number of non-empty samples.
   */
  ghost predicate Chunked(posted: seq<seq<Byte>>, buffer: seq<Byte>, samples: seq<int>) {
    && Concat(posted) + buffer == EncodeAll(samples)
    && |buffer| < ChunkBytes && |buffer| % 2 == 0
    && forall i :: 0 <= i < |posted| ==> 0 < |posted[i]| <= ChunkBytes && |posted[i]| % 2 == 0
  }

  /**
   * Appending one sample's bytes keeps the invariant: the buffer grows by
   * two bytes, or, when that fills it, is posted whole as a chunk of
   * exactly ChunkBytes bytes and starts again empty.
   */
  lemma PushKeepsChunked(posted: seq<seq<Byte>>, buffer: seq<Byte>, samples: seq<int>, x: int)
    requires Chunked(posted, buffer, samples)
    ensures var next := buffer + EncodeSample(x);
      && (|next| < ChunkBytes ==> Chunked(posted, next, samples + [x]))
      && (|next| >= ChunkBytes ==> |next| == ChunkBytes && Chunked(posted + [next], [], samples + [x]))
  {
    var next := buffer + EncodeSample(x);
    EncodeAllAppend(samples, x);
    assert Concat(posted) + next == EncodeAll(samples + [x]);
    if |next| >= ChunkBytes {
      ConcatAppend(posted, next);
      assert Concat(posted + [next]) + [] == EncodeAll(samples + [x]);
      var p := posted + [next];
      assert forall i :: 0 <= i < |p| ==> p[i] == if i < |posted| then posted[i] else next;
    }
  }

  /** Posting a non-empty buffer as a chunk keeps the invariant. */
  lemma FlushKeepsChunked(posted: seq<seq<Byte>>, buffer: seq<Byte>, samples: seq<int>)
    requires Chunked(posted, buffer, samples) && buffer != []
    ensures Chunked(posted + [buffer], [], samples)
  {
    ConcatAppend(posted, buffer);
    assert Concat(posted + [buffer]) + [] == EncodeAll(samples);
    var p := posted + [buffer];
    assert forall i :: 0 <= i < |p| ==> p[i] == if i < |posted| then posted[i] else buffer;
  }

  class PCMProcessor {
    var isRecording: bool
    var buffer: seq<Byte>
    /** The chunks posted to the page, oldest first. */
    var posted: seq<seq<Byte>>
    /** The 16-bit samples taken in so far. */
    ghost var samples: seq<int>

    /** The chunking invariant holds of the current state. */
    ghost predicate Valid()
      reads this
    {
      Chunked(posted, buffer, samples)
    }

    constructor ()
      ensures Valid() && isRecording
      ensures buffer == [] && posted == [] && samples == []
    {
      isRecording := true;
      buffer := [];
      posted := [];
      samples := [];
    }

    /** `flush`: posts what the buffer holds, if anything. */
    method Flush()
      requires Valid()
      modifies this
      ensures Valid()
      ensures posted == old(posted) + (if old(buffer) == [] then [] else [old(buffer)])
      ensures buffer == [] && samples == old(samples) && isRecording == old(isRecording)
    {
      if |buffer| > 0 {
        FlushKeepsChunked(posted, buffer, samples);
        posted := posted + [buffer];
        buffer := [];
      }
    }

    /** The port's message handler: "STOP" ends recording and flushes. */
    method OnMessage(data: string)
      requires Valid()
      modifies this
      ensures Valid() && samples == old(samples)
      ensures data == "STOP" ==>
        && !isRecording && buffer == []
        && posted == old(posted) + (if old(buffer) == [] then [] else [old(buffer)])
      ensures data != "STOP" ==> isRecording == old(isRecording) && buffer == old(buffer) && posted == old(posted)
    {
      if data == "STOP" {
        isRecording := false;
        Flush();
      }
    }

    /** One step of `process`'s loop: the two bytes of a sample, then a post if the buffer is full. */
    method PushSample(intSample: int)
      requires Valid() && -32768 <= intSample <= 32767
      modifies this
      ensures Valid() && isRecording == old(isRecording)
      ensures samples == old(samples) + [intSample]
      ensures |old(buffer)| + 2 < ChunkBytes ==>
        buffer == old(buffer) + EncodeSample(intSample) && posted == old(posted)
      ensures |old(buffer)| + 2 >= ChunkBytes ==>
        && buffer == []
        && posted == old(posted) + [old(buffer) + EncodeSample(intSample)]
        && |posted[|posted| - 1]| == ChunkBytes
    {
      var next := buffer + EncodeSample(intSample);
      PushKeepsChunked(posted, buffer, samples, intSample);
      samples := samples + [intSample];
      if |next| >= ChunkBytes {
        posted := posted + [next];
        buffer := [];
      } else {
        buffer := next;
      }
    }

    /** The loop of `process`: every sample of the channel, in order, posting each chunk that fills. */
    method PushChannel(channel: seq<real>)
      requires Valid() && isRecording
      modifies this
      ensures Valid() && isRecording
      ensures samples == old(samples) + Converted(channel)
      ensures |posted| >= |old(posted)| && posted[..|old(posted)|] == old(posted)
      ensures forall k :: |old(posted)| <= k < |posted| ==> |posted[k]| == ChunkBytes
      ensures channel == [] ==> buffer == old(buffer) && posted == old(posted)
    {
      var i := 0;
      ghost var added: seq<seq<Byte>> := [];
      while i < |channel|
        invariant 0 <= i <= |channel|
        invariant Valid() && isRecording
        invariant samples == old(samples) + Converted(channel)[..i]
        invariant posted == old(posted) + added && AllFull(added)
        invariant i == 0 ==> buffer == old(buffer) && added == []
      {
        var intSample := ToInt16(channel[i]);
        ghost var fills := |buffer| + 2 >= ChunkBytes;
        PushSample(intSample);
        if fills {
          var chunk := posted[|posted| - 1];
          FullStep(old(posted), added, chunk);
          added := added + [chunk];
        }
        ConvertedStep(old(samples), channel, i);
        i := i + 1;
      }
      GrowthIsFull(old(posted), added);
      assert Converted(channel)[..i] == Converted(channel);
    }

    /**
     * `process`: once stopped, flushes and asks to be dropped; otherwise
     * converts the first channel of the first input, posting a chunk each
     * time the buffer fills.
     */
    method Process(inputs: seq<seq<seq<real>>>) returns (keepAlive: bool)
      requires Valid()
      modifies this
      ensures Valid()
      ensures keepAlive <==> old(isRecording)
      ensures isRecording == old(isRecording)
      ensures !old(isRecording) ==>
        && samples == old(samples) && buffer == []
        && posted == old(posted) + (if old(buffer) == [] then [] else [old(buffer)])
      ensures old(isRecording) ==>
        var channel := if |inputs| > 0 && |inputs[0]| > 0 then inputs[0][0] else [];
        && samples == old(samples) + Converted(channel)
        && |posted| >= |old(posted)| && posted[..|old(posted)|] == old(posted)
        && (forall k :: |old(posted)| <= k < |posted| ==> |posted[k]| == ChunkBytes)
        && (channel == [] ==> buffer == old(buffer) && posted == old(posted))
    {
      if !isRecording {
        Flush();
        return false;
      }
      if |inputs| > 0 && |inputs[0]| > 0 {
        PushChannel(inputs[0][0]);
      } else {
        assert Converted([]) == [];
      }
      keepAlive := true;
    }
  }

  /** After a flush, the posted chunks decode to exactly the samples taken in. */
  lemma PostedDecodesToSamples(p: PCMProcessor)
    requires p.Valid() && p.buffer == []
    ensures |Concat(p.posted)| % 2 == 0
    ensures AllInt16(p.samples) ==> DecodeAll(Concat(p.posted)) == p.samples
  {
    assert Concat(p.posted) + [] == Concat(p.posted);
    if AllInt16(p.samples) {
      DecodeEncodeAll(p.samples);
    }
  }
}
