/** Cutting a payload into the frames of one publish
    (`send_method_frame_with_body` in src/channel.rs). */
module Publishing {
  import opened Bytes
  import opened Scheduler

  /** An empty body frame weighs 8 bytes, which the payload cannot use. */
  const FRAME_OVERHEAD := 8

  function ChunkSize(frameMax: nat): (n: nat)
    ensures n >= 1
  {
    Max(1, if frameMax >= FRAME_OVERHEAD then frameMax - FRAME_OVERHEAD else 0)
  }

  function Chunks(payload: seq<byte>, size: nat): (r: seq<seq<byte>>)
    requires size > 0
  {
    if payload == [] then []
    else if |payload| <= size then [payload]
    else [payload[..size]] + Chunks(payload[size..], size)
  }

  /** No chunk is empty or too long, and together they are the payload. */
  lemma {:induction false} ChunksExact(payload: seq<byte>, size: nat)
    requires size > 0
    ensures Concat(Chunks(payload, size)) == payload
    ensures forall c :: c in Chunks(payload, size) ==> 0 < |c| <= size
    decreases |payload|
  {
    var r := Chunks(payload, size);
    if |payload| > size {
      var head, rest := payload[..size], Chunks(payload[size..], size);
      ChunksExact(payload[size..], size);
      assert r == [head] + rest && r[1..] == rest;
      assert head + payload[size..] == payload;
    } else if payload != [] {
      assert r == [payload] && r[1..] == [];
      assert payload + [] == payload;
    }
  }

  /** And all but the last are as long as they may be. */
  lemma {:induction false} ChunksFull(payload: seq<byte>, size: nat, i: nat)
    requires size > 0 && i + 1 < |Chunks(payload, size)|
    ensures |Chunks(payload, size)[i]| == size
    decreases |payload|
  {
    if i > 0 {
      ChunksFull(payload[size..], size, i - 1);
    }
  }

  /** Method, header, then one body frame per chunk. */
  function PublishFrames(ch: ChannelId, payload: seq<byte>, frameMax: nat, publish: nat): (r: seq<Frame>)
    ensures |r| == 2 + |Chunks(payload, ChunkSize(frameMax))|
  {
    var chunks := Chunks(payload, ChunkSize(frameMax));
    [Method(ch, Part(publish, 0)), Header(ch, |payload|, Part(publish, 1))] +
    seq(|chunks|, i requires 0 <= i < |chunks| => Body(ch, chunks[i], Part(publish, 2 + i)))
  }

  /** Body frames respect the negotiated size exactly when that size leaves
      room for one byte of payload, or there is nothing to send. */
  lemma BodiesFit(ch: ChannelId, payload: seq<byte>, frameMax: nat, publish: nat)
    ensures
      (forall f :: f in PublishFrames(ch, payload, frameMax, publish) && f.Body? ==>
        |f.payload| + FRAME_OVERHEAD <= frameMax)
      <==> frameMax >= FRAME_OVERHEAD + 1 || payload == []
  {
    var fs := PublishFrames(ch, payload, frameMax, publish);
    var chunks := Chunks(payload, ChunkSize(frameMax));
    ChunksExact(payload, ChunkSize(frameMax));
    forall f | f in fs && f.Body?
      ensures f.payload in chunks
    {
      BodyIsChunk(ch, payload, frameMax, publish, f);
    }
    if frameMax < FRAME_OVERHEAD + 1 && payload != [] {
      assert fs[2] in fs && fs[2].payload == chunks[0] && chunks[0] in chunks;
    }
  }

  /** Every body frame but the last is filled to the negotiated size, if that
      leaves room for any payload. */
  lemma BodiesFull(ch: ChannelId, payload: seq<byte>, frameMax: nat, publish: nat, i: nat)
    requires frameMax > FRAME_OVERHEAD && 2 <= i < |PublishFrames(ch, payload, frameMax, publish)| - 1
    ensures
      var f := PublishFrames(ch, payload, frameMax, publish)[i];
      f.Body? && |f.payload| + FRAME_OVERHEAD == frameMax
  {
    ChunksFull(payload, ChunkSize(frameMax), i - 2);
  }

  lemma BodyIsChunk(ch: ChannelId, payload: seq<byte>, frameMax: nat, publish: nat, f: Frame)
    requires f in PublishFrames(ch, payload, frameMax, publish) && f.Body?
    ensures f.payload in Chunks(payload, ChunkSize(frameMax))
  {
    var fs := PublishFrames(ch, payload, frameMax, publish);
    var i :| 0 <= i < |fs| && fs[i] == f;
    assert f.payload == Chunks(payload, ChunkSize(frameMax))[i - 2];
  }
}
