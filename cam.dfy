/** The single-buffer capture protocol: an ImageGetter opens the device,
    asks for a 1024x1024 MJPEG format, requests and queries one
    memory-mapped buffer, and grabs a frame by mapping that buffer and
    running STREAMON, QBUF, DQBUF and STREAMOFF, returning early at the
    first failing step.

    Every system call is abstract: its outcome is a parameter of the method
    that issues it. The ImageGetter carries, beside the fields of the C
    record, a ghost view of the device (whether `fd` is an open descriptor,
    how many descriptors are open, streaming, buffer 0 queued, buffers
    granted, control values, the regions mapped so far) and a ghost Log of
    every call issued, in order. */
module Cam {
  import opened V4l2

  /** The resolution set_img_format asks for. */
  const FrameWidth: u32 := 1024
  const FrameHeight: u32 := 1024

  /** How initialize_imget ends: it returns, or the process exits with a status. */
  datatype InitOutcome = Continued | Exited(status: int)

  /** Where the driver placed buffer 0, as VIDIOC_QUERYBUF reports it. */
  datatype Placement = Placement(length: u32, offset: u32)

  /** The device's replies to the four calls grab_frame makes after mapping.
      QBUF and DQBUF are handed `&g->bufferinfo`; on success the driver
      fills it in, and the record it hands back is the reply's value. */
  datatype GrabReplies = GrabReplies(
    streamOn: bool,
    queue: Reply<BufferInfo>,
    dequeue: Reply<BufferInfo>,
    streamOff: bool)
  {
    /** Whether each call succeeded, in the order grab_frame issues them. */
    function InOrder(): seq<bool> {
      [streamOn, queue.Succeeded?, dequeue.Succeeded?, streamOff]
    }
  }

  /** The format record set_img_format sends: the previous record with the
      buffer type, resolution, pixel format and field layout overwritten. */
  function FormatRequest(f: PixFormat): PixFormat {
    f.(bufType := BUF_TYPE_VIDEO_CAPTURE, width := FrameWidth, height := FrameHeight,
       pixelFormat := PIX_FMT_MJPEG, field := FIELD_NONE)
  }

  /** The request setup_buffers sends to VIDIOC_REQBUFS. */
  const BufferRequest := RequestBuffers(1, BUF_TYPE_VIDEO_CAPTURE, MEMORY_MMAP)

  /** The record setup_buffers sends to VIDIOC_QUERYBUF: the previous one
      with type, memory and index set (nothing else is cleared). */
  function QueryRequest(b: BufferInfo): BufferInfo {
    b.(bufType := BUF_TYPE_VIDEO_CAPTURE, memory := MEMORY_MMAP, index := 0)
  }

  /** The bufferinfo record grab_frame hands to QBUF: all zero except type,
      memory and index. */
  const CaptureBufferInfo := ZeroBufferInfo.(bufType := BUF_TYPE_VIDEO_CAPTURE, memory := MEMORY_MMAP, index := 0)

  /** The record in `bufferinfo` once QBUF has answered: the driver's when
      it succeeded, the prepared one otherwise. */
  function AfterQueue(r: GrabReplies): BufferInfo {
    if r.queue.Succeeded? then r.queue.value else CaptureBufferInfo
  }

  /** The streaming handshake of grab_frame, in protocol order: DQBUF is
      handed the record as QBUF left it. */
  function Handshake(r: GrabReplies): seq<Request> {
    [
      StreamOn(BUF_TYPE_VIDEO_CAPTURE),
      QueueBuf(CaptureBufferInfo),
      DequeueBuf(AfterQueue(r)),
      StreamOff(BUF_TYPE_VIDEO_CAPTURE)
    ]
  }

  /** How many replies succeed before the first failure. */
  function LeadingSuccesses(oks: seq<bool>): (n: nat)
    ensures n <= |oks|
    ensures forall i :: 0 <= i < n ==> oks[i]
    ensures n < |oks| ==> !oks[n]
  {
    if oks == [] || !oks[0] then 0 else 1 + LeadingSuccesses(oks[1..])
  }

  /** How far grab_frame's handshake gets: the number of leading successes
      names the first step that failed, or 4 when none did. */
  lemma HandshakeReach(r: GrabReplies)
    ensures var n := LeadingSuccesses(r.InOrder());
      (n == 0 <==> !r.streamOn)
      && (n == 1 <==> r.streamOn && r.queue.Failed?)
      && (n == 2 <==> r.streamOn && r.queue.Succeeded? && r.dequeue.Failed?)
      && (n == 3 <==> r.streamOn && r.queue.Succeeded? && r.dequeue.Succeeded? && !r.streamOff)
      && (n == 4 <==> r.streamOn && r.queue.Succeeded? && r.dequeue.Succeeded? && r.streamOff)
  {
    var oks := r.InOrder();
    assert oks[0] == r.streamOn && oks[1] == r.queue.Succeeded?;
    assert oks[2] == r.dequeue.Succeeded? && oks[3] == r.streamOff;
  }

  /** What grab_frame does after mapping, in terms of its replies: the
      return code, the calls issued, the device's streaming and queued
      flags, and the record left in `bufferinfo`. */
  datatype GrabOutcome = GrabOutcome(code: int, issued: seq<Request>, streaming: bool, queued: bool, record: BufferInfo)

  /** The specification of grab_frame's handshake, step by step: with n
      leading successes, the first min(n + 1, 4) calls of the handshake are
      issued, and the state and `bufferinfo` follow the steps that succeeded. */
  function GrabFrameSpec(r: GrabReplies, wasStreaming: bool, wasQueued: bool): GrabOutcome {
    var n := LeadingSuccesses(r.InOrder());
    GrabOutcome(
      if n == 4 then 0 else if n == 3 then 1 else -1,
      Handshake(r)[..if n == 4 then 4 else n + 1],
      if n == 0 then wasStreaming else n < 4,
      if n <= 1 then wasQueued else n == 2,
      if !(r.streamOn && r.queue.Succeeded?) then CaptureBufferInfo
      else if r.dequeue.Failed? then r.queue.value
      else r.dequeue.value)
  }

  /** What the handshake specification promises: the return code is 0 when
      all four calls succeed, 1 when only STREAMOFF fails and -1 otherwise;
      the calls run in protocol order up to and including the first one
      that fails (every call before the last one issued succeeded, and the
      last one failed unless the code is 0); the stream is left on after a QBUF or DQBUF failure; and
      `bufferinfo` holds the record of the last of QBUF and DQBUF that
      succeeded. */
  lemma GrabFrameSpecMeaning(r: GrabReplies, wasStreaming: bool, wasQueued: bool)
    ensures var o := GrabFrameSpec(r, wasStreaming, wasQueued);
      && (o.code == 0 <==> r.streamOn && r.queue.Succeeded? && r.dequeue.Succeeded? && r.streamOff)
      && (o.code == 1 <==> r.streamOn && r.queue.Succeeded? && r.dequeue.Succeeded? && !r.streamOff)
      && (o.code == -1 <==> !(r.streamOn && r.queue.Succeeded? && r.dequeue.Succeeded?))
    ensures var o := GrabFrameSpec(r, wasStreaming, wasQueued);
      1 <= |o.issued| <= 4 && o.issued == Handshake(r)[..|o.issued|]
      && (forall i :: 0 <= i < |o.issued| - 1 ==> r.InOrder()[i])
      && (o.code != 0 ==> !r.InOrder()[|o.issued| - 1])
      && (o.code == 0 ==> o.issued == Handshake(r) && !o.streaming && !o.queued)
      && (!r.streamOn ==> o.issued == [StreamOn(BUF_TYPE_VIDEO_CAPTURE)]
                          && o.streaming == wasStreaming && o.queued == wasQueued)
      && (StreamOff(BUF_TYPE_VIDEO_CAPTURE) in o.issued <==> r.streamOn && r.queue.Succeeded? && r.dequeue.Succeeded?)
    ensures var o := GrabFrameSpec(r, wasStreaming, wasQueued);
      && (r.streamOn && o.code != 0 ==> o.streaming)
      && (r.streamOn && r.queue.Succeeded? && r.dequeue.Failed? ==> o.queued && o.record == r.queue.value)
      && (!(r.streamOn && r.queue.Succeeded?) ==> o.record == CaptureBufferInfo)
      && (r.streamOn && r.queue.Succeeded? && r.dequeue.Succeeded? ==> o.record == r.dequeue.value)
  {
    HandshakeReach(r);
    var h := Handshake(r);
    assert h[..1] == [h[0]];
    assert h[..2] == [h[0], h[1]];
    assert h[..3] == [h[0], h[1], h[2]];
    assert h[..4] == h;
  }

  /** memset(a, 0, a.Length). */
  method ZeroFill(a: array<bv8>)
    modifies a
    ensures forall i :: 0 <= i < a.Length ==> a[i] == 0
  {
    var i := 0;
    while i < a.Length
      invariant 0 <= i <= a.Length
      invariant forall k :: 0 <= k < i ==> a[k] == 0
    {
      a[i] := 0;
      i := i + 1;
    }
  }

  /** The ImageGetter record, with the device it drives. */
  class ImageGetter {
    var fd: int
    var imageFormat: PixFormat
    var requestBuffer: RequestBuffers
    var queryBuffer: BufferInfo
    var bufferInfo: BufferInfo
    var buffer: array<bv8>

    // The abstract device, as far as these calls change it.
    ghost var fdOpen: bool             // fd names an open descriptor of the device
    ghost var openDescriptors: nat     // descriptors of the device the process holds open
    ghost var streaming: bool
    ghost var queued: bool             // buffer 0 is queued with the driver
    ghost var grantedBuffers: nat      // buffers granted by the last successful REQBUFS
    ghost var controlValues: map<bv32, int>
    ghost var Mappings: seq<array<bv8>>  // every region mapped so far; none is unmapped
    ghost var Log: seq<Request>        // every call issued on the device, in order

    /** How the record and the device view fit together: an open `fd` is a
        real descriptor and is counted among the open ones, a queued buffer
        belongs to a running stream, and `buffer` is the latest mapping. */
    ghost predicate Valid()
      reads this
    {
      (fdOpen ==> fd >= 0 && openDescriptors >= 1)
      && (queued ==> streaming)
      && (Mappings != [] ==> buffer == Mappings[|Mappings| - 1])
    }

    /** A zero-initialised record in front of an idle device. */
    constructor (controls: map<bv32, int>)
      ensures Valid()
      ensures fd == 0 && !fdOpen && openDescriptors == 0
      ensures !streaming && !queued && grantedBuffers == 0 && controlValues == controls
      ensures queryBuffer == ZeroBufferInfo && bufferInfo == ZeroBufferInfo
      ensures requestBuffer == RequestBuffers(0, 0, 0) && imageFormat == PixFormat(0, 0, 0, 0, 0, 0, 0)
      ensures buffer.Length == 0 && Mappings == [] && Log == []
    {
      fd := 0;
      imageFormat := PixFormat(0, 0, 0, 0, 0, 0, 0);
      requestBuffer := RequestBuffers(0, 0, 0);
      queryBuffer := ZeroBufferInfo;
      bufferInfo := ZeroBufferInfo;
      buffer := new bv8[0];
      fdOpen, openDescriptors := false, 0;
      streaming, queued, grantedBuffers := false, false, 0;
      controlValues := controls;
      Mappings, Log := [], [];
    }

    /** initialize_imget: open the device, then query its capabilities.
        A failed open is only reported; a failed QUERYCAP ends the process
        with status 1. `openReply` is open(2)'s answer. */
    method InitializeImget(device: string, openReply: Reply<nat>, queryCap: bool) returns (outcome: InitOutcome)
      requires Valid()
      modifies this`fd, this`fdOpen, this`openDescriptors, this`Log
      ensures Valid()
      ensures fd == (if openReply.Succeeded? then openReply.value else -1)
      ensures fdOpen == openReply.Succeeded?
      ensures openDescriptors == old(openDescriptors) + (if openReply.Succeeded? then 1 else 0)
      ensures Log == old(Log) + [Open(device), QueryCap]
      ensures outcome == if queryCap then Continued else Exited(1)
    {
      Log := Log + [Open(device)];
      if openReply.Succeeded? {
        fd := openReply.value;
        fdOpen := true;
        openDescriptors := openDescriptors + 1;
      } else {
        fd := -1;
        fdOpen := false;
      }
      Log := Log + [QueryCap];
      if !queryCap {
        return Exited(1);
      }
      return Continued;
    }

    /** set_img_format: always asks for 1024x1024 MJPEG with no interlacing;
        on success the driver writes back the format it chose, on failure
        the request stays in the record and nothing stops. */
    method SetImgFormat(reply: Reply<PixFormat>)
      requires Valid()
      modifies this`imageFormat, this`Log
      ensures Valid()
      ensures Log == old(Log) + [SetFormat(FormatRequest(old(imageFormat)))]
      ensures var sent := FormatRequest(old(imageFormat));
        sent.bufType == BUF_TYPE_VIDEO_CAPTURE && sent.width == 1024 && sent.height == 1024
        && sent.pixelFormat == PIX_FMT_MJPEG && sent.field == FIELD_NONE
      ensures imageFormat == if reply.Succeeded? then reply.value else FormatRequest(old(imageFormat))
    {
      imageFormat := imageFormat.(bufType := BUF_TYPE_VIDEO_CAPTURE);
      imageFormat := imageFormat.(width := FrameWidth, height := FrameHeight);
      imageFormat := imageFormat.(pixelFormat := PIX_FMT_MJPEG);
      imageFormat := imageFormat.(field := FIELD_NONE);
      Log := Log + [SetFormat(imageFormat)];
      if reply.Succeeded? {
        imageFormat := reply.value;
      }
    }

    /** setup_buffers: request exactly one memory-mapped capture buffer,
        then query buffer 0, whether or not the request succeeded.
        `granted` is the count the driver writes back, `placed` what
        QUERYBUF fills in. */
    method SetupBuffers(granted: Reply<u32>, placed: Reply<Placement>)
      requires Valid()
      modifies this`requestBuffer, this`queryBuffer, this`grantedBuffers, this`Log
      ensures Valid()
      ensures Log == old(Log) + [RequestBufs(BufferRequest), QueryBuf(QueryRequest(old(queryBuffer)))]
      ensures BufferRequest.count == 1 && BufferRequest.memory == MEMORY_MMAP
      ensures requestBuffer == BufferRequest.(count := if granted.Succeeded? then granted.value else 1)
      ensures grantedBuffers == if granted.Succeeded? then granted.value as nat else old(grantedBuffers)
      ensures queryBuffer == if placed.Succeeded?
        then QueryRequest(old(queryBuffer)).(length := placed.value.length, offset := placed.value.offset)
        else QueryRequest(old(queryBuffer))
    {
      requestBuffer := requestBuffer.(count := 1);
      requestBuffer := requestBuffer.(bufType := BUF_TYPE_VIDEO_CAPTURE);
      requestBuffer := requestBuffer.(memory := MEMORY_MMAP);
      Log := Log + [RequestBufs(requestBuffer)];
      if granted.Succeeded? {
        requestBuffer := requestBuffer.(count := granted.value);
        grantedBuffers := granted.value as nat;
      }

      queryBuffer := queryBuffer.(bufType := BUF_TYPE_VIDEO_CAPTURE);
      queryBuffer := queryBuffer.(memory := MEMORY_MMAP);
      queryBuffer := queryBuffer.(index := 0);
      Log := Log + [QueryBuf(queryBuffer)];
      if placed.Succeeded? {
        queryBuffer := queryBuffer.(length := placed.value.length, offset := placed.value.offset);
      }
    }

    /** The mmap and memset at the start of grab_frame: a new region of
        queryBuffer.length bytes at queryBuffer's offset, all cleared.
        `deviceMemory` is what the region held before it was cleared. */
    method MapAndClear(deviceMemory: seq<bv8>)
      requires Valid()
      modifies this`buffer, this`Mappings, this`Log
      ensures Valid()
      ensures fresh(buffer) && buffer.Length == queryBuffer.length as int
      ensures forall i :: 0 <= i < buffer.Length ==> buffer[i] == 0
      ensures Mappings == old(Mappings) + [buffer]
      ensures Log == old(Log) + [Mmap(queryBuffer.length, queryBuffer.offset)]
    {
      var region := new bv8[queryBuffer.length as int](i => if 0 <= i < |deviceMemory| then deviceMemory[i] else 0);
      Log := Log + [Mmap(queryBuffer.length, queryBuffer.offset)];
      Mappings := Mappings + [region];
      buffer := region;
      ZeroFill(region);
    }

    /** The streaming part of grab_frame: STREAMON, QBUF, DQBUF, STREAMOFF
        on the prepared bufferinfo, returning at the first failure. QBUF
        and DQBUF store the driver's record in `bufferInfo` when they succeed.
        It is entered with the mapped region all zero, and keeps the one
        part of Valid() it can change: a queued buffer belongs to a running
        stream. */
    method StreamHandshake(replies: GrabReplies) returns (code: int)
      requires bufferInfo == CaptureBufferInfo && (queued ==> streaming)
      requires forall i :: 0 <= i < buffer.Length ==> buffer[i] == 0
      modifies this`bufferInfo, this`streaming, this`queued, this`Log
      ensures queued ==> streaming
      ensures var spec := GrabFrameSpec(replies, old(streaming), old(queued));
        code == spec.code && streaming == spec.streaming && queued == spec.queued
        && bufferInfo == spec.record && Log == old(Log) + spec.issued
    {
      ghost var n := LeadingSuccesses(replies.InOrder());
      ghost var h := Handshake(replies);
      ghost var spec := GrabFrameSpec(replies, old(streaming), old(queued));
      HandshakeReach(replies);

      var bufType := bufferInfo.bufType;
      Log := Log + [StreamOn(bufType)];
      if !replies.streamOn {
        assert n == 0 && Log == old(Log) + h[..1];
        return -1;
      }
      streaming := true;

      Log := Log + [QueueBuf(bufferInfo)];
      if replies.queue.Failed? {
        assert n == 1 && Log == old(Log) + h[..2];
        return -1;
      }
      bufferInfo := replies.queue.value;
      queued := true;

      Log := Log + [DequeueBuf(bufferInfo)];
      if replies.dequeue.Failed? {
        assert n == 2 && Log == old(Log) + h[..3];
        return -1;
      }
      bufferInfo := replies.dequeue.value;
      queued := false;

      Log := Log + [StreamOff(bufType)];
      if !replies.streamOff {
        assert n == 3 && Log == old(Log) + h[..4];
        return 1;
      }
      streaming := false;
      assert n == 4 && Log == old(Log) + h[..4];
      return 0;
    }

    /** grab_frame: map and clear the buffer, reset bufferinfo, then
        STREAMON, QBUF, DQBUF, STREAMOFF, stopping at the first failure.
        Returns 0 on success, 1 when only STREAMOFF failed, -1 otherwise.
        The handshake, and so STREAMON, starts on an all-zero region. */
    method GrabFrame(replies: GrabReplies, deviceMemory: seq<bv8>) returns (code: int)
      requires Valid()
      modifies this`buffer, this`bufferInfo, this`streaming, this`queued, this`Mappings, this`Log
      ensures Valid()
      ensures var spec := GrabFrameSpec(replies, old(streaming), old(queued));
        code == spec.code && streaming == spec.streaming && queued == spec.queued
        && bufferInfo == spec.record
        && Log == old(Log) + [Mmap(queryBuffer.length, queryBuffer.offset)] + spec.issued
      ensures fresh(buffer) && buffer.Length == queryBuffer.length as int
      ensures Mappings == old(Mappings) + [buffer]
    {
      MapAndClear(deviceMemory);

      bufferInfo := ZeroBufferInfo;
      bufferInfo := bufferInfo.(bufType := BUF_TYPE_VIDEO_CAPTURE);
      bufferInfo := bufferInfo.(memory := MEMORY_MMAP);
      bufferInfo := bufferInfo.(index := 0);

      code := StreamHandshake(replies);
    }
  }

  /** PrepareCamera: initialize_imget, set_img_format, setup_buffers, in
      that order. Only a failed QUERYCAP stops the sequence, since it ends
      the process; every other failure lets the next step run. */
  method PrepareCamera(g: ImageGetter, dev: string, openReply: Reply<nat>, queryCap: bool,
                       format: Reply<PixFormat>, granted: Reply<u32>, placed: Reply<Placement>)
    returns (outcome: InitOutcome)
    requires g.Valid()
    modifies g`fd, g`fdOpen, g`openDescriptors, g`imageFormat, g`requestBuffer, g`queryBuffer, g`grantedBuffers, g`Log
    ensures g.Valid()
    ensures outcome == if queryCap then Continued else Exited(1)
    ensures g.fd == (if openReply.Succeeded? then openReply.value else -1)
    ensures g.fdOpen == openReply.Succeeded?
    ensures g.openDescriptors == old(g.openDescriptors) + (if openReply.Succeeded? then 1 else 0)
    ensures !queryCap ==>
      g.Log == old(g.Log) + [Open(dev), QueryCap]
      && g.imageFormat == old(g.imageFormat) && g.requestBuffer == old(g.requestBuffer)
      && g.queryBuffer == old(g.queryBuffer) && g.grantedBuffers == old(g.grantedBuffers)
    ensures queryCap ==> g.Log == old(g.Log) + [Open(dev), QueryCap, SetFormat(FormatRequest(old(g.imageFormat))),
                                                RequestBufs(BufferRequest), QueryBuf(QueryRequest(old(g.queryBuffer)))]
    ensures queryCap ==>
      g.imageFormat == (if format.Succeeded? then format.value else FormatRequest(old(g.imageFormat)))
    ensures queryCap ==>
      g.requestBuffer == BufferRequest.(count := if granted.Succeeded? then granted.value else 1)
      && g.grantedBuffers == (if granted.Succeeded? then granted.value as nat else old(g.grantedBuffers))
    ensures queryCap ==>
      g.queryBuffer == if placed.Succeeded?
        then QueryRequest(old(g.queryBuffer)).(length := placed.value.length, offset := placed.value.offset)
        else QueryRequest(old(g.queryBuffer))
  {
    outcome := g.InitializeImget(dev, openReply, queryCap);
    if outcome.Exited? {
      return;
    }
    g.SetImgFormat(format);
    g.SetupBuffers(granted, placed);
  }
}
