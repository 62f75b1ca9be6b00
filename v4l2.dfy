/** The part of the Video4Linux2 (V4L2) userspace API that the capture code
    uses: the constants it passes, the argument records of its ioctl calls
    (only the fields the code sets or reads), and one value per system call
    it issues, so that a run can be recorded as a sequence of requests.
    The calls follow the memory-mapping streaming I/O protocol, section 3.2
    "Streaming I/O (Memory Mapping)" of the V4L2 userspace API. */
module V4l2 {

  /** An unsigned 32-bit field of a V4L2 record (`__u32`). */
  newtype u32 = x: int | 0 <= x < 0x1_0000_0000

  // enum v4l2_buf_type, enum v4l2_memory, enum v4l2_field
  const BUF_TYPE_VIDEO_CAPTURE: u32 := 1
  const MEMORY_MMAP: u32 := 1
  const FIELD_NONE: u32 := 1

  /** v4l2_fourcc('M', 'J', 'P', 'G'): the four bytes, least significant first. */
  const PIX_FMT_MJPEG: u32 := 0x4750_4A4D

  // Control ids: the user class starts at 0x00980900, the camera class at 0x009A0900.
  const CID_BRIGHTNESS: bv32 := 0x0098_0900
  const CID_CONTRAST: bv32 := 0x0098_0901
  const CID_SATURATION: bv32 := 0x0098_0902
  const CID_HUE: bv32 := 0x0098_0903
  const CID_AUTO_WHITE_BALANCE: bv32 := 0x0098_090C
  const CID_DO_WHITE_BALANCE: bv32 := 0x0098_090D
  const CID_GAMMA: bv32 := 0x0098_0910
  const CID_GAIN: bv32 := 0x0098_0913
  const CID_POWER_LINE_FREQUENCY: bv32 := 0x0098_0918
  const CID_WHITE_BALANCE_TEMPERATURE: bv32 := 0x0098_091A
  const CID_SHARPNESS: bv32 := 0x0098_091B
  const CID_BACKLIGHT_COMPENSATION: bv32 := 0x0098_091C
  const CID_EXPOSURE_AUTO: bv32 := 0x009A_0901
  const CID_EXPOSURE_ABSOLUTE: bv32 := 0x009A_0902

  /** Bit of v4l2_queryctrl.flags saying the control is permanently disabled. */
  const CTRL_FLAG_DISABLED: bv32 := 0x0001

  /** struct v4l2_format with its `fmt.pix` member (struct v4l2_pix_format). */
  datatype PixFormat = PixFormat(
    bufType: u32,
    width: u32,
    height: u32,
    pixelFormat: u32,
    field: u32,
    bytesPerLine: u32,
    sizeImage: u32)

  /** struct v4l2_requestbuffers. */
  datatype RequestBuffers = RequestBuffers(count: u32, bufType: u32, memory: u32)

  /** struct v4l2_buffer; `offset` is the `m.offset` member of its union. */
  datatype BufferInfo = BufferInfo(
    index: u32,
    bufType: u32,
    bytesUsed: u32,
    flags: u32,
    field: u32,
    sequence: u32,
    memory: u32,
    offset: u32,
    length: u32)

  /** A struct v4l2_buffer after `memset(.., 0, sizeof ..)`. */
  const ZeroBufferInfo := BufferInfo(0, 0, 0, 0, 0, 0, 0, 0, 0)

  /** What a call the model cannot see answered: it failed, or it succeeded
      and handed back a value (a descriptor, or a record the driver filled in). */
  datatype Reply<T> = Failed | Succeeded(value: T)

  /** One system call on the capture device, with the argument it was given. */
  datatype Request =
    | Open(path: string)
    | Close
    | QueryCap
    | SetFormat(format: PixFormat)
    | RequestBufs(request: RequestBuffers)
    | QueryBuf(buffer: BufferInfo)
    | Mmap(length: u32, offset: u32)
    | StreamOn(bufType: u32)
    | StreamOff(bufType: u32)
    | QueueBuf(buffer: BufferInfo)
    | DequeueBuf(buffer: BufferInfo)
    | GetControl(id: bv32, value: int)   // VIDIOC_G_CTRL: reads the control
    | SetControl(id: bv32, value: int)   // VIDIOC_S_CTRL: writes the control
    | QueryControl(id: bv32)
}
