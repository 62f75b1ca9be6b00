# cam_getter in Dafny

A model of the capture and camera-control core of cam_getter, a small
Video4Linux2 (V4L2) frame grabber. Two pieces are modelled against an
abstract device and an abstract file store:

- **The single-buffer capture protocol** (`cam.h`, module `Cam` in
  `cam.dfy`). `ImageGetter` is a class holding the fields of the C record
  (`fd`, `imageFormat`, `requestBuffer`, `queryBuffer`, `bufferInfo`,
  `buffer`). Beside them it keeps a ghost view of the device: whether `fd`
  is open, how many descriptors are open, streaming, buffer 0 queued, the
  buffer count granted, the control values, and every mapped region. It
  also keeps a ghost `Log` of every system call issued, in order.
  `initialize_imget`, `set_img_format`, `setup_buffers`, `grab_frame` and
  `PrepareCamera` are methods, and each keeps the invariant `Valid()` that
  ties the ghost view to the fields. The outcome of each `open` and `ioctl`
  is a parameter of the method that issues it; `mmap` and `close` are taken
  to succeed. `grab_frame` is
  proved against `GrabFrameSpec`, a pure specification of the
  STREAMON / QBUF / DQBUF / STREAMOFF handshake with its early returns.
  The calls follow the memory-mapping streaming I/O protocol of the V4L2
  userspace API, section 3.2 "Streaming I/O (Memory Mapping)".
- **Camera controls and the configuration file** (`controls.hpp`, module
  `Controls` in `controls.dfy`). `CameraControls` is a 13-field datatype
  with the source's defaults. A JSON document is a `map<string, int>`. The
  file system is a map from file name to document, plus the names that
  cannot be opened for reading or for writing. The model covers the
  load-or-create rule, the write/read round trip over the 13 member
  names, the fixed order of the control batch, the supported-control
  decision and the capability scan.

`v4l2.dfy` (module `V4l2`) holds the V4L2 constants the code uses, the
ioctl argument records (the fields the code touches), `Reply<T>` for the
outcome of a call the model cannot see, and `Request`, one value per
system call, which makes up the log.

## Model

| member | source | states |
|---|---|---|
| Cam.LeadingSuccesses | cam.h:115-137 | the count of replies before the first failure: all counted replies succeeded and the next one, if any, failed |
| Cam.HandshakeReach | cam.h:115-137 | the handshake reaches step n (0..4) exactly when the first n replies succeed and step n+1 fails; each case is an if-and-only-if |
| Cam.GrabFrameSpecMeaning | cam.h:112-144 | of the handshake specification GrabFrameSpec: return code 0 iff all four calls succeed, 1 iff only STREAMOFF fails, -1 iff STREAMON, QBUF or DQBUF fails; the issued calls are the prefix of STREAMON, QBUF, DQBUF, STREAMOFF that ends at the first failure (every call before the last one issued succeeded, and the last failed unless the code is 0); QBUF is handed the prepared record and DQBUF the record QBUF wrote back; a failed STREAMON issues nothing else and changes no state; STREAMOFF is issued iff the first three succeed; after a QBUF or DQBUF failure the stream is left on; a DQBUF failure leaves buffer 0 queued; success leaves the stream off; `bufferinfo` ends holding the record of the last of QBUF and DQBUF that succeeded, or the prepared record |
| Cam.ZeroFill | cam.h:102 | every byte of the array is 0 afterwards |
| Cam.ImageGetter.constructor | cam.h:26-33 | a zeroed record in front of an idle device, with an empty log and no mappings |
| Cam.ImageGetter.InitializeImget | cam.h:35-54 | always issues open then QUERYCAP; `fd` is the descriptor or -1; a failed open only continues; the outcome is exit status 1 exactly when QUERYCAP fails |
| Cam.ImageGetter.SetImgFormat | cam.h:56-69 | always sends the previous format with capture type, 1024x1024, MJPEG and FIELD_NONE; on success the driver's format is stored, on failure the request stays in the record |
| Cam.ImageGetter.SetupBuffers | cam.h:71-94 | always requests exactly one MMAP capture buffer, then queries buffer 0 even when the request failed; the granted count and the buffer's length and offset are stored only on success |
| Cam.ImageGetter.MapAndClear | cam.h:98-102 | a new mapping of `queryBuffer.length` bytes at `queryBuffer`'s offset is added to the mappings (none is removed) and every byte of it is 0 |
| Cam.ImageGetter.StreamHandshake | cam.h:112-144 | return code, streaming, queued, the final `bufferinfo` and the calls issued are exactly those of GrabFrameSpec |
| Cam.ImageGetter.GrabFrame | cam.h:96-145 | one mmap, then the handshake of GrabFrameSpec, with its return code, device state and final `bufferinfo`; the handshake, STREAMON first, may only start on a region that is all zero (StreamHandshake requires it); QBUF is handed the record that is zero except type, memory and index; each call makes a fresh mapping |
| Cam.PrepareCamera | cam.h:164-168 | runs the three setup steps in order; only a failed QUERYCAP stops the sequence, leaving format and buffer records as they were; otherwise every other failure lets the next step run and the new `fd`, open state, format, buffer request, granted count and buffer placement are those the three steps give |
| Controls.EmptyDocumentIsNotDefaults | controls.hpp:16-30 | an existing file without members loads as all zeros, which differs from the member initialisers |
| Controls.ToJson | controls.hpp:45-58 | the document written has exactly the 13 member names as keys |
| Controls.ConfigRoundTrip | controls.hpp:46-58 | reading back the document written gives the same 13 fields (writer and reader use the same names) |
| Controls.FromJson | controls.hpp:84-96 | the field of each of the 13 member names holds what the document has under that name |
| Controls.MissingMembersReadZero | controls.hpp:84-96 | a member the document lacks reads as 0 in its field (`asInt` of a null value) |
| Controls.FromJsonReadsOnlyConfigKeys | controls.hpp:84-96 | the reader depends only on the 13 member names: documents that agree on them read the same |
| Controls.CreateCamConfigFile | controls.hpp:44-70 | succeeds iff the file can be opened for writing; on success the file holds a document that reads back as the record; on failure nothing changes; other files are untouched |
| Controls.ReadCamConfigFile | controls.hpp:72-100 | succeeds iff the file exists and can be opened; on failure the record is unchanged; on success every field is read from its member (a missing one reads 0) |
| Controls.LoadCamConfig | controls.hpp:102-111 | an existing file is read and the store is unchanged; a missing file is created from the record, which is returned unchanged, and the result is the create result |
| Controls.LoadTwice | controls.hpp:102-111 | loading a missing file twice: the first load creates it iff it is writable; the second returns the record the first one wrote, whatever record it is given, when the file was created and can be read; otherwise the second load fails and keeps its own record |
| Controls.ReplayWithoutWrites | controls.hpp:117 | calls none of which is VIDIOC_S_CTRL leave every control value as it was (only a write changes a control) |
| Controls.SetCameraControl | controls.hpp:112-124 | issues one VIDIOC_G_CTRL with the id and value; its effect on the device's control values is none |
| Controls.ControlBatch | controls.hpp:126-139 | the batch is exactly 12 VIDIOC_G_CTRL calls with the ids brightness, contrast, saturation, hue, auto white balance, gamma, gain, power line frequency, white balance temperature, sharpness, backlight compensation, exposure auto, in that order, each call carrying its field's value (the field the configuration file stores under the member name in the same place) |
| Controls.BatchWritesNoControl | controls.hpp:126-139 | replaying the batch on any control values leaves them all unchanged: the batch only reads controls |
| Controls.ExposureTimeNeverSent | controls.hpp:126-139 | no call of the batch names the absolute exposure id, and the batch does not depend on `exposureTimeAbsolute` |
| Controls.SetCameraControls | controls.hpp:126-139 | issues the whole batch whatever each call's outcome, and changes no control value |
| Controls.ControlSupported | controls.hpp:144-155 | supported iff the query succeeded and the DISABLED bit of the flags is clear |
| Controls.IsControlSupported | controls.hpp:140-156 | issues one VIDIOC_QUERYCTRL and returns the ControlSupported decision |
| Controls.QueryRequestsSplit | controls.hpp:181-187 | querying two id lists in turn issues the queries of the first list, then those of the second |
| Controls.QueryControls | controls.hpp:181-187 | issues one query per id in order and reports the decision for each |
| Controls.CheckCameraCapabilities | controls.hpp:158-190 | overwrites `fd`; a failed open issues no query; otherwise the 13 ids, DO_WHITE_BALANCE included, are queried in order and the new descriptor is closed |

## Left out

- `capabilities.h` (`printCapabilities`) and `save_buffer` (cam.h:147-162): printing and a plain file write.
- What the driver does behind each call: the outcomes of `open` and `ioctl` are parameters, with no link between them and the state (a call on a closed descriptor may still be given success). `mmap` and `close` are always taken to succeed.
- Cam.ImageGetter.GrabFrame: assumes `mmap` succeeds; the source never checks for `MAP_FAILED` and would clear an invalid address.
- Cam.ImageGetter.GrabFrame: the bytes DQBUF delivers into the mapped region are not modelled. The record QBUF and DQBUF write back into `bufferinfo` is an arbitrary reply value, so its `bytesused` is not tied to the frame.
- Cam.ImageGetter.StreamHandshake: a failed QBUF or DQBUF is taken to leave `bufferinfo` as it was handed over.
- Cam.ImageGetter.InitializeImget: `exit(1)` is returned as the outcome `Exited(1)`; the caller stops there, but the process does not end.
- Cam.ImageGetter.constructor: the C record is not initialised by the source; the model starts from a zeroed record.
- The fields of the V4L2 records that the code never touches, and the 32-bit width of `int` and `__s32` values (control values and configuration members are unbounded integers).
- jsoncpp parsing and printing: a document is the map it parses to. Parse errors, exceptions, and `asInt` on a non-integer member are not modelled; a missing member reads as 0.
- Controls.CreateCamConfigFile: a write error after the file opened is not modelled; the source reports success.
- Controls.SetCameraControl: the call's outcome only picks the message printed, so it is not a parameter.
- Controls.CheckCameraCapabilities: the lines it prints are returned as a list of verdicts; its `close` is always taken to succeed.
- Console output, `perror` and the kilobyte printout (cam.h:139).
- Cam.ImageGetter.MapAndClear: each mapping is a separate array. In the program every call maps the same buffer 0 at the same offset with `MAP_SHARED`, so all mappings show the same memory and each `memset` also clears what older mappings show; the model leaves older mappings unchanged. The source never reads an old mapping.
- Concurrency: the source has none.

Three facts about the code shape the model: `set_camera_control` issues
VIDIOC_G_CTRL, which reads a control, so the batch changes no control
value (controls.hpp:117); `set_camera_controls` neither stops nor starts
streaming (controls.hpp:126-139); and `grab_frame` never calls `munmap`, so
every call adds a mapping (cam.h:96-145).
