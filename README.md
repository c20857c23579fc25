# HandyCam streaming core, modelled in Dafny

HandyCam turns an Android phone into a network camera. A foreground
service, `StreamService`, does the streaming:

- It analyses camera images.
- It repacks each YUV_420_888 image as NV21 and compresses it to JPEG.
- It keeps the newest ten JPEG frames in a drop-oldest queue.
- It serves raw TCP clients:
  - a request naming a video path gets a stream of frames, each a 12-byte header (a big-endian timestamp, then a big-endian length) followed by the JPEG;
  - `GET /ping` and `PUT /v1/tally/` get fixed HTTP replies;
  - anything else gets nothing.

Around the service sits a settings and state layer:

- a DataStore preferences store (`PreferencesManager`);
- an in-memory settings holder (`SettingsManager`);
- the stream-state record (`StreamRepository`);
- camera lookups (`CameraRepository`);
- three use cases (start, stop, switch camera);
- the two view models that turn use-case results into service commands and UI events.

The project has one Dafny module per source file, plus `Kotlin` for the
language's shared types:

| file | module | models |
|---|---|---|
| `kotlin.dfy` | `Kotlin` | bytes, 32/64-bit ints, nullable values, exceptions, `Result` |
| `wire.dfy` | `Wire` | the 12-byte frame header and the frame stream, with decoders and round trips |
| `requests.dfy` | `Requests` | the classification of a client's first read and the fixed replies |
| `nv21.dfy` | `Nv21` | the YUV_420_888 → NV21 repacking: a specification on sequences and the array loops proved against it |
| `frame_queue.dfy` | `Frames` | the bounded queue as a class, and the drop-oldest policy as functions |
| `intents.dfy` | `Intents` | intents with typed extras |
| `stream_service.dfy` | `Service` | the service's life-cycle flags, image handling, server thread and client handler, and the stream loop as a fold over turns |
| `preferences.dfy` | `Preferences` | the preference map, the two flows with their defaults, and every `update*` edit |
| `settings_manager.dfy` | `Settings` | the settings class with field-framed setters, the focus clamp and the singleton |
| `stream_repository.dfy` | `StreamStates` | the whole-record state replacement and `clearError` |
| `camera_repository.dfy` | `Cameras` | selector resolution, the camera list, torch availability and torch calls |
| `use_cases.dfy` | `UseCases` | the start, stop and switch-camera use cases, with their exception paths |
| `main_view_model.dfy` | `MainScreen` | the main view model's commands and events |
| `camera_control_view_model.dfy` | `CameraControl` | the torch state machine and the camera-control error events |

Parts of the app call code that is not modelled. Those calls become parameters:

- **JPEG compression:** a function parameter.
- **A store write that throws:** a fault parameter naming the write.
- **A torch call that throws:** an optional exception.
- **Outcomes of the stream loop** (poll interrupted, write failed, sleep interrupted): one `Tick` per iteration.
- **Bind outcome and accepted clients** of the server thread: parameters.

Behaviour worth noting, modelled as the code has it:

- **Non-BindException failures in the server thread.** This covers a port outside 0..65535 (which `InetSocketAddress` rejects) and any bind failure that is not a `BindException`. The exception reaches the outer catch, so `running` stays true while no server listens (`Service.StreamService.RunServerThread`). Only a `BindException` lowers `running`.
- **Camera switching in the service.** `ACTION_SET_CAMERA` is ignored, and the camera bound is always the back camera.
- **Queue order and loss.** The stream loop takes the oldest queued frame. A failed write drops the frame it polled.

## Model

| member | source | states |
|---|---|---|
| Kotlin.MessageOr | app/src/main/java/com/example/handycam/domain/usecase/StartStreamUseCase.kt:47 | the exception's message when it has one, otherwise the default |
| Kotlin.FailureMessageOr | app/src/main/java/com/example/handycam/presentation/main/MainViewModel.kt:108 | the failure's message when there is one; the default for a success or a message-less failure |
| Kotlin.AsciiBytes | app/src/main/java/com/example/handycam/StreamService.kt:346 | one byte per character, equal to the character code for ASCII text, as `toByteArray()` gives for the fixed replies |
| Wire.BigEndianRoundTrip | app/src/main/java/com/example/handycam/StreamService.kt:324-326 | reading n big-endian bytes back gives the value that was written |
| Wire.SignedRoundTrip | app/src/main/java/com/example/handycam/StreamService.kt:325-326 | the two's-complement pattern of a Long or Int reads back as the same signed value |
| Wire.EncodeHeader | app/src/main/java/com/example/handycam/StreamService.kt:324-326 | the header is exactly 12 bytes |
| Wire.HeaderRoundTrip | app/src/main/java/com/example/handycam/StreamService.kt:323-326 | bytes 0-7 of the header decode big-endian to pts and bytes 8-11 to the frame size |
| Wire.EncodeUnit | app/src/main/java/com/example/handycam/StreamService.kt:323-330 | a frame is its 12-byte header followed by exactly the payload bytes |
| Wire.EncodeConcat | app/src/main/java/com/example/handycam/StreamService.kt:312-341 | the bytes for two runs of frames are the bytes of the first run followed by those of the second |
| Wire.DecodeEncode | app/src/main/java/com/example/handycam/StreamService.kt:323-330 | a receiver parsing header, then as many bytes as the length field says, recovers exactly the frames sent, in order |
| Requests.Contains | app/src/main/java/com/example/handycam/StreamService.kt:307 | true exactly when the pattern occurs at some position of the request |
| Requests.Classify | app/src/main/java/com/example/handycam/StreamService.kt:307-351 | video when any of /v5/video/, /v2/video/, /v1/video/ occurs; else ping when the request starts with GET /ping; else tally when it contains PUT /v1/tally/; else nothing |
| Requests.Reply | app/src/main/java/com/example/handycam/StreamService.kt:345-351 | ping gets exactly `HTTP/1.1 200 OK\r\n\r\n`, tally gets that with `Content-Length: 0`, anything else gets no bytes |
| Requests.EmptyReadGetsNothing | app/src/main/java/com/example/handycam/StreamService.kt:302-304 | a read that returns nothing or fails is classified as nothing and answered with no bytes |
| Requests.VideoBeatsPing | app/src/main/java/com/example/handycam/StreamService.kt:307-345 | a GET /ping request that names a video path streams: the video test comes first |
| Nv21.PackedSize | app/src/main/java/com/example/handycam/StreamService.kt:247 | luma plus chroma bytes never exceed width*height*3/2 and fill it exactly for even sizes |
| Nv21.Nv21Length | app/src/main/java/com/example/handycam/StreamService.kt:247 | the output array is width*height*3/2 bytes long |
| Nv21.LumaAt | app/src/main/java/com/example/handycam/StreamService.kt:255-260 | byte r*cols+c of the packed luma is the plane sample at row r, column c |
| Nv21.ChromaAt | app/src/main/java/com/example/handycam/StreamService.kt:270-279 | pair r*cols+c of the packed chroma holds the V sample, then the U sample, at row r, column c |
| Nv21.Nv21LumaAt | app/src/main/java/com/example/handycam/StreamService.kt:255-260 | output byte r*width+c is y[r*yRowStride + c*yPixelStride], and that index is inside the Y buffer |
| Nv21.Nv21ChromaAt | app/src/main/java/com/example/handycam/StreamService.kt:263-279 | after the width*height luma bytes, chroma pair (r, c) is v[r*vRowStride + c*vPixelStride] then u[r*uRowStride + c*uPixelStride] |
| Nv21.Nv21EvenSize | app/src/main/java/com/example/handycam/StreamService.kt:247-279 | for even width and height the output is exactly the luma bytes followed by the interleaved chroma bytes |
| Nv21.FastPathLuma | app/src/main/java/com/example/handycam/StreamService.kt:251-261 | with yPixelStride 1 and yRowStride == width, the arraycopy yields the same luma as the strided loop, and fails exactly when the loop would |
| Nv21.ToNv21 | app/src/main/java/com/example/handycam/StreamService.kt:247-279 | the conversion succeeds exactly when every index read lies inside its plane, and then the array equals the NV21 specification |
| Nv21.StridedLuma | app/src/main/java/com/example/handycam/StreamService.kt:254-261 | the nested luma loop writes the packed luma, or fails exactly when some Y index is out of bounds |
| Nv21.LumaRowLoop | app/src/main/java/com/example/handycam/StreamService.kt:257-259 | one luma row is written at the current position, bytes before it untouched |
| Nv21.ChromaLoop | app/src/main/java/com/example/handycam/StreamService.kt:270-279 | the chroma loops write the interleaved V/U bytes after the luma, or fail exactly when a U or V index is out of bounds |
| Nv21.ChromaRowLoop | app/src/main/java/com/example/handycam/StreamService.kt:273-278 | one chroma row is written as V, U pairs, bytes before it untouched |
| Nv21.PutSample | app/src/main/java/com/example/handycam/StreamService.kt:276-277 | one `nv21[pos++] = buffer[index]` step: writes the sample when the index is in bounds, changes nothing otherwise |
| Frames.AfterEnqueue | app/src/main/java/com/example/handycam/StreamService.kt:286-289 | the new frame is last; a full queue loses exactly its oldest frame, others keep their order; otherwise nothing is removed; never more than 10 |
| Frames.Latest | app/src/main/java/com/example/handycam/StreamService.kt:41 | the newest frames of a history, at most 10, as a suffix of it |
| Frames.EnqueueAll | app/src/main/java/com/example/handycam/StreamService.kt:41 | enqueueing any number of frames never exceeds the capacity of 10 |
| Frames.KeepsLatest | app/src/main/java/com/example/handycam/StreamService.kt:286-289 | after any enqueues the queue holds exactly the newest (at most 10) frames of old contents plus arrivals, in arrival order |
| Frames.FrameQueue.constructor | app/src/main/java/com/example/handycam/StreamService.kt:41 | a new queue is empty |
| Frames.FrameQueue.Offer | app/src/main/java/com/example/handycam/StreamService.kt:286 | `offer` appends exactly when the queue holds fewer than 10 frames and reports whether it did |
| Frames.FrameQueue.Poll | app/src/main/java/com/example/handycam/StreamService.kt:287 | `poll` removes and returns the oldest frame, or returns null on an empty queue |
| Frames.FrameQueue.Clear | app/src/main/java/com/example/handycam/StreamService.kt:223 | `clear` empties the queue |
| Frames.FrameQueue.Enqueue | app/src/main/java/com/example/handycam/StreamService.kt:286-289 | offer, then poll and offer again when refused, leaves the queue as the drop-oldest policy says |
| Frames.FrameQueue.EnqueueEach | app/src/main/java/com/example/handycam/StreamService.kt:286-289 | enqueueing frames one after another leaves the queue the fold of the policy over them |
| Intents.ExtraNamesDistinct | app/src/main/java/com/example/handycam/presentation/main/MainViewModel.kt:95-103 | no two extras the app uses share a name |
| Intents.Intent.PutExtra | app/src/main/java/com/example/handycam/presentation/main/MainViewModel.kt:95-103 | `putExtra` sets its key and keeps the action and every other extra |
| Intents.Intent.GetStringExtra | app/src/main/java/com/example/handycam/StreamService.kt:56 | the string stored under the key, or null when it is missing or not a string |
| Intents.Intent.GetIntExtra | app/src/main/java/com/example/handycam/StreamService.kt:57-59 | the int stored under the key, or the default when it is missing or not an int |
| Intents.WithAction | app/src/main/java/com/example/handycam/presentation/main/MainViewModel.kt:118-120 | an intent with that action and no extras |
| Service.StartRequestOf | app/src/main/java/com/example/handycam/StreamService.kt:56-59 | each of host, port, width and height is the extra of that name when present with its type, and 0.0.0.0, 4747, 1280 or 720 when absent |
| Service.StartDefaults | app/src/main/java/com/example/handycam/StreamService.kt:56-59 | an ACTION_START intent without extras asks for 0.0.0.0:4747 and 1280x720 |
| Service.Turn | app/src/main/java/com/example/handycam/StreamService.kt:312-340 | one turn of the stream loop keeps the queue within 10 frames; a sent frame continues the loop unless the sleep is interrupted; the loop only ends on a failed write or sleep |
| Service.PollAndSend | app/src/main/java/com/example/handycam/StreamService.kt:313-340 | an interrupted or empty poll sends nothing and continues; otherwise the oldest queued frame is sent with the turn's pts, or dropped when the write fails |
| Service.Stream | app/src/main/java/com/example/handycam/StreamService.kt:312-341 | over any run of turns the queue never exceeds 10 frames |
| Service.TurnSuffix | app/src/main/java/com/example/handycam/StreamService.kt:286-289 | what one turn sent, followed by what it left queued, is a suffix of the old queue plus the camera's new frames |
| Service.StreamKeepsCaptureOrder | app/src/main/java/com/example/handycam/StreamService.kt:312-341 | the frames a client receives, followed by those left queued, are a subsequence of the queued-then-captured frames: capture order is kept and no frame is sent twice |
| Service.EmptyPollContinues | app/src/main/java/com/example/handycam/StreamService.kt:313-321 | an interrupted or empty poll writes nothing and the loop carries on with the next turn |
| Service.WriteFailureEndsLoop | app/src/main/java/com/example/handycam/StreamService.kt:328-338 | a failed write ends the loop: nothing more is sent and the polled frame is gone from the queue |
| Service.StreamService.constructor | app/src/main/java/com/example/handycam/StreamService.kt:41-44 | a new service is not running, has no server socket or thread, and an empty queue |
| Service.StreamService.OnStartCommand | app/src/main/java/com/example/handycam/StreamService.kt:52-80 | ACTION_START reads its extras with defaults and starts streaming, or returns START_NOT_STICKY and stops when foreground is refused; ACTION_STOP stops streaming (running off, socket closed, thread null, queue empty) and the service; every other action changes nothing; START_STICKY otherwise |
| Service.StreamService.StartStreaming | app/src/main/java/com/example/handycam/StreamService.kt:147-149 | while running nothing changes; otherwise running is set and a server thread for the address is created |
| Service.StreamService.RunServerThread | app/src/main/java/com/example/handycam/StreamService.kt:176-210 | a BindException leaves running false; any bind outcome leaves serverSocket null at exit; once bound every accepted client gets a handler while running |
| Service.StreamService.StopStreaming | app/src/main/java/com/example/handycam/StreamService.kt:214-224 | running is false, the server socket is closed, the server thread is null and the queue is empty |
| Service.StreamService.HandleImageProxy | app/src/main/java/com/example/handycam/StreamService.kt:226-296 | a non-YUV_420_888 image, one whose planes are too short, one with a zero width or height (rejected by `YuvImage`) or one whose compression throws enqueues nothing; otherwise the JPEG of its NV21 repacking is enqueued with the drop-oldest policy |
| Service.StreamService.HandleClient | app/src/main/java/com/example/handycam/StreamService.kt:298-358 | a ping or tally request gets its fixed reply, an unrecognised one nothing, a video request the encoded stream; the client is closed on every path |
| Service.StreamService.StreamLoop | app/src/main/java/com/example/handycam/StreamService.kt:312-341 | the client receives exactly the encoded frames of the stream specification and the queue ends as it says; nothing is written when the service is not running |
| Service.StreamService.StreamTurn | app/src/main/java/com/example/handycam/StreamService.kt:312-340 | one iteration moves the queue and the output exactly as the turn specification says |
| Service.StreamService.PollAndWrite | app/src/main/java/com/example/handycam/StreamService.kt:313-340 | the poll, header-plus-payload write and sleep of one iteration, as the poll-and-send specification says |
| Preferences.KeyNamesDistinct | app/src/main/java/com/example/handycam/data/preferences/PreferencesManager.kt:26-38 | no two preference keys share a stored name |
| Preferences.StringOr | app/src/main/java/com/example/handycam/data/preferences/PreferencesManager.kt:53-55 | the stored string for the key, or the default when absent |
| Preferences.IntOr | app/src/main/java/com/example/handycam/data/preferences/PreferencesManager.kt:54 | the stored int for the key, or the default when absent |
| Preferences.BoolOr | app/src/main/java/com/example/handycam/data/preferences/PreferencesManager.kt:56 | the stored boolean for the key, or the default when absent |
| Preferences.IntAt | app/src/main/java/com/example/handycam/data/preferences/PreferencesManager.kt:78 | the stored bitrate, or null when the key is absent |
| Preferences.Caught | app/src/main/java/com/example/handycam/data/preferences/PreferencesManager.kt:44-50 | an IOException on read is treated as an empty store; any other exception is rethrown |
| Preferences.AppSettingsOf | app/src/main/java/com/example/handycam/data/preferences/PreferencesManager.kt:51-58 | each field is the stored value when its key holds one, and 0.0.0.0, 4747, "back" or false when the key is absent |
| Preferences.StreamConfigOf | app/src/main/java/com/example/handycam/data/preferences/PreferencesManager.kt:71-79 | each field is the stored value when its key holds one, and 1080, 1920, 85, 60 or false when absent; the bitrate is null exactly when no bitrate is stored |
| Preferences.AppSettingsFlow | app/src/main/java/com/example/handycam/data/preferences/PreferencesManager.kt:43-58 | succeeds exactly when the read (after the IOException rule) succeeds, with the settings read from the store |
| Preferences.StreamConfigFlow | app/src/main/java/com/example/handycam/data/preferences/PreferencesManager.kt:63-80 | succeeds exactly when the read (after the IOException rule) succeeds, with the configuration read from the store |
| Preferences.DefaultsWhenEmpty | app/src/main/java/com/example/handycam/data/preferences/PreferencesManager.kt:43-80 | an empty store or an IOException gives AppSettings(0.0.0.0, 4747, back, false) and StreamConfig(1080, 1920, 85, 60, false, null) |
| Preferences.WithStreamConfig | app/src/main/java/com/example/handycam/data/preferences/PreferencesManager.kt:110-119 | updateStreamConfig keeps every key holding a value of its declared type |
| Preferences.WithAvcBitrate | app/src/main/java/com/example/handycam/data/preferences/PreferencesManager.kt:146-154 | updateAvcBitrate keeps every key holding a value of its declared type |
| Preferences.HostReadBack | app/src/main/java/com/example/handycam/data/preferences/PreferencesManager.kt:82-86 | after updateHost the settings read back with the new host and nothing else changed |
| Preferences.PortReadBack | app/src/main/java/com/example/handycam/data/preferences/PreferencesManager.kt:88-92 | after updatePort the settings read back with the new port and nothing else changed |
| Preferences.CameraReadBack | app/src/main/java/com/example/handycam/data/preferences/PreferencesManager.kt:94-98 | after updateCamera the settings read back with the new camera and nothing else changed |
| Preferences.StreamingStateReadBack | app/src/main/java/com/example/handycam/data/preferences/PreferencesManager.kt:100-104 | after updateStreamingState the settings read back with the new flag and nothing else changed |
| Preferences.HttpsRunningNotRead | app/src/main/java/com/example/handycam/data/preferences/PreferencesManager.kt:105-109 | updateHttpsRunningState changes neither record |
| Preferences.JpegQualityReadBack | app/src/main/java/com/example/handycam/data/preferences/PreferencesManager.kt:128-132 | after updateJpegQuality the configuration reads back with the new quality and nothing else changed |
| Preferences.FpsReadBack | app/src/main/java/com/example/handycam/data/preferences/PreferencesManager.kt:134-138 | after updateFps the configuration reads back with the new fps and nothing else changed |
| Preferences.UseAvcReadBack | app/src/main/java/com/example/handycam/data/preferences/PreferencesManager.kt:140-144 | after updateUseAvc the configuration reads back with the new flag and nothing else changed |
| Preferences.ResolutionReadBack | app/src/main/java/com/example/handycam/data/preferences/PreferencesManager.kt:121-126 | updateResolution changes width and height only |
| Preferences.AvcBitrateReadBack | app/src/main/java/com/example/handycam/data/preferences/PreferencesManager.kt:146-154 | after updateAvcBitrate the bitrate reads back as given; null removes the key so it reads back null |
| Preferences.StreamConfigRoundTrip | app/src/main/java/com/example/handycam/data/preferences/PreferencesManager.kt:110-119 | after updateStreamConfig(c) with a bitrate, the configuration reads back as exactly c |
| Preferences.NullBitrateKeepsStored | app/src/main/java/com/example/handycam/data/preferences/PreferencesManager.kt:117 | updateStreamConfig(c) with a null bitrate reads back as c but with the bitrate stored before |
| Preferences.StreamConfigLeavesAppSettings | app/src/main/java/com/example/handycam/data/preferences/PreferencesManager.kt:110-119 | updateStreamConfig leaves the app settings unchanged |
| Preferences.PreferencesManager.constructor | app/src/main/java/com/example/handycam/data/preferences/PreferencesManager.kt:21-23 | a manager over a well-typed persisted store |
| Preferences.PreferencesManager.UpdateHost | app/src/main/java/com/example/handycam/data/preferences/PreferencesManager.kt:82-86 | sets the host key only |
| Preferences.PreferencesManager.UpdatePort | app/src/main/java/com/example/handycam/data/preferences/PreferencesManager.kt:88-92 | sets the port key only |
| Preferences.PreferencesManager.UpdateCamera | app/src/main/java/com/example/handycam/data/preferences/PreferencesManager.kt:94-98 | sets the camera key only |
| Preferences.PreferencesManager.UpdateStreamingState | app/src/main/java/com/example/handycam/data/preferences/PreferencesManager.kt:100-104 | sets the streaming key only |
| Preferences.PreferencesManager.UpdateHttpsRunningState | app/src/main/java/com/example/handycam/data/preferences/PreferencesManager.kt:105-109 | sets the https-running key only |
| Preferences.PreferencesManager.UpdateStreamConfig | app/src/main/java/com/example/handycam/data/preferences/PreferencesManager.kt:110-119 | applies the five-key edit, and the bitrate only when it is not null |
| Preferences.PreferencesManager.UpdateResolution | app/src/main/java/com/example/handycam/data/preferences/PreferencesManager.kt:121-126 | sets width and height only |
| Preferences.PreferencesManager.UpdateJpegQuality | app/src/main/java/com/example/handycam/data/preferences/PreferencesManager.kt:128-132 | sets the JPEG-quality key only |
| Preferences.PreferencesManager.UpdateFps | app/src/main/java/com/example/handycam/data/preferences/PreferencesManager.kt:134-138 | sets the fps key only |
| Preferences.PreferencesManager.UpdateUseAvc | app/src/main/java/com/example/handycam/data/preferences/PreferencesManager.kt:140-144 | sets the use-AVC key only |
| Preferences.PreferencesManager.UpdateAvcBitrate | app/src/main/java/com/example/handycam/data/preferences/PreferencesManager.kt:146-154 | sets the bitrate, or removes it for null |
| Settings.CoerceIn | app/src/main/java/com/example/handycam/SettingsManager.kt:132 | the result lies in [lo, hi]: the value itself inside the range, lo below it, hi above it |
| Settings.CoerceInIdempotent | app/src/main/java/com/example/handycam/SettingsManager.kt:131-134 | clamping a clamped value changes nothing |
| Settings.SettingsManager.constructor | app/src/main/java/com/example/handycam/SettingsManager.kt:22-76 | streaming false, https false, camera back, port 4747, 1080x1920, fps 30, quality 85, AVC off, bitrate -1, host 0.0.0.0, torch off, auto-focus on, exposure 0, focus 0, auto-exposure on |
| Settings.SettingsManager.SetStreaming | app/src/main/java/com/example/handycam/SettingsManager.kt:79-81 | stores its argument and changes no other field |
| Settings.SettingsManager.SetCamera | app/src/main/java/com/example/handycam/SettingsManager.kt:83-85 | stores its argument and changes no other field |
| Settings.SettingsManager.SetPort | app/src/main/java/com/example/handycam/SettingsManager.kt:87-89 | stores its argument and changes no other field |
| Settings.SettingsManager.SetWidth | app/src/main/java/com/example/handycam/SettingsManager.kt:91-93 | stores its argument and changes no other field |
| Settings.SettingsManager.SetHeight | app/src/main/java/com/example/handycam/SettingsManager.kt:95-97 | stores its argument and changes no other field |
| Settings.SettingsManager.SetFps | app/src/main/java/com/example/handycam/SettingsManager.kt:99-101 | stores its argument and changes no other field |
| Settings.SettingsManager.SetJpegQuality | app/src/main/java/com/example/handycam/SettingsManager.kt:103-105 | stores its argument and changes no other field |
| Settings.SettingsManager.SetUseAvc | app/src/main/java/com/example/handycam/SettingsManager.kt:107-109 | stores its argument and changes no other field |
| Settings.SettingsManager.SetAvcBitrate | app/src/main/java/com/example/handycam/SettingsManager.kt:111-113 | stores its argument and changes no other field |
| Settings.SettingsManager.SetHost | app/src/main/java/com/example/handycam/SettingsManager.kt:115-117 | stores its argument and changes no other field |
| Settings.SettingsManager.SetTorchEnabled | app/src/main/java/com/example/handycam/SettingsManager.kt:119-121 | stores its argument and changes no other field |
| Settings.SettingsManager.SetAutoFocus | app/src/main/java/com/example/handycam/SettingsManager.kt:123-125 | stores its argument and changes no other field |
| Settings.SettingsManager.SetExposure | app/src/main/java/com/example/handycam/SettingsManager.kt:127-129 | stores its argument and changes no other field |
| Settings.SettingsManager.SetFocus | app/src/main/java/com/example/handycam/SettingsManager.kt:131-134 | stores the value clamped to 0..100 and changes no other field |
| Settings.SettingsManager.SetAutoExposure | app/src/main/java/com/example/handycam/SettingsManager.kt:136-138 | stores its argument and changes no other field |
| Settings.SettingsHolder.constructor | app/src/main/java/com/example/handycam/SettingsManager.kt:12 | no instance exists yet |
| Settings.SettingsHolder.GetInstance | app/src/main/java/com/example/handycam/SettingsManager.kt:14-18 | returns the stored instance once there is one; otherwise stores and returns a fresh instance holding the defaults |
| Settings.GetInstanceTwice | app/src/main/java/com/example/handycam/SettingsManager.kt:14-18 | two calls return the same instance |
| StreamStates.Cleared | app/src/main/java/com/example/handycam/data/repository/StreamRepository.kt:46-48 | the error is null and isActive, host, port and camera are unchanged |
| StreamStates.ClearedIdempotent | app/src/main/java/com/example/handycam/data/repository/StreamRepository.kt:46-48 | clearing twice is clearing once |
| StreamStates.ClearedWithoutError | app/src/main/java/com/example/handycam/data/repository/StreamRepository.kt:46-48 | clearing a state without an error leaves it as it is |
| StreamStates.StreamRepository.constructor | app/src/main/java/com/example/handycam/data/repository/StreamRepository.kt:27 | the initial state is StreamState(false, "", 0, "", null) |
| StreamStates.StreamRepository.UpdateStreamState | app/src/main/java/com/example/handycam/data/repository/StreamRepository.kt:30-44 | the whole record is replaced; omitted arguments take "", 0, "" and null |
| StreamStates.StreamRepository.ClearError | app/src/main/java/com/example/handycam/data/repository/StreamRepository.kt:46-48 | the state becomes the cleared old state |
| StreamStates.UpdateForgetsOldState | app/src/main/java/com/example/handycam/data/repository/StreamRepository.kt:30-44 | updateStreamState(isActive = false) after any state yields the initial state |
| Cameras.Lowercase | app/src/main/java/com/example/handycam/data/repository/CameraRepository.kt:58 | same length; ASCII capitals become lower case, every other character is kept |
| Cameras.FirstFacing | app/src/main/java/com/example/handycam/data/repository/CameraRepository.kt:59-72 | a found id is in the list, can be looked up and has the requested facing |
| Cameras.FirstFacingIsFirst | app/src/main/java/com/example/handycam/data/repository/CameraRepository.kt:59-72 | the search returns an id exactly when it is the first in list order with the facing and every lookup up to it succeeds |
| Cameras.FindCameraId | app/src/main/java/com/example/handycam/data/repository/CameraRepository.kt:56-85 | a result is always in the id list; a failed enumeration gives null; any selector other than back/front is returned exactly when it is in the list |
| Cameras.FindFacingSelectsFirst | app/src/main/java/com/example/handycam/data/repository/CameraRepository.kt:58-72 | "back" or "front" in any ASCII case resolves to exactly the first camera with that facing |
| Cameras.FacingName | app/src/main/java/com/example/handycam/data/repository/CameraRepository.kt:30-35 | back, front and external exactly for their lens-facing constants; unknown for anything else or a missing value |
| Cameras.InfoOf | app/src/main/java/com/example/handycam/data/repository/CameraRepository.kt:28-45 | the entry has the id, the facing name, displayName facing + " (" + id + ")", and a focal length exactly when one is listed |
| Cameras.GetAvailableCameras | app/src/main/java/com/example/handycam/data/repository/CameraRepository.kt:26-50 | one entry per id in list order, each equal to InfoOf of that id's characteristics (id, display name, facing and focal length); empty when enumeration or any lookup throws |
| Cameras.BackCameraIsListedAsBack | app/src/main/java/com/example/handycam/data/repository/CameraRepository.kt:26-72 | the camera "back" resolves to is listed with facing back |
| Cameras.IsTorchAvailable | app/src/main/java/com/example/handycam/data/repository/CameraRepository.kt:90-97 | true exactly when the camera can be looked up and reports a flash unit; false when the lookup throws |
| Cameras.SetTorchMode | app/src/main/java/com/example/handycam/data/repository/CameraRepository.kt:102-109 | success exactly when the manager call does not throw; otherwise a failure carrying that exception |
| UseCases.WritesCompleted | app/src/main/java/com/example/handycam/domain/usecase/StartStreamUseCase.kt:28-33 | all five writes complete exactly when none throws |
| UseCases.StartSavesAppSettings | app/src/main/java/com/example/handycam/domain/usecase/StartStreamUseCase.kt:29-33 | after the writes the settings read back as the given host, port and camera with streaming on |
| UseCases.StartSavesStreamConfig | app/src/main/java/com/example/handycam/domain/usecase/StartStreamUseCase.kt:32 | after the writes the configuration reads back as given, keeping the stored bitrate when the given one is null |
| UseCases.NoRollback | app/src/main/java/com/example/handycam/domain/usecase/StartStreamUseCase.kt:28-50 | writes completed before an exception stay: host, port and camera read back as given once their write ran |
| UseCases.StartFailedState | app/src/main/java/com/example/handycam/domain/usecase/StartStreamUseCase.kt:45-48 | the failure state is inactive with the exception's message, or "Failed to start stream" |
| UseCases.StartStreamUseCase.Invoke | app/src/main/java/com/example/handycam/domain/usecase/StartStreamUseCase.kt:21-51 | runs the writes in order up to the throwing one; success records an active stream with the given host, port and camera and no error; an exception records the failure state and is returned |
| UseCases.StopStreamUseCase.Invoke | app/src/main/java/com/example/handycam/domain/usecase/StopStreamUseCase.kt:14-22 | success turns the streaming flag off and resets the stream state to its defaults; an exception changes nothing and is returned |
| UseCases.CameraNotFound | app/src/main/java/com/example/handycam/domain/usecase/SwitchCameraUseCase.kt:17-18 | the message is "Camera not found: " followed by the selector |
| UseCases.SwitchCameraUseCase.Invoke | app/src/main/java/com/example/handycam/domain/usecase/SwitchCameraUseCase.kt:14-27 | an unresolvable selector fails and stores nothing; otherwise the selector as given is stored and the resolved id returned, unless the write throws |
| UseCases.StoredSelectorIsNotResolvedId | app/src/main/java/com/example/handycam/domain/usecase/SwitchCameraUseCase.kt:21-23 | the stored selector and the returned id can differ: BACK resolves to "0" |
| MainScreen.StartIntent | app/src/main/java/com/example/handycam/presentation/main/MainViewModel.kt:93-104 | ACTION_START carrying host, port, width, height, camera, jpegQuality, targetFps and useAvc as given; the bitrate extra is present exactly when the bitrate is not null, with its value |
| MainScreen.StartIntentReachesService | app/src/main/java/com/example/handycam/presentation/main/MainViewModel.kt:93-98 | the stream service reads back from the start intent the host, port and resolution the user gave |
| MainScreen.SetCameraIntent | app/src/main/java/com/example/handycam/presentation/main/MainViewModel.kt:131-134 | ACTION_SET_CAMERA carrying the camera selector |
| MainScreen.MainViewModel.constructor | app/src/main/java/com/example/handycam/presentation/main/MainViewModel.kt:28-56 | nothing sent and no event emitted yet |
| MainScreen.MainViewModel.StartStreaming | app/src/main/java/com/example/handycam/presentation/main/MainViewModel.kt:68-111 | the store holds the writes completed before any fault; on success the stream state is active with host, port and camera, ACTION_START is sent and StreamStarted emitted; on a fault the state is the failed state and only Error is emitted, defaulting to "Failed to start stream" |
| MainScreen.MainViewModel.StopStreaming | app/src/main/java/com/example/handycam/presentation/main/MainViewModel.kt:113-124 | ACTION_STOP is sent and StreamStopped emitted whatever the use case returns; without a fault streaming is stored as false and the stream state reset, with a fault store and state are unchanged |
| MainScreen.MainViewModel.SwitchCamera | app/src/main/java/com/example/handycam/presentation/main/MainViewModel.kt:126-140 | on success the selector is stored and ACTION_SET_CAMERA with the camera sent, with no event; otherwise the store is unchanged and only Error is emitted, defaulting to "Failed to switch camera" |
| CameraControl.TorchAfter | app/src/main/java/com/example/handycam/presentation/cameracontrol/CameraControlViewModel.kt:61-67 | the torch flag flips exactly when the torch call succeeds |
| CameraControl.TorchTracksSuccesses | app/src/main/java/com/example/handycam/presentation/cameracontrol/CameraControlViewModel.kt:59-69 | after any run of toggles the flag has flipped once per successful call; failed calls never move it |
| CameraControl.CameraControlViewModel.constructor | app/src/main/java/com/example/handycam/presentation/cameracontrol/CameraControlViewModel.kt:34 | the torch is initially off |
| CameraControl.CameraControlViewModel.SwitchCamera | app/src/main/java/com/example/handycam/presentation/cameracontrol/CameraControlViewModel.kt:50-57 | on success the selector is stored and no event emitted; otherwise the store is unchanged and an Error event emitted, defaulting to "Failed to switch camera" |
| CameraControl.CameraControlViewModel.ToggleTorch | app/src/main/java/com/example/handycam/presentation/cameracontrol/CameraControlViewModel.kt:59-69 | asks for the opposite of the current state; success sets the flag to it; failure keeps the flag and emits Error("Failed to toggle torch") |

## Left out

- Sockets, threads and blocking are not modelled: `ServerSocket` bind and accept, socket reads and writes, `soTimeout`, the 40 ms sleep, interrupts, and concurrent access to the queue. The accept loop and the client loop are sequences of decisions over the parameters above. Each client handler is modelled as running alone against the queue.
- CameraX binding, notifications, `startForeground` and `stopForeground` are Android plumbing. Only their effect on the flags is modelled.
- JPEG compression is a parameter, so the JPEG bytes are not specified. It returns None where `compressToJpeg` would throw, and the frame is then dropped.
- Service.StreamService.HandleClient: the first read is a parameter of any length. The 1024-byte buffer that bounds it in the source is not modelled.
- The request bytes are modelled as already decoded text; UTF-8 decoding of the first read is not modelled.
- Kotlin.AsciiBytes: stands for `toByteArray()` only on ASCII text. Both fixed replies are ASCII.
- Nv21.ToNv21: sizes are unbounded naturals. The 32-bit overflow of `width * height * 3 / 2` for huge images is not modelled.
- Service.StreamService.PollAndWrite: the header and the payload are written in one step. A write that fails after the header has gone out is not modelled.
- Service.StreamService.StreamLoop: `client.isClosed` and `client.isConnected` are taken as open, so only `running`, a failed write or an interrupted sleep end the loop. `running` does not change inside the model: the end of `ticks` while the loop would go on stands for a concurrent `stopStreaming`, after which the client is closed.
- Service.StreamService.RunServerThread: the accepted clients are a parameter. The handler threads it starts are modelled by `HandleClient`, not run.
- `LiveData` and `Looper` thread selection in `SettingsManager` are not modelled. Each setter is a direct assignment.
- DataStore `Flow` reactivity is not modelled. A flow is a read of the current snapshot.
- DataStore's `ClassCastException` for a key holding a value of the wrong type is not modelled. The store invariant `WellTyped` rules it out, and every edit keeps it.
- Cameras.Lowercase: lowercases ASCII letters only. Kotlin's `lowercase()` also maps non-ASCII letters.
- Cameras.InfoOf: the `"%.1fmm"` formatting of the focal length is a parameter. Floating-point formatting is not modelled.
- `GetAvailableCamerasUseCase`, `ToggleTorchUseCase` and `SettingsRepository` only delegate. They are covered by the members they call.
- The view models' `loadAvailableCameras` and single-setting `update*` pass-throughs only delegate, and are not modelled separately.
- The HTTPS server service, the activities and fragments, and the declaration-only files are not part of this model.
