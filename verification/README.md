# Vixevia realtime session core, in Dafny

This project models the session core of the Vixevia Android client. The
client streams microphone audio to a realtime conversational model over a
WebSocket and plays back the model's speech. Every 3.5 seconds it also asks
a vision endpoint to describe the camera frame and feeds that description
into the conversation. The core is a small state machine over three pieces
of state, all held by `MainActivity`:

- the transcript `messages`, a list of `ChatMessage(role, content)`;
- the half-duplex flag `isModelSpeaking`, which mutes the microphone while
  the model's audio plays;
- the frames handed to `webSocket.send`, modelled as an append-only log of
  `OutMsg` values.

The model has three modules:

- `Protocol` (protocol.dfy) holds the wire values. It defines the inbound
  events and their routing on the `type` string, and the outbound frames
  with their fixed payloads (`session.update`, `input_audio_buffer.append`,
  `input_audio_buffer.commit`, `response.create`). It also defines
  `ByteArray.copyOf`, and the vision call's outcome with the description
  it yields.
- `SessionSpec` (session_spec.dfy) is the core as a pure state machine. It
  has one transition per input (connection opened, server event, microphone
  read, vision result) and `Replay` over any interleaving of inputs. Its
  lemmas cover each handler's effect and the properties every run keeps:
  the flag follows the last audio event, the microphone is muted while the
  model speaks, one `session.update` is sent per open, and the transcript
  is only appended to or extended at its end.
- `MainActivity` (main_activity.dfy) is the activity's state as a class,
  `Session`, with the handlers written as imperative methods. Every method
  states its new state field by field and keeps the class invariant
  `Valid()`. The entry points and the event and vision handlers are also
  proved equal to the `SessionSpec` transition they implement: `Open`,
  `Dispatch`, `Capture` or `DeliverVision`, which `Step` and `Replay`
  combine. The send, play and append helpers state only the fields they
  change. The recording loop is a `while` loop proved against `Gated` and
  `Replay`.

Device I/O, the network and the JSON library are parameters of the model.
A microphone read is a `DeviceRead(buffer, readBytes)`. An inbound event is
a `RawEvent` that holds the fields the handlers read with `optString`. A
vision call is a `VisionResponse`.

## Model

| member | source | states |
|---|---|---|
| Protocol.Route | app/src/main/java/com/ireddragonicy/vixevia/MainActivity.kt:260-268 | the event's `type` picks the handler; the result is `Other` exactly when the type is none of the five recognised strings; each handler gets its own `optString` field |
| Protocol.RouteRecoversEvent | app/src/main/java/com/ireddragonicy/vixevia/MainActivity.kt:260-268 | routing a JSON event built from any event (not shadowed by a recognised type) gives back that event |
| Protocol.CopyOf | app/src/main/java/com/ireddragonicy/vixevia/MainActivity.kt:184 | `copyOf(n)` has length n, holds the buffer's first n bytes (zeros past its end), and is exactly the prefix when n fits |
| Protocol.VisionDescription | app/src/main/java/com/ireddragonicy/vixevia/MainActivity.kt:389-418 | a description exists iff the call returned, its status is 2xx, the body is present and parses, and `getString` reads the first choice's content as some text c; the description is c |
| Protocol.DescriptionEntry | app/src/main/java/com/ireddragonicy/vixevia/MainActivity.kt:421-424 | the transcript entry is a `system` entry that starts with `Image Description: ` and continues with exactly the description |
| Protocol.VisionContext | app/src/main/java/com/ireddragonicy/vixevia/MainActivity.kt:427-436 | the `response.create` payload asks for text and audio in voice `alloy` with `pcm16` output, and its instructions hold the description at a fixed offset |
| SessionSpec.ExtendLast | app/src/main/java/com/ireddragonicy/vixevia/MainActivity.kt:296 | extending the last entry keeps the length and every earlier entry, keeps the last role and appends the delta to the last content |
| SessionSpec.Gated | app/src/main/java/com/ireddragonicy/vixevia/MainActivity.kt:181-187 | a run of reads sends nothing while the model speaks; otherwise it sends one frame per read with `readBytes > 0`, every such read's `copyOf(readBytes)` is among them, and every frame is the copy of some such read |
| SessionSpec.GatedInOrder | app/src/main/java/com/ireddragonicy/vixevia/MainActivity.kt:181-187 | while the model is silent, the frame of each read with `readBytes > 0` sits at the position equal to the number of earlier such reads. Distinct reads get distinct positions, and `Gated` has exactly as many frames as such reads, so frames go out in read order, one per read |
| SessionSpec.OpenSendsSessionUpdate | app/src/main/java/com/ireddragonicy/vixevia/MainActivity.kt:220-223 | opening sends exactly one frame, of type `session.update`, and changes neither the transcript, the flag nor playback |
| SessionSpec.ItemCreatedEffect | app/src/main/java/com/ireddragonicy/vixevia/MainActivity.kt:271-277 | an assistant item appends exactly one empty assistant entry; any other role leaves the transcript alone; neither touches the flag or sends anything |
| SessionSpec.TranscriptionCompletedEffect | app/src/main/java/com/ireddragonicy/vixevia/MainActivity.kt:279-290 | a completed transcription sends exactly one `input_audio_buffer.commit` frame and changes nothing else |
| SessionSpec.TextDeltaEffect | app/src/main/java/com/ireddragonicy/vixevia/MainActivity.kt:292-298 | with an open assistant turn, the last content becomes old + delta and all else stays; otherwise the transcript is unchanged; nothing is sent and the flag is kept |
| SessionSpec.AudioEventsSetFlag | app/src/main/java/com/ireddragonicy/vixevia/MainActivity.kt:300-310 | an audio delta sets the flag and hands its payload to playback; audio done clears the flag; neither touches the transcript or sends a frame |
| SessionSpec.UnrecognisedEventIgnored | app/src/main/java/com/ireddragonicy/vixevia/MainActivity.kt:260-268 | an event of an unrecognised type leaves the whole state unchanged |
| SessionSpec.CaptureGate | app/src/main/java/com/ireddragonicy/vixevia/MainActivity.kt:181-187 | a read is sent iff `readBytes > 0` and the model is not speaking, as one append frame of exactly the first `readBytes` bytes; nothing else changes |
| SessionSpec.VisionFailureDropped | app/src/main/java/com/ireddragonicy/vixevia/MainActivity.kt:389-418 | a failed call, a non-2xx status, a missing or malformed body, an empty `choices` array or an unreadable first choice changes nothing |
| SessionSpec.VisionSuccessRecorded | app/src/main/java/com/ireddragonicy/vixevia/MainActivity.kt:404-437 | a successful result appends `system` "Image Description: c" and sends one `response.create` carrying c, and touches nothing else |
| SessionSpec.StepFlag | app/src/main/java/com/ireddragonicy/vixevia/MainActivity.kt:300-310 | only an audio delta sets the flag and only audio done clears it; every other input keeps it |
| SessionSpec.SpeakingFollowsLastAudioEvent | app/src/main/java/com/ireddragonicy/vixevia/MainActivity.kt:300-310 | after any run, the model is speaking iff some audio delta has had no audio done after it (or it was speaking and no audio done came) |
| SessionSpec.MutedWhileSpeaking | app/src/main/java/com/ireddragonicy/vixevia/MainActivity.kt:183 | once the model speaks, no microphone frame is sent until an audio done arrives, whatever else is interleaved |
| SessionSpec.OneSessionUpdatePerOpen | app/src/main/java/com/ireddragonicy/vixevia/MainActivity.kt:220-257 | over any run, the number of `session.update` frames sent equals the number of connection openings |
| SessionSpec.ReplayOnlyExtends | app/src/main/java/com/ireddragonicy/vixevia/MainActivity.kt:271-298 | over any run, the frame and playback logs only grow, and transcript entries are only appended or extended, never removed or re-roled |
| SessionSpec.ReplayKeepsWellFormed | app/src/main/java/com/ireddragonicy/vixevia/MainActivity.kt:271-298 | over any run, the transcript holds only assistant turns and `system` entries that begin with `Image Description: ` |
| SessionSpec.CaptureRunIsGated | app/src/main/java/com/ireddragonicy/vixevia/MainActivity.kt:181-188 | a run of reads with no other input sends exactly the gated frames and changes nothing else |
| SessionSpec.StreamedTurnExample | app/src/main/java/com/ireddragonicy/vixevia/MainActivity.kt:271-298 | item created (assistant), then deltas "Hi" and " there", on an empty transcript gives exactly `[("assistant", "Hi there")]` |
| SessionSpec.VisionExample | app/src/main/java/com/ireddragonicy/vixevia/MainActivity.kt:404-437 | a 200 result describing "a red car" logs "Image Description: a red car" and sends one `response.create` whose instructions contain "a red car" |
| SessionSpec.VisionHttpErrorExample | app/src/main/java/com/ireddragonicy/vixevia/MainActivity.kt:392-396 | a 500 result leaves the session unchanged |
| MainActivity.Session.constructor | app/src/main/java/com/ireddragonicy/vixevia/MainActivity.kt:59-61 | a new session has an empty transcript, the flag clear, and nothing sent or played |
| MainActivity.Session.OnOpen | app/src/main/java/com/ireddragonicy/vixevia/MainActivity.kt:220-223 | opening appends one `session.update` frame and keeps the transcript, flag and playback; the new state is `SessionSpec.Open` of the old |
| MainActivity.Session.SendSessionUpdate | app/src/main/java/com/ireddragonicy/vixevia/MainActivity.kt:236-257 | appends the session configuration frame (modalities, persona, `alloy`, `pcm16` in and out, `whisper-1`, server VAD 0.5/300/200) |
| MainActivity.Session.HandleServerEvent | app/src/main/java/com/ireddragonicy/vixevia/MainActivity.kt:260-268 | the new state is `SessionSpec.Dispatch` of the old state and the routed event; an unrecognised type changes nothing |
| MainActivity.Session.HandleConversationItemCreated | app/src/main/java/com/ireddragonicy/vixevia/MainActivity.kt:271-277 | appends an empty assistant entry iff the role is `assistant`; nothing else changes; equal to `Dispatch` of `ItemCreated(role)` |
| MainActivity.Session.HandleAudioTranscriptionCompleted | app/src/main/java/com/ireddragonicy/vixevia/MainActivity.kt:279-283 | sends one commit frame; nothing else changes; equal to `Dispatch` of `TranscriptionCompleted` |
| MainActivity.Session.SendCommitAudioBuffer | app/src/main/java/com/ireddragonicy/vixevia/MainActivity.kt:285-290 | appends `input_audio_buffer.commit` to the frame log |
| MainActivity.Session.HandleTextDelta | app/src/main/java/com/ireddragonicy/vixevia/MainActivity.kt:292-298 | extends the last content in place when it is an assistant entry, else drops the delta; length, earlier entries, flag and frames kept; equal to `Dispatch` of `TextDelta(delta)` |
| MainActivity.Session.HandleAudioDelta | app/src/main/java/com/ireddragonicy/vixevia/MainActivity.kt:300-305 | sets the flag and hands the payload to playback; transcript and frames kept; equal to `Dispatch` of `AudioDelta(payload)` |
| MainActivity.Session.PlayAudio | app/src/main/java/com/ireddragonicy/vixevia/MainActivity.kt:312-325 | appends the payload to the playback log; nothing else changes |
| MainActivity.Session.HandleAudioDone | app/src/main/java/com/ireddragonicy/vixevia/MainActivity.kt:307-310 | clears the flag; transcript, frames and playback kept; equal to `Dispatch` of `AudioDone` |
| MainActivity.Session.CaptureFrame | app/src/main/java/com/ireddragonicy/vixevia/MainActivity.kt:182-187 | sends one append frame of `copyOf(readBytes)` iff `readBytes > 0` and the model is not speaking; otherwise nothing; equal to `SessionSpec.Capture` of the read |
| MainActivity.Session.SendAudioData | app/src/main/java/com/ireddragonicy/vixevia/MainActivity.kt:199-205 | appends one `input_audio_buffer.append` frame carrying the given audio |
| MainActivity.Session.RecordingLoop | app/src/main/java/com/ireddragonicy/vixevia/MainActivity.kt:181-188 | the loop sends exactly `Gated` of its reads and changes nothing else; the new state is `SessionSpec.Replay` of the reads as `Captured` inputs |
| MainActivity.Session.SendImageToVisionApi | app/src/main/java/com/ireddragonicy/vixevia/MainActivity.kt:389-398 | a failed or non-2xx call or a missing body changes nothing; otherwise the description is logged and sent; equal to `SessionSpec.DeliverVision` of the response |
| MainActivity.Session.ParseVisionApiResponse | app/src/main/java/com/ireddragonicy/vixevia/MainActivity.kt:404-419 | a malformed body, empty `choices` or unreadable first choice changes nothing; otherwise one entry and one frame for the first choice; equal to `DeliverVision` of a 2xx response with this body |
| MainActivity.Session.AppendVisionDescriptionToChat | app/src/main/java/com/ireddragonicy/vixevia/MainActivity.kt:421-425 | appends `system` "Image Description: " + description; nothing else changes |
| MainActivity.Session.SendVisionResultToWebSocket | app/src/main/java/com/ireddragonicy/vixevia/MainActivity.kt:427-438 | appends one `response.create` frame carrying the description; nothing else changes |

## Left out

- MainActivity.Session.HandleAudioDelta: the code sets `isModelSpeaking` before it decodes the payload, and `Base64.decode` throws on a malformed payload. Then nothing is played and the exception escapes `onMessage`, but the flag stays set, so the microphone stays muted until an audio-done event arrives. The model treats every payload as decodable and always appends it to `played`. The flag is still modelled: `Dispatch` sets it on every audio delta, whether or not the payload would decode.
- Base64: an `input_audio_buffer.append` frame holds the PCM bytes whose Base64 text is its `audio` field. `PlayAudio` takes the delta's Base64 payload without decoding it. `android.util.Base64` is a library call and the code promises no round trip.
- JPEG compression, the camera, `takePicture` callbacks, runtime permissions and the Compose UI (including role capitalisation) are platform plumbing.
- `AudioRecord` and `AudioTrack` acquisition, reads, writes and release are device I/O. A read is an input `DeviceRead`; playback is the `played` log.
- The HTTP request itself is network I/O: its body (model `gpt-4o-mini`, the fixed prompt, the data URI, `max_tokens` 300), its headers and the URLs. Only its outcome, a `VisionResponse`, is modelled.
- JSON parsing is a library call. An inbound event is a `RawEvent` of `optString` fields. An item-created event with no `item` object makes `getJSONObject` throw out of the listener; the model takes the item's role as given.
- A choice's content is whatever text `getString` returns for it. The org.json library may turn a non-string value (a number, or JSON null) into text rather than throw; which values it accepts is the library's, and `VisionBody.Parsed` takes the outcome as given.
- An exception that escapes `onMessage` (a malformed event body, a missing `item`, an undecodable audio delta) leaves the activity's code for the WebSocket library. What the library then does with the connection is not part of this model: the model has no failed-connection state, and every event it handles completes normally.
- MainActivity.Session.HandleTextDelta: the code mutates the last `ChatMessage` object in place (`content +=`). The model replaces the last entry by a new value, so aliasing of that object is not captured.
- MainActivity.Session.RecordingLoop: the flag is read on every pass, but another thread may change it while the loop runs. The model is sequential, so the flag stays constant during the loop. Interleavings of reads with server events are covered by `SessionSpec.Replay` and its lemmas instead.
- The threads themselves are left out: coroutine scheduling, the 3.5 s vision delay loop, `runOnUiThread` (which can let the transcript entry land after the `response.create` frame), and unsynchronised access to `isModelSpeaking` and `messages`.
- Connection lifecycle: `onFailure` only logs, and `webSocket.send` runs whatever the connection state. The model adds no open/closed guard, as the code has none.
- `Log.*` calls are diagnostics and are not modelled: the unhandled-type log in the dispatcher, the transcript log, the vision failure logs (failed call, non-success status, parse failure) and the connection logs. None of them changes the state.
- `onDestroy` teardown only releases resources.
- A read failure that throws out of the recording loop is device I/O and is not modelled.
