/**
 * The activity's session state and its handlers, written as they run:
 * each handler changes the transcript, the half-duplex flag or the log of
 * frames handed to the socket in place, and is proved against the
 * transition of `SessionSpec` it implements.
 */
module MainActivity {
  import opened Protocol
  import opened SessionSpec

  class Session {
    /** The transcript the screen shows. */
    var messages: seq<ChatMessage>
    /** Set while the model's audio is playing; mutes the microphone. */
    var isModelSpeaking: bool
    /** Every frame handed to the socket, oldest first. */
    var sent: seq<OutMsg>
    /** Every audio delta payload handed to playback, oldest first. */
    var played: seq<string>

    /** The transcript holds only assistant turns and image descriptions. */
    ghost predicate Valid()
      reads this
    {
      WellFormed(messages)
    }

    function Snapshot(): SessionState
      reads this
    {
      SessionState(messages, isModelSpeaking, sent, played)
    }

    constructor ()
      ensures Valid()
      ensures Snapshot() == Initial
    {
      messages := [];
      isModelSpeaking := false;
      sent := [];
      played := [];
    }

    // -------------------------------------------------------------------------
    // Connection opened
    // -------------------------------------------------------------------------

    method OnOpen()
      requires Valid()
      modifies this
      ensures Valid()
      ensures sent == old(sent) + [SessionUpdate(SESSION_CONFIG)]
      ensures messages == old(messages) && isModelSpeaking == old(isModelSpeaking) && played == old(played)
      ensures Snapshot() == Open(old(Snapshot()))
    {
      SendSessionUpdate();
    }

    method SendSessionUpdate()
      requires Valid()
      modifies this
      ensures Valid()
      ensures sent == old(sent) + [SessionUpdate(SESSION_CONFIG)]
      ensures messages == old(messages) && isModelSpeaking == old(isModelSpeaking) && played == old(played)
    {
      sent := sent + [SessionUpdate(SESSION_CONFIG)];
    }

    // -------------------------------------------------------------------------
    // Inbound events
    // -------------------------------------------------------------------------

    /** Routes one inbound event on its `type`; an unknown type is only logged. */
    method HandleServerEvent(raw: RawEvent)
      requires Valid()
      modifies this
      ensures Valid()
      ensures Snapshot() == Dispatch(old(Snapshot()), Route(raw))
      ensures !Recognised(raw.eventType) ==> Snapshot() == old(Snapshot())
    {
      var eventType := raw.eventType;
      if eventType == ITEM_CREATED {
        HandleConversationItemCreated(raw.itemRole);
      } else if eventType == TRANSCRIPTION_COMPLETED {
        HandleAudioTranscriptionCompleted(raw.transcript);
      } else if eventType == TEXT_DELTA {
        HandleTextDelta(raw.delta);
      } else if eventType == AUDIO_DELTA {
        HandleAudioDelta(raw.delta);
      } else if eventType == AUDIO_DONE {
        HandleAudioDone();
      }
    }

    method HandleConversationItemCreated(role: string)
      requires Valid()
      modifies this
      ensures Valid()
      ensures role == ASSISTANT ==> messages == old(messages) + [ChatMessage(ASSISTANT, "")]
      ensures role != ASSISTANT ==> messages == old(messages)
      ensures isModelSpeaking == old(isModelSpeaking) && sent == old(sent) && played == old(played)
      ensures Snapshot() == Dispatch(old(Snapshot()), ItemCreated(role))
    {
      if role == ASSISTANT {
        messages := messages + [ChatMessage(ASSISTANT, "")];
      }
    }

    /** The transcript text is only logged; the event commits the input audio buffer. */
    method HandleAudioTranscriptionCompleted(transcript: string)
      requires Valid()
      modifies this
      ensures Valid()
      ensures sent == old(sent) + [AudioCommit]
      ensures messages == old(messages) && isModelSpeaking == old(isModelSpeaking) && played == old(played)
      ensures Snapshot() == Dispatch(old(Snapshot()), TranscriptionCompleted(transcript))
    {
      SendCommitAudioBuffer();
    }

    method SendCommitAudioBuffer()
      requires Valid()
      modifies this
      ensures Valid()
      ensures sent == old(sent) + [AudioCommit]
      ensures messages == old(messages) && isModelSpeaking == old(isModelSpeaking) && played == old(played)
    {
      sent := sent + [AudioCommit];
    }

    /** Extends the open assistant turn; with none open the delta is dropped. */
    method HandleTextDelta(delta: string)
      requires Valid()
      modifies this
      ensures Valid()
      ensures |messages| == |old(messages)|
      ensures OpenAssistantTurn(old(messages)) ==>
        (forall i :: 0 <= i < |messages| - 1 ==> messages[i] == old(messages)[i]) &&
        messages[|messages| - 1] == ChatMessage(ASSISTANT, old(messages)[|messages| - 1].content + delta)
      ensures !OpenAssistantTurn(old(messages)) ==> messages == old(messages)
      ensures isModelSpeaking == old(isModelSpeaking) && sent == old(sent) && played == old(played)
      ensures Snapshot() == Dispatch(old(Snapshot()), TextDelta(delta))
    {
      if |messages| > 0 && messages[|messages| - 1].role == ASSISTANT {
        var last := messages[|messages| - 1];
        messages := messages[|messages| - 1 := last.(content := last.content + delta)];
      }
    }

    method HandleAudioDelta(payload: string)
      requires Valid()
      modifies this
      ensures Valid()
      ensures isModelSpeaking
      ensures played == old(played) + [payload]
      ensures messages == old(messages) && sent == old(sent)
      ensures Snapshot() == Dispatch(old(Snapshot()), AudioDelta(payload))
    {
      isModelSpeaking := true;
      PlayAudio(payload);
    }

    /** Hands one decoded audio delta to the output track. */
    method PlayAudio(payload: string)
      requires Valid()
      modifies this
      ensures Valid()
      ensures played == old(played) + [payload]
      ensures messages == old(messages) && isModelSpeaking == old(isModelSpeaking) && sent == old(sent)
    {
      played := played + [payload];
    }

    method HandleAudioDone()
      requires Valid()
      modifies this
      ensures Valid()
      ensures !isModelSpeaking
      ensures messages == old(messages) && sent == old(sent) && played == old(played)
      ensures Snapshot() == Dispatch(old(Snapshot()), AudioDone)
    {
      isModelSpeaking := false;
    }

    // -------------------------------------------------------------------------
    // Microphone capture
    // -------------------------------------------------------------------------

    /** One pass of the recording loop: forward the read unless the model is speaking. */
    method CaptureFrame(buffer: seq<byte>, readBytes: int)
      requires Valid()
      modifies this
      ensures Valid()
      ensures readBytes > 0 && !isModelSpeaking ==>
        sent == old(sent) + [AudioAppend(CopyOf(buffer, readBytes))]
      ensures readBytes <= 0 || isModelSpeaking ==> sent == old(sent)
      ensures messages == old(messages) && isModelSpeaking == old(isModelSpeaking) && played == old(played)
      ensures Snapshot() == Capture(old(Snapshot()), DeviceRead(buffer, readBytes))
    {
      if readBytes > 0 && !isModelSpeaking {
        var audioData := CopyOf(buffer, readBytes);
        SendAudioData(audioData);
      }
    }

    method SendAudioData(audioData: seq<byte>)
      requires Valid()
      modifies this
      ensures Valid()
      ensures sent == old(sent) + [AudioAppend(audioData)]
      ensures messages == old(messages) && isModelSpeaking == old(isModelSpeaking) && played == old(played)
    {
      sent := sent + [AudioAppend(audioData)];
    }

    /** The recording loop over the reads made while recording is on. */
    method RecordingLoop(deviceReads: seq<DeviceRead>)
      requires Valid()
      modifies this
      ensures Valid()
      ensures sent == old(sent) + Gated(old(isModelSpeaking), deviceReads)
      ensures messages == old(messages) && isModelSpeaking == old(isModelSpeaking) && played == old(played)
      ensures Snapshot() == Replay(old(Snapshot()), CapturesOf(deviceReads))
    {
      var i := 0;
      while i < |deviceReads|
        invariant 0 <= i <= |deviceReads|
        invariant Valid()
        invariant sent == old(sent) + Gated(old(isModelSpeaking), deviceReads[..i])
        invariant messages == old(messages) && isModelSpeaking == old(isModelSpeaking) && played == old(played)
      {
        CaptureFrame(deviceReads[i].buffer, deviceReads[i].readBytes);
        GatedExtend(old(isModelSpeaking), deviceReads, i);
        i := i + 1;
      }
      assert deviceReads[..i] == deviceReads;
      CaptureRunIsGated(old(Snapshot()), deviceReads);
    }

    // -------------------------------------------------------------------------
    // Vision cycle
    // -------------------------------------------------------------------------

    /** The vision call's outcome: a failed or non-success call ends the cycle. */
    method SendImageToVisionApi(response: VisionResponse)
      requires Valid()
      modifies this
      ensures Valid()
      ensures VisionDescription(response).None? ==> Snapshot() == old(Snapshot())
      ensures VisionDescription(response).Some? ==>
        messages == old(messages) + [ChatMessage(SYSTEM, IMAGE_DESCRIPTION_PREFIX + VisionDescription(response).value)] &&
        sent == old(sent) + [ResponseCreate(VisionContext(VisionDescription(response).value))] &&
        isModelSpeaking == old(isModelSpeaking) && played == old(played)
      ensures Snapshot() == DeliverVision(old(Snapshot()), response)
    {
      match response
      case CallFailed =>
      case Http(code, body) =>
        if !IsSuccessful(code) {
          return;
        }
        match body
        case None =>
        case Some(b) => ParseVisionApiResponse(b);
    }

    /** Reads the first choice; a malformed body or an empty choice list ends the cycle. */
    method ParseVisionApiResponse(body: VisionBody)
      requires Valid()
      modifies this
      ensures Valid()
      ensures var d := VisionDescription(Http(200, Some(body)));
        (d.None? ==> Snapshot() == old(Snapshot())) &&
        (d.Some? ==>
          messages == old(messages) + [DescriptionEntry(d.value)] &&
          sent == old(sent) + [ResponseCreate(VisionContext(d.value))] &&
          isModelSpeaking == old(isModelSpeaking) && played == old(played))
      ensures Snapshot() == DeliverVision(old(Snapshot()), Http(200, Some(body)))
    {
      match body
      case Unparseable =>
      case Parsed(choices) =>
        if |choices| > 0 {
          match choices[0]
          case None =>
          case Some(messageContent) =>
            AppendVisionDescriptionToChat(messageContent);
            SendVisionResultToWebSocket(messageContent);
        }
    }

    method AppendVisionDescriptionToChat(description: string)
      requires Valid()
      modifies this
      ensures Valid()
      ensures messages == old(messages) + [ChatMessage(SYSTEM, IMAGE_DESCRIPTION_PREFIX + description)]
      ensures isModelSpeaking == old(isModelSpeaking) && sent == old(sent) && played == old(played)
    {
      messages := messages + [DescriptionEntry(description)];
    }

    method SendVisionResultToWebSocket(visionDescription: string)
      requires Valid()
      modifies this
      ensures Valid()
      ensures sent == old(sent) + [ResponseCreate(VisionContext(visionDescription))]
      ensures messages == old(messages) && isModelSpeaking == old(isModelSpeaking) && played == old(played)
    {
      sent := sent + [ResponseCreate(VisionContext(visionDescription))];
    }
  }
}
