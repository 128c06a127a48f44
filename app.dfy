/** frontend/src/App.jsx: the recording controller (the `isRecording` state,
    the recorder ref, the chunk buffer and the recorder's event handlers),
    the upload mutation, the voicemail query's poll decision and the card
    colour. The browser's devices are events fed to the controller. */
module App {
  import opened Wrappers
  import opened Records
  import Routes

  /** `data?.some(item => item.status === 'PROCESSING')`. */
  function AnyProcessing(data: seq<Voicemail>): (b: bool)
    ensures b <==> exists i :: 0 <= i < |data| && data[i].status == PROCESSING
  {
    if data == [] then false
    else data[0].status == PROCESSING || AnyProcessing(data[1..])
  }

  /** `refetchInterval`: 2000 ms while any record is PROCESSING, otherwise
      `false` (None): no polling until the next invalidation. */
  function RefetchInterval(data: Option<seq<Voicemail>>): (r: Option<nat>)
    ensures r == Some(2000) <==> data.Some? && exists i :: 0 <= i < |data.value| && data.value[i].status == PROCESSING
    ensures r != Some(2000) ==> r == None
  {
    if data.Some? && AnyProcessing(data.value) then Some(2000) else None
  }

  /** Polling the list endpoint goes on exactly while some stored row is PROCESSING. */
  lemma PollingFollowsStoredRows(rows: seq<Voicemail>)
    ensures RefetchInterval(Some(Routes.ListResponse(rows))) == Some(2000) <==>
      exists i :: 0 <= i < |rows| && rows[i].status == PROCESSING
  {
    var listed := Routes.ListResponse(rows);
    if exists i :: 0 <= i < |rows| && rows[i].status == PROCESSING {
      var i :| 0 <= i < |rows| && rows[i].status == PROCESSING;
      assert rows[i] in multiset(listed);
    }
    if exists i :: 0 <= i < |listed| && listed[i].status == PROCESSING {
      var i :| 0 <= i < |listed| && listed[i].status == PROCESSING;
      assert listed[i] in multiset(rows);
    }
  }

  datatype CardColour = Slate | RedBorder | YellowBorder | GreenBorder

  /** `VoicemailCard`'s border colour. */
  function CardColourOf(vm: Voicemail): (c: CardColour)
    ensures vm.status == PROCESSING ==> c == Slate
    ensures c == RedBorder <==> vm.status != PROCESSING && vm.urgency == Some("RED")
    ensures c == YellowBorder <==> vm.status != PROCESSING && vm.urgency == Some("YELLOW")
    ensures c == GreenBorder <==> vm.status != PROCESSING && vm.urgency == Some("GREEN")
  {
    if vm.status == PROCESSING then Slate
    else match vm.urgency
      case Some("RED") => RedBorder
      case Some("YELLOW") => YellowBorder
      case Some("GREEN") => GreenBorder
      case _ => Slate
  }

  newtype byte = x: int | 0 <= x < 256

  type Chunk = seq<byte>

  datatype Blob = Blob(bytes: seq<byte>, mimeType: string)

  /** `new Blob(chunks)`: the bytes of all chunks in order. */
  function Flatten(chunks: seq<Chunk>): (bytes: seq<byte>)
    ensures |bytes| == (if chunks == [] then 0 else |chunks[0]| + |Flatten(chunks[1..])|)
    ensures chunks != [] ==> bytes[..|chunks[0]|] == chunks[0]
  {
    if chunks == [] then [] else chunks[0] + Flatten(chunks[1..])
  }

  /** Concatenation splits over the buffer: appending a chunk appends its bytes. */
  lemma {:induction false} FlattenAppend(chunks: seq<Chunk>, c: Chunk)
    ensures Flatten(chunks + [c]) == Flatten(chunks) + c
  {
    if chunks != [] {
      assert (chunks + [c])[1..] == chunks[1..] + [c];
      FlattenAppend(chunks[1..], c);
    }
  }

  datatype FormEntry = FormEntry(field: string, blob: Blob, filename: string)

  /** The multipart body the upload mutation posts. */
  function UploadForm(blob: Blob): (form: seq<FormEntry>)
    ensures |form| == 1 && form[0].field == "file" && form[0].blob == blob && form[0].filename == "voicemail.wav"
  {
    [FormEntry("file", blob, "voicemail.wav")]
  }

  /** The `['voicemails']` query as the component sees it. */
  class VoicemailsQuery {
    var data: Option<seq<Voicemail>>
    var invalidated: bool

    constructor ()
      ensures data == None && !invalidated
    {
      data := None;
      invalidated := false;
    }

    /** The next poll delay, decided from the data just fetched. */
    function NextPoll(): (r: Option<nat>)
      reads this
      ensures r.Some? <==> data.Some? && exists i :: 0 <= i < |data.value| && data.value[i].status == PROCESSING
      ensures r.Some? ==> r.value == 2000
    {
      RefetchInterval(data)
    }

    method OnFetched(fetched: seq<Voicemail>)
      modifies this
      ensures data == Some(fetched) && !invalidated
    {
      data := Some(fetched);
      invalidated := false;
    }

    /** `onSuccess`: only invalidates; the response is not inserted. */
    method OnUploadSuccess(response: Routes.Response)
      modifies this
      ensures data == old(data) && invalidated
    {
      invalidated := true;
    }
  }

  datatype RecorderState = Recording | Stopping | Inactive

  /** A MediaRecorder and the index of the stream it captures. */
  datatype MediaRecorder = MediaRecorder(stream: nat, state: RecorderState)

  /** How `startRecording`'s attempt ends: `getUserMedia` refused, the
      MediaRecorder constructor threw, `start()` threw, or recording began. */
  datatype StartOutcome = Denied | ConstructorFailed | StartFailed | Started

  /** The current recorder exists; each recorder owns its own stream, which
      runs until the recorder is inactive; only the current recorder records,
      and it does exactly while `isRecording` holds. */
  ghost predicate ControllerInvariant(isRecording: bool, current: Option<nat>, recorders: seq<MediaRecorder>, streams: seq<bool>) {
    && (current.Some? ==> current.value < |recorders|)
    && (forall i :: 0 <= i < |recorders| ==> recorders[i].stream < |streams|)
    && (forall i, j :: 0 <= i < j < |recorders| ==> recorders[i].stream != recorders[j].stream)
    && (forall i :: 0 <= i < |recorders| && recorders[i].state != Inactive ==> streams[recorders[i].stream])
    && (forall i :: 0 <= i < |recorders| && recorders[i].state == Recording ==> isRecording && current == Some(i))
    && (isRecording ==> current.Some? && recorders[current.value].state == Recording)
  }

  /** A stream obtained while idle, whatever becomes of it, keeps the invariant. */
  lemma NewStreamKeepsInvariant(current: Option<nat>, recorders: seq<MediaRecorder>, streams: seq<bool>)
    requires ControllerInvariant(false, current, recorders, streams)
    ensures ControllerInvariant(false, current, recorders, streams + [true])
  {
    var s' := streams + [true];
    forall i | 0 <= i < |recorders| && recorders[i].state != Inactive ensures s'[recorders[i].stream] {
      assert s'[recorders[i].stream] == streams[recorders[i].stream];
    }
  }

  /** A recorder created while idle on a fresh stream becomes the current one
      and keeps the invariant, recording or not. */
  lemma NewRecorderKeepsInvariant(current: Option<nat>, recorders: seq<MediaRecorder>, streams: seq<bool>, state: RecorderState)
    requires ControllerInvariant(false, current, recorders, streams)
    requires state != Stopping
    ensures ControllerInvariant(state == Recording, Some(|recorders|), recorders + [MediaRecorder(|streams|, state)], streams + [true])
  {
    var r' := recorders + [MediaRecorder(|streams|, state)];
    var s' := streams + [true];
    forall i | 0 <= i < |r'| && r'[i].state != Inactive ensures s'[r'[i].stream] {
      if i < |recorders| {
        assert r'[i] == recorders[i];
      }
    }
    forall i | 0 <= i < |recorders| ensures r'[i].state != Recording {
      assert r'[i] == recorders[i];
    }
    forall i, j | 0 <= i < j < |r'| ensures r'[i].stream != r'[j].stream {
      assert r'[i] == recorders[i];
      if j < |recorders| {
        assert r'[j] == recorders[j];
      }
    }
  }

  class CaptureController {
    /** `isRecording` */
    var isRecording: bool
    /** `mediaRecorderRef.current`, as an index into `recorders` */
    var current: Option<nat>
    /** every MediaRecorder created so far (an old one may still fire events) */
    var recorders: seq<MediaRecorder>
    /** every stream obtained so far: true while its tracks run */
    var streams: seq<bool>
    /** `chunksRef.current` */
    var chunks: seq<Chunk>
    /** every blob passed to `uploadMutation.mutate`, in order */
    var uploads: seq<Blob>
    /** number of "Could not access microphone" alerts */
    var alerts: nat

    ghost predicate Valid()
      reads this
    {
      ControllerInvariant(isRecording, current, recorders, streams)
    }

    constructor ()
      ensures Valid()
      ensures !isRecording && current == None && recorders == [] && streams == [] && chunks == [] && uploads == [] && alerts == 0
    {
      isRecording := false;
      current := None;
      recorders := [];
      streams := [];
      chunks := [];
      uploads := [];
      alerts := 0;
    }

    /** `startRecording`, reachable only from the button while not recording.
        A stream obtained before a later step throws is never stopped. */
    method StartRecording(outcome: StartOutcome)
      requires Valid() && !isRecording
      modifies this
      ensures Valid()
      ensures isRecording <==> outcome == Started
      ensures outcome != Started ==> alerts == old(alerts) + 1
      ensures outcome == Started ==> alerts == old(alerts)
      ensures uploads == old(uploads)
      ensures outcome == Denied ==> current == old(current) && recorders == old(recorders) && streams == old(streams) && chunks == old(chunks)
      ensures outcome == ConstructorFailed ==> current == old(current) && recorders == old(recorders) && streams == old(streams) + [true] && chunks == old(chunks)
      ensures outcome == StartFailed ==>
        && streams == old(streams) + [true] && chunks == []
        && recorders == old(recorders) + [MediaRecorder(|old(streams)|, Inactive)] && current == Some(|old(recorders)|)
      ensures outcome == Started ==>
        && streams == old(streams) + [true] && chunks == []
        && recorders == old(recorders) + [MediaRecorder(|old(streams)|, Recording)] && current == Some(|old(recorders)|)
    {
      var recs, strs, cur, chs, recording := recorders, streams, current, chunks, false;
      if outcome == ConstructorFailed {
        NewStreamKeepsInvariant(cur, recs, strs);
        strs := strs + [true];
      } else if outcome != Denied {
        var state := if outcome == StartFailed then Inactive else Recording;
        NewRecorderKeepsInvariant(cur, recs, strs, state);
        cur := Some(|recs|);
        recs := recs + [MediaRecorder(|strs|, state)];
        strs := strs + [true];
        chs := [];
        recording := outcome == Started;
      }
      isRecording, current, recorders, streams, chunks := recording, cur, recs, strs, chs;
      alerts := if outcome == Started then alerts else alerts + 1;
    }

    /** `ondataavailable` of recorder `r`: empty chunks are dropped. */
    method OnDataAvailable(r: nat, chunk: Chunk)
      requires Valid() && r < |recorders| && recorders[r].state != Inactive
      modifies this
      ensures Valid()
      ensures chunks == if |chunk| > 0 then old(chunks) + [chunk] else old(chunks)
      ensures Flatten(chunks) == Flatten(old(chunks)) + chunk
      ensures isRecording == old(isRecording) && current == old(current) && recorders == old(recorders)
      ensures streams == old(streams) && uploads == old(uploads) && alerts == old(alerts)
    {
      if |chunk| > 0 {
        FlattenAppend(chunks, chunk);
        chunks := chunks + [chunk];
      }
    }

    /** `stopRecording`: does nothing unless a recorder exists and
        `isRecording` holds; afterwards `isRecording` is false, so a second
        stop in a row changes nothing. */
    method StopRecording()
      requires Valid()
      modifies this
      ensures Valid()
      ensures !isRecording
      ensures current == old(current) && streams == old(streams) && chunks == old(chunks)
      ensures uploads == old(uploads) && alerts == old(alerts)
      ensures old(current.Some? && isRecording) ==>
        recorders == old(recorders)[old(current.value) := old(recorders[current.value]).(state := Stopping)]
      ensures !old(current.Some? && isRecording) ==> recorders == old(recorders)
    {
      if current.Some? && isRecording {
        var c := current.value;
        recorders := recorders[c := recorders[c].(state := Stopping)];
        isRecording := false;
      }
    }

    /** `onstop` of recorder `r`: one `audio/wav` blob of the buffered chunks
        is uploaded and the recorder's stream is stopped. */
    method OnStop(r: nat)
      requires Valid() && r < |recorders| && recorders[r].state == Stopping
      modifies this
      ensures Valid()
      ensures uploads == old(uploads) + [Blob(Flatten(old(chunks)), "audio/wav")]
      ensures streams == old(streams)[old(recorders[r].stream) := false]
      ensures recorders == old(recorders)[r := old(recorders[r]).(state := Inactive)]
      ensures isRecording == old(isRecording) && current == old(current) && chunks == old(chunks) && alerts == old(alerts)
    {
      var s := recorders[r].stream;
      uploads := uploads + [Blob(Flatten(chunks), "audio/wav")];
      recorders := recorders[r := recorders[r].(state := Inactive)];
      streams := streams[s := false];
    }
  }

  /** Two calls of `stopRecording` before the recorder reports: the second
      finds `isRecording` false and does nothing, so the recorder stops once
      and exactly one blob is uploaded. */
  method StopTwiceThenStopped(c: CaptureController)
    requires c.Valid() && c.isRecording
    modifies c
    ensures c.Valid() && !c.isRecording
    ensures c.uploads == old(c.uploads) + [Blob(Flatten(old(c.chunks)), "audio/wav")]
    ensures c.current == old(c.current) && c.recorders[c.current.value].state == Inactive
  {
    c.StopRecording();
    c.StopRecording();
    c.OnStop(c.current.value);
  }

  /** A new recording started before the old recorder's final events: the
      buffer is shared, so the old recorder's last chunk lands in the new
      buffer. The old `onstop` uploads that chunk, and it stays in the buffer
      of the new recording, whose own stop uploads it a second time. */
  method LateChunkUploadedTwice(c: CaptureController, chunk: Chunk)
    requires c.Valid() && c.isRecording && |chunk| > 0
    modifies c
    ensures c.Valid() && !c.isRecording
    ensures c.uploads == old(c.uploads) + [Blob(chunk, "audio/wav"), Blob(chunk, "audio/wav")]
  {
    var first := c.current.value;
    c.StopRecording();
    c.StartRecording(Started);
    var second := c.current.value;
    c.OnDataAvailable(first, chunk);
    c.OnStop(first);
    assert Flatten(c.chunks) == chunk;
    c.StopRecording();
    c.OnStop(second);
  }
}
