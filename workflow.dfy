/** The `process_voicemail` workflow of backend/app/inngest_client.py after
    transcription and analysis: choosing the booking URL, building the
    completion update and writing it. The transcript and the analysis
    dictionary come from external services and are inputs here. */
module Workflow {
  import opened Wrappers
  import opened Records
  import opened Calendly
  import opened Text
  import Storage
  import Routes

  /** `mode.lower()` on a truthy value that is not a string raises. */
  datatype WorkflowError = AttributeError

  /** `analysis.get("treatment_mode", "Telehealth")`, as the mode passed to
      `get_base_url`: the default applies only when the key is absent. */
  function TreatmentMode(analysis: Analysis): (r: Result<Option<string>, WorkflowError>)
    ensures "treatment_mode" !in analysis ==> r == Ok(Some("Telehealth"))
    ensures "treatment_mode" in analysis && analysis["treatment_mode"].Str? ==> r == Ok(Some(analysis["treatment_mode"].s))
    ensures r.Err? <==> "treatment_mode" in analysis && !analysis["treatment_mode"].Str? && PyTruthy(analysis["treatment_mode"])
    ensures r == Ok(None) <==> "treatment_mode" in analysis && !analysis["treatment_mode"].Str? && !PyTruthy(analysis["treatment_mode"])
  {
    if "treatment_mode" !in analysis then Ok(Some("Telehealth"))
    else match analysis["treatment_mode"]
      case Str(s) => Ok(Some(s))
      case v => if PyTruthy(v) then Err(AttributeError) else Ok(None)
  }

  /** `analysis.get(key, default)` stored in a text column. */
  function ColumnText(analysis: Analysis, key: string, default: string): Option<string> {
    if key !in analysis then Some(default)
    else match analysis[key]
      case Str(s) => Some(s)
      case _ => None
  }

  function UrlValue(url: Option<string>): Value {
    match url
    case Some(u) => Str(u)
    case None => Null
  }

  /** The updates dictionary written at the end of processing. It fails
      exactly when the treatment mode does; as a dictionary it names each
      column at most once, and it never touches the file path or the
      creation time. */
  function CompletionUpdates(svc: CalendlyService, transcript: string, analysis: Analysis): (r: Result<seq<FieldUpdate>, WorkflowError>)
    ensures r.Err? <==> TreatmentMode(analysis).Err?
    ensures r.Ok? ==> forall i, j :: 0 <= i < j < |r.value| ==> r.value[i].ColumnOf() != r.value[j].ColumnOf()
    ensures r.Ok? ==> forall i :: 0 <= i < |r.value| ==> r.value[i].ColumnOf() !in {FilePathCol, CreatedAtCol}
  {
    match TreatmentMode(analysis)
    case Err(e) => Err(e)
    case Ok(mode) =>
      Ok([
        SetTranscript(Some(transcript)),
        SetStatus(COMPLETED),
        SetUrgency(ColumnText(analysis, "urgency", "GREEN")),
        SetCategory(ColumnText(analysis, "intent", "Unknown")),
        SetAnalysis(Some(analysis["booking_url" := UrlValue(svc.GetBaseUrl(mode))]))
      ])
  }

  /** The completion fails exactly when `treatment_mode` is a truthy non-string. */
  lemma CompletionFailsOnlyOnBadMode(svc: CalendlyService, transcript: string, analysis: Analysis)
    ensures CompletionUpdates(svc, transcript, analysis).Err? <==>
      ("treatment_mode" in analysis && !analysis["treatment_mode"].Str? && PyTruthy(analysis["treatment_mode"]))
  {
  }

  /** The row after the completion update, written out field by field. */
  lemma {:induction false} CompletedRow(vm: Voicemail, svc: CalendlyService, transcript: string, analysis: Analysis)
    requires CompletionUpdates(svc, transcript, analysis).Ok?
    ensures ApplyAll(vm, CompletionUpdates(svc, transcript, analysis).value) ==
      vm.(transcript := Some(transcript), status := COMPLETED,
          urgency := ColumnText(analysis, "urgency", "GREEN"),
          category := ColumnText(analysis, "intent", "Unknown"),
          analysis := Some(analysis["booking_url" := UrlValue(svc.GetBaseUrl(TreatmentMode(analysis).value))]))
  {
    ApplyCompletionShape(vm, Some(transcript), COMPLETED, ColumnText(analysis, "urgency", "GREEN"),
      ColumnText(analysis, "intent", "Unknown"),
      Some(analysis["booking_url" := UrlValue(svc.GetBaseUrl(TreatmentMode(analysis).value))]));
  }

  /** The five entries of the completion, in dictionary order, applied key by key. */
  lemma ApplyCompletionShape(vm: Voicemail, t: Option<string>, st: string, u: Option<string>, c: Option<string>, a: Option<Analysis>)
    ensures ApplyAll(vm, [SetTranscript(t), SetStatus(st), SetUrgency(u), SetCategory(c), SetAnalysis(a)]) ==
      vm.(transcript := t, status := st, urgency := u, category := c, analysis := a)
  {
    var us := [SetTranscript(t), SetStatus(st), SetUrgency(u), SetCategory(c), SetAnalysis(a)];
    var r1 := vm.(transcript := t);
    assert ApplyFirst(vm, us, 1) == r1;
    var r2 := r1.(status := st);
    assert ApplyFirst(vm, us, 2) == r2;
    var r3 := r2.(urgency := u);
    assert ApplyFirst(vm, us, 3) == r3;
    var r4 := r3.(category := c);
    assert ApplyFirst(vm, us, 4) == r4;
  }

  /** What the completion does to a row: it keeps id, file path and creation
      time, sets COMPLETED and the transcript, takes urgency and category from
      the analysis with their defaults, and stores the analysis with only
      `booking_url` replaced by the URL `get_base_url` chooses. */
  lemma CompletionEffect(vm: Voicemail, svc: CalendlyService, transcript: string, analysis: Analysis)
    requires CompletionUpdates(svc, transcript, analysis).Ok?
    ensures var r := ApplyAll(vm, CompletionUpdates(svc, transcript, analysis).value);
      && r.id == vm.id && r.filePath == vm.filePath && r.createdAt == vm.createdAt
      && r.status == COMPLETED
      && r.transcript == Some(transcript)
      && r.urgency == (if "urgency" in analysis then (if analysis["urgency"].Str? then Some(analysis["urgency"].s) else None) else Some("GREEN"))
      && r.category == (if "intent" in analysis then (if analysis["intent"].Str? then Some(analysis["intent"].s) else None) else Some("Unknown"))
      && r.analysis.Some?
      && r.analysis.value.Keys == analysis.Keys + {"booking_url"}
      && (forall k :: k in analysis && k != "booking_url" ==> r.analysis.value[k] == analysis[k])
      && r.analysis.value["booking_url"] == UrlValue(svc.GetBaseUrl(TreatmentMode(analysis).value))
  {
    CompletedRow(vm, svc, transcript, analysis);
  }

  /** With no `treatment_mode` in the analysis the booking URL is the telehealth
      path, or the in-person path when telehealth is unset. */
  lemma BookingUrlDefaultsToTelehealth(svc: CalendlyService, analysis: Analysis)
    requires "treatment_mode" !in analysis
    ensures TreatmentMode(analysis) == Ok(Some("Telehealth"))
    ensures svc.GetBaseUrl(TreatmentMode(analysis).value) == svc.DefaultPath()
  {
    var m := "telehealth";
    assert Lower("Telehealth") == m;
    assert OccursAt(m, "telehealth", 0);
    assert !Contains(m, "clinic") by {
      forall i: nat | i <= |m| ensures !OccursAt(m, "clinic", i) {
        if i + 6 <= |m| { assert m[i..i + 6] != "clinic" by { assert m[i] != 'c'; } }
      }
    }
    assert !Contains(m, "person") by {
      forall i: nat | i <= |m| ensures !OccursAt(m, "person", i) {
        if i + 6 <= |m| { assert m[i..i + 6] != "person" by { assert m[i] != 'p'; } }
      }
    }
  }

  /** A `treatment_mode` that is present but falsy (null, false, 0, an empty
      string or list) reaches `get_base_url` falsy, so the booking URL is
      the default path: the "Telehealth" default of `get` does not apply. */
  lemma BookingUrlFalsyModeDefaults(svc: CalendlyService, analysis: Analysis)
    requires "treatment_mode" in analysis && !PyTruthy(analysis["treatment_mode"])
    ensures TreatmentMode(analysis).Ok?
    ensures svc.GetBaseUrl(TreatmentMode(analysis).value) == svc.DefaultPath()
  {
  }

  /** The value the workflow returns. */
  datatype RunOutput = RunOutput(status: string, transcriptSnippet: string, analysis: Analysis)

  /** `transcript[:50]`. */
  function Snippet(transcript: string): (r: string)
    ensures |r| == if |transcript| < 50 then |transcript| else 50
    ensures r == transcript[..|r|]
  {
    if |transcript| <= 50 then transcript else transcript[..50]
  }

  /** Steps 3 and 4 of `process_voicemail` for the received event. An unknown
      id leaves the table alone and still reports success; a bad
      `treatment_mode` raises before anything is written. */
  method ProcessVoicemail(db: Storage.Database, svc: CalendlyService, event: Routes.Event, transcript: string, analysis: Analysis)
      returns (out: Result<RunOutput, WorkflowError>)
    requires db.Valid()
    modifies db
    ensures db.Valid() && db.ids == old(db.ids)
    ensures StatusesKnown(old(db.table)) ==> Advances(old(db.table), db.table) && StatusesKnown(db.table)
    ensures CompletionUpdates(svc, transcript, analysis).Err? ==> out.Err? && db.table == old(db.table)
    ensures CompletionUpdates(svc, transcript, analysis).Ok? ==>
      && out == Ok(RunOutput("success", Snippet(transcript), analysis))
      && (event.fileId !in old(db.table) ==> db.table == old(db.table))
      && (event.fileId in old(db.table) ==>
            db.table == old(db.table)[event.fileId := ApplyAll(old(db.table)[event.fileId], CompletionUpdates(svc, transcript, analysis).value)])
  {
    var updates := CompletionUpdates(svc, transcript, analysis);
    if updates.Err? {
      return Err(updates.error);
    }
    if event.fileId in db.table {
      CompletionEffect(db.table[event.fileId], svc, transcript, analysis);
    }
    var _ := db.UpdateVoicemail(event.fileId, updates.value);
    out := Ok(RunOutput("success", Snippet(transcript), analysis));
  }
}
