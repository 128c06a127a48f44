/** How the layers meet: the row the workflow completes is what the list
    endpoint returns, the client polls on, and the detail panel renders. */
module Lifecycle {
  import opened Wrappers
  import opened Records
  import opened Calendly
  import opened Workflow
  import Storage
  import Routes
  import App
  import Detail

  /** Once the workflow has completed a row and no other stored row is
      PROCESSING, the client's next fetch turns polling off. */
  lemma PollingStopsAfterLastCompletion(ids: seq<string>, table: map<string, Voicemail>, id: string,
                                        svc: CalendlyService, transcript: string, analysis: Analysis)
    requires forall i :: 0 <= i < |ids| ==> ids[i] in table
    requires id in table && CompletionUpdates(svc, transcript, analysis).Ok?
    requires forall k :: k in table && k != id ==> table[k].status != PROCESSING
    ensures var after := table[id := ApplyAll(table[id], CompletionUpdates(svc, transcript, analysis).value)];
      App.RefetchInterval(Some(Routes.ListResponse(Storage.RowsOf(ids, after)))) == None
  {
    var after := table[id := ApplyAll(table[id], CompletionUpdates(svc, transcript, analysis).value)];
    CompletionEffect(table[id], svc, transcript, analysis);
    var rows := Storage.RowsOf(ids, after);
    App.PollingFollowsStoredRows(rows);
    forall i | 0 <= i < |rows| ensures rows[i].status != PROCESSING {
      assert rows[i] == after[ids[i]];
    }
  }

  /** When either Calendly path is configured, the detail panel of a
      completed row books through exactly the URL `get_base_url` chose for
      the extracted treatment mode, whatever the client is configured with. */
  lemma CompletedDetailBooksChosenUrl(vm: Voicemail, svc: CalendlyService, transcript: string,
                                      analysis: Analysis, configuredUrl: Option<string>)
    requires CompletionUpdates(svc, transcript, analysis).Ok?
    requires Truthy(svc.pathInPerson) || Truthy(svc.pathTelehealth)
    ensures var row := ApplyAll(vm, CompletionUpdates(svc, transcript, analysis).value);
      && svc.GetBaseUrl(TreatmentMode(analysis).value).Some?
      && Detail.BookingWidget(Detail.AnalysisOf(row), configuredUrl).url
           == Str(svc.GetBaseUrl(TreatmentMode(analysis).value).value)
  {
    CompletionEffect(vm, svc, transcript, analysis);
    BaseUrlPresentWhenConfigured(svc, TreatmentMode(analysis).value);
  }

  /** With neither path configured the stored `booking_url` is null or empty and the
      panel falls back to the client's own URL. */
  lemma UnconfiguredDetailFallsBack(vm: Voicemail, svc: CalendlyService, transcript: string,
                                    analysis: Analysis, configuredUrl: string)
    requires CompletionUpdates(svc, transcript, analysis).Ok?
    requires !Truthy(svc.pathInPerson) && !Truthy(svc.pathTelehealth)
    requires configuredUrl != ""
    ensures var row := ApplyAll(vm, CompletionUpdates(svc, transcript, analysis).value);
      Detail.BookingWidget(Detail.AnalysisOf(row), Some(configuredUrl)).url == Str(configuredUrl)
  {
    CompletionEffect(vm, svc, transcript, analysis);
  }
}
