/** `CalendlyService` from backend/app/services/calendly.py: chooses the
    scheduling page for a treatment mode. The two paths come from the
    environment, so each may be unset (None) or empty. */
module Calendly {
  import opened Wrappers
  import opened Text

  /** Python truthiness of an optional string. */
  predicate Truthy(o: Option<string>) {
    o.Some? && o.value != ""
  }

  /** Python's `a or b`. */
  function Or(a: Option<string>, b: Option<string>): Option<string> {
    if Truthy(a) then a else b
  }

  predicate InPersonMode(mode: string) {
    Contains(Lower(mode), "clinic") || Contains(Lower(mode), "person")
  }

  predicate TelehealthMode(mode: string) {
    Contains(Lower(mode), "telehealth") || Contains(Lower(mode), "video")
  }

  datatype CalendlyService = CalendlyService(pathInPerson: Option<string>, pathTelehealth: Option<string>) {

    /** `default_path`, fixed by `__init__`: the telehealth path if set, else the in-person path. */
    function DefaultPath(): (r: Option<string>)
      ensures Truthy(pathTelehealth) ==> r == pathTelehealth
      ensures !Truthy(pathTelehealth) ==> r == pathInPerson
    {
      Or(pathTelehealth, pathInPerson)
    }

    /** `get_base_url(mode)`: always one of the two configured paths, and
        the default path when no mode is given. */
    function GetBaseUrl(mode: Option<string>): (r: Option<string>)
      ensures r == pathInPerson || r == pathTelehealth
      ensures !Truthy(mode) ==> r == DefaultPath()
    {
      if Truthy(mode) then
        if InPersonMode(mode.value) then Or(pathInPerson, DefaultPath())
        else if TelehealthMode(mode.value) then Or(pathTelehealth, DefaultPath())
        else DefaultPath()
      else DefaultPath()
    }

    /** `create_event_link(name, email, mode)`; `encode` stands for
        `urllib.parse.urlencode`, applied to the pairs in order. It picks its
        page exactly as `get_base_url` does, returns None exactly when that
        page is unusable, and otherwise appends the encoded name and email. */
    function CreateEventLink(name: string, email: string, mode: Option<string>, encode: seq<(string, string)> -> string): (r: Option<string>)
      ensures r.None? <==> !Truthy(GetBaseUrl(mode))
      ensures r.Some? ==> r.value == GetBaseUrl(mode).value + "?" + encode([("name", name), ("email", email)])
    {
      var baseUrl :=
        if Truthy(mode) then
          if InPersonMode(mode.value) then Or(pathInPerson, DefaultPath())
          else if TelehealthMode(mode.value) then Or(pathTelehealth, DefaultPath())
          else DefaultPath()
        else DefaultPath();
      if !Truthy(baseUrl) then None
      else Some(baseUrl.value + "?" + encode([("name", name), ("email", email)]))
    }
  }

  /** Whenever either path is configured, every mode gets a usable URL. */
  lemma BaseUrlPresentWhenConfigured(svc: CalendlyService, mode: Option<string>)
    requires Truthy(svc.pathInPerson) || Truthy(svc.pathTelehealth)
    ensures Truthy(svc.GetBaseUrl(mode))
  {
  }

  /** A configured path is chosen for a mode that asks for it; the in-person
      keywords win over the telehealth ones. */
  lemma BaseUrlHonoursMode(svc: CalendlyService, mode: string)
    requires mode != ""
    ensures InPersonMode(mode) && Truthy(svc.pathInPerson) ==> svc.GetBaseUrl(Some(mode)) == svc.pathInPerson
    ensures !InPersonMode(mode) && TelehealthMode(mode) && Truthy(svc.pathTelehealth) ==> svc.GetBaseUrl(Some(mode)) == svc.pathTelehealth
  {
  }

  /** No mode, an empty mode or a mode without a keyword gives the default
      path; a mode with a keyword whose path is unset falls back to it too. */
  lemma BaseUrlDefault(svc: CalendlyService, mode: Option<string>)
    ensures !Truthy(mode) ==> svc.GetBaseUrl(mode) == svc.DefaultPath()
    ensures Truthy(mode) && !InPersonMode(mode.value) && !TelehealthMode(mode.value) ==> svc.GetBaseUrl(mode) == svc.DefaultPath()
    ensures Truthy(mode) && InPersonMode(mode.value) && !Truthy(svc.pathInPerson) ==> svc.GetBaseUrl(mode) == svc.DefaultPath()
    ensures Truthy(mode) && !InPersonMode(mode.value) && TelehealthMode(mode.value) && !Truthy(svc.pathTelehealth) ==> svc.GetBaseUrl(mode) == svc.DefaultPath()
  {
  }

  /** Mode matching ignores case. */
  lemma {:induction false} BaseUrlIgnoresCase(svc: CalendlyService, mode: string)
    ensures svc.GetBaseUrl(Some(mode)) == svc.GetBaseUrl(Some(Lower(mode)))
  {
    LowerIdempotent(mode);
    assert |Lower(mode)| == |mode|;
  }
}
