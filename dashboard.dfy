/** frontend/src/components/Dashboard.jsx: the sorted view over a copy of the
    fetched list, the selection state with its auto-select effect, the row
    summary label and the urgency badge. */
module Dashboard {
  import opened Wrappers
  import opened Records
  import opened Sorting
  import opened Text

  /** The Dashboard's query polls at a fixed rate, whatever the data holds. */
  function DashboardRefetchInterval(data: Option<seq<Voicemail>>): (ms: nat)
    ensures ms == 5000
  {
    5000
  }

  /** `urgencyOrder[urgency] ?? 4`. */
  function PriorityRank(urgency: Option<string>): (r: nat)
    ensures urgency == Some("RED") ==> r == 0
    ensures urgency == Some("NEED_VALIDATION") ==> r == 1
    ensures urgency == Some("YELLOW") ==> r == 2
    ensures urgency == Some("GREEN") ==> r == 3
    ensures urgency !in {Some("RED"), Some("NEED_VALIDATION"), Some("YELLOW"), Some("GREEN")} ==> r == 4
  {
    match urgency
    case Some("RED") => 0
    case Some("NEED_VALIDATION") => 1
    case Some("YELLOW") => 2
    case Some("GREEN") => 3
    case _ => 4
  }

  /** The comparator `(a, b) => SortKey(a) - SortKey(b)` for each `sortBy`;
      an unrecognised key compares everything equal. */
  function SortKey(sortBy: string, vm: Voicemail): int {
    if sortBy == "time_desc" then -vm.createdAt
    else if sortBy == "time_asc" then vm.createdAt
    else if StartsWith(sortBy, "priority") then
      if sortBy == "priority_desc" then PriorityRank(vm.urgency) else -(PriorityRank(vm.urgency) as int)
    else 0
  }

  /** The comparator as the source writes it, on two records. */
  function Comparator(sortBy: string, a: Voicemail, b: Voicemail): int {
    if sortBy == "time_desc" then b.createdAt - a.createdAt
    else if sortBy == "time_asc" then a.createdAt - b.createdAt
    else if StartsWith(sortBy, "priority") then
      var uA := PriorityRank(a.urgency);
      var uB := PriorityRank(b.urgency);
      if sortBy == "priority_desc" then uA - uB else uB - uA
    else 0
  }

  /** The comparator is the difference of the keys, so sorting by the key is
      sorting with the comparator. */
  lemma SortKeyMatchesComparator(sortBy: string, a: Voicemail, b: Voicemail)
    ensures Comparator(sortBy, a, b) == SortKey(sortBy, a) - SortKey(sortBy, b)
    ensures Comparator(sortBy, a, b) < 0 <==> SortKey(sortBy, a) < SortKey(sortBy, b)
  {
  }

  function KeyFor(sortBy: string): Voicemail -> int {
    vm => SortKey(sortBy, vm)
  }

  /** `[...(voicemails || [])].sort(comparator)`. */
  function SortedView(voicemails: Option<seq<Voicemail>>, sortBy: string): (view: seq<Voicemail>)
    ensures voicemails.None? ==> view == []
    ensures voicemails.Some? ==> multiset(view) == multiset(voicemails.value)
    ensures voicemails.Some? ==> SortedBy(view, KeyFor(sortBy))
    ensures voicemails.Some? ==> forall k :: WithKey(view, KeyFor(sortBy), k) == WithKey(voicemails.value, KeyFor(sortBy), k)
  {
    var list := if voicemails.Some? then voicemails.value else [];
    SortByCorrect(list, KeyFor(sortBy));
    SortBy(list, KeyFor(sortBy))
  }

  /** Each sort order as the select box names it: newest first, oldest first,
      most urgent first, least urgent first; any other key keeps the fetched order. */
  lemma SortedViewOrders(voicemails: seq<Voicemail>, sortBy: string)
    ensures var v := SortedView(Some(voicemails), sortBy);
      && (sortBy == "time_desc" ==> forall i, j :: 0 <= i < j < |v| ==> v[i].createdAt >= v[j].createdAt)
      && (sortBy == "time_asc" ==> forall i, j :: 0 <= i < j < |v| ==> v[i].createdAt <= v[j].createdAt)
      && (sortBy == "priority_desc" ==> forall i, j :: 0 <= i < j < |v| ==> PriorityRank(v[i].urgency) <= PriorityRank(v[j].urgency))
      && (sortBy == "priority_asc" ==> forall i, j :: 0 <= i < j < |v| ==> PriorityRank(v[i].urgency) >= PriorityRank(v[j].urgency))
      && (sortBy == "priority_desc" ==> forall i, j :: 0 <= i < j < |v| && v[j].urgency == Some("RED") ==> v[i].urgency == Some("RED"))
      && (sortBy == "priority_asc" ==> forall i, j :: 0 <= i < j < |v| && v[i].urgency == Some("RED") ==> v[j].urgency == Some("RED"))
      && (sortBy != "time_desc" && sortBy != "time_asc" && !StartsWith(sortBy, "priority") ==> v == voicemails)
  {
    var key := KeyFor(sortBy);
    var v := SortedView(Some(voicemails), sortBy);
    if sortBy == "time_desc" || sortBy == "time_asc" {
      assert forall i, j :: 0 <= i < j < |v| ==> key(v[i]) <= key(v[j]);
    } else if sortBy == "priority_desc" {
      assert forall i, j :: 0 <= i < j < |v| ==> key(v[i]) <= key(v[j]);
      RedFirst(v);
    } else if sortBy == "priority_asc" {
      assert forall i, j :: 0 <= i < j < |v| ==> key(v[i]) <= key(v[j]);
      RedLast(v);
    } else if !StartsWith(sortBy, "priority") {
      SortByConstantKey(voicemails, key, 0);
    }
  }

  lemma RedFirst(v: seq<Voicemail>)
    requires forall i, j :: 0 <= i < j < |v| ==> PriorityRank(v[i].urgency) <= PriorityRank(v[j].urgency)
    ensures forall i, j :: 0 <= i < j < |v| && v[j].urgency == Some("RED") ==> v[i].urgency == Some("RED")
  {
  }

  lemma RedLast(v: seq<Voicemail>)
    requires forall i, j :: 0 <= i < j < |v| ==> PriorityRank(v[i].urgency) >= PriorityRank(v[j].urgency)
    ensures forall i, j :: 0 <= i < j < |v| && v[i].urgency == Some("RED") ==> v[j].urgency == Some("RED")
  {
  }

  /** Records of equal rank (or equal time) keep the order they were fetched in. */
  lemma SortedViewStable(voicemails: seq<Voicemail>, sortBy: string, i: nat, j: nat)
    requires i < j < |voicemails|
    requires SortKey(sortBy, voicemails[i]) == SortKey(sortBy, voicemails[j])
    requires forall a, b :: 0 <= a < b < |voicemails| ==> voicemails[a] != voicemails[b]
    ensures var v := SortedView(Some(voicemails), sortBy);
      exists p, q :: 0 <= p < q < |v| && v[p] == voicemails[i] && v[q] == voicemails[j]
  {
    var key := KeyFor(sortBy);
    var k := key(voicemails[i]);
    var v := SortedView(Some(voicemails), sortBy);
    assert WithKey(v, key, k) == WithKey(voicemails, key, k);
    WithKeyPositions(voicemails, key, k, i, j);
    var a, b :| 0 <= a < b < |WithKey(voicemails, key, k)| && WithKey(voicemails, key, k)[a] == voicemails[i] && WithKey(voicemails, key, k)[b] == voicemails[j];
    WithKeyElements(v, key, k, a, b);
  }

  lemma {:induction false} WithKeyPositions<T>(s: seq<T>, key: T -> int, k: int, i: nat, j: nat)
    requires i < j < |s| && key(s[i]) == k && key(s[j]) == k
    ensures exists a, b :: 0 <= a < b < |WithKey(s, key, k)| && WithKey(s, key, k)[a] == s[i] && WithKey(s, key, k)[b] == s[j]
  {
    if i == 0 {
      WithKeyMember(s[1..], key, k, j - 1);
      var b :| 0 <= b < |WithKey(s[1..], key, k)| && WithKey(s[1..], key, k)[b] == s[j];
      assert WithKey(s, key, k)[0] == s[0] && WithKey(s, key, k)[b + 1] == s[j];
    } else {
      WithKeyPositions(s[1..], key, k, i - 1, j - 1);
      var a, b :| 0 <= a < b < |WithKey(s[1..], key, k)| && WithKey(s[1..], key, k)[a] == s[i] && WithKey(s[1..], key, k)[b] == s[j];
      var off := if key(s[0]) == k then 1 else 0;
      assert WithKey(s, key, k)[a + off] == s[i] && WithKey(s, key, k)[b + off] == s[j];
    }
  }

  lemma {:induction false} WithKeyMember<T>(s: seq<T>, key: T -> int, k: int, j: nat)
    requires j < |s| && key(s[j]) == k
    ensures exists b :: 0 <= b < |WithKey(s, key, k)| && WithKey(s, key, k)[b] == s[j]
  {
    if j == 0 {
      assert WithKey(s, key, k)[0] == s[0];
    } else {
      WithKeyMember(s[1..], key, k, j - 1);
      var b :| 0 <= b < |WithKey(s[1..], key, k)| && WithKey(s[1..], key, k)[b] == s[j];
      var off := if key(s[0]) == k then 1 else 0;
      assert WithKey(s, key, k)[b + off] == s[j];
    }
  }

  lemma {:induction false} WithKeyElements<T>(s: seq<T>, key: T -> int, k: int, a: nat, b: nat)
    requires a < b < |WithKey(s, key, k)|
    ensures exists p, q :: 0 <= p < q < |s| && s[p] == WithKey(s, key, k)[a] && s[q] == WithKey(s, key, k)[b]
  {
    var w := WithKey(s, key, k);
    if key(s[0]) == k && a == 0 {
      WithKeyElement(s[1..], key, k, b - 1);
      var q :| 0 <= q < |s[1..]| && s[1..][q] == WithKey(s[1..], key, k)[b - 1];
      assert s[q + 1] == w[b];
    } else {
      var off := if key(s[0]) == k then 1 else 0;
      WithKeyElements(s[1..], key, k, a - off, b - off);
      var p, q :| 0 <= p < q < |s[1..]| && s[1..][p] == WithKey(s[1..], key, k)[a - off] && s[1..][q] == WithKey(s[1..], key, k)[b - off];
      assert s[p + 1] == w[a] && s[q + 1] == w[b];
    }
  }

  lemma {:induction false} WithKeyElement<T>(s: seq<T>, key: T -> int, k: int, b: nat)
    requires b < |WithKey(s, key, k)|
    ensures exists q :: 0 <= q < |s| && s[q] == WithKey(s, key, k)[b]
  {
    var off := if key(s[0]) == k then 1 else 0;
    if off == 1 && b == 0 {
      assert s[0] == WithKey(s, key, k)[0];
    } else {
      WithKeyElement(s[1..], key, k, b - off);
      var q :| 0 <= q < |s[1..]| && s[1..][q] == WithKey(s[1..], key, k)[b - off];
      assert s[q + 1] == WithKey(s, key, k)[b];
    }
  }

  /** The text shown in a row's summary cell. */
  datatype SummaryLabel = ExtractionFailed | Summary(summary: Value) | ProcessingLabel

  /** `vm.analysis?.summary`, as a JavaScript value (None for undefined). */
  function SummaryField(vm: Voicemail): Option<Value> {
    match vm.analysis
    case None => None
    case Some(a) => Field(a, "summary")
  }

  function SummaryLabelOf(vm: Voicemail): (shown: SummaryLabel)
    ensures shown == ExtractionFailed <==> vm.status == FAILED || (vm.status == COMPLETED && (vm.transcript == None || vm.transcript == Some("")))
    ensures shown.Summary? ==> SummaryField(vm).Some? && JsTruthy(SummaryField(vm).value) && shown.summary == SummaryField(vm).value
    ensures shown == ProcessingLabel <==> shown != ExtractionFailed && !(SummaryField(vm).Some? && JsTruthy(SummaryField(vm).value))
  {
    if vm.status == FAILED || (vm.status == COMPLETED && (vm.transcript == None || vm.transcript == Some(""))) then ExtractionFailed
    else match SummaryField(vm)
      case Some(v) => if JsTruthy(v) then Summary(v) else ProcessingLabel
      case None => ProcessingLabel
  }

  datatype BadgeStyle = RedBadge | YellowBadge | GreenBadge | OrangeBadge | GreyBadge

  datatype Badge = Badge(style: BadgeStyle, text: string)

  /** `urgencyBadge(urgency)`. */
  function UrgencyBadge(urgency: Option<string>): (b: Badge)
    ensures urgency == Some("RED") ==> b.style == RedBadge
    ensures urgency == Some("YELLOW") ==> b.style == YellowBadge
    ensures urgency == Some("GREEN") ==> b.style == GreenBadge
    ensures urgency == Some("NEED_VALIDATION") ==> b.style == OrangeBadge
    ensures b.style == GreyBadge <==> urgency !in {Some("RED"), Some("YELLOW"), Some("GREEN"), Some("NEED_VALIDATION")}
    ensures urgency.Some? && urgency.value != "" ==> b.text == urgency.value
    ensures urgency.None? || urgency == Some("") ==> b.text == "UNKNOWN"
  {
    var style := match urgency
      case Some("RED") => RedBadge
      case Some("YELLOW") => YellowBadge
      case Some("GREEN") => GreenBadge
      case Some("NEED_VALIDATION") => OrangeBadge
      case _ => GreyBadge;
    Badge(style, if urgency.Some? && urgency.value != "" then urgency.value else "UNKNOWN")
  }

  /** A row shows a badge only for a truthy urgency, so its label is that urgency. */
  function RowBadge(vm: Voicemail): (b: Option<Badge>)
    ensures b.Some? <==> vm.urgency.Some? && vm.urgency.value != ""
    ensures b.Some? ==> b.value.text == vm.urgency.value
    ensures b.Some? ==> b.value == UrgencyBadge(vm.urgency)
  {
    if vm.urgency.Some? && vm.urgency.value != "" then Some(UrgencyBadge(vm.urgency)) else None
  }

  /** The Dashboard's `selectedVoicemail` and `sortBy` state. */
  class DashboardState {
    var selected: Option<Voicemail>
    var sortBy: string

    constructor ()
      ensures selected == None && sortBy == "time_desc"
    {
      selected := None;
      sortBy := "time_desc";
    }

    /** The auto-select effect, run when the fetched list changes: with
        nothing selected it selects the first record of the fetched (not the
        sorted) order; an existing selection is kept as it was. */
    method OnVoicemailsChanged(voicemails: Option<seq<Voicemail>>)
      modifies this
      ensures sortBy == old(sortBy)
      ensures old(selected).Some? ==> selected == old(selected)
      ensures old(selected).None? && voicemails.Some? && |voicemails.value| > 0 ==> selected == Some(voicemails.value[0])
      ensures old(selected).None? && !(voicemails.Some? && |voicemails.value| > 0) ==> selected == None
    {
      if selected.None? && voicemails.Some? && |voicemails.value| > 0 {
        selected := Some(voicemails.value[0]);
      }
    }

    /** Clicking a row. */
    method SelectRow(vm: Voicemail)
      modifies this
      ensures selected == Some(vm) && sortBy == old(sortBy)
    {
      selected := Some(vm);
    }

    /** `onClose`. */
    method Close()
      modifies this
      ensures selected == None && sortBy == old(sortBy)
    {
      selected := None;
    }

    /** The select box's `onChange`. */
    method SetSortBy(key: string)
      modifies this
      ensures sortBy == key && selected == old(selected)
    {
      sortBy := key;
    }

    /** The highlighted row: the one whose id is the selection's id. */
    function IsHighlighted(vm: Voicemail): (b: bool)
      reads this
      ensures b <==> selected.Some? && selected.value.id == vm.id
    {
      selected.Some? && selected.value.id == vm.id
    }
  }
}
