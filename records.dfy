/** The voicemail record shared by the backend table and the client, the
    loosely-typed analysis dictionary, and the key-by-key update that
    `Database.update_voicemail` applies with `setattr`. */
module Records {
  import opened Wrappers

  const PROCESSING := "PROCESSING"
  const COMPLETED := "COMPLETED"
  const FAILED := "FAILED"

  /** A JSON value as it appears in the analysis dictionary. */
  datatype Value = Null | Bool(b: bool) | Num(n: int) | Str(s: string) | List(items: seq<string>)

  /** The analysis dictionary produced by the language model (opaque here). */
  type Analysis = map<string, Value>

  /** JavaScript truthiness: arrays are truthy even when empty. */
  predicate JsTruthy(v: Value) {
    match v
    case Null => false
    case Bool(b) => b
    case Num(n) => n != 0
    case Str(s) => s != ""
    case List(_) => true
  }

  /** Python truthiness: empty lists are falsy. */
  predicate PyTruthy(v: Value) {
    match v
    case Null => false
    case Bool(b) => b
    case Num(n) => n != 0
    case Str(s) => s != ""
    case List(items) => items != []
  }

  /** JavaScript's `obj.key`: `None` stands for `undefined`. */
  function Field(a: Analysis, key: string): Option<Value> {
    if key in a then Some(a[key]) else None
  }

  predicate JsTruthyField(a: Analysis, key: string) {
    key in a && JsTruthy(a[key])
  }

  /** One row of the voicemail table; `created_at` is an integer timestamp. */
  datatype Voicemail = Voicemail(
    id: string,
    status: string,
    filePath: string,
    createdAt: int,
    transcript: Option<string>,
    urgency: Option<string>,
    category: Option<string>,
    analysis: Option<Analysis>)

  /** The columns an update may name (the primary key `id` is never updated). */
  datatype Column = StatusCol | FilePathCol | CreatedAtCol | TranscriptCol | UrgencyCol | CategoryCol | AnalysisCol

  /** The content of one column. */
  datatype Cell = TextCell(text: string) | StampCell(stamp: int) | MaybeTextCell(maybe: Option<string>) | AnalysisCell(analysis: Option<Analysis>)

  /** One `key: value` entry of the `updates` dictionary. */
  datatype FieldUpdate =
    | SetStatus(newStatus: string)
    | SetFilePath(newFilePath: string)
    | SetCreatedAt(newCreatedAt: int)
    | SetTranscript(newTranscript: Option<string>)
    | SetUrgency(newUrgency: Option<string>)
    | SetCategory(newCategory: Option<string>)
    | SetAnalysis(newAnalysis: Option<Analysis>)
  {
    function ColumnOf(): Column {
      match this
      case SetStatus(_) => StatusCol
      case SetFilePath(_) => FilePathCol
      case SetCreatedAt(_) => CreatedAtCol
      case SetTranscript(_) => TranscriptCol
      case SetUrgency(_) => UrgencyCol
      case SetCategory(_) => CategoryCol
      case SetAnalysis(_) => AnalysisCol
    }

    function CellOf(): Cell {
      match this
      case SetStatus(s) => TextCell(s)
      case SetFilePath(p) => TextCell(p)
      case SetCreatedAt(t) => StampCell(t)
      case SetTranscript(t) => MaybeTextCell(t)
      case SetUrgency(u) => MaybeTextCell(u)
      case SetCategory(c) => MaybeTextCell(c)
      case SetAnalysis(a) => AnalysisCell(a)
    }
  }

  /** `getattr(vm, column)`. */
  function Get(vm: Voicemail, c: Column): Cell {
    match c
    case StatusCol => TextCell(vm.status)
    case FilePathCol => TextCell(vm.filePath)
    case CreatedAtCol => StampCell(vm.createdAt)
    case TranscriptCol => MaybeTextCell(vm.transcript)
    case UrgencyCol => MaybeTextCell(vm.urgency)
    case CategoryCol => MaybeTextCell(vm.category)
    case AnalysisCol => AnalysisCell(vm.analysis)
  }

  /** `setattr(vm, key, value)` for one entry of the updates. */
  function Set(vm: Voicemail, u: FieldUpdate): (r: Voicemail)
    ensures r.id == vm.id
    ensures Get(r, u.ColumnOf()) == u.CellOf()
  {
    match u
    case SetStatus(s) => vm.(status := s)
    case SetFilePath(p) => vm.(filePath := p)
    case SetCreatedAt(t) => vm.(createdAt := t)
    case SetTranscript(t) => vm.(transcript := t)
    case SetUrgency(x) => vm.(urgency := x)
    case SetCategory(x) => vm.(category := x)
    case SetAnalysis(a) => vm.(analysis := a)
  }

  /** `setattr` leaves every other column as it was. */
  lemma SetKeepsOtherColumns(vm: Voicemail, u: FieldUpdate, c: Column)
    requires c != u.ColumnOf()
    ensures Get(Set(vm, u), c) == Get(vm, c)
  {
  }

  /** The first `n` entries of `updates` applied in dictionary order. */
  function ApplyFirst(vm: Voicemail, updates: seq<FieldUpdate>, n: nat): Voicemail
    requires n <= |updates|
  {
    if n == 0 then vm else Set(ApplyFirst(vm, updates, n - 1), updates[n - 1])
  }

  /** Every entry of `updates` applied in dictionary order. */
  function ApplyAll(vm: Voicemail, updates: seq<FieldUpdate>): Voicemail {
    ApplyFirst(vm, updates, |updates|)
  }

  /** The value the last of the first `n` entries naming column `c` writes,
      or `current` when none does. */
  function LastWrite(updates: seq<FieldUpdate>, n: nat, c: Column, current: Cell): Cell
    requires n <= |updates|
  {
    if n == 0 then current
    else if updates[n - 1].ColumnOf() == c then updates[n - 1].CellOf()
    else LastWrite(updates, n - 1, c, current)
  }

  lemma {:induction false} ApplyFirstKeyByKey(vm: Voicemail, updates: seq<FieldUpdate>, n: nat, c: Column)
    requires n <= |updates|
    ensures ApplyFirst(vm, updates, n).id == vm.id
    ensures Get(ApplyFirst(vm, updates, n), c) == LastWrite(updates, n, c, Get(vm, c))
    ensures (forall k :: 0 <= k < n ==> updates[k].ColumnOf() != c) ==> Get(ApplyFirst(vm, updates, n), c) == Get(vm, c)
  {
    if n > 0 {
      ApplyFirstKeyByKey(vm, updates, n - 1, c);
      if updates[n - 1].ColumnOf() != c {
        SetKeepsOtherColumns(ApplyFirst(vm, updates, n - 1), updates[n - 1], c);
      }
    }
  }

  /** Key-by-key semantics: every column ends with the value of the last entry
      that names it and keeps its old value when no entry names it; the id
      never changes. */
  lemma ApplyAllKeyByKey(vm: Voicemail, updates: seq<FieldUpdate>, c: Column)
    ensures ApplyAll(vm, updates).id == vm.id
    ensures Get(ApplyAll(vm, updates), c) == LastWrite(updates, |updates|, c, Get(vm, c))
    ensures (forall k :: 0 <= k < |updates| ==> updates[k].ColumnOf() != c) ==> Get(ApplyAll(vm, updates), c) == Get(vm, c)
  {
    ApplyFirstKeyByKey(vm, updates, |updates|, c);
  }

  /** The only statuses any code path writes. */
  ghost predicate StatusesKnown(table: map<string, Voicemail>) {
    forall id :: id in table ==> table[id].status in {PROCESSING, COMPLETED}
  }

  /** One step of the record lifecycle: no record disappears, and a status
      either stays or moves from PROCESSING to COMPLETED. */
  ghost predicate Advances(before: map<string, Voicemail>, after: map<string, Voicemail>) {
    forall id :: id in before ==>
      && id in after
      && (after[id].status == before[id].status || (before[id].status == PROCESSING && after[id].status == COMPLETED))
  }
}
