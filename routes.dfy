/** The two routes of backend/app/api/routes.py that touch the table:
    `GET /voicemails` (listing sorted by urgency) and `POST /voicemails`
    (storing the audio, saving a PROCESSING row and emitting the event). */
module Routes {
  import opened Wrappers
  import opened Records
  import opened Sorting
  import Storage

  /** `urgency_map.get(x.urgency, 3)`: NEED_VALIDATION and anything unknown rank with None. */
  function Rank(urgency: Option<string>): (r: nat)
    ensures urgency == Some("RED") ==> r == 0
    ensures urgency == Some("YELLOW") ==> r == 1
    ensures urgency == Some("GREEN") ==> r == 2
    ensures urgency !in {Some("RED"), Some("YELLOW"), Some("GREEN")} ==> r == 3
  {
    if urgency == Some("RED") then 0
    else if urgency == Some("YELLOW") then 1
    else if urgency == Some("GREEN") then 2
    else 3
  }

  function RankKey(vm: Voicemail): int {
    Rank(vm.urgency)
  }

  /** The response of `list_voicemails`: the stored rows, most urgent first,
      rows of equal rank in storage order (Python's `sorted` is stable). */
  function ListResponse(rows: seq<Voicemail>): (r: seq<Voicemail>)
    ensures multiset(r) == multiset(rows)
    ensures forall i, j :: 0 <= i < j < |r| ==> Rank(r[i].urgency) <= Rank(r[j].urgency)
    ensures forall k :: WithKey(r, RankKey, k) == WithKey(rows, RankKey, k)
    ensures forall i, j :: 0 <= i < j < |r| && r[j].urgency == Some("RED") ==> r[i].urgency == Some("RED")
    ensures forall i, j :: 0 <= i < j < |r| && r[j].urgency == Some("YELLOW") ==> r[i].urgency in {Some("RED"), Some("YELLOW")}
    ensures forall i, j :: 0 <= i < j < |r| && r[j].urgency == Some("GREEN") ==> r[i].urgency in {Some("RED"), Some("YELLOW"), Some("GREEN")}
  {
    SortByCorrect(rows, RankKey);
    SortBy(rows, RankKey)
  }

  /** Red first: a YELLOW, a RED and a GREEN row come back RED, YELLOW, GREEN. */
  lemma ListResponseExample(y: Voicemail, red: Voicemail, g: Voicemail)
    requires y.urgency == Some("YELLOW") && red.urgency == Some("RED") && g.urgency == Some("GREEN")
    ensures ListResponse([y, red, g]) == [red, y, g]
  {
    var r := ListResponse([y, red, g]);
    assert multiset(r) == multiset{y, red, g};
    assert |r| == 3;
    assert r[0] in multiset(r) && r[1] in multiset(r) && r[2] in multiset(r);
    assert red in multiset(r) && y in multiset(r) && g in multiset(r);
  }

  /** The row saved before processing starts. */
  function InitialRecord(fileId: string, now: int): (r: Voicemail)
    ensures r.id == fileId && r.status == PROCESSING
    ensures r.filePath == fileId + ".wav" && r.createdAt == now
    ensures r.transcript == None && r.urgency == None && r.category == None && r.analysis == None
  {
    Voicemail(fileId, PROCESSING, fileId + ".wav", now, None, None, None, None)
  }

  datatype Response = Accepted(id: string, status: string) | ServerError(code: int)

  datatype Event = Event(name: string, fileId: string, filePath: string)

  /** `create_voicemail`. The uuid, the clock and the outcome of the object
      store upload are inputs. A failed upload answers 500 before anything is
      saved or sent; a save that raises (duplicate id) answers 500 too. */
  method CreateVoicemail(db: Storage.Database, fileId: string, now: int, uploadOk: bool)
      returns (resp: Response, sent: Option<Event>)
    requires db.Valid()
    modifies db
    ensures db.Valid()
    ensures Advances(old(db.table), db.table)
    ensures StatusesKnown(old(db.table)) ==> StatusesKnown(db.table)
    ensures !uploadOk ==> resp == ServerError(500) && sent == None && db.table == old(db.table) && db.ids == old(db.ids)
    ensures uploadOk && fileId in old(db.table) ==> resp == ServerError(500) && sent == None && db.table == old(db.table) && db.ids == old(db.ids)
    ensures uploadOk && fileId !in old(db.table) ==>
      && resp == Accepted(fileId, "queued")
      && sent == Some(Event("voicemail/received", fileId, fileId + ".wav"))
      && db.table == old(db.table)[fileId := InitialRecord(fileId, now)]
      && db.ids == old(db.ids) + [fileId]
  {
    if !uploadOk {
      return ServerError(500), None;
    }
    var filename := fileId + ".wav";
    var saved := db.SaveVoicemail(InitialRecord(fileId, now));
    if saved.Err? {
      return ServerError(500), None;
    }
    sent := Some(Event("voicemail/received", fileId, filename));
    resp := Accepted(fileId, "queued");
  }
}
