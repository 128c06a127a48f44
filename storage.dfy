/** `Database` from backend/app/db/storage.py: the voicemail table, kept as
    a map from id to record plus the order in which ids were inserted. The
    unordered `query(Voicemail).all()` is taken to return the rows in that
    order. The `id` column is the
    primary key, so saving a second record with a stored id fails. */
module Storage {
  import opened Wrappers
  import opened Records

  datatype DbError = IntegrityError

  /** The rows of a table in insertion order. */
  function RowsOf(ids: seq<string>, table: map<string, Voicemail>): (rows: seq<Voicemail>)
    requires forall i :: 0 <= i < |ids| ==> ids[i] in table
  {
    seq(|ids|, i requires 0 <= i < |ids| => table[ids[i]])
  }

  class Database {
    var ids: seq<string>
    var table: map<string, Voicemail>

    ghost predicate Valid()
      reads this
    {
      && (forall i, j :: 0 <= i < j < |ids| ==> ids[i] != ids[j])
      && (forall id :: id in table <==> id in ids)
      && (forall id :: id in table ==> table[id].id == id)
    }

    /** Every stored record, in insertion order. */
    function Rows(): (rows: seq<Voicemail>)
      reads this
      requires Valid()
      ensures |rows| == |ids|
      ensures forall i :: 0 <= i < |ids| ==> rows[i] == table[ids[i]] && rows[i].id == ids[i]
    {
      RowsOf(ids, table)
    }

    /** The stored record with this id, if any. */
    function Find(id: string): (r: Option<Voicemail>)
      reads this
      requires Valid()
      ensures r.Some? <==> id in ids
      ensures r.Some? ==> r.value.id == id && r.value == table[id]
    {
      if id in table then Some(table[id]) else None
    }

    constructor ()
      ensures Valid() && ids == [] && table == map[]
    {
      ids := [];
      table := map[];
    }

    /** `save_voicemail`: adds a new row; a duplicate primary key raises. */
    method SaveVoicemail(vm: Voicemail) returns (r: Result<Voicemail, DbError>)
      requires Valid()
      modifies this
      ensures Valid()
      ensures r.Ok? <==> vm.id !in old(table)
      ensures r.Ok? ==> r.value == vm && table == old(table)[vm.id := vm] && ids == old(ids) + [vm.id]
      ensures r.Ok? ==> Find(vm.id) == Some(vm)
      ensures r.Err? ==> table == old(table) && ids == old(ids)
    {
      if vm.id in table {
        return Err(IntegrityError);
      }
      ids := ids + [vm.id];
      table := table[vm.id := vm];
      r := Ok(vm);
    }

    /** `get_voicemail`: the row whose id matches, or None. */
    method GetVoicemail(id: string) returns (r: Option<Voicemail>)
      requires Valid()
      ensures r.Some? <==> exists i :: 0 <= i < |Rows()| && Rows()[i].id == id
      ensures r.Some? ==> r.value.id == id && r.value in Rows()
    {
      r := Find(id);
      if r.Some? {
        var i :| 0 <= i < |ids| && ids[i] == id;
        assert Rows()[i] == r.value;
      }
    }

    /** `update_voicemail`: assigns each entry of `updates` to the matching
        row in turn; an unknown id changes nothing and returns None. */
    method UpdateVoicemail(id: string, updates: seq<FieldUpdate>) returns (r: Option<Voicemail>)
      requires Valid()
      modifies this
      ensures Valid()
      ensures ids == old(ids)
      ensures id !in old(table) ==> r == None && table == old(table)
      ensures id in old(table) ==> r == Some(ApplyAll(old(table)[id], updates)) && table == old(table)[id := r.value]
      ensures id in old(table) ==> r.Some? && forall c :: Get(r.value, c) == LastWrite(updates, |updates|, c, Get(old(table)[id], c))
    {
      if id !in table {
        return None;
      }
      var vm := table[id];
      var i := 0;
      while i < |updates|
        invariant 0 <= i <= |updates|
        invariant vm == ApplyFirst(table[id], updates, i)
        invariant vm.id == id
      {
        vm := Set(vm, updates[i]);
        i := i + 1;
      }
      forall c ensures Get(vm, c) == LastWrite(updates, |updates|, c, Get(table[id], c)) {
        ApplyAllKeyByKey(table[id], updates, c);
      }
      table := table[id := vm];
      r := Some(vm);
    }

    /** `list_voicemails`: every stored row. */
    method ListVoicemails() returns (r: seq<Voicemail>)
      requires Valid()
      ensures forall id :: id in table <==> exists i :: 0 <= i < |r| && r[i].id == id
      ensures forall i :: 0 <= i < |r| ==> r[i] == table[r[i].id]
      ensures forall i, j :: 0 <= i < j < |r| ==> r[i].id != r[j].id
    {
      r := Rows();
      forall id | id in table ensures exists i :: 0 <= i < |r| && r[i].id == id {
        var i :| 0 <= i < |ids| && ids[i] == id;
        assert r[i].id == id;
      }
    }
  }
}
