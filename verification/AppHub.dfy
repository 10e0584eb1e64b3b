/** The hub's app records and everything that writes them
    (hub/internal/agenthub/{apps,hub}.go, hub/internal/appsapi/appsapi.go,
    hub/internal/commands/commands.go), for the records of one system. */
module AppHub {

  import opened Wrappers
  import opened Agent

  datatype Record = Record(def: Definition, hash: Hash, approval: Approval, desired: Desired, tracking: string, created: nat)

  type Table = map<Id, Record>

  predicate HasHash(t: Table, hash: Hash)
  {
    exists id :: id in t && t[id].hash == hash
  }

  /** app_register: a definition imported on the host. `newId` is the id the store assigns. */
  function Register(t: Table, h: Definition -> Hash, valid: Definition -> bool, def: Definition, newId: Id, now: nat): Table
  {
    if !valid(def) || HasHash(t, h(def)) || newId in t then t
    else t[newId := Record(def, h(def), Approved, Stopped, "", now)]
  }

  /** approval_event: the host decided about a definition. */
  function Decision(t: Table, id: Id, approval: Approval, hash: Hash): Table
  {
    if id !in t || t[id].hash != hash then t else t[id := t[id].(approval := approval)]
  }

  const SCHEMA := 1

  function Normal(def: Definition): Definition
  {
    def.(schema := if def.schema == 0 then SCHEMA else def.schema, kind := if def.kind == Unset then Process else def.kind)
  }

  /** The create/update endpoint; without an id it creates a record under `newId`. */
  function Submit(t: Table, h: Definition -> Hash, valid: Definition -> bool, known: bool, id: Option<Id>, def: Definition, newId: Id, now: nat): Table
  {
    var d := Normal(def);
    if !valid(d) || !known then t
    else
      match id
      case Some(i) =>
        if i !in t then t
        else t[i := t[i].(def := d, hash := h(d), approval := if t[i].hash != h(d) then Pending else t[i].approval)]
      case None =>
        if newId in t then t else t[newId := Record(d, h(d), Pending, Stopped, "", now)]
  }

  /** A user may ask for it: a known verb, for an approved record. */
  predicate Commandable(t: Table, id: Id, verb: Verb)
  {
    verb != Other && id in t && t[id].approval == Approved
  }

  /** What a command asked for by a user does to the record: the intent rides along, unless the
      record cannot be stored, which nobody notices. */
  function Intend(t: Table, id: Id, verb: Verb, stored: bool): Table
  {
    if !Commandable(t, id, verb) || !stored then t
    else
      match verb
      case Start => t[id := t[id].(desired := Running)]
      case Stop => t[id := t[id].(desired := Stopped)]
      case _ => t
  }

  function StampOf(t: Table, id: Id): Hash
  {
    if id in t then t[id].hash else ""
  }

  const SYNC_LIMIT := 500

  /** `ids` is what the newest-first query returns. */
  predicate Listing(t: Table, ids: seq<Id>)
  {
    && (forall i :: 0 <= i < |ids| ==> ids[i] in t)
    && (forall i, j :: 0 <= i < j < |ids| ==> ids[i] != ids[j] && t[ids[i]].created >= t[ids[j]].created)
    && |ids| <= SYNC_LIMIT
    && (forall id, i :: id in t && id !in ids && 0 <= i < |ids| ==> t[ids[i]].created >= t[id].created)
    && (|ids| < SYNC_LIMIT ==> forall id :: id in t ==> id in ids)
  }

  function SpecOf(id: Id, r: Record): AppSpec
  {
    AppSpec(id, r.def, r.hash, r.desired, r.tracking)
  }

  /** The app_sync payload for the records listed: those whose stored definition decodes. */
  function Specs(t: Table, decodes: Record -> bool, ids: seq<Id>): seq<AppSpec>
    requires forall i :: 0 <= i < |ids| ==> ids[i] in t
  {
    if ids == [] then []
    else
      var n := |ids| - 1;
      Specs(t, decodes, ids[..n]) + if decodes(t[ids[n]]) then [SpecOf(ids[n], t[ids[n]])] else []
  }

  /** It lists exactly those records, each as it is. */
  lemma {:induction false} SpecsListed(t: Table, decodes: Record -> bool, ids: seq<Id>)
    requires forall i :: 0 <= i < |ids| ==> ids[i] in t
    ensures forall sp :: sp in Specs(t, decodes, ids) ==> sp.id in ids && sp.id in t && decodes(t[sp.id]) && sp == SpecOf(sp.id, t[sp.id])
    ensures forall id :: id in ids && decodes(t[id]) ==> SpecOf(id, t[id]) in Specs(t, decodes, ids)
  {
    if ids != [] {
      var n := |ids| - 1;
      SpecsListed(t, decodes, ids[..n]);
      assert ids == ids[..n] + [ids[n]];
    }
  }

  class Hub {

    var records: Table

    constructor ()
      ensures records == map[]
    {
      records := map[];
    }

    method FindByHash(hash: Hash) returns (found: bool)
      ensures found <==> HasHash(records, hash)
    {
      found := false;
      var rest := records.Keys;
      while rest != {}
        invariant rest <= records.Keys
        invariant found ==> HasHash(records, hash)
        invariant !found ==> forall id :: id in records && id !in rest ==> records[id].hash != hash
        decreases rest
      {
        var id :| id in rest;
        rest := rest - {id};
        if records[id].hash == hash {
          found := true;
        }
      }
    }

    method OnAppRegister(h: Definition -> Hash, valid: Definition -> bool, def: Definition, newId: Id, now: nat)
        returns (ok: bool)
      requires newId !in records
      modifies this
      ensures ok == valid(def)
      ensures records == Register(old(records), h, valid, def, newId, now)
    {
      if !valid(def) {
        return false;
      }
      var hash := h(def);
      var existing := FindByHash(hash);
      if !existing {
        records := records[newId := Record(def, hash, Approved, Stopped, "", now)];
      }
      ok := true;
    }

    method OnApprovalEvent(id: Id, approval: Approval, hash: Hash) returns (ok: bool)
      modifies this
      ensures ok == (id in old(records))
      ensures records == Decision(old(records), id, approval, hash)
    {
      if id !in records {
        return false;
      }
      if records[id].hash != hash {
        return true;
      }
      records := records[id := records[id].(approval := approval)];
      ok := true;
    }

    /** A message of the agent. */
    method Receive(h: Definition -> Hash, valid: Definition -> bool, m: Message, newId: Id, now: nat) returns (ok: bool)
      requires newId !in records
      modifies this
      ensures records == match m
              case AppRegister(def) => Register(old(records), h, valid, def, newId, now)
              case ApprovalEvent(id, approval, hash) => Decision(old(records), id, approval, hash)
    {
      match m {
        case AppRegister(def) =>
          ok := OnAppRegister(h, valid, def, newId, now);
        case ApprovalEvent(id, approval, hash) =>
          ok := OnApprovalEvent(id, approval, hash);
      }
    }

    /** `known` says whether the system named in the request exists. */
    method Save(h: Definition -> Hash, valid: Definition -> bool, known: bool, id: Option<Id>, def: Definition, newId: Id, now: nat)
        returns (ok: bool)
      requires newId !in records
      modifies this
      ensures ok == (valid(Normal(def)) && known && (id.Some? ==> id.value in old(records)))
      ensures records == Submit(old(records), h, valid, known, id, def, newId, now)
    {
      var d := def;
      if d.schema == 0 {
        d := d.(schema := SCHEMA);
      }
      if d.kind == Unset {
        d := d.(kind := Process);
      }
      if !valid(d) {
        return false;
      }
      if !known {
        return false;
      }
      var hash := h(d);
      var rec: Record;
      var target := newId;
      match id {
        case Some(i) =>
          if i !in records {
            return false;
          }
          rec, target := records[i], i;
          if rec.hash != hash {
            rec := rec.(approval := Pending);
          }
        case None =>
          rec := Record(d, hash, Pending, Stopped, "", now);
      }
      rec := rec.(def := d, hash := hash);
      records := records[target := rec];
      ok := true;
    }

    /** The create hook of the commands collection. */
    method OnCommand(id: Id, verb: Verb, stored: bool) returns (ok: bool)
      modifies this
      ensures ok == Commandable(old(records), id, verb)
      ensures records == Intend(old(records), id, verb, stored)
    {
      if verb == Other || id !in records || records[id].approval != Approved {
        return false;
      }
      var rec := records[id];
      match verb {
        case Start => rec := rec.(desired := Running);
        case Stop => rec := rec.(desired := Stopped);
        case _ =>
      }
      if stored {
        records := records[id := rec];
      }
      ok := true;
    }

    /** The dispatch hook, later: the hash the record has by then, none if it is gone. */
    method Stamp(id: Id) returns (hash: Hash)
      ensures hash == StampOf(records, id)
    {
      hash := "";
      if id in records {
        hash := records[id].hash;
      }
    }

    /** Builds the full-state sync from the query's result. */
    method SendAppSync(decodes: Record -> bool, ids: seq<Id>) returns (specs: seq<AppSpec>)
      requires Listing(records, ids)
      ensures specs == Specs(records, decodes, ids)
    {
      specs := [];
      for i := 0 to |ids|
        invariant specs == Specs(records, decodes, ids[..i])
      {
        assert ids[..i + 1][..i] == ids[..i];
        if !decodes(records[ids[i]]) {
          continue;
        }
        specs := specs + [SpecOf(ids[i], records[ids[i]])];
      }
      assert ids[..|ids|] == ids;
    }
  }
}
