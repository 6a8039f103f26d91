/** Converging the remote knowledge store to a snapshot: import everything, then delete
    what is not in it, and never anything this job could not have written. */
module KnowledgeImport {
  import opened Options
  import opened Text

  type Id = string

  /** The structured part of a stored document, if it has one. */
  datatype Content = Unstructured | Struct(fields: map<string, string>)
  datatype Record = Record(id: Id, fields: map<string, string>)

  const INLINE_IMPORT_LIMIT := 100
  const KINDS: set<string> := {"PRODUCT", "POLICY"}

  function Field(fields: map<string, string>, name: string): string {
    if name in fields then fields[name] else ""
  }

  predicate StartsWith(text: string, prefix: string) {
    prefix <= text
  }

  /** A document this job could have written. */
  predicate IsCorpusRecord(c: Content) {
    && c.Struct?
    && !IsBlank(Field(c.fields, "snapshot_id"))
    && Field(c.fields, "kind") in KINDS
    && (StartsWith(Field(c.fields, "doc_id"), "CARD-") || StartsWith(Field(c.fields, "doc_id"), "POLICY-"))
  }

  function Ids(records: seq<Record>): set<Id> {
    set r | r in records :: r.id
  }

  lemma NoIdsNoRecords(records: seq<Record>)
    ensures Ids(records) == {} <==> records == []
  {
    if records != [] {
      assert records[0].id in Ids(records);
    }
  }

  /** The store after writing the records, one after the other. */
  function Upserted(store: map<Id, Content>, records: seq<Record>): (r: map<Id, Content>)
    ensures r.Keys == store.Keys + Ids(records)
  {
    if records == [] then store
    else
      var n := |records| - 1;
      assert records == records[..n] + [records[n]];
      Upserted(store, records[..n])[records[n].id := Struct(records[n].fields)]
  }

  /** The records at the places in `landed`, in order. */
  function Chosen(records: seq<Record>, landed: set<nat>): (r: seq<Record>)
    ensures forall x <- r :: x in records
    ensures (forall i: nat :: i < |records| ==> i in landed) ==> r == records
  {
    if records == [] then []
    else
      var n := |records| - 1;
      assert records == records[..n] + [records[n]];
      Chosen(records[..n], landed) + (if n in landed then [records[n]] else [])
  }

  /** The store that holds the snapshot and nothing else. */
  function SnapshotStore(records: seq<Record>): map<Id, Content> {
    Upserted(map[], records)
  }

  function Restricted(store: map<Id, Content>, ids: set<Id>): map<Id, Content> {
    map id | id in store && id in ids :: store[id]
  }

  lemma {:induction false} UpsertedAt(store: map<Id, Content>, records: seq<Record>, id: Id)
    ensures id in Ids(records) ==> Upserted(store, records)[id] == SnapshotStore(records)[id]
    ensures id in store && id !in Ids(records) ==> Upserted(store, records)[id] == store[id]
  {
    if records != [] {
      var n := |records| - 1;
      assert records == records[..n] + [records[n]];
      UpsertedAt(store, records[..n], id);
    }
  }

  /** A snapshot with distinct ids is stored record by record, fields and all. */
  lemma {:induction false} SnapshotHoldsRecords(records: seq<Record>, k: nat)
    requires k < |records| && forall i, j :: 0 <= i < j < |records| ==> records[i].id != records[j].id
    ensures records[k].id in SnapshotStore(records)
    ensures SnapshotStore(records)[records[k].id] == Struct(records[k].fields)
    decreases |records|
  {
    var n := |records| - 1;
    assert records == records[..n] + [records[n]];
    assert records[k] in records;
    if k < n {
      SnapshotHoldsRecords(records[..n], k);
    }
  }

  /** Whatever the store held before, its part under the snapshot's ids is the snapshot. */
  lemma UpsertedHoldsSnapshot(store: map<Id, Content>, records: seq<Record>)
    ensures Restricted(Upserted(store, records), Ids(records)) == SnapshotStore(records)
    ensures forall id <- store :: id !in Ids(records) ==> Upserted(store, records)[id] == store[id]
  {
    hide Ids;
    assert SnapshotStore(records).Keys == Ids(records);
    assert Upserted(store, records).Keys == store.Keys + Ids(records);
    hide Upserted, SnapshotStore;
    forall id | id in Ids(records) || id in store
      ensures id in Ids(records) ==> Upserted(store, records)[id] == SnapshotStore(records)[id]
      ensures id in store && id !in Ids(records) ==> Upserted(store, records)[id] == store[id]
    {
      UpsertedAt(store, records, id);
    }
  }

  /** A stored document is in the snapshot, or a leftover of this job, or not this job's. */
  datatype Class = InSnapshot | Leftover | Alien

  function ClassOf(store: map<Id, Content>, records: seq<Record>, id: Id): Class
    requires id in store
  {
    if id in Ids(records) then InSnapshot else if IsCorpusRecord(store[id]) then Leftover else Alien
  }

  function Among(store: map<Id, Content>, records: seq<Record>, seen: set<Id>, c: Class): set<Id> {
    set id | id in seen && id in store && ClassOf(store, records, id) == c
  }

  function StaleIds(store: map<Id, Content>, records: seq<Record>): set<Id> {
    Among(store, records, store.Keys, Leftover)
  }

  function ForeignIds(store: map<Id, Content>, records: seq<Record>): set<Id> {
    Among(store, records, store.Keys, Alien)
  }

  /** The leftovers that deletes with these fates take away. */
  function Doomed(store: map<Id, Content>, records: seq<Record>, fates: Id -> Fate): set<Id> {
    set id | id in StaleIds(store, records) && fates(id) != ApiError
  }

  function Elements(s: seq<Id>): set<Id> {
    set id | id in s
  }

  function Flatten(pages: seq<seq<Id>>): seq<Id> {
    if pages == [] then [] else Flatten(pages[..|pages| - 1]) + pages[|pages| - 1]
  }

  /** The pages of a listing: together every stored document once. */
  ghost predicate IsListing(pages: seq<seq<Id>>, store: map<Id, Content>) {
    var all := Flatten(pages);
    && (forall id :: id in all <==> id in store)
    && (forall i, j :: 0 <= i < j < |all| ==> all[i] != all[j])
  }

  /** What becomes of a delete: done, the document was already gone, or an error. */
  datatype Fate = Deleted | AlreadyGone | ApiError

  datatype ImportResult = Imported(count: nat) | TooManyRecords | ImportFailed
  datatype PruneResult =
    | Pruned(kept: nat, deleted: nat)
    | EmptySnapshot
    | ForeignDocuments(count: nat)
    | DeletesFailed(count: nat)

  class Store {
    var documents: map<Id, Content>

    constructor (documents: map<Id, Content>)
      ensures this.documents == documents
    {
      this.documents := documents;
    }

    /** One incremental inline import. `landed` says which records the service wrote and
        `reported` whether it reported success, which it does only if none is missing. */
    method ImportSnapshot(records: seq<Record>, landed: set<nat>, reported: bool) returns (result: ImportResult)
      requires reported ==> forall i: nat :: i < |records| ==> i in landed
      modifies this
      ensures result.TooManyRecords? <==> |records| > INLINE_IMPORT_LIMIT
      ensures result.Imported? <==> |records| <= INLINE_IMPORT_LIMIT && reported
      ensures documents == if result.TooManyRecords? then old(documents)
                           else Upserted(old(documents), Chosen(records, landed))
      ensures result.Imported? ==>
                result.count == |records| && Restricted(documents, Ids(records)) == SnapshotStore(records)
    {
      if |records| > INLINE_IMPORT_LIMIT {
        return TooManyRecords;
      }
      UpsertedHoldsSnapshot(documents, records);
      documents := Upserted(documents, Chosen(records, landed));
      if !reported {
        return ImportFailed;
      }
      return Imported(|records|);
    }

    /** Follows the page tokens to the end. */
    method StoredDocuments(pages: seq<seq<Id>>) returns (all: seq<Id>)
      ensures all == Flatten(pages)
    {
      all := [];
      for i := 0 to |pages|
        invariant all == Flatten(pages[..i])
      {
        all := all + pages[i];
        assert pages[..i + 1][..i] == pages[..i];
      }
      assert pages[..|pages|] == pages;
    }

    /** Sorts the stored documents into kept, stale and foreign ones. */
    method Survey(records: seq<Record>, pages: seq<seq<Id>>) returns (stale: seq<Id>, foreign: nat, kept: nat)
      requires IsListing(pages, documents)
      ensures Sorted(documents, records, documents.Keys, stale, foreign, kept)
    {
      hide Sorted, IsCorpusRecord;
      var all := StoredDocuments(pages);
      stale, foreign, kept := [], 0, 0;
      SortedNone(documents, records);
      assert Elements(all[..0]) == {};
      for i := 0 to |all|
        invariant Sorted(documents, records, Elements(all[..i]), stale, foreign, kept)
      {
        var id := all[i];
        SortedStep(documents, records, Elements(all[..i]), id, stale, foreign, kept);
        assert Elements(all[..i + 1]) == Elements(all[..i]) + {id};
        if id in Ids(records) {
          kept := kept + 1;
        } else if IsCorpusRecord(documents[id]) {
          stale := stale + [id];
        } else {
          foreign := foreign + 1;
        }
      }
      assert Elements(all[..|all|]) == documents.Keys;
    }

    /** Deletes the stale documents, or nothing at all when any document is foreign. `trace`
        is the store after every delete. */
    method PruneDocuments(records: seq<Record>, pages: seq<seq<Id>>, fates: Id -> Fate)
      returns (result: PruneResult, ghost trace: seq<map<Id, Content>>)
      requires IsListing(pages, documents)
      modifies this
      ensures result.EmptySnapshot? <==> records == []
      ensures result.ForeignDocuments? <==> records != [] && ForeignIds(old(documents), records) != {}
      ensures result.DeletesFailed? <==>
        && records != [] && ForeignIds(old(documents), records) == {}
        && exists id <- StaleIds(old(documents), records) :: fates(id) == ApiError
      ensures result.EmptySnapshot? || result.ForeignDocuments? ==> documents == old(documents) && trace == []
      ensures result.ForeignDocuments? ==> result.count == |ForeignIds(old(documents), records)|
      ensures result.DeletesFailed? ==>
        documents == old(documents) - Doomed(old(documents), records, fates)
      ensures result.DeletesFailed? ==>
        result.count == |StaleIds(old(documents), records) - Doomed(old(documents), records, fates)|
      ensures result.Pruned? ==>
        && documents == Restricted(old(documents), Ids(records))
        && result.kept == |old(documents).Keys * Ids(records)| && result.deleted == |StaleIds(old(documents), records)|
      ensures forall store <- trace :: Restricted(store, Ids(records)) == Restricted(old(documents), Ids(records))
    {
      hide IsListing, Sorted, Restricted, Ids, StaleIds, ForeignIds, Elements;
      trace := [];
      NoIdsNoRecords(records);
      if Ids(records) == {} {
        return EmptySnapshot, trace;
      }
      ghost var before := documents;
      var stale, foreign, kept := Survey(records, pages);
      SortedAll(before, records, stale, foreign, kept, fates);
      if foreign > 0 {
        return ForeignDocuments(foreign), trace;
      }
      var deleted, failed;
      deleted, failed, trace := DeleteAll(stale, fates, Ids(records));
      if failed > 0 {
        return DeletesFailed(failed), trace;
      }
      OnlySnapshotLeft(before, records);
      return Pruned(kept, deleted), trace;
    }

    /** Attempts every delete; `protected` ids are not among them and stay as they are. */
    method DeleteAll(names: seq<Id>, fates: Id -> Fate, ghost protected: set<Id>)
      returns (deleted: nat, failed: nat, ghost trace: seq<map<Id, Content>>)
      requires Elements(names) !! protected
      modifies this
      ensures documents == old(documents) - Removed(names, fates)
      ensures deleted + failed == |names|
      ensures |names| == |Elements(names)| ==> failed == |Elements(names) - Removed(names, fates)|
      ensures failed > 0 <==> exists id <- Elements(names) :: fates(id) == ApiError
      ensures forall store <- trace :: Restricted(store, protected) == Restricted(old(documents), protected)
    {
      hide Restricted, Failing, Removed, Elements;
      deleted, failed, trace := 0, 0, [];
      ghost var before := documents;
      NoneTried(fates);
      for i := 0 to |names|
        invariant deleted + failed == i && documents == before - Removed(names[..i], fates)
        invariant failed > 0 <==> Failing(names[..i], fates) != {}
        invariant |names| == |Elements(names)| ==> failed == |Failing(names[..i], fates)|
        invariant forall store <- trace :: Restricted(store, protected) == Restricted(before, protected)
      {
        var id := names[i];
        TriedStep(names, i, fates);
        if fates(id) == ApiError {
          failed := failed + 1;
        } else {
          TakenAway(before, Removed(names[..i], fates), id);
          documents := documents - {id};
          deleted := deleted + 1;
        }
        SnapshotPartStays(before, Removed(names[..i + 1], fates), protected);
        trace := trace + [documents];
      }
      assert names[..|names|] == names;
      AllTried(names, fates);
    }
  }

  /** The documents deletes with these fates take away. */
  function Removed(names: seq<Id>, fates: Id -> Fate): set<Id> {
    set id | id in names && fates(id) != ApiError
  }

  function Failing(names: seq<Id>, fates: Id -> Fate): set<Id> {
    set id | id in names && fates(id) == ApiError
  }

  lemma TakenAway(store: map<Id, Content>, gone: set<Id>, id: Id)
    ensures store - gone - {id} == store - (gone + {id})
  {
  }

  lemma NoneTried(fates: Id -> Fate)
    ensures Failing([], fates) == {} && Removed([], fates) == {}
  {
  }

  lemma AllTried(names: seq<Id>, fates: Id -> Fate)
    ensures Failing(names, fates) == Elements(names) - Removed(names, fates)
    ensures Failing(names, fates) != {} <==> exists id <- Elements(names) :: fates(id) == ApiError
  {
    if id :| id in Elements(names) && fates(id) == ApiError {
      assert id in Failing(names, fates);
    }
  }

  lemma {:induction false} NoMoreElements(names: seq<Id>)
    ensures |Elements(names)| <= |names|
  {
    if names == [] {
      assert Elements(names) == {};
    } else {
      var n := |names| - 1;
      NoMoreElements(names[..n]);
      assert names == names[..n] + [names[n]];
      assert Elements(names) == Elements(names[..n]) + {names[n]};
    }
  }

  lemma KnownElement(names: seq<Id>, id: Id)
    requires id in names
    ensures Elements(names) + {id} == Elements(names)
  {
  }

  /** As many elements as places: each comes once. */
  lemma {:induction false} EachOnce(names: seq<Id>, i: nat)
    requires |Elements(names)| == |names| && i < |names|
    ensures names[i] !in names[..i]
  {
    var n := |names| - 1;
    assert names == names[..n] + [names[n]];
    assert Elements(names) == Elements(names[..n]) + {names[n]};
    NoMoreElements(names[..n]);
    if names[n] in names[..n] {
      KnownElement(names[..n], names[n]);
      assert false;
    }
    if i < n {
      EachOnce(names[..n], i);
      assert names[..n][..i] == names[..i];
    }
  }

  lemma TriedStep(names: seq<Id>, i: nat, fates: Id -> Fate)
    requires i < |names|
    ensures fates(names[i]) == ApiError ==>
              && Failing(names[..i + 1], fates) == Failing(names[..i], fates) + {names[i]}
              && Removed(names[..i + 1], fates) == Removed(names[..i], fates)
    ensures fates(names[i]) != ApiError ==>
              && Failing(names[..i + 1], fates) == Failing(names[..i], fates)
              && Removed(names[..i + 1], fates) == Removed(names[..i], fates) + {names[i]}
    ensures Removed(names[..i + 1], fates) <= Elements(names)
    ensures |Elements(names)| == |names| ==> names[i] !in Failing(names[..i], fates)
  {
    assert names[..i + 1] == names[..i] + [names[i]];
    if |Elements(names)| == |names| {
      EachOnce(names, i);
    }
  }

  /** The counts are right for the documents seen so far. */
  ghost predicate Sorted(store: map<Id, Content>, records: seq<Record>, seen: set<Id>, stale: seq<Id>, foreign: nat,
                         kept: nat) {
    && Elements(stale) == Among(store, records, seen, Leftover) && |stale| == |Elements(stale)|
    && foreign == |Among(store, records, seen, Alien)|
    && kept == |Among(store, records, seen, InSnapshot)|
  }

  lemma SortedNone(store: map<Id, Content>, records: seq<Record>)
    ensures Sorted(store, records, {}, [], 0, 0)
  {
    assert Elements([]) == {};
  }

  lemma AmongStep(store: map<Id, Content>, records: seq<Record>, seen: set<Id>, id: Id, c: Class)
    requires id !in seen && id in store
    ensures var before, after := Among(store, records, seen, c), Among(store, records, seen + {id}, c);
      if ClassOf(store, records, id) == c then after == before + {id} && |after| == |before| + 1 else after == before
  {
    hide ClassOf;
  }

  lemma SortedStep(store: map<Id, Content>, records: seq<Record>, seen: set<Id>, id: Id, stale: seq<Id>,
                   foreign: nat, kept: nat)
    requires id !in seen && id in store && Sorted(store, records, seen, stale, foreign, kept)
    ensures var c := ClassOf(store, records, id);
      Sorted(store, records, seen + {id}, if c == Leftover then stale + [id] else stale,
             if c == Alien then foreign + 1 else foreign, if c == InSnapshot then kept + 1 else kept)
  {
    hide ClassOf, Among;
    AmongStep(store, records, seen, id, Leftover);
    AmongStep(store, records, seen, id, Alien);
    AmongStep(store, records, seen, id, InSnapshot);
    assert Elements(stale + [id]) == Elements(stale) + {id};
  }

  lemma SortedAll(store: map<Id, Content>, records: seq<Record>, stale: seq<Id>, foreign: nat, kept: nat,
                  fates: Id -> Fate)
    requires Sorted(store, records, store.Keys, stale, foreign, kept)
    ensures Removed(stale, fates) == Doomed(store, records, fates)
    ensures (forall id <- Elements(stale) :: fates(id) != ApiError) ==>
              Removed(stale, fates) == StaleIds(store, records)
    ensures foreign > 0 <==> ForeignIds(store, records) != {}
    ensures Elements(stale) == StaleIds(store, records) && Elements(stale) !! Ids(records)
    ensures |stale| == |StaleIds(store, records)| && foreign == |ForeignIds(store, records)|
    ensures kept == |store.Keys * Ids(records)|
  {
    assert Among(store, records, store.Keys, InSnapshot) == store.Keys * Ids(records);
  }

  lemma OnlySnapshotLeft(store: map<Id, Content>, records: seq<Record>)
    requires ForeignIds(store, records) == {}
    ensures store - StaleIds(store, records) == Restricted(store, Ids(records))
  {
    hide IsCorpusRecord;
    forall id <- store ensures id in Ids(records) || id in StaleIds(store, records) {
      assert id !in ForeignIds(store, records);
    }
  }

  /** Deleting what is not in the snapshot keeps its part of the store. */
  lemma SnapshotPartStays(store: map<Id, Content>, gone: set<Id>, ids: set<Id>)
    requires gone !! ids
    ensures Restricted(store - gone, ids) == Restricted(store, ids)
  {
  }

  /** Import, then prune: the store ends as exactly the snapshot, whatever it held before
      and however its listing is paged, if and only if the import succeeds, nothing foreign
      is stored and no delete fails. However a run ends, it leaves no other documents foreign
      than it found, so that a later run meets the same condition. */
  method Converge(store: Store, records: seq<Record>, landed: set<nat>, reported: bool, pages: seq<seq<Id>>,
                  fates: Id -> Fate)
    returns (ok: bool)
    requires reported ==> forall i: nat :: i < |records| ==> i in landed
    requires IsListing(pages, Upserted(store.documents, records))
    modifies store
    ensures ok ==> store.documents == SnapshotStore(records)
    ensures ok <==>
      && records != [] && |records| <= INLINE_IMPORT_LIMIT && reported
      && ForeignIds(old(store.documents), records) == {}
      && forall id <- StaleIds(old(store.documents), records) :: fates(id) != ApiError
    ensures ForeignIds(store.documents, records) == ForeignIds(old(store.documents), records)
    ensures StaleIds(store.documents, records) <= StaleIds(old(store.documents), records)
  {
    hide Chosen, IsListing, Upserted, Restricted, StaleIds, ForeignIds, Ids;
    SameOutsiders(store.documents, records, Chosen(records, landed));
    var imported := store.ImportSnapshot(records, landed, reported);
    if !imported.Imported? {
      return false;
    }
    assert Chosen(records, landed) == records;
    ghost var imports := store.documents;
    UpsertedHoldsSnapshot(old(store.documents), records);
    var pruned, trace := store.PruneDocuments(records, pages, fates);
    PruningKeepsForeign(imports, records, Doomed(imports, records, fates));
    PruningKeepsForeign(imports, records, StaleIds(imports, records));
    return pruned.Pruned?;
  }

  /** Deleting stale documents makes none foreign, and deleting all of them, with nothing
      foreign about, leaves the snapshot's part. */
  lemma PruningKeepsForeign(store: map<Id, Content>, records: seq<Record>, gone: set<Id>)
    requires gone <= StaleIds(store, records)
    ensures ForeignIds(store - gone, records) == ForeignIds(store, records)
    ensures StaleIds(store - gone, records) == StaleIds(store, records) - gone
    ensures ForeignIds(store, records) == {} ==>
              Restricted(store, Ids(records)) == store - StaleIds(store, records)
  {
    hide IsCorpusRecord;
    if ForeignIds(store, records) == {} {
      OnlySnapshotLeft(store, records);
    }
  }

  /** Importing all or some of the records neither adds nor removes stale or foreign documents. */
  lemma SameOutsiders(store: map<Id, Content>, records: seq<Record>, written: seq<Record>)
    requires forall r <- written :: r in records
    ensures StaleIds(Upserted(store, written), records) == StaleIds(store, records)
    ensures ForeignIds(Upserted(store, written), records) == ForeignIds(store, records)
  {
    UpsertedHoldsSnapshot(store, written);
    assert Ids(written) <= Ids(records);
    assert Upserted(store, written).Keys == store.Keys + Ids(written);
    hide Upserted, Ids;
    SameOutside(store, Upserted(store, written), records, Ids(written));
  }

  /** A store changed under ids of the snapshot alone. */
  lemma SameOutside(store: map<Id, Content>, store': map<Id, Content>, records: seq<Record>, ids: set<Id>)
    requires store'.Keys == store.Keys + ids && ids <= Ids(records)
    requires forall id <- store :: id !in ids ==> store'[id] == store[id]
    ensures StaleIds(store', records) == StaleIds(store, records)
    ensures ForeignIds(store', records) == ForeignIds(store, records)
  {
    hide IsCorpusRecord, Ids;
    forall id, c: Class | c != InSnapshot
      ensures id in Among(store', records, store'.Keys, c) <==> id in Among(store, records, store.Keys, c)
    {
    }
  }

  /** The fields of a record as the builder stamps them. */
  predicate Built(fields: map<string, string>) {
    && {"snapshot_id", "kind", "doc_id"} <= fields.Keys
    && StartsWith(fields["snapshot_id"], "1-")
    && (|| (fields["kind"] == "PRODUCT" && StartsWith(fields["doc_id"], "CARD-"))
        || (fields["kind"] == "POLICY" && StartsWith(fields["doc_id"], "POLICY-")))
  }

  /** A store that holds an older snapshot has nothing foreign to a newer one, and its stale
      documents are those the newer one dropped: an upgrade is never refused. */
  lemma OlderSnapshotIsStale(older: seq<Record>, newer: seq<Record>)
    requires forall r <- older :: Built(r.fields)
    ensures ForeignIds(SnapshotStore(older), newer) == {}
    ensures StaleIds(SnapshotStore(older), newer) == Ids(older) - Ids(newer)
  {
    hide Upserted, IsCorpusRecord;
    assert SnapshotStore(older).Keys == Ids(older);
    forall id <- SnapshotStore(older) ensures IsCorpusRecord(SnapshotStore(older)[id]) {
      StoredIsRecord(older, id);
      var r :| r in older && SnapshotStore(older)[id] == Struct(r.fields);
      BuiltIsOurs(r.fields);
    }
  }

  lemma BuiltIsOurs(fields: map<string, string>)
    requires Built(fields)
    ensures IsCorpusRecord(Struct(fields))
  {
    var id := fields["snapshot_id"];
    assert id[0] == "1-"[0] && id[0] in id && !IsSpace(id[0] as int);
  }

  lemma {:induction false} StoredIsRecord(records: seq<Record>, id: Id)
    requires id in SnapshotStore(records)
    ensures exists r <- records :: r.id == id && SnapshotStore(records)[id] == Struct(r.fields)
  {
    var n := |records| - 1;
    assert records == records[..n] + [records[n]];
    if records[n].id != id {
      StoredIsRecord(records[..n], id);
    }
  }

  /** A document without fields, or without a snapshot, or of another kind, or with another
      name, is foreign to every snapshot without its id: while it is stored, nothing is deleted. */
  lemma OthersAreForeign(store: map<Id, Content>, records: seq<Record>, id: Id)
    requires id in store && id !in Ids(records)
    ensures id in ForeignIds(store, records) <==>
      || store[id] == Unstructured
      || IsBlank(Field(store[id].fields, "snapshot_id"))
      || (Field(store[id].fields, "kind") != "PRODUCT" && Field(store[id].fields, "kind") != "POLICY")
      || !(StartsWith(Field(store[id].fields, "doc_id"), "CARD-")
           || StartsWith(Field(store[id].fields, "doc_id"), "POLICY-"))
  {
    hide Ids;
  }

  /** A second run finds nothing to write, nothing to delete and nothing foreign. */
  lemma RerunChangesNothing(records: seq<Record>)
    ensures Upserted(SnapshotStore(records), records) == SnapshotStore(records)
    ensures StaleIds(SnapshotStore(records), records) == {} && ForeignIds(SnapshotStore(records), records) == {}
  {
    UpsertedHoldsSnapshot(SnapshotStore(records), records);
    assert Upserted(SnapshotStore(records), records).Keys == Ids(records);
    assert Upserted(SnapshotStore(records), records)
        == Restricted(Upserted(SnapshotStore(records), records), Ids(records));
  }
}
