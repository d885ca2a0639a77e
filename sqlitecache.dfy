/** The cache-synchronisation bookkeeping of sqlitecache.c. A decoder's records
    are compared with the package ids already stored in the cache: records whose
    id is not stored are written and counted, and stored ids the document no
    longer lists are deleted and counted.

    The database is not modelled: reading the stored ids is a parameter (a map
    from package id to package key), and every write or delete the code issues is
    appended to the field `writes`. Warnings sent through `debug` are appended to
    `warnings`. */
module SqliteCache {
  import opened Xml
  import opened PackageModel
  import Primary
  import Filelist
  import Other

  /** The tables a callback writes a new package into. */
  datatype Table = PrimaryTables | FilelistTables | OtherTables

  datatype Write =
    | Stored(table: Table, package: Package)
    | Deleted(pkgId: string, pkgKey: int)

  datatype Warning = PrepareFailed | RemoveFailed(pkgId: string)

  /** The stored-ids lookup finds the id: the table maps it to a non-zero key
      (a key of 0 is stored as NULL and reads as absent). */
  predicate Known(current: map<string, int>, id: string)
  {
    id in current && current[id] != 0
  }

  /** Every record carries a package id (the callbacks hash it). */
  predicate HasIds(ps: seq<Package>)
  {
    forall i :: 0 <= i < |ps| ==> ps[i].pkgId.Some?
  }

  /** The ids of the records. */
  function Ids(ps: seq<Package>): (r: set<string>)
    requires HasIds(ps)
    ensures forall i :: 0 <= i < |ps| ==> ps[i].pkgId.value in r
    ensures forall id :: id in r ==> exists i :: 0 <= i < |ps| && ps[i].pkgId.value == id
    decreases |ps|
  {
    if ps == [] then {}
    else
      var r := Ids(ps[..|ps| - 1]) + {ps[|ps| - 1].pkgId.value};
      assert forall i :: 0 <= i < |ps| - 1 ==> ps[..|ps| - 1][i] == ps[i];
      r
  }

  /** The records the callbacks write: those whose id is not stored, in order,
      repeats included. */
  function NewPackages(current: map<string, int>, ps: seq<Package>): (r: seq<Package>)
    requires HasIds(ps)
    ensures |r| <= |ps|
    ensures forall i :: 0 <= i < |r| ==> r[i].pkgId.Some? && !Known(current, r[i].pkgId.value)
    ensures forall i :: 0 <= i < |r| ==> r[i] in ps
    decreases |ps|
  {
    if ps == [] then []
    else
      var init := ps[..|ps| - 1];
      var p := ps[|ps| - 1];
      assert forall i :: 0 <= i < |init| ==> init[i] == ps[i];
      if Known(current, p.pkgId.value) then NewPackages(current, init)
      else NewPackages(current, init) + [p]
  }

  function StoredWrites(t: Table, ps: seq<Package>): (r: seq<Write>)
    ensures |r| == |ps|
    ensures forall i :: 0 <= i < |ps| ==> r[i] == Stored(t, ps[i])
  {
    seq(|ps|, i requires 0 <= i < |ps| => Stored(t, ps[i]))
  }

  /** Stored ids the document did not list. */
  function Stale(current: map<string, int>, all: set<string>): (r: set<string>)
    ensures forall k :: k in r <==> k in current && k !in all
  {
    set k | k in current && k !in all
  }

  class UpdateInfo {
    var addCount: int
    var delCount: int
    /** The ids stored before the update, with their package keys. */
    var current: map<string, int>
    /** The ids of every record the decoder emitted. */
    var all: set<string>
    /** The removal statement was prepared and the tables set up. */
    var ready: bool
    var writes: seq<Write>
    var warnings: seq<Warning>

    constructor ()
      ensures !ready && writes == [] && warnings == []
    {
      addCount := 0;
      delCount := 0;
      current := map[];
      all := {};
      ready := false;
      writes := [];
      warnings := [];
    }

    /** `update_info_init`: when the removal statement cannot be prepared it
        warns and returns before any field is set. */
    method Init(prepareOk: bool, stored: map<string, int>)
      modifies this
      ensures writes == old(writes)
      ensures !prepareOk ==>
        warnings == old(warnings) + [PrepareFailed] && ready == old(ready) &&
        addCount == old(addCount) && delCount == old(delCount) &&
        current == old(current) && all == old(all)
      ensures prepareOk ==>
        warnings == old(warnings) && ready &&
        addCount == 0 && delCount == 0 && current == stored && all == {}
    {
      if !prepareOk {
        warnings := warnings + [PrepareFailed];
        return;
      }
      addCount := 0;
      delCount := 0;
      current := stored;
      all := {};
      ready := true;
    }

    /** The per-package callback (`add_package`, `update_filelist_cb` and
        `update_other_cb` differ only in the tables written). */
    method AddPackage(t: Table, p: Package)
      requires ready && p.pkgId.Some?
      modifies this
      ensures ready && current == old(current) && delCount == old(delCount) && warnings == old(warnings)
      ensures all == old(all) + {p.pkgId.value}
      ensures !Known(current, p.pkgId.value) ==>
        writes == old(writes) + [Stored(t, p)] && addCount == old(addCount) + 1
      ensures Known(current, p.pkgId.value) ==>
        writes == old(writes) && addCount == old(addCount)
    {
      all := all + {p.pkgId.value};
      if !(p.pkgId.value in current && current[p.pkgId.value] != 0) {
        writes := writes + [Stored(t, p)];
        addCount := addCount + 1;
      }
    }

    /** The decoder delivering its records to the callback, in order. */
    method AddAll(t: Table, ps: seq<Package>)
      requires ready && HasIds(ps)
      modifies this
      ensures ready && current == old(current) && delCount == old(delCount) && warnings == old(warnings)
      ensures all == old(all) + Ids(ps)
      ensures writes == old(writes) + StoredWrites(t, NewPackages(current, ps))
      ensures addCount == old(addCount) + |NewPackages(current, ps)|
    {
      var i := 0;
      while i < |ps|
        invariant 0 <= i <= |ps|
        invariant ready && current == old(current) && delCount == old(delCount) && warnings == old(warnings)
        invariant all == old(all) + Ids(ps[..i])
        invariant writes == old(writes) + StoredWrites(t, NewPackages(current, ps[..i]))
        invariant addCount == old(addCount) + |NewPackages(current, ps[..i])|
      {
        assert ps[..i + 1][..i] == ps[..i];
        StoredWritesSnoc(t, NewPackages(current, ps[..i]), ps[i]);
        AddPackage(t, ps[i]);
        i := i + 1;
      }
      assert ps[..i] == ps;
    }

    /** `remove_entry`: a stored id the document did not list is deleted by its
        key and counted, whether or not the delete succeeds; a failing delete
        (`k in failing`) also warns. */
    method RemoveEntry(k: string, failing: set<string>)
      requires ready && k in current
      modifies this
      ensures ready && current == old(current) && all == old(all) && addCount == old(addCount)
      ensures k in all ==>
        writes == old(writes) && warnings == old(warnings) && delCount == old(delCount)
      ensures k !in all ==>
        writes == old(writes) + [Deleted(k, current[k])] && delCount == old(delCount) + 1 &&
        warnings == old(warnings) + (if k in failing then [RemoveFailed(k)] else [])
    {
      if k !in all {
        writes := writes + [Deleted(k, current[k])];
        if k in failing {
          warnings := warnings + [RemoveFailed(k)];
        }
        delCount := delCount + 1;
      }
    }

    /** `update_info_remove_old_entries`: `remove_entry` for every stored id, in
        table order (which the model leaves open). */
    method RemoveOldEntries(failing: set<string>)
      requires ready
      modifies this
      ensures ready && current == old(current) && all == old(all) && addCount == old(addCount)
      ensures delCount == old(delCount) + |Stale(current, all)|
      ensures |writes| == |old(writes)| + |Stale(current, all)|
      ensures writes[..|old(writes)|] == old(writes)
      ensures forall w :: w in writes[|old(writes)|..] <==>
        w.Deleted? && w.pkgId in Stale(current, all) && w.pkgKey == current[w.pkgId]
      ensures |warnings| == |old(warnings)| + |Stale(current, all) * failing|
      ensures warnings[..|old(warnings)|] == old(warnings)
      ensures forall w :: w in warnings[|old(warnings)|..] <==>
        w.RemoveFailed? && w.pkgId in Stale(current, all) && w.pkgId in failing
    {
      var remaining := current.Keys;
      ghost var stale := Stale(current, all);
      ghost var deleted: set<string> := {};
      ghost var dels: seq<Write> := [];
      ghost var warns: seq<Warning> := [];
      while remaining != {}
        invariant ready && current == old(current) && all == old(all) && addCount == old(addCount)
        invariant remaining <= current.Keys
        invariant forall k :: k in deleted <==> k in stale && k !in remaining
        invariant delCount == old(delCount) + |deleted| && |dels| == |deleted|
        invariant writes == old(writes) + dels && warnings == old(warnings) + warns
        invariant forall w :: w in dels <==>
          w.Deleted? && w.pkgId in deleted && w.pkgKey == current[w.pkgId]
        invariant forall w :: w in warns <==>
          w.RemoveFailed? && w.pkgId in deleted && w.pkgId in failing
        invariant |warns| == |deleted * failing|
        decreases |remaining|
      {
        var k :| k in remaining;
        RemoveEntry(k, failing);
        if k !in all {
          dels := dels + [Deleted(k, current[k])];
          if k in failing {
            warns := warns + [RemoveFailed(k)];
            assert (deleted + {k}) * failing == deleted * failing + {k};
          } else {
            assert (deleted + {k}) * failing == deleted * failing;
          }
          deleted := deleted + {k};
        }
        remaining := remaining - {k};
      }
      assert deleted == stale;
      assert writes[|old(writes)|..] == dels;
      assert warnings[|old(warnings)|..] == warns;
    }
  }

  lemma StoredWritesSnoc(t: Table, ps: seq<Package>, p: Package)
    ensures StoredWrites(t, ps + [p]) == StoredWrites(t, ps) + [Stored(t, p)]
  {
  }

  /** The synchronisation shared by the three update functions once the cache
      is open and stale: set up the bookkeeping, let the decoder's records
      (`ps`, in callback order) reach the callback, then remove old entries.
      Returns the write log and the counts `update_info_done` reports. */
  method Sync(t: Table, stored: map<string, int>, ps: seq<Package>, failing: set<string>)
    returns (writes: seq<Write>, added: int, deleted: int, warnings: seq<Warning>)
    requires HasIds(ps)
    ensures added == |NewPackages(stored, ps)|
    ensures deleted == |Stale(stored, Ids(ps))|
    ensures SyncLog(t, stored, ps, writes)
    ensures |warnings| == |Stale(stored, Ids(ps)) * failing|
    ensures forall w :: w in warnings <==>
      w.RemoveFailed? && w.pkgId in Stale(stored, Ids(ps)) && w.pkgId in failing
    ensures CachedIds(stored, writes) == Ids(ps)
  {
    var info := new UpdateInfo();
    info.Init(true, stored);
    info.AddAll(t, ps);
    assert info.all == Ids(ps);
    info.RemoveOldEntries(failing);
    writes, added, deleted, warnings := info.writes, info.addCount, info.delCount, info.warnings;
    assert writes[..|NewPackages(stored, ps)|] == StoredWrites(t, NewPackages(stored, ps));
    CacheHoldsDocumentIds(t, stored, ps, writes);
  }

  /** The shape of the write log of a synchronisation: one write per new record,
      in order, then one delete per stale stored id, in table order. */
  ghost predicate SyncLog(t: Table, stored: map<string, int>, ps: seq<Package>, writes: seq<Write>)
    requires HasIds(ps)
  {
    var n := |NewPackages(stored, ps)|;
    |writes| == n + |Stale(stored, Ids(ps))| &&
    writes[..n] == StoredWrites(t, NewPackages(stored, ps)) &&
    forall w :: w in writes[n..] <==>
      w.Deleted? && w.pkgId in Stale(stored, Ids(ps)) && w.pkgKey == stored[w.pkgId]
  }

  /** The ids the cache holds after a write log is applied to the stored ids:
      stored ids not deleted, plus the ids of written records. */
  function CachedIds(stored: map<string, int>, writes: seq<Write>): (r: set<string>)
    ensures forall k :: k in stored && Deleted(k, stored[k]) !in writes ==> k in r
    ensures forall i :: 0 <= i < |writes| && writes[i].Stored? && writes[i].package.pkgId.Some? ==>
      writes[i].package.pkgId.value in r
  {
    (set k | k in stored && Deleted(k, stored[k]) !in writes) +
    (set i | 0 <= i < |writes| && writes[i].Stored? && writes[i].package.pkgId.Some? ::
      writes[i].package.pkgId.value)
  }

  /** A record is written exactly when it appears in the document and its id is
      not stored. */
  lemma {:induction false} NewPackagesMembers(current: map<string, int>, ps: seq<Package>, p: Package)
    requires HasIds(ps)
    ensures p in NewPackages(current, ps) <==> p in ps && !Known(current, p.pkgId.value)
    decreases |ps|
  {
    if ps != [] {
      var init := ps[..|ps| - 1];
      assert ps == init + [ps[|ps| - 1]];
      NewPackagesMembers(current, init, p);
    }
  }

  /** The callbacks never change the stored ids, so what a record causes does
      not depend on the records before it. */
  lemma {:induction false} NewPackagesAppend(current: map<string, int>, ps: seq<Package>, qs: seq<Package>)
    requires HasIds(ps) && HasIds(qs)
    ensures HasIds(ps + qs)
    ensures NewPackages(current, ps + qs) == NewPackages(current, ps) + NewPackages(current, qs)
    decreases |qs|
  {
    if qs == [] {
      assert ps + qs == ps;
    } else {
      var init := qs[..|qs| - 1];
      assert (ps + qs)[..|ps + qs| - 1] == ps + init;
      assert (ps + qs)[|ps + qs| - 1] == qs[|qs| - 1];
      NewPackagesAppend(current, ps, init);
    }
  }

  /** A new id that the document repeats is written once per occurrence. */
  lemma RepeatedNewIdWrittenTwice(current: map<string, int>, p: Package)
    requires p.pkgId.Some? && !Known(current, p.pkgId.value)
    ensures NewPackages(current, [p, p]) == [p, p]
    ensures Ids([p, p]) == {p.pkgId.value}
  {
    NewPackagesAppend(current, [p], [p]);
    assert [p] + [p] == [p, p];
  }

  /** After a synchronisation the cache holds exactly the ids of the document. */
  lemma CacheHoldsDocumentIds(t: Table, stored: map<string, int>, ps: seq<Package>, writes: seq<Write>)
    requires HasIds(ps) && SyncLog(t, stored, ps, writes)
    ensures CachedIds(stored, writes) == Ids(ps)
  {
    forall id | id in CachedIds(stored, writes)
      ensures id in Ids(ps)
    {
      CachedIdListed(t, stored, ps, writes, id);
    }
    forall id | id in Ids(ps)
      ensures id in CachedIds(stored, writes)
    {
      ListedIdCached(t, stored, ps, writes, id);
    }
  }

  /** One entry of a synchronisation's write log. */
  lemma SyncLogAt(t: Table, stored: map<string, int>, ps: seq<Package>, writes: seq<Write>, i: int)
    requires HasIds(ps) && SyncLog(t, stored, ps, writes) && 0 <= i < |writes|
    ensures var news := NewPackages(stored, ps);
      i < |news| ==> writes[i] == Stored(t, news[i])
    ensures i >= |NewPackages(stored, ps)| ==>
      writes[i].Deleted? && writes[i].pkgId in stored && writes[i].pkgId !in Ids(ps)
  {
    var n := |NewPackages(stored, ps)|;
    if i < n {
      assert writes[i] == writes[..n][i];
    } else {
      assert writes[i] == writes[n..][i - n];
    }
  }

  /** A stale stored id is deleted by a synchronisation. */
  lemma SyncLogDeletesStale(t: Table, stored: map<string, int>, ps: seq<Package>, writes: seq<Write>, id: string)
    requires HasIds(ps) && SyncLog(t, stored, ps, writes) && id in stored && id !in Ids(ps)
    ensures Deleted(id, stored[id]) in writes
  {
    var n := |NewPackages(stored, ps)|;
    var w := Deleted(id, stored[id]);
    assert w in writes[n..];
    var i :| 0 <= i < |writes[n..]| && writes[n..][i] == w;
    assert writes[n + i] == w;
  }

  lemma CachedIdListed(t: Table, stored: map<string, int>, ps: seq<Package>, writes: seq<Write>, id: string)
    requires HasIds(ps) && SyncLog(t, stored, ps, writes)
    requires id in CachedIds(stored, writes)
    ensures id in Ids(ps)
  {
    if id in stored && Deleted(id, stored[id]) !in writes {
      if id !in Ids(ps) {
        SyncLogDeletesStale(t, stored, ps, writes, id);
      }
    } else {
      var i :| 0 <= i < |writes| && writes[i].Stored? && writes[i].package.pkgId.Some? &&
        writes[i].package.pkgId.value == id;
      SyncLogAt(t, stored, ps, writes, i);
      var news := NewPackages(stored, ps);
      assert news[i] in ps;
    }
  }

  lemma ListedIdCached(t: Table, stored: map<string, int>, ps: seq<Package>, writes: seq<Write>, id: string)
    requires HasIds(ps) && SyncLog(t, stored, ps, writes)
    requires id in Ids(ps)
    ensures id in CachedIds(stored, writes)
  {
    if Known(stored, id) {
      forall i | 0 <= i < |writes|
        ensures writes[i] != Deleted(id, stored[id])
      {
        SyncLogAt(t, stored, ps, writes, i);
      }
    } else {
      var news := NewPackages(stored, ps);
      var j :| 0 <= j < |ps| && ps[j].pkgId.value == id;
      NewPackagesMembers(stored, ps, ps[j]);
      var i :| 0 <= i < |news| && news[i] == ps[j];
      SyncLogAt(t, stored, ps, writes, i);
    }
  }

  // ---------------------------------------------------------------------------
  // The three update functions: a cache that cannot be opened gives no file
  // name; a cache whose recorded checksum is current is returned without
  // parsing or writing; otherwise the cache is synchronised with the document.

  method UpdatePrimary(openOk: bool, upToDate: bool, stored: map<string, int>, events: seq<Event>,
                       failing: set<string>, dbFilename: string)
    returns (result: Option<string>, writes: seq<Write>)
    requires openOk && !upToDate ==>
      Primary.Safe(Primary.Init, events) && HasIds(Primary.Run(Primary.Init, events).emitted)
    ensures !openOk <==> result == None
    ensures openOk ==> result == Some(dbFilename)
    ensures !openOk || upToDate ==> writes == []
    ensures openOk && !upToDate ==>
      var ps := Primary.Run(Primary.Init, events).emitted;
      SyncLog(PrimaryTables, stored, ps, writes) && CachedIds(stored, writes) == Ids(ps)
  {
    writes := [];
    if !openOk {
      return None, writes;
    }
    if upToDate {
      return Some(dbFilename), writes;
    }
    var ps, lost := Primary.ParsePrimary(events);
    var added, deleted, warnings;
    writes, added, deleted, warnings := Sync(PrimaryTables, stored, ps, failing);
    result := Some(dbFilename);
  }

  method UpdateFilelist(openOk: bool, upToDate: bool, stored: map<string, int>, events: seq<Event>,
                        failing: set<string>, dbFilename: string)
    returns (result: Option<string>, writes: seq<Write>)
    requires openOk && !upToDate ==>
      Filelist.Safe(Filelist.Init, events) && HasIds(Filelist.Run(Filelist.Init, events).emitted)
    ensures !openOk <==> result == None
    ensures openOk ==> result == Some(dbFilename)
    ensures !openOk || upToDate ==> writes == []
    ensures openOk && !upToDate ==>
      var ps := Filelist.Run(Filelist.Init, events).emitted;
      SyncLog(FilelistTables, stored, ps, writes) && CachedIds(stored, writes) == Ids(ps)
  {
    writes := [];
    if !openOk {
      return None, writes;
    }
    if upToDate {
      return Some(dbFilename), writes;
    }
    var ps, lost := Filelist.ParseFilelists(events);
    var added, deleted, warnings;
    writes, added, deleted, warnings := Sync(FilelistTables, stored, ps, failing);
    result := Some(dbFilename);
  }

  method UpdateOther(openOk: bool, upToDate: bool, stored: map<string, int>, events: seq<Event>,
                     failing: set<string>, dbFilename: string)
    returns (result: Option<string>, writes: seq<Write>)
    requires openOk && !upToDate ==>
      Other.Safe(Other.Init, events) && HasIds(Other.Run(Other.Init, events).emitted)
    ensures !openOk <==> result == None
    ensures openOk ==> result == Some(dbFilename)
    ensures !openOk || upToDate ==> writes == []
    ensures openOk && !upToDate ==>
      var ps := Other.Run(Other.Init, events).emitted;
      SyncLog(OtherTables, stored, ps, writes) && CachedIds(stored, writes) == Ids(ps)
  {
    writes := [];
    if !openOk {
      return None, writes;
    }
    if upToDate {
      return Some(dbFilename), writes;
    }
    var ps, lost := Other.ParseOther(events);
    var added, deleted, warnings;
    writes, added, deleted, warnings := Sync(OtherTables, stored, ps, failing);
    result := Some(dbFilename);
  }
}
