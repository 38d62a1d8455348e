/** The vault repository of `services/backendService.ts`: a list of vault records
    kept under one store key, a read that recomputes every lock flag against one
    clock reading and sorts by unlock instant, and a create that turns raw files
    into durable URLs before appending one record. The clock reading and the
    file-to-URL conversion are parameters. */
module BackendService {
  import opened Prelude
  import opened Types

  /** The lock rule: a vault is locked while its unlock instant is strictly later
      than `now`; at the instant itself it is open. */
  predicate LockedAt(unlockDate: int, now: int)
  {
    unlockDate > now
  }

  /** The texts of the two example vaults. */
  const MountainsDescription: string :=
    "Remember the crisp air and the beautiful sunrise? We promised to come back here in five years. I wonder what we'll be like then. Hope we're still just as adventurous!"
  const MountainsPhotoUrl: string :=
    "https://images.unsplash.com/photo-1519681393784-d120267933ba?ixlib=rb-4.0.3&ixid=M3wxMjA3fDB8MHxwaG90by1wYWdlfHx8fGVufDB8fHx8fA%3D%3D&auto=format&fit=crop&w=1170&q=80"
  const NewJobDescription: string :=
    "Felt so nervous but also excited for this new chapter. This is a reminder of the beginning. Hope you've grown and learned a lot since this day."

  /** The two example vaults written when the store key is absent: one unlocking a
      year after `now`, one that unlocked ten days before it. */
  function SeedVaults(now: int): (r: seq<TimeVault>)
    ensures |r| == 2 && AllDurable(r)
    ensures forall k :: 0 <= k < |r| ==> r[k].isLocked == LockedAt(r[k].unlockDate, now)
  {
    [ TimeVault(
        "vault-1",
        "Our Trip to the Mountains",
        MountainsDescription,
        [MediaItem("media-1", Image, MountainsPhotoUrl, None)],
        now + 365 * DayMillis,
        true),
      TimeVault(
        "vault-2",
        "First Day at the New Job",
        NewJobDescription,
        [],
        now - 10 * DayMillis,
        false) ]
  }

  /** What a read of the store yields: the stored list when the key is present
      (even an empty one), the seed when it is absent. */
  function StoredOrSeed(stored: Option<seq<TimeVault>>, now: int): (r: seq<TimeVault>)
    ensures stored.Some? ==> r == stored.value
    ensures stored.None? ==> |r| == 2
    ensures (stored.Some? ==> AllDurable(stored.value)) ==> AllDurable(r)
  {
    match stored
    case Some(vaults) => vaults
    case None => SeedVaults(now)
  }

  /** Every record of the list holds durable media only. */
  predicate AllDurable(vaults: seq<TimeVault>)
  {
    forall k :: 0 <= k < |vaults| ==> NoPendingUploads(vaults[k].media)
  }

  lemma SeedVaultsAreTheTwoExamples(now: int)
    ensures |SeedVaults(now)| == 2 && AllDurable(SeedVaults(now))
    ensures SeedVaults(now)[0].id == "vault-1" && SeedVaults(now)[0].unlockDate == now + 365 * DayMillis
    ensures SeedVaults(now)[1].id == "vault-2" && SeedVaults(now)[1].unlockDate == now - 10 * DayMillis
    ensures SeedVaults(now)[0].isLocked && LockedAt(SeedVaults(now)[0].unlockDate, now)
    ensures !SeedVaults(now)[1].isLocked && !LockedAt(SeedVaults(now)[1].unlockDate, now)
  {
  }

  /** Once a read has written the seed, later reads see the stored list and do not
      seed again, whatever the clock says then. */
  lemma SeedingHappensOnce(stored: Option<seq<TimeVault>>, now: int, later: int)
    ensures StoredOrSeed(Some(StoredOrSeed(stored, now)), later) == StoredOrSeed(stored, now)
    ensures stored.Some? ==> StoredOrSeed(stored, now) == StoredOrSeed(stored, later)
  {
  }

  // ---------------------------------------------------------------------------
  // Reading: recompute the lock flag, then sort by unlock instant.

  /** `v` with its lock flag recomputed against `now`; nothing else changes. */
  function Relocked(v: TimeVault, now: int): (r: TimeVault)
    ensures r.isLocked == LockedAt(v.unlockDate, now)
    ensures r.(isLocked := v.isLocked) == v
  {
    v.(isLocked := LockedAt(v.unlockDate, now))
  }

  /** The `map` step of a read: every record relocked against the same `now`. */
  function Relock(vaults: seq<TimeVault>, now: int): (r: seq<TimeVault>)
    ensures |r| == |vaults|
    ensures forall k :: 0 <= k < |vaults| ==> r[k] == Relocked(vaults[k], now)
  {
    if vaults == [] then [] else [Relocked(vaults[0], now)] + Relock(vaults[1..], now)
  }

  ghost predicate SortedByUnlock(vaults: seq<TimeVault>)
  {
    forall i, j :: 0 <= i < j < |vaults| ==> vaults[i].unlockDate <= vaults[j].unlockDate
  }

  /** Puts `v` in front of the first record that unlocks no earlier than it. */
  function InsertByUnlock(v: TimeVault, vaults: seq<TimeVault>): (r: seq<TimeVault>)
    ensures |r| == |vaults| + 1
    ensures multiset(r) == multiset(vaults) + multiset{v}
    ensures forall x :: x in r <==> x == v || x in vaults
  {
    if vaults == [] || v.unlockDate <= vaults[0].unlockDate then [v] + vaults
    else
      assert vaults == [vaults[0]] + vaults[1..];
      [vaults[0]] + InsertByUnlock(v, vaults[1..])
  }

  /** Inserting into a sorted list keeps it sorted. */
  lemma {:induction false} InsertKeepsSorted(v: TimeVault, vaults: seq<TimeVault>)
    requires SortedByUnlock(vaults)
    ensures SortedByUnlock(InsertByUnlock(v, vaults))
  {
    var r := InsertByUnlock(v, vaults);
    if vaults == [] || v.unlockDate <= vaults[0].unlockDate {
      forall i, j | 0 <= i < j < |r|
        ensures r[i].unlockDate <= r[j].unlockDate
      {
        assert r[j] == vaults[j - 1];
        if i > 0 {
          assert r[i] == vaults[i - 1];
        }
      }
    } else {
      var tail := vaults[1..];
      assert forall i, j :: 0 <= i < j < |tail| ==> tail[i] == vaults[i + 1] && tail[j] == vaults[j + 1];
      InsertKeepsSorted(v, tail);
      var rest := InsertByUnlock(v, tail);
      assert r == [vaults[0]] + rest;
      forall x | x in rest
        ensures vaults[0].unlockDate <= x.unlockDate
      {
        if x != v {
          var m :| 0 <= m < |tail| && tail[m] == x;
          assert tail[m] == vaults[m + 1];
        }
      }
      forall i, j | 0 <= i < j < |r|
        ensures r[i].unlockDate <= r[j].unlockDate
      {
        assert r[j] == rest[j - 1];
        if i > 0 {
          assert r[i] == rest[i - 1];
        } else {
          assert rest[j - 1] in rest;
        }
      }
    }
  }

  /** The stable ascending sort by `unlockDate` that the read applies. */
  function SortByUnlock(vaults: seq<TimeVault>): (r: seq<TimeVault>)
    ensures |r| == |vaults|
    ensures multiset(r) == multiset(vaults)
    ensures SortedByUnlock(r)
  {
    if vaults == [] then []
    else
      assert vaults == [vaults[0]] + vaults[1..];
      var rest := SortByUnlock(vaults[1..]);
      InsertKeepsSorted(vaults[0], rest);
      InsertByUnlock(vaults[0], rest)
  }

  /** What a read returns for the records `stored` at clock reading `now`: a
      permutation of the relocked records, sorted, each flag agreeing with `now`. */
  function FetchView(stored: seq<TimeVault>, now: int): (r: seq<TimeVault>)
    ensures |r| == |stored|
    ensures multiset(r) == multiset(Relock(stored, now))
    ensures SortedByUnlock(r)
    ensures forall k :: 0 <= k < |r| ==> r[k].isLocked == LockedAt(r[k].unlockDate, now)
  {
    var relocked := Relock(stored, now);
    var r := SortByUnlock(relocked);
    assert forall k :: 0 <= k < |r| ==> r[k] in multiset(relocked);
    r
  }

  /** The records of `vaults` whose unlock instant is exactly `t`, in order. */
  function UnlockingAt(vaults: seq<TimeVault>, t: int): seq<TimeVault>
  {
    if vaults == [] then []
    else (if vaults[0].unlockDate == t then [vaults[0]] else []) + UnlockingAt(vaults[1..], t)
  }

  lemma UnlockingAtCons(x: TimeVault, rest: seq<TimeVault>, t: int)
    ensures UnlockingAt([x] + rest, t) == (if x.unlockDate == t then [x] else []) + UnlockingAt(rest, t)
  {
    assert ([x] + rest)[0] == x && ([x] + rest)[1..] == rest;
  }

  lemma {:induction false} InsertIsStable(v: TimeVault, vaults: seq<TimeVault>, t: int)
    ensures UnlockingAt(InsertByUnlock(v, vaults), t)
         == (if v.unlockDate == t then [v] else []) + UnlockingAt(vaults, t)
  {
    if vaults == [] || v.unlockDate <= vaults[0].unlockDate {
      UnlockingAtCons(v, vaults, t);
    } else {
      var head, tail := vaults[0], vaults[1..];
      var rest := InsertByUnlock(v, tail);
      InsertIsStable(v, tail, t);
      UnlockingAtCons(head, rest, t);
      UnlockingAtCons(head, tail, t);
      assert [head] + tail == vaults;
      var later := UnlockingAt(tail, t);
      if head.unlockDate == t {
        assert UnlockingAt(rest, t) == later;
        assert UnlockingAt(vaults, t) == [head] + later;
      } else if v.unlockDate == t {
        assert UnlockingAt(rest, t) == [v] + later;
        assert UnlockingAt(vaults, t) == later;
      } else {
        assert UnlockingAt(rest, t) == later;
        assert UnlockingAt(vaults, t) == later;
      }
    }
  }

  /** The sort keeps records with equal unlock instants in their stored order. */
  lemma {:induction false} SortIsStable(vaults: seq<TimeVault>, t: int)
    ensures UnlockingAt(SortByUnlock(vaults), t) == UnlockingAt(vaults, t)
  {
    if vaults != [] {
      SortIsStable(vaults[1..], t);
      InsertIsStable(vaults[0], SortByUnlock(vaults[1..]), t);
    }
  }

  lemma {:induction false} InsertCommutesWithRelock(v: TimeVault, vaults: seq<TimeVault>, now: int)
    ensures Relock(InsertByUnlock(v, vaults), now) == InsertByUnlock(Relocked(v, now), Relock(vaults, now))
  {
    var relocked := Relock(vaults, now);
    if vaults == [] || v.unlockDate <= vaults[0].unlockDate {
      assert Relock([v] + vaults, now) == [Relocked(v, now)] + relocked;
    } else {
      InsertCommutesWithRelock(v, vaults[1..], now);
      assert relocked[1..] == Relock(vaults[1..], now);
      var rest := InsertByUnlock(v, vaults[1..]);
      assert Relock([vaults[0]] + rest, now) == [Relocked(vaults[0], now)] + Relock(rest, now);
    }
  }

  /** Sorting does not look at lock flags, so relocking before or after it gives
      the same list. */
  lemma {:induction false} SortCommutesWithRelock(vaults: seq<TimeVault>, now: int)
    ensures Relock(SortByUnlock(vaults), now) == SortByUnlock(Relock(vaults, now))
  {
    if vaults != [] {
      SortCommutesWithRelock(vaults[1..], now);
      InsertCommutesWithRelock(vaults[0], SortByUnlock(vaults[1..]), now);
      assert Relock(vaults, now)[1..] == Relock(vaults[1..], now);
    }
  }

  /** Two reads of the same records at different clock readings list the same
      records in the same positions; only the lock flags may differ, and each is
      the lock rule at its own reading. */
  lemma FetchPositionsIgnoreClock(stored: seq<TimeVault>, now: int, later: int)
    ensures |FetchView(stored, later)| == |FetchView(stored, now)|
    ensures forall k :: 0 <= k < |stored| ==>
      FetchView(stored, later)[k] == Relocked(FetchView(stored, now)[k], later)
  {
    SortCommutesWithRelock(stored, now);
    SortCommutesWithRelock(stored, later);
  }

  /** Locking never re-engages: a record a read reports as open is open in every
      later read of the same records. */
  lemma UnlockIsPermanent(stored: seq<TimeVault>, now: int, later: int, k: int)
    requires now <= later
    requires 0 <= k < |stored|
    requires !FetchView(stored, now)[k].isLocked
    ensures !FetchView(stored, later)[k].isLocked
    ensures FetchView(stored, later)[k].id == FetchView(stored, now)[k].id
  {
    FetchPositionsIgnoreClock(stored, now, later);
  }

  /** Two reads at the same clock reading of the same records agree, so records
      with equal unlock instants keep one relative order: the stored one. */
  lemma FetchIsStable(stored: seq<TimeVault>, now: int, t: int)
    ensures UnlockingAt(FetchView(stored, now), t) == UnlockingAt(Relock(stored, now), t)
  {
    SortIsStable(Relock(stored, now), t);
  }

  // ---------------------------------------------------------------------------
  // Creating: turn every raw file into a durable URL, then append one record.

  /** The item holds a raw file whose conversion to a URL fails. */
  predicate MaterialiseFails(item: MediaItem, materialise: FileRef -> Option<string>)
  {
    item.file.Some? && materialise(item.file.value).None?
  }

  /** An item after conversion: a raw file is replaced by its URL and dropped; an
      item without one is kept as it is. */
  function Materialised(item: MediaItem, materialise: FileRef -> Option<string>): (r: MediaItem)
    requires !MaterialiseFails(item, materialise)
    ensures r.file.None? && r.id == item.id && r.kind == item.kind
    ensures item.file.None? ==> r == item
    ensures item.file.Some? ==> r.url == materialise(item.file.value).value
  {
    if item.file.Some? then item.(url := materialise(item.file.value).value, file := None) else item
  }

  /** All items converted, in input order, or `None` when any conversion fails. */
  function MaterialiseMedia(media: seq<MediaItem>, materialise: FileRef -> Option<string>): (r: Option<seq<MediaItem>>)
    ensures r.None? <==> exists k :: 0 <= k < |media| && MaterialiseFails(media[k], materialise)
    ensures r.Some? ==> |r.value| == |media|
    ensures r.Some? ==> forall k :: 0 <= k < |media| ==> r.value[k] == Materialised(media[k], materialise)
    ensures r.Some? ==> NoPendingUploads(r.value)
  {
    if media == [] then Some([])
    else if MaterialiseFails(media[0], materialise) then None
    else
      match MaterialiseMedia(media[1..], materialise)
      case None =>
        assert forall k :: 0 <= k < |media| - 1 ==> media[1..][k] == media[k + 1];
        None
      case Some(rest) => Some([Materialised(media[0], materialise)] + rest)
  }

  /** The record a successful create builds: title, description and unlock instant
      from the input, the converted media, and the lock rule at `now`. */
  function NewVault(data: TimeVaultData, id: string, media: seq<MediaItem>, now: int): (v: TimeVault)
    ensures v.id == id && v.media == media
    ensures v.title == data.title && v.description == data.description && v.unlockDate == data.unlockDate
    ensures v.isLocked == LockedAt(data.unlockDate, now)
  {
    TimeVault(id, data.title, data.description, media, data.unlockDate, LockedAt(data.unlockDate, now))
  }

  lemma {:induction false} RelockAppend(stored: seq<TimeVault>, v: TimeVault, now: int)
    ensures Relock(stored + [v], now) == Relock(stored, now) + [Relocked(v, now)]
  {
    var before, after := Relock(stored, now), Relock(stored + [v], now);
    assert |after| == |before + [Relocked(v, now)]|;
    forall k | 0 <= k < |after|
      ensures after[k] == (before + [Relocked(v, now)])[k]
    {
      if k < |stored| {
        assert (stored + [v])[k] == stored[k];
      }
    }
  }

  /** After an append, a read at any clock reading lists exactly one more copy of
      the new record (relocked) and everything it listed before. */
  lemma CreatedVaultIsListed(stored: seq<TimeVault>, v: TimeVault, now: int)
    ensures multiset(FetchView(stored + [v], now))
         == multiset(FetchView(stored, now)) + multiset{Relocked(v, now)}
    ensures Relocked(v, now) in FetchView(stored + [v], now)
  {
    RelockAppend(stored, v, now);
    var listed := FetchView(stored + [v], now);
    assert multiset(listed) == multiset(Relock(stored, now)) + multiset{Relocked(v, now)};
    assert Relocked(v, now) in multiset(listed);
  }

  /** The vault store behind one key. */
  class VaultRepository {
    /** The list under the store key; `None` while the key is absent. */
    var stored: Option<seq<TimeVault>>

    /** Stored records never hold raw files. */
    ghost predicate Valid()
      reads this
    {
      stored.Some? ==> AllDurable(stored.value)
    }

    constructor (initial: Option<seq<TimeVault>>)
      requires initial.Some? ==> AllDurable(initial.value)
      ensures Valid() && stored == initial
    {
      stored := initial;
    }

    /** Writes the whole list under the key. */
    method SaveMockVaults(vaults: seq<TimeVault>)
      requires AllDurable(vaults)
      modifies this
      ensures Valid() && stored == Some(vaults)
    {
      stored := Some(vaults);
    }

    /** Reads the list, writing the seed first when the key is absent. */
    method GetMockVaults(now: int) returns (vaults: seq<TimeVault>)
      requires Valid()
      modifies this
      ensures Valid()
      ensures vaults == StoredOrSeed(old(stored), now)
      ensures stored == Some(vaults)
    {
      match stored {
        case Some(records) =>
          vaults := records;
        case None =>
          vaults := SeedVaults(now);
          SaveMockVaults(vaults);
      }
    }

    /** Lists every vault, each flag recomputed against the one reading `now`,
        sorted ascending by unlock instant. */
    method FetchTimeVaults(now: int) returns (vaults: seq<TimeVault>)
      requires Valid()
      modifies this
      ensures Valid()
      ensures stored == Some(StoredOrSeed(old(stored), now))
      ensures vaults == FetchView(StoredOrSeed(old(stored), now), now)
    {
      var records := GetMockVaults(now);
      var updated := Relock(records, now);
      vaults := SortByUnlock(updated);
    }

    /** Converts the media, builds the record with the caller's `id`, and appends it
        to the list read at that moment. When a conversion fails the returned
        promise never settles: nothing is appended and `None` stands for that. */
    method CreateTimeVault(data: TimeVaultData, id: string, now: int, materialise: FileRef -> Option<string>)
      returns (created: Option<TimeVault>)
      requires Valid()
      modifies this
      ensures Valid()
      ensures created.None? <==> exists k :: 0 <= k < |data.media| && MaterialiseFails(data.media[k], materialise)
      ensures created.None? ==> stored == old(stored)
      ensures created.Some? ==>
        && created.value == NewVault(data, id, MaterialiseMedia(data.media, materialise).value, now)
        && stored == Some(StoredOrSeed(old(stored), now) + [created.value])
    {
      var media := MaterialiseMedia(data.media, materialise);
      if media.None? {
        return None;
      }
      var vault := NewVault(data, id, media.value, now);
      var vaults := GetMockVaults(now);
      SaveMockVaults(vaults + [vault]);
      created := Some(vault);
    }
  }
}
