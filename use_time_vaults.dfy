/** The vault lifecycle controller of `hooks/useTimeVaults.ts`: the state
    `{vaults, isLoading, error}` and the two operations that drive it. An awaited
    service call splits an operation in two; the settled value of the call is a
    parameter (`Some` for a resolved promise, `None` for a rejected one). */
module UseTimeVaults {
  import opened Prelude
  import opened Types
  import opened BackendService

  const LoadFailed: string := "Failed to load time vaults."
  const CreateFailed: string := "Failed to create time vault."

  class VaultController {
    var vaults: seq<TimeVault>
    var isLoading: bool
    var error: Option<string>

    /** The hook as mounted against the repository: the initial state, then the
        load its mount effect starts, served by `repo` at `now`. */
    static method Mount(repo: VaultRepository, now: int) returns (c: VaultController)
      requires repo.Valid()
      modifies repo
      ensures fresh(c) && repo.Valid()
      ensures repo.stored == Some(StoredOrSeed(old(repo.stored), now))
      ensures c.vaults == FetchView(StoredOrSeed(old(repo.stored), now), now)
      ensures !c.isLoading && c.error == None
    {
      c := new VaultController();
      c.LoadFrom(repo, now);
    }

    /** The state on mount, before the mount-time load has settled. */
    constructor ()
      ensures vaults == [] && isLoading && error == None
    {
      vaults := [];
      isLoading := true;
      error := None;
    }

    /** A load up to the awaited fetch: loading, with the error cleared. */
    method BeginLoad()
      modifies this
      ensures isLoading && error == None && vaults == old(vaults)
    {
      isLoading := true;
      error := None;
    }

    /** A load once the fetch has settled: a resolved list replaces `vaults`; a
        rejection keeps the old list and records the load error. Either way the
        `finally` clears `isLoading`. */
    method FinishLoad(fetched: Option<seq<TimeVault>>)
      modifies this
      ensures !isLoading
      ensures fetched.Some? ==> vaults == fetched.value && error == old(error)
      ensures fetched.None? ==> vaults == old(vaults) && error == Some(LoadFailed)
    {
      if fetched.Some? {
        vaults := fetched.value;
      } else {
        error := Some(LoadFailed);
      }
      isLoading := false;
    }

    /** `loadVaults` with the settled fetch `fetched`. */
    method LoadVaults(fetched: Option<seq<TimeVault>>)
      modifies this
      ensures !isLoading
      ensures fetched.Some? ==> vaults == fetched.value && error == None
      ensures fetched.None? ==> vaults == old(vaults) && error == Some(LoadFailed)
    {
      BeginLoad();
      FinishLoad(fetched);
    }

    /** `addVault` with the settled create `created` and the settled fetch of the
        reload that follows a successful create. A rejected create records the
        create error, leaves the list and the loading flag alone and is rethrown
        (`None`); a resolved one reloads and returns the created vault, whatever
        the reload gives, since `loadVaults` never rethrows. */
    method AddVault(created: Option<TimeVault>, fetched: Option<seq<TimeVault>>)
      returns (returned: Option<TimeVault>)
      modifies this
      ensures created.None? ==>
        && returned.None?
        && vaults == old(vaults) && isLoading == old(isLoading)
        && error == Some(CreateFailed)
      ensures created.Some? ==>
        && returned == created && !isLoading
        && (fetched.Some? ==> vaults == fetched.value && error == None)
        && (fetched.None? ==> vaults == old(vaults) && error == Some(LoadFailed))
    {
      if created.None? {
        error := Some(CreateFailed);
        return None;
      }
      LoadVaults(fetched);
      returned := created;
    }

    /** A load served by the repository: the list becomes the repository's read at
        `now`, sorted and relocked, and no error remains. */
    method LoadFrom(repo: VaultRepository, now: int)
      requires repo.Valid()
      modifies this, repo
      ensures repo.Valid()
      ensures repo.stored == Some(StoredOrSeed(old(repo.stored), now))
      ensures vaults == FetchView(StoredOrSeed(old(repo.stored), now), now)
      ensures !isLoading && error == None
    {
      BeginLoad();
      var fetched := repo.FetchTimeVaults(now);
      FinishLoad(Some(fetched));
    }

    /** `addVault` served by the repository: create at `now`, reload at `later`.
        When a media conversion fails the create never settles, so neither the
        store nor this state changes and nothing is returned (`None`). Otherwise
        the reloaded list holds the new vault, relocked at `later`. */
    method AddVaultVia(repo: VaultRepository, data: TimeVaultData, id: string, now: int,
                       materialise: FileRef -> Option<string>, later: int)
      returns (returned: Option<TimeVault>)
      requires repo.Valid()
      modifies this, repo
      ensures repo.Valid()
      ensures returned.None? <==> MaterialiseMedia(data.media, materialise).None?
      ensures returned.None? ==>
        && repo.stored == old(repo.stored)
        && vaults == old(vaults) && isLoading == old(isLoading) && error == old(error)
      ensures returned.Some? ==>
        && returned.value == NewVault(data, id, MaterialiseMedia(data.media, materialise).value, now)
        && repo.stored == Some(StoredOrSeed(old(repo.stored), now) + [returned.value])
        && vaults == FetchView(StoredOrSeed(old(repo.stored), now) + [returned.value], later)
        && Relocked(returned.value, later) in vaults
        && !isLoading && error == None
    {
      returned := repo.CreateTimeVault(data, id, now, materialise);
      if returned.None? {
        return;
      }
      ghost var records := repo.stored.value;
      LoadFrom(repo, later);
      assert repo.stored == Some(records);
      CreatedVaultIsListed(records[..|records| - 1], returned.value, later);
      assert records[..|records| - 1] + [returned.value] == records;
    }
  }
}
