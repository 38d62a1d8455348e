/** The dashboard of `components/Dashboard.tsx`: the split of the loaded vaults
    into a locked and an unlocked section, the empty-state rule, the selection of
    a card, and what happens after the create form's `onCreate` settles. */
module Dashboard {
  import opened Prelude
  import opened Types
  import opened BackendService
  import opened UseTimeVaults
  import opened VaultCard

  const CreatedNotice: string := "New TimeVault created successfully!"

  predicate IsLocked(v: TimeVault) { v.isLocked }
  predicate IsUnlocked(v: TimeVault) { !v.isLocked }

  function LockedVaults(vaults: seq<TimeVault>): (r: seq<TimeVault>)
    ensures forall k :: 0 <= k < |r| ==> r[k].isLocked
    ensures forall v :: v in r <==> v in vaults && v.isLocked
  {
    Filter(vaults, IsLocked)
  }

  function UnlockedVaults(vaults: seq<TimeVault>): (r: seq<TimeVault>)
    ensures forall k :: 0 <= k < |r| ==> !r[k].isLocked
    ensures forall v :: v in r <==> v in vaults && !v.isLocked
  {
    Filter(vaults, IsUnlocked)
  }

  /** The two sections split the list: together they hold every vault once, and
      each keeps the list's order. */
  lemma SectionsPartitionTheList(vaults: seq<TimeVault>)
    ensures |LockedVaults(vaults)| + |UnlockedVaults(vaults)| == |vaults|
    ensures multiset(LockedVaults(vaults)) + multiset(UnlockedVaults(vaults)) == multiset(vaults)
    ensures IsSubsequence(LockedVaults(vaults), vaults)
    ensures IsSubsequence(UnlockedVaults(vaults), vaults)
  {
    FilterPartition(vaults, IsLocked, IsUnlocked);
    FilterIsSubsequence(vaults, IsLocked);
    FilterIsSubsequence(vaults, IsUnlocked);
  }

  /** On a list read from the repository at `now`, the locked section is exactly
      the vaults whose unlock instant is after `now`. */
  lemma SectionsFollowTheLockRule(stored: seq<TimeVault>, now: int)
    ensures forall v :: v in LockedVaults(FetchView(stored, now)) ==> LockedAt(v.unlockDate, now)
    ensures forall v :: v in UnlockedVaults(FetchView(stored, now)) ==> !LockedAt(v.unlockDate, now)
  {
  }

  /** The "no vaults yet" message. */
  predicate ShowsEmptyState(isLoading: bool, vaults: seq<TimeVault>)
  {
    !isLoading && |vaults| == 0
  }

  /** The empty-state message and the two sections never show together. */
  lemma EmptyStateExcludesSections(isLoading: bool, vaults: seq<TimeVault>)
    ensures ShowsEmptyState(isLoading, vaults) ==> LockedVaults(vaults) == [] && UnlockedVaults(vaults) == []
    ensures !isLoading && (LockedVaults(vaults) == [] && UnlockedVaults(vaults) == []) ==> ShowsEmptyState(isLoading, vaults)
  {
    SectionsPartitionTheList(vaults);
  }

  class DashboardState {
    /** The controller the dashboard reads its vaults from. */
    const controller: VaultController
    var isCreating: bool
    var selectedVault: Option<TimeVault>
    var notification: string

    constructor (controller: VaultController)
      ensures this.controller == controller
      ensures !isCreating && selectedVault.None? && notification == ""
    {
      this.controller := controller;
      isCreating := false;
      selectedVault := None;
      notification := "";
    }

    /** A click on the card of `vault`: only an open card selects its vault. */
    method ClickCard(vault: TimeVault)
      modifies this
      ensures RenderCard(vault).Selectable() ==> selectedVault == Some(vault)
      ensures !RenderCard(vault).Selectable() ==> selectedVault == old(selectedVault)
      ensures isCreating == old(isCreating) && notification == old(notification)
    {
      if RenderCard(vault).Selectable() {
        selectedVault := Some(vault);
      }
    }

    /** `handleCreateVault` with the settled create and reload: only when
        `addVault` returns is the notice set and the form closed; when it rethrows,
        the rejection goes back to the form and this state is left alone. */
    method HandleCreateVault(created: Option<TimeVault>, fetched: Option<seq<TimeVault>>) returns (completed: bool)
      modifies this, controller
      ensures completed == created.Some?
      ensures completed ==> notification == CreatedNotice && !isCreating
      ensures !completed ==> notification == old(notification) && isCreating == old(isCreating)
      ensures selectedVault == old(selectedVault)
      ensures created.None? ==>
        && controller.vaults == old(controller.vaults) && controller.isLoading == old(controller.isLoading)
        && controller.error == Some(CreateFailed)
      ensures created.Some? ==>
        && !controller.isLoading
        && (fetched.Some? ==> controller.vaults == fetched.value && controller.error == None)
        && (fetched.None? ==> controller.vaults == old(controller.vaults) && controller.error == Some(LoadFailed))
    {
      var returned := controller.AddVault(created, fetched);
      if returned.None? {
        return false;
      }
      notification := CreatedNotice;
      isCreating := false;
      completed := true;
    }
  }
}
