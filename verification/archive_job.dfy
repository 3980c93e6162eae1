/**
 * `ArchiveDeleteJob.delete_data_assets`: a generator over the archived search
 * results that yields the assets the retention rule lets go. Despite its name
 * it deletes nothing, and its `dry_run` flag is never read, so the model takes
 * the flag and ignores it.
 */
module ArchiveJobs {
  import opened Wrappers
  import opened Py
  import opened AssetQueries

  /**
   * Yields, in search order, exactly the archived assets the retention rule
   * marks deletable, and stops at the first asset whose timestamps raise,
   * after yielding those before it. Run to its end without a raise, it yields
   * the very list `find_archived_data_assets_to_delete` selects.
   */
  function DeleteDataAssets(assets: seq<Asset>, keepAfter: int, dryRun: bool): (y: Yielded<Asset>)
    ensures Subsequence(y.items, assets)
    ensures forall a :: a in y.items ==> Deletable(a, keepAfter) == Ok(true)
    ensures y.raised.None? <==> forall i :: 0 <= i < |assets| ==> Deletable(assets[i], keepAfter).Ok?
    ensures y.raised.None? ==> forall a :: a in y.items <==> a in assets && Deletable(a, keepAfter) == Ok(true)
    ensures y.raised.None? ==> FilterList(assets, DeletableBefore(keepAfter)) == Ok(y.items)
    ensures y.raised.None? ==>
      forall a :: multiset(y.items)[a] == if Deletable(a, keepAfter) == Ok(true) then multiset(assets)[a] else 0
    ensures y.raised.Some? ==>
      exists i :: 0 <= i < |assets| && Deletable(assets[i], keepAfter) == Err(y.raised.value)
        && (forall j :: 0 <= j < i ==> Deletable(assets[j], keepAfter).Ok?)
        && (forall a :: a in y.items <==> a in assets[..i] && Deletable(a, keepAfter) == Ok(true))
  {
    var y := FilterYield(assets, DeletableBefore(keepAfter));
    FilterYieldSubsequence(assets, DeletableBefore(keepAfter));
    FilterYieldComplete(assets, DeletableBefore(keepAfter));
    if y.raised.Some? then FilterYieldRaisePrefix(assets, DeletableBefore(keepAfter)); y
    else FilterYieldCounts(assets, DeletableBefore(keepAfter)); y
  }

  /** The dry-run flag changes nothing. */
  lemma DeleteDataAssetsIgnoresDryRun(assets: seq<Asset>, keepAfter: int)
    ensures DeleteDataAssets(assets, keepAfter, true) == DeleteDataAssets(assets, keepAfter, false)
  {
  }
}
