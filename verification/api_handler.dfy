/**
 * `APIHandler`: bulk tag maintenance on Code Ocean data assets, the search for
 * archived assets old enough to delete, and the search for external assets
 * whose S3 folder has disappeared. The Code Ocean search results arrive as
 * parameters; the `update_data_asset` calls the handler sends are recorded in
 * its `updates` log.
 */
module ApiHandlers {
  import opened Wrappers
  import opened Py
  import opened AssetQueries
  import opened Storage

  /** `replace.get(t, t)`. */
  function Rename<T>(replace: map<T, T>, t: T): T {
    if t in replace then replace[t] else t
  }

  /** Remove, then add, then rename: `{replace.get(t, t) for t in (tags - remove) | add}`. */
  function Retag<T>(tags: set<T>, remove: set<T>, add: set<T>, replace: map<T, T>): set<T> {
    set t | t in (tags - remove) + add :: Rename(replace, t)
  }

  /**
   * What survives a rewrite: a kept or added tag is present under its new name,
   * so a tag that is both removed and added ends up present; and without
   * renames the result is exactly the kept tags plus the added ones.
   */
  lemma RetagKeepsAndAdds<T>(tags: set<T>, remove: set<T>, add: set<T>, replace: map<T, T>)
    ensures forall t :: t in add ==> Rename(replace, t) in Retag(tags, remove, add, replace)
    ensures forall t :: t in tags && t !in remove ==> Rename(replace, t) in Retag(tags, remove, add, replace)
    ensures replace == map[] ==> Retag(tags, remove, add, replace) == (tags - remove) + add
  {
    if replace == map[] {
      var r := Retag(tags, remove, add, replace);
      forall t | t in r ensures t in (tags - remove) + add {
        var u :| u in (tags - remove) + add && Rename(replace, u) == t;
      }
    }
  }

  /** Without renames, rewriting twice is rewriting once. */
  lemma {:induction false} RetagIdempotent<T>(tags: set<T>, remove: set<T>, add: set<T>)
    ensures var once := Retag(tags, remove, add, map[]);
            Retag(once, remove, add, map[]) == once
  {
    RetagKeepsAndAdds(tags, remove, add, map[]);
    RetagKeepsAndAdds(Retag(tags, remove, add, map[]), remove, add, map[]);
  }

  /** Python's `set(v)` for the value of an asset's "tags": None gives the empty set. */
  function TagSet(v: Value): (r: Result<set<Value>, Error>)
    ensures v.Null? ==> r == Ok({})
    ensures v.Arr? && (forall x :: x in v.items ==> !x.Arr? && !x.Obj?) ==>
      r == Ok(set x | x in v.items)
    ensures v.Int? || v.Bool? ==> r.Err?
  {
    match v
    case Null => Ok({})
    case Arr(items) =>
      if exists x :: x in items && (x.Arr? || x.Obj?) then Err(TypeError("unhashable type"))
      else Ok(set x | x in items)
    case Str(s) => Ok(set i | 0 <= i < |s| :: Str([s[i]]))
    case Obj(fields) => Ok(set k | k in fields :: Str(k))
    case _ => Err(TypeError("object is not iterable"))
  }

  function StrSet(xs: seq<string>): set<Value> {
    set x | x in xs :: Str(x)
  }

  function StrMap(m: map<string, string>): map<Value, Value> {
    map k | k in m :: Str(k) := Str(m[k])
  }

  /** The new tag set of one asset; None arguments and a missing or None "tags" field count as empty. */
  function NewTags(asset: Asset, tagsToRemove: Option<seq<string>>, tagsToAdd: Option<seq<string>>,
                   tagsToReplace: Option<map<string, string>>): Result<set<Value>, Error>
  {
    var tags :- TagSet(Get(asset, "tags"));
    Ok(Retag(tags, StrSet(tagsToRemove.GetOr([])), StrSet(tagsToAdd.GetOr([])), StrMap(tagsToReplace.GetOr(map[]))))
  }

  /** `co_client.update_data_asset(data_asset_id=…, new_name=…, new_tags=…)`. */
  datatype UpdateCall = UpdateDataAsset(dataAssetId: Value, newName: Value, newTags: set<Value>)

  /** The update for one asset: its new tags, then its "id" and "name" (a missing one raises KeyError). */
  function PlanUpdate(asset: Asset, tagsToRemove: Option<seq<string>>, tagsToAdd: Option<seq<string>>,
                      tagsToReplace: Option<map<string, string>>): Result<UpdateCall, Error>
  {
    var newTags :- NewTags(asset, tagsToRemove, tagsToAdd, tagsToReplace);
    var id :- Index(asset, "id");
    var name :- Index(asset, "name");
    Ok(UpdateDataAsset(id, name, newTags))
  }

  /** The updates for the assets in iteration order, up to the first asset that raises. */
  function PlannedUpdates(assets: seq<Asset>, tagsToRemove: Option<seq<string>>, tagsToAdd: Option<seq<string>>,
                          tagsToReplace: Option<map<string, string>>): Yielded<UpdateCall>
    decreases |assets|
  {
    if assets == [] then Yielded([], None)
    else
      var p := PlannedUpdates(assets[..|assets| - 1], tagsToRemove, tagsToAdd, tagsToReplace);
      if p.raised.Some? then p
      else match PlanUpdate(assets[|assets| - 1], tagsToRemove, tagsToAdd, tagsToReplace)
        case Err(e) => Yielded(p.items, Some(e))
        case Ok(call) => Yielded(p.items + [call], None)
  }

  /**
   * At most one update per asset, the i-th for the i-th asset and carrying that
   * asset's own id and name; one for every asset when nothing raises, and when
   * something raises, it is the asset right after the updated ones.
   */
  lemma {:induction false} PlannedUpdatesPerAsset(assets: seq<Asset>, tagsToRemove: Option<seq<string>>,
                                                  tagsToAdd: Option<seq<string>>, tagsToReplace: Option<map<string, string>>)
    ensures var y := PlannedUpdates(assets, tagsToRemove, tagsToAdd, tagsToReplace);
      && |y.items| <= |assets|
      && (y.raised.None? ==> |y.items| == |assets|)
      && (y.raised.Some? ==>
            (|y.items| < |assets|
             && PlanUpdate(assets[|y.items|], tagsToRemove, tagsToAdd, tagsToReplace) == Err(y.raised.value)))
      && (forall i :: 0 <= i < |y.items| ==>
            PlanUpdate(assets[i], tagsToRemove, tagsToAdd, tagsToReplace) == Ok(y.items[i]))
      && (forall i :: 0 <= i < |y.items| ==>
            "id" in assets[i] && "name" in assets[i]
            && y.items[i].dataAssetId == assets[i]["id"] && y.items[i].newName == assets[i]["name"])
    decreases |assets|
  {
    if assets != [] {
      var init := assets[..|assets| - 1];
      PlannedUpdatesPerAsset(init, tagsToRemove, tagsToAdd, tagsToReplace);
      var p := PlannedUpdates(init, tagsToRemove, tagsToAdd, tagsToReplace);
      forall i | 0 <= i < |p.items| ensures assets[i] == init[i] { }
    }
  }

  lemma {:induction false} PlanRaisedStays(assets: seq<Asset>, n: nat, tagsToRemove: Option<seq<string>>,
                                           tagsToAdd: Option<seq<string>>, tagsToReplace: Option<map<string, string>>)
    requires n <= |assets|
    requires PlannedUpdates(assets[..n], tagsToRemove, tagsToAdd, tagsToReplace).raised.Some?
    ensures PlannedUpdates(assets, tagsToRemove, tagsToAdd, tagsToReplace)
         == PlannedUpdates(assets[..n], tagsToRemove, tagsToAdd, tagsToReplace)
    decreases |assets| - n
  {
    if n < |assets| {
      assert assets[..n + 1][..n] == assets[..n];
      PlanRaisedStays(assets, n + 1, tagsToRemove, tagsToAdd, tagsToReplace);
    } else {
      assert assets[..n] == assets;
    }
  }

  /** One more asset either extends the planned updates by its own update or raises. */
  lemma PlanStep(assets: seq<Asset>, n: nat, tagsToRemove: Option<seq<string>>, tagsToAdd: Option<seq<string>>,
                 tagsToReplace: Option<map<string, string>>, planned: seq<UpdateCall>)
    requires n < |assets|
    requires PlannedUpdates(assets[..n], tagsToRemove, tagsToAdd, tagsToReplace) == Yielded(planned, None)
    ensures var call := PlanUpdate(assets[n], tagsToRemove, tagsToAdd, tagsToReplace);
      && (call.Err? ==>
            PlannedUpdates(assets[..n + 1], tagsToRemove, tagsToAdd, tagsToReplace) == Yielded(planned, Some(call.error)))
      && (call.Ok? ==>
            PlannedUpdates(assets[..n + 1], tagsToRemove, tagsToAdd, tagsToReplace) == Yielded(planned + [call.value], None))
  {
    assert assets[..n + 1][..n] == assets[..n];
  }

  /** Without renames, an asset whose tags were just rewritten gets the same tags from a second rewrite. */
  lemma NewTagsIdempotent(asset: Asset, tagsToRemove: Option<seq<string>>, tagsToAdd: Option<seq<string>>)
    requires NewTags(asset, tagsToRemove, tagsToAdd, None).Ok?
    ensures var once := NewTags(asset, tagsToRemove, tagsToAdd, None).value;
            Retag(once, StrSet(tagsToRemove.GetOr([])), StrSet(tagsToAdd.GetOr([])), map[]) == once
  {
    var tags := TagSet(Get(asset, "tags")).value;
    RetagIdempotent(tags, StrSet(tagsToRemove.GetOr([])), StrSet(tagsToAdd.GetOr([])));
    assert StrMap(map[]) == map[];
  }

  class APIHandler {
    const s3: S3Client?
    const dryrun: bool
    /** The `update_data_asset` calls sent so far, in order. */
    var updates: seq<UpdateCall>

    constructor (s3: S3Client?, dryrun: bool)
      ensures this.s3 == s3 && this.dryrun == dryrun && updates == []
    {
      this.s3 := s3;
      this.dryrun := dryrun;
      updates := [];
    }

    /**
     * Rewrites the tags of each asset in turn and sends one update per asset
     * with its original id and name; in dry-run mode nothing is sent. An asset
     * that raises ends the loop, after the updates of the assets before it.
     */
    method UpdateTags(tagsToRemove: Option<seq<string>>, tagsToAdd: Option<seq<string>>,
                      tagsToReplace: Option<map<string, string>>, dataAssets: seq<Asset>)
      returns (raised: Option<Error>)
      modifies this
      ensures var plan := PlannedUpdates(dataAssets, tagsToRemove, tagsToAdd, tagsToReplace);
        && raised == plan.raised
        && updates == old(updates) + (if dryrun then [] else plan.items)
    {
      ghost var planned: seq<UpdateCall> := [];
      var i := 0;
      while i < |dataAssets|
        invariant 0 <= i <= |dataAssets|
        invariant PlannedUpdates(dataAssets[..i], tagsToRemove, tagsToAdd, tagsToReplace) == Yielded(planned, None)
        invariant updates == old(updates) + (if dryrun then [] else planned)
      {
        PlanStep(dataAssets, i, tagsToRemove, tagsToAdd, tagsToReplace, planned);
        var call := PlanUpdate(dataAssets[i], tagsToRemove, tagsToAdd, tagsToReplace);
        if call.Err? {
          PlanRaisedStays(dataAssets, i + 1, tagsToRemove, tagsToAdd, tagsToReplace);
          return Some(call.error);
        }
        if !dryrun {
          updates := updates + [call.value];
        }
        planned := planned + [call.value];
        i := i + 1;
      }
      assert dataAssets[..i] == dataAssets;
      raised := None;
    }

    /**
     * The archived assets that may be deleted, in search order, together with
     * the per-source figures it logs about them; the figures account for every
     * selected asset once.
     */
    method FindArchivedDataAssetsToDelete(assets: seq<Asset>, keepAfter: int)
      returns (r: Result<seq<Asset>, Error>, logged: Tally)
      ensures var selected := FilterList(assets, DeletableBefore(keepAfter));
        && (r.Ok? <==> selected.Ok? && TallyOf(selected.value).Ok?)
        && (r.Ok? ==> r.value == selected.value && logged == TallyOf(r.value).value)
        && (r.Err? && selected.Err? ==> r == selected)
        && (r.Err? && selected.Ok? ==> r.error == TallyOf(selected.value).error)
      ensures r.Ok? ==> Subsequence(r.value, assets)
      ensures r.Ok? ==> forall a :: a in r.value <==> a in assets && Deletable(a, keepAfter) == Ok(true)
      ensures r.Ok? ==> logged.internalCount + logged.externalCount == |r.value|
    {
      logged := Tally(0, 0, 0, 0);
      FilterYieldSubsequence(assets, DeletableBefore(keepAfter));
      FilterYieldComplete(assets, DeletableBefore(keepAfter));
      r := SelectDeletable(assets, keepAfter);
      if r.Ok? {
        var tally := TallyBySource(r.value);
        if tally.Err? {
          r := Err(tally.error);
        } else {
          TallyAccountsForAll(r.value);
          logged := tally.value;
        }
      }
    }

    /** The external data assets: in search order, exactly those whose source bucket name is truthy. */
    function FindExternalDataAssets(assets: seq<Asset>): (y: Yielded<Asset>)
      ensures Subsequence(y.items, assets)
      ensures forall a :: a in y.items ==> NamesBucket(a)
      ensures y.raised.None? <==> forall i :: 0 <= i < |assets| ==> !BucketRaises(assets[i])
      ensures y.raised.None? ==> forall a :: a in y.items <==> a in assets && NamesBucket(a)
      ensures y.raised.None? ==> forall a :: multiset(y.items)[a] == if NamesBucket(a) then multiset(assets)[a] else 0
      ensures y.raised.Some? ==> y.raised == Some(AttributeError("get"))
      ensures y.raised.Some? ==>
        exists i :: 0 <= i < |assets| && BucketRaises(assets[i]) && (forall j :: 0 <= j < i ==> !BucketRaises(assets[j]))
          && (forall a :: a in y.items <==> a in assets[..i] && NamesBucket(a))
    {
      FilterYieldSubsequence(assets, HasBucket);
      FilterYieldComplete(assets, HasBucket);
      var y := FilterYield(assets, HasBucket);
      if y.raised.Some? then FilterYieldRaisePrefix(assets, HasBucket); y
      else FilterYieldCounts(assets, HasBucket); y
    }

    /**
     * `_bucket_prefix_exists`: strips the trailing slashes of the prefix, lists
     * the folder, and reports whether the answer holds "CommonPrefixes".
     * A prefix that is not a string, or a handler built without an S3 client,
     * raises AttributeError.
     */
    function BucketPrefixExists(bucket: Value, prefix: Value): (r: Result<bool, Error>)
      ensures !prefix.Str? ==> r == Err(AttributeError("rstrip"))
      ensures prefix.Str? && s3 == null ==> r == Err(AttributeError("list_objects"))
      ensures prefix.Str? && s3 != null ==>
        var answer := s3.listObjects(ListObjectsRequest(bucket, RStripSlashes(prefix.s), "/", 1));
        && (r.Ok? <==> answer.Ok?)
        && (r.Ok? ==> (r.value <==> "CommonPrefixes" in answer.value))
    {
      if !prefix.Str? then Err(AttributeError("rstrip"))
      else if s3 == null then Err(AttributeError("list_objects"))
      else PrefixExists(s3.listObjects, bucket, prefix.s)
    }

    /** The body of the `try` in `find_nonexistent_external_data_assets`: the folder check of one asset. */
    function FolderCheck(asset: Asset): Result<bool, Error> {
      var sb :- Index(asset, "sourceBucket");
      if !sb.Obj? then Err(TypeError("object is not subscriptable"))
      else
        var bucket :- Index(sb.fields, "bucket");
        var prefix :- Index(sb.fields, "prefix");
        BucketPrefixExists(bucket, prefix)
    }

    /** The test applied to each external asset: an exception inside the `try` is logged and the asset skipped. */
    function ReportedMissing(asset: Asset): Result<bool, Error> {
      Ok(FolderCheck(asset) == Ok(false))
    }

    /**
     * The external assets whose S3 folder is missing: in search order, exactly
     * the external assets whose check answered false. An asset whose check
     * raised is skipped; an exception from the external search itself ends the
     * generator.
     */
    function FindNonexistentExternalDataAssets(assets: seq<Asset>): (y: Yielded<Asset>)
      ensures Subsequence(y.items, FindExternalDataAssets(assets).items)
      ensures y.raised == FindExternalDataAssets(assets).raised
      ensures forall a :: a in y.items <==>
        a in FindExternalDataAssets(assets).items && FolderCheck(a) == Ok(false)
      ensures forall a :: (multiset(y.items)[a] ==
        if FolderCheck(a) == Ok(false) then multiset(FindExternalDataAssets(assets).items)[a] else 0)
    {
      var external := FindExternalDataAssets(assets);
      var missing := FilterYield(external.items, ReportedMissing);
      FilterYieldSubsequence(external.items, ReportedMissing);
      FilterYieldComplete(external.items, ReportedMissing);
      FilterYieldCounts(external.items, ReportedMissing);
      Yielded(missing.items, external.raised)
    }
  }
}
