/**
 * `DataManager`: the older relative of `APIHandler`. It makes its S3 client
 * lazily on first use, selects archived assets for deletion, lists external
 * assets and checks their S3 folders. The Code Ocean search results arrive as
 * parameters; what a client made by `boto3.client("s3")` answers is fixed when
 * the manager is made.
 */
module DataManagement {
  import opened Wrappers
  import opened Py
  import opened AssetQueries
  import opened Storage

  class DataManager {
    /** What `list_objects` answers on a client made by `boto3.client("s3")`. */
    const listObjects: ListObjectsRequest -> Result<Object, Error>
    /** `self._s3`. */
    var cachedS3: S3Client?
    /** How many S3 clients the manager has made. */
    ghost var clientsMade: nat

    /** At most one client is ever made, and it is the cached one. */
    ghost predicate Valid()
      reads this
    {
      && clientsMade <= 1
      && (cachedS3 == null <==> clientsMade == 0)
      && (cachedS3 != null ==> cachedS3.listObjects == listObjects)
    }

    constructor (listObjects: ListObjectsRequest -> Result<Object, Error>)
      ensures Valid()
      ensures this.listObjects == listObjects && cachedS3 == null && clientsMade == 0
    {
      this.listObjects := listObjects;
      cachedS3 := null;
      clientsMade := 0;
    }

    /** The `s3` property: makes the client on first use and hands back the same one afterwards. */
    method S3() returns (c: S3Client)
      requires Valid()
      modifies this
      ensures Valid()
      ensures cachedS3 == c && c.listObjects == listObjects
      ensures old(cachedS3) != null ==> c == old(cachedS3) && clientsMade == old(clientsMade)
      ensures old(cachedS3) == null ==> fresh(c) && clientsMade == old(clientsMade) + 1
    {
      if cachedS3 == null {
        c := new S3Client(listObjects);
        cachedS3 := c;
        clientsMade := clientsMade + 1;
      } else {
        c := cachedS3;
      }
    }

    /**
     * What `bucket_folder_exists` answers: a path that is not a string raises
     * AttributeError; otherwise the listing of the path without trailing
     * slashes decides.
     */
    function FolderExists(bucket: Value, path: Value): (r: Result<bool, Error>)
      ensures !path.Str? ==> r == Err(AttributeError("rstrip"))
      ensures path.Str? ==>
        var answer := listObjects(ListObjectsRequest(bucket, RStripSlashes(path.s), "/", 1));
        && (r.Ok? <==> answer.Ok?)
        && (r.Ok? ==> (r.value <==> "CommonPrefixes" in answer.value))
        && (r.Err? ==> r.error == answer.error)
    {
      if !path.Str? then Err(AttributeError("rstrip"))
      else PrefixExists(listObjects, bucket, path.s)
    }

    /**
     * `bucket_folder_exists`: the path is stripped before the client is
     * touched, so a bad path makes no client.
     */
    method BucketFolderExists(bucket: Value, path: Value) returns (r: Result<bool, Error>)
      requires Valid()
      modifies this
      ensures Valid()
      ensures r == FolderExists(bucket, path)
      ensures !path.Str? ==> cachedS3 == old(cachedS3) && clientsMade == old(clientsMade)
      ensures path.Str? ==> cachedS3 != null && clientsMade == 1
    {
      if !path.Str? {
        return Err(AttributeError("rstrip"));
      }
      var prefix := RStripSlashes(path.s);
      var s3 := S3();
      var response := s3.listObjects(ListObjectsRequest(bucket, prefix, "/", 1));
      if response.Err? {
        return Err(response.error);
      }
      r := Ok("CommonPrefixes" in response.value);
    }

    /**
     * The archived assets that may be deleted, in search order, with the
     * internal and external sizes it logs about them.
     */
    method FindArchivedDataAssetsToDelete(assets: seq<Asset>, keepAfter: int)
      returns (r: Result<seq<Asset>, Error>, internalSize: int, externalSize: int)
      ensures var selected := FilterList(assets, DeletableBefore(keepAfter));
        && (r.Ok? <==> selected.Ok? && TallyOf(selected.value).Ok?)
        && (r.Ok? ==> r.value == selected.value)
        && (r.Err? && selected.Err? ==> r == selected)
      ensures r.Ok? ==> forall a :: a in r.value <==> a in assets && Deletable(a, keepAfter) == Ok(true)
      ensures r.Ok? ==> TotalSize(r.value) == Ok(internalSize + externalSize)
    {
      internalSize, externalSize := 0, 0;
      r := SelectDeletable(assets, keepAfter);
      if r.Ok? {
        var tally := TallyBySource(r.value);
        if tally.Err? {
          r := Err(tally.error);
        } else {
          TallyAccountsForAll(r.value);
          FilterYieldComplete(assets, DeletableBefore(keepAfter));
          internalSize, externalSize := tally.value.internalSize, tally.value.externalSize;
        }
      }
    }

    /** `find_external_assets`: in search order, exactly the assets whose source bucket name is truthy. */
    function FindExternalAssets(assets: seq<Asset>): (y: Yielded<Asset>)
      ensures Subsequence(y.items, assets)
      ensures forall a :: a in y.items ==> NamesBucket(a)
      ensures y.raised.None? <==> forall i :: 0 <= i < |assets| ==> !BucketRaises(assets[i])
      ensures y.raised.None? ==> forall a :: a in y.items <==> a in assets && NamesBucket(a)
      ensures y.raised.None? ==> forall a :: multiset(y.items)[a] == if NamesBucket(a) then multiset(assets)[a] else 0
      ensures y.raised.Some? ==> y.raised == Some(AttributeError("get"))
      ensures y.raised.Some? ==>
        exists i :: 0 <= i < |assets| && BucketRaises(assets[i]) && (forall j :: 0 <= j < i ==> !BucketRaises(assets[j]))
          && (forall a :: a in y.items <==> a in assets[..i] && NamesBucket(a))
    {
      FilterYieldSubsequence(assets, HasBucket);
      FilterYieldComplete(assets, HasBucket);
      var y := FilterYield(assets, HasBucket);
      if y.raised.Some? then FilterYieldRaisePrefix(assets, HasBucket); y
      else FilterYieldCounts(assets, HasBucket); y
    }

    /**
     * `find_nonexistent_external_data_assets` as written: its body calls
     * `find_external_assets(client)` as a module-level function, which does
     * not exist, so the generator raises NameError on its first step.
     */
    function FindNonexistentAsWritten(assets: seq<Asset>): Yielded<Asset> {
      Yielded([], Some(NameError("find_external_assets")))
    }

    /** The folder check of one external asset, as the intended body makes it. */
    function FolderCheck(asset: Asset): Result<bool, Error> {
      var sb :- Index(asset, "sourceBucket");
      if !sb.Obj? then Err(TypeError("object is not subscriptable"))
      else
        var bucket :- Index(sb.fields, "bucket");
        var prefix :- Index(sb.fields, "prefix");
        FolderExists(bucket, prefix)
    }

    /** Keep an asset whose folder is missing; a ClientError is logged and skips the asset; anything else escapes. */
    function MissingTest(asset: Asset): Result<bool, Error> {
      match FolderCheck(asset)
      case Ok(found) => Ok(!found)
      case Err(e) => if e.ClientError? then Ok(false) else Err(e)
    }

    /** What the intended generator yields: the external assets that pass the test, in search order. */
    function MissingFolders(assets: seq<Asset>): Yielded<Asset> {
      var external := FindExternalAssets(assets);
      var missing := FilterYield(external.items, MissingTest);
      if missing.raised.Some? then missing else Yielded(missing.items, external.raised)
    }

    /**
     * The intended generator yields only external assets whose folder the
     * listing reports missing; when nothing raises it yields each of them; an
     * error other than a ClientError, or one from the external search, is
     * raised.
     */
    lemma MissingFoldersSelection(assets: seq<Asset>)
      ensures Subsequence(MissingFolders(assets).items, FindExternalAssets(assets).items)
      ensures forall a :: a in MissingFolders(assets).items ==> NamesBucket(a) && FolderCheck(a) == Ok(false)
      ensures MissingFolders(assets).raised.None? ==>
        forall a :: a in MissingFolders(assets).items <==>
          a in FindExternalAssets(assets).items && FolderCheck(a) == Ok(false)
      ensures MissingFolders(assets).raised.None? ==>
        forall a :: (multiset(MissingFolders(assets).items)[a] ==
          if FolderCheck(a) == Ok(false) then multiset(FindExternalAssets(assets).items)[a] else 0)
      ensures MissingFolders(assets).raised.None? <==>
        FindExternalAssets(assets).raised.None? && forall a :: a in FindExternalAssets(assets).items ==> MissingTest(a).Ok?
      ensures forall e :: MissingFolders(assets).raised == Some(e) ==> !e.ClientError?
    {
      MissingFoldersCounts(assets);
      MissingFoldersRaise(assets);
      var external := FindExternalAssets(assets);
      var missing := FilterYield(external.items, MissingTest);
      FilterYieldSubsequence(external.items, MissingTest);
      FilterYieldComplete(external.items, MissingTest);
      assert MissingFolders(assets).items == missing.items;
      forall a | a in missing.items ensures NamesBucket(a) && FolderCheck(a) == Ok(false) {
        assert a in external.items by { SubsequenceMembers(missing.items, external.items); }
      }
      if missing.raised.Some? {
        FilterYieldRaisePrefix(external.items, MissingTest);
      }
    }

    /** Without a raise, the intended generator yields each missing external asset as often as the search does. */
    lemma MissingFoldersCounts(assets: seq<Asset>)
      ensures MissingFolders(assets).raised.None? ==>
        forall a :: (multiset(MissingFolders(assets).items)[a] ==
          if FolderCheck(a) == Ok(false) then multiset(FindExternalAssets(assets).items)[a] else 0)
    {
      var external := FindExternalAssets(assets);
      if FilterYield(external.items, MissingTest).raised.None? {
        FilterYieldCounts(external.items, MissingTest);
      }
    }

    /**
     * The intended generator runs to its end iff the external search does and
     * no folder check of an external asset raises anything but a ClientError.
     */
    lemma MissingFoldersRaise(assets: seq<Asset>)
      ensures MissingFolders(assets).raised.None? <==>
        FindExternalAssets(assets).raised.None? && forall a :: a in FindExternalAssets(assets).items ==> MissingTest(a).Ok?
    {
      var external := FindExternalAssets(assets);
      FilterYieldComplete(external.items, MissingTest);
      assert (forall a :: a in external.items ==> MissingTest(a).Ok?)
        <==> (forall i :: 0 <= i < |external.items| ==> MissingTest(external.items[i]).Ok?);
    }

    /**
     * A manager whose listing never finds a folder, and one external asset:
     * the intended generator yields that asset, the code as written yields
     * nothing and raises NameError.
     */
    lemma NonexistentAsWrittenMissesFolder(asset: Asset)
      requires asset == map["sourceBucket" := Obj(map["bucket" := Str("b"), "prefix" := Str("p")])]
      requires forall req :: listObjects(req) == Ok(map[])
      ensures MissingFolders([asset]).items == [asset]
      ensures FindNonexistentAsWritten([asset]).items == []
      ensures FindNonexistentAsWritten([asset]).raised == Some(NameError("find_external_assets"))
    {
      assert [asset][..0] == [];
      assert HasBucket(asset) == Ok(true);
      assert FilterYield([asset][..0], HasBucket) == Yielded([], None);
      assert FilterYield([asset], HasBucket) == Yielded([asset], None);
      assert FindExternalAssets([asset]) == Yielded([asset], None);
      assert FolderCheck(asset) == Ok(false);
      assert MissingTest(asset) == Ok(true);
      assert FilterYield([asset][..0], MissingTest) == Yielded([], None);
      assert FilterYield([asset], MissingTest) == Yielded([asset], None);
    }

    /**
     * The generator as intended, with `self.` in front of the helper calls:
     * for each external asset, check its folder and yield it when missing.
     */
    method FindNonexistentExternalDataAssets(assets: seq<Asset>) returns (y: Yielded<Asset>)
      requires Valid()
      modifies this
      ensures Valid()
      ensures y == MissingFolders(assets)
    {
      var external := FindExternalAssets(assets);
      var found: seq<Asset> := [];
      var i := 0;
      while i < |external.items|
        invariant 0 <= i <= |external.items|
        invariant Valid()
        invariant FilterYield(external.items[..i], MissingTest) == Yielded(found, None)
      {
        FilterYieldStep(external.items, i, MissingTest, found);
        var asset := external.items[i];
        assert NamesBucket(asset);
        var sb := asset["sourceBucket"];
        var bucket := sb.fields["bucket"];
        var prefix := Index(sb.fields, "prefix");
        var check: Result<bool, Error>;
        if prefix.Err? {
          check := Err(prefix.error);
        } else {
          check := BucketFolderExists(bucket, prefix.value);
        }
        assert check == FolderCheck(asset);
        if check.Err? && !check.error.ClientError? {
          PrefixRaisedStays(external.items, i + 1, MissingTest);
          return Yielded(found, Some(check.error));
        }
        if check == Ok(false) {
          found := found + [asset];
        }
        i := i + 1;
      }
      assert external.items[..i] == external.items;
      y := Yielded(found, external.raised);
    }
  }
}
