/**
 * The asset filters shared by `APIHandler`, `DataManager` and `ArchiveDeleteJob`:
 * the retention rule for archived assets, the external-asset test, and the
 * per-source tallies of the assets selected for deletion.
 *
 * An asset is the JSON object Code Ocean returns for it. Timestamps are epoch
 * seconds, compared as integers.
 */
module AssetQueries {
  import opened Wrappers
  import opened Py

  type Asset = Object

  /** What a Python generator produced: the values it yielded, then the exception that ended it, if any. */
  datatype Yielded<T> = Yielded(items: seq<T>, raised: Option<Error>)

  /** `xs` is `ys` with some elements left out, order kept. */
  predicate Subsequence<T(==)>(xs: seq<T>, ys: seq<T>)
    decreases |ys|
  {
    if ys == [] then xs == []
    else
      || (xs != [] && xs[|xs| - 1] == ys[|ys| - 1] && Subsequence(xs[..|xs| - 1], ys[..|ys| - 1]))
      || Subsequence(xs, ys[..|ys| - 1])
  }

  /** Leaving elements out adds none. */
  lemma {:induction false} SubsequenceMembers<T>(xs: seq<T>, ys: seq<T>)
    requires Subsequence(xs, ys)
    ensures forall x :: x in xs ==> x in ys
    decreases |ys|
  {
    if ys != [] {
      var yinit := ys[..|ys| - 1];
      if xs != [] && xs[|xs| - 1] == ys[|ys| - 1] && Subsequence(xs[..|xs| - 1], yinit) {
        SubsequenceMembers(xs[..|xs| - 1], yinit);
        assert xs == xs[..|xs| - 1] + [xs[|xs| - 1]];
      } else {
        SubsequenceMembers(xs, yinit);
      }
    }
  }

  /**
   * `for asset in s: if keep(asset): yield asset`, where evaluating `keep`
   * may raise: the loop stops at the first raise.
   */
  function FilterYield(s: seq<Asset>, keep: Asset -> Result<bool, Error>): Yielded<Asset>
    decreases |s|
  {
    if s == [] then Yielded([], None)
    else
      var p := FilterYield(s[..|s| - 1], keep);
      if p.raised.Some? then p
      else match keep(s[|s| - 1])
        case Err(e) => Yielded(p.items, Some(e))
        case Ok(b) => if b then Yielded(p.items + [s[|s| - 1]], None) else p
  }

  /**
   * What the filter yields is the input with some assets left out, in input
   * order; each of them passed the test.
   */
  lemma {:induction false} FilterYieldSubsequence(s: seq<Asset>, keep: Asset -> Result<bool, Error>)
    ensures Subsequence(FilterYield(s, keep).items, s)
    ensures forall a :: a in FilterYield(s, keep).items ==> keep(a) == Ok(true)
    decreases |s|
  {
    if s != [] {
      var init := s[..|s| - 1];
      FilterYieldSubsequence(init, keep);
      var items := FilterYield(s, keep).items;
      var p := FilterYield(init, keep);
      if items != p.items {
        assert items == p.items + [s[|s| - 1]];
        assert items[..|items| - 1] == p.items;
      }
    }
  }

  /**
   * The filter runs to the end exactly when the test raises on no asset, and
   * then it yields precisely the assets that pass.
   */
  lemma {:induction false} FilterYieldComplete(s: seq<Asset>, keep: Asset -> Result<bool, Error>)
    ensures FilterYield(s, keep).raised.None? <==> forall i :: 0 <= i < |s| ==> keep(s[i]).Ok?
    ensures FilterYield(s, keep).raised.None? ==>
      forall a :: a in FilterYield(s, keep).items <==> a in s && keep(a) == Ok(true)
    decreases |s|
  {
    if s != [] {
      var init, last := s[..|s| - 1], s[|s| - 1];
      FilterYieldComplete(init, keep);
      assert forall i :: 0 <= i < |init| ==> init[i] == s[i];
      assert forall a :: a in s <==> a in init || a == last;
    }
  }

  /**
   * When the test raises, the filter stops at the first asset it raises on:
   * it has yielded what passed before that asset and ends with its exception.
   */
  lemma {:induction false} FilterYieldFirstRaise(s: seq<Asset>, keep: Asset -> Result<bool, Error>)
    requires FilterYield(s, keep).raised.Some?
    ensures exists i :: (0 <= i < |s| && keep(s[i]).Err? && (forall j :: 0 <= j < i ==> keep(s[j]).Ok?)
      && FilterYield(s, keep) == Yielded(FilterYield(s[..i], keep).items, Some(keep(s[i]).error)))
    decreases |s|
  {
    var init, last := s[..|s| - 1], s[|s| - 1];
    var p := FilterYield(init, keep);
    if p.raised.Some? {
      FilterYieldFirstRaise(init, keep);
      var i :| 0 <= i < |init| && keep(init[i]).Err? && (forall j :: 0 <= j < i ==> keep(init[j]).Ok?)
        && p == Yielded(FilterYield(init[..i], keep).items, Some(keep(init[i]).error));
      assert init[..i] == s[..i];
      assert forall j :: 0 <= j <= i ==> init[j] == s[j];
    } else {
      FilterYieldComplete(init, keep);
      var i := |s| - 1;
      assert s[..i] == init;
      assert forall j :: 0 <= j < i ==> init[j] == s[j];
    }
  }

  /** A filter over assets that all pass or fail without raising yields exactly those that pass. */
  lemma FilterYieldPrefixItems(s: seq<Asset>, keep: Asset -> Result<bool, Error>, items: seq<Asset>)
    requires forall j :: 0 <= j < |s| ==> keep(s[j]).Ok?
    requires items == FilterYield(s, keep).items
    ensures forall a :: a in items <==> a in s && keep(a) == Ok(true)
  {
    FilterYieldComplete(s, keep);
  }

  /**
   * Without a raise, the filter keeps every passing asset as often as the
   * input holds it and drops every other one.
   */
  lemma {:induction false} FilterYieldCounts(s: seq<Asset>, keep: Asset -> Result<bool, Error>)
    requires FilterYield(s, keep).raised.None?
    ensures forall a :: multiset(FilterYield(s, keep).items)[a] == if keep(a) == Ok(true) then multiset(s)[a] else 0
    decreases |s|
  {
    if s != [] {
      var init, last := s[..|s| - 1], s[|s| - 1];
      FilterYieldCounts(init, keep);
      assert s == init + [last];
      assert multiset(s) == multiset(init) + multiset{last};
    }
  }

  /**
   * The test raises first on `s[i]`, with `e`, and `items` holds exactly the
   * assets before it that pass.
   */
  ghost predicate RaisedAfter(s: seq<Asset>, keep: Asset -> Result<bool, Error>, i: int, items: seq<Asset>, e: Error) {
    && 0 <= i < |s| && keep(s[i]) == Err(e)
    && (forall j :: 0 <= j < i ==> keep(s[j]).Ok?)
    && (forall a :: a in items <==> a in s[..i] && keep(a) == Ok(true))
  }

  /**
   * The same in terms of membership: after a raise, the filter has yielded
   * exactly the assets before the raising one that pass the test.
   */
  lemma FilterYieldRaisePrefix(s: seq<Asset>, keep: Asset -> Result<bool, Error>)
    requires FilterYield(s, keep).raised.Some?
    ensures exists i :: RaisedAfter(s, keep, i, FilterYield(s, keep).items, FilterYield(s, keep).raised.value)
  {
    var y := FilterYield(s, keep);
    FilterYieldFirstRaise(s, keep);
    var i :| 0 <= i < |s| && keep(s[i]).Err? && (forall j :: 0 <= j < i ==> keep(s[j]).Ok?)
      && y == Yielded(FilterYield(s[..i], keep).items, Some(keep(s[i]).error));
    var before := s[..i];
    assert forall j :: 0 <= j < |before| ==> keep(before[j]).Ok?;
    FilterYieldPrefixItems(before, keep, y.items);
    assert RaisedAfter(s, keep, i, y.items, y.raised.value);
  }

  /** The same loop appending to a list, which the raise leaves unreturned. */
  function FilterList(s: seq<Asset>, keep: Asset -> Result<bool, Error>): Result<seq<Asset>, Error> {
    var y := FilterYield(s, keep);
    if y.raised.Some? then Err(y.raised.value) else Ok(y.items)
  }

  /**
   * The retention rule: an archived asset may be deleted when it was created
   * before `keepAfter` and was either never used (`last_used == 0`) or last
   * used before `keepAfter`. A missing key raises KeyError and a timestamp
   * that is not a number raises TypeError; "created" is read before "last_used".
   */
  function Deletable(asset: Asset, keepAfter: int): (r: Result<bool, Error>)
    ensures "created" !in asset ==> r == Err(KeyError("created"))
    ensures "created" in asset && AsInt(asset["created"]).Ok? && "last_used" !in asset ==>
      r == Err(KeyError("last_used"))
    ensures r.Ok? <==> ("created" in asset && "last_used" in asset
      && AsInt(asset["created"]).Ok? && (IsZero(asset["last_used"]) || AsInt(asset["last_used"]).Ok?))
    ensures r.Ok? ==>
      (r.value <==> (AsInt(asset["created"]).value < keepAfter
        && (IsZero(asset["last_used"]) || AsInt(asset["last_used"]).value < keepAfter)))
  {
    var createdRaw :- Index(asset, "created");
    var created :- AsInt(createdRaw);
    var lastUsedRaw :- Index(asset, "last_used");
    if IsZero(lastUsedRaw) then Ok(created < keepAfter)
    else
      var lastUsed :- AsInt(lastUsedRaw);
      Ok(created < keepAfter && lastUsed < keepAfter)
  }

  /** The retention rule as the filter predicate for one cut-off. */
  function DeletableBefore(keepAfter: int): Asset -> Result<bool, Error> {
    a => Deletable(a, keepAfter)
  }

  /** An asset whose `last_used` is 0 was never used: it goes exactly when it was created before the cut-off. */
  lemma NeverUsedDeletable(asset: Asset, keepAfter: int, created: int)
    requires "created" in asset && asset["created"] == Int(created)
    requires "last_used" in asset && asset["last_used"] == Int(0)
    ensures Deletable(asset, keepAfter) == Ok(created < keepAfter)
  {
  }

  /** `asset.get("sourceBucket", {}).get("bucket", None)`: anything but a dict under "sourceBucket" raises AttributeError. */
  function SourceBucketName(asset: Asset): (r: Result<Value, Error>)
    ensures "sourceBucket" !in asset ==> r == Ok(Null)
    ensures "sourceBucket" in asset ==>
      (r.Ok? <==> asset["sourceBucket"].Obj?)
    ensures "sourceBucket" in asset && asset["sourceBucket"].Obj? ==>
      r == Ok(Get(asset["sourceBucket"].fields, "bucket"))
  {
    if "sourceBucket" !in asset then Ok(Null)
    else match asset["sourceBucket"]
      case Obj(sb) => Ok(Get(sb, "bucket"))
      case _ => Err(AttributeError("get"))
  }

  /** The asset's "sourceBucket" is a dict whose "bucket" is truthy. */
  predicate NamesBucket(a: Asset) {
    "sourceBucket" in a && a["sourceBucket"].Obj? && Truthy(Get(a["sourceBucket"].fields, "bucket"))
  }

  /** The external-asset test raises on this asset: its "sourceBucket" is not a dict. */
  predicate BucketRaises(a: Asset) {
    "sourceBucket" in a && !a["sourceBucket"].Obj?
  }

  /** The external-asset test: the source bucket name is truthy. */
  function HasBucket(asset: Asset): Result<bool, Error> {
    var bucket :- SourceBucketName(asset);
    Ok(Truthy(bucket))
  }

  /** The figures `find_archived_data_assets_to_delete` logs about the selected assets. */
  datatype Tally = Tally(internalCount: nat, internalSize: int, externalCount: nat, externalSize: int)

  /** `asset.get("size", 0)` as a number; anything else makes the addition raise TypeError. */
  function SizeOf(asset: Asset): Result<int, Error> {
    AsInt(if "size" in asset then asset["size"] else Int(0))
  }

  /** External assets are those with a "sourceBucket" key, whatever it holds. */
  predicate IsExternal(asset: Asset) {
    "sourceBucket" in asset
  }

  /** The number of external assets: none exactly when no asset is external, all exactly when every one is. */
  function CountExternal(assets: seq<Asset>): (n: nat)
    ensures n <= |assets|
    ensures n == 0 <==> forall i :: 0 <= i < |assets| ==> !IsExternal(assets[i])
    ensures n == |assets| <==> forall i :: 0 <= i < |assets| ==> IsExternal(assets[i])
  {
    if assets == [] then 0
    else CountExternal(assets[..|assets| - 1]) + (if IsExternal(assets[|assets| - 1]) then 1 else 0)
  }

  /** The sum of the sizes, or the TypeError the first unsized asset raises. */
  function TotalSize(assets: seq<Asset>): Result<int, Error> {
    if assets == [] then Ok(0)
    else
      var before :- TotalSize(assets[..|assets| - 1]);
      var size :- SizeOf(assets[|assets| - 1]);
      Ok(before + size)
  }

  /**
   * The tally loop: per asset, in order, read the size, count it on its side,
   * then format its "name" and "type" for the log (a missing one raises KeyError).
   */
  function TallyOf(assets: seq<Asset>): Result<Tally, Error> {
    if assets == [] then Ok(Tally(0, 0, 0, 0))
    else
      var t :- TallyOf(assets[..|assets| - 1]);
      var asset := assets[|assets| - 1];
      var size :- SizeOf(asset);
      var t' := if IsExternal(asset)
        then t.(externalCount := t.externalCount + 1, externalSize := t.externalSize + size)
        else t.(internalCount := t.internalCount + 1, internalSize := t.internalSize + size);
      var _ :- Index(asset, "name");
      var _ :- Index(asset, "type");
      Ok(t')
  }

  /**
   * A completed tally accounts for every selected asset once: the internal and
   * external counts add up to the number selected, the external count is the
   * number with a "sourceBucket" key, and the two sizes add up to the total size.
   */
  lemma {:induction false} TallyAccountsForAll(assets: seq<Asset>)
    requires TallyOf(assets).Ok?
    ensures var t := TallyOf(assets).value;
      && t.internalCount + t.externalCount == |assets|
      && t.externalCount == CountExternal(assets)
      && TotalSize(assets).Ok?
      && t.internalSize + t.externalSize == TotalSize(assets).value
    ensures forall a :: a in assets ==> "name" in a && "type" in a
  {
    if assets != [] {
      var init := assets[..|assets| - 1];
      TallyAccountsForAll(init);
      assert forall a :: a in assets ==> a in init || a == assets[|assets| - 1];
    }
  }

  /** The selection loop of `find_archived_data_assets_to_delete`. */
  method SelectDeletable(assets: seq<Asset>, keepAfter: int) returns (r: Result<seq<Asset>, Error>)
    ensures r == FilterList(assets, DeletableBefore(keepAfter))
  {
    var selected: seq<Asset> := [];
    var i := 0;
    while i < |assets|
      invariant 0 <= i <= |assets|
      invariant FilterYield(assets[..i], DeletableBefore(keepAfter)) == Yielded(selected, None)
    {
      assert assets[..i + 1][..i] == assets[..i];
      var deletable := Deletable(assets[i], keepAfter);
      if deletable.Err? {
        PrefixRaisedStays(assets, i + 1, DeletableBefore(keepAfter));
        return Err(deletable.error);
      }
      if deletable.value {
        selected := selected + [assets[i]];
      }
      i := i + 1;
    }
    assert assets[..i] == assets;
    r := Ok(selected);
  }

  /** Once a prefix raised, the whole loop raises the same exception. */
  lemma {:induction false} PrefixRaisedStays(s: seq<Asset>, n: nat, keep: Asset -> Result<bool, Error>)
    requires n <= |s|
    requires FilterYield(s[..n], keep).raised.Some?
    ensures FilterYield(s, keep) == FilterYield(s[..n], keep)
    decreases |s| - n
  {
    if n < |s| {
      assert s[..n + 1][..n] == s[..n];
      PrefixRaisedStays(s, n + 1, keep);
    } else {
      assert s[..n] == s;
    }
  }

  /** One more asset either raises, or is yielded when it passes and skipped when it does not. */
  lemma FilterYieldStep(s: seq<Asset>, n: nat, keep: Asset -> Result<bool, Error>, items: seq<Asset>)
    requires n < |s|
    requires FilterYield(s[..n], keep) == Yielded(items, None)
    ensures keep(s[n]).Err? ==> FilterYield(s[..n + 1], keep) == Yielded(items, Some(keep(s[n]).error))
    ensures keep(s[n]) == Ok(true) ==> FilterYield(s[..n + 1], keep) == Yielded(items + [s[n]], None)
    ensures keep(s[n]) == Ok(false) ==> FilterYield(s[..n + 1], keep) == Yielded(items, None)
  {
    assert s[..n + 1][..n] == s[..n];
  }

  /** The counting loop of `find_archived_data_assets_to_delete`. */
  method TallyBySource(selected: seq<Asset>) returns (r: Result<Tally, Error>)
    ensures r == TallyOf(selected)
  {
    var t := Tally(0, 0, 0, 0);
    var i := 0;
    while i < |selected|
      invariant 0 <= i <= |selected|
      invariant TallyOf(selected[..i]) == Ok(t)
    {
      assert selected[..i + 1][..i] == selected[..i];
      var asset := selected[i];
      var size := SizeOf(asset);
      if size.Err? {
        TallyErrorStays(selected, i + 1);
        return Err(size.error);
      }
      if IsExternal(asset) {
        t := t.(externalCount := t.externalCount + 1, externalSize := t.externalSize + size.value);
      } else {
        t := t.(internalCount := t.internalCount + 1, internalSize := t.internalSize + size.value);
      }
      if "name" !in asset {
        TallyErrorStays(selected, i + 1);
        return Err(KeyError("name"));
      }
      if "type" !in asset {
        TallyErrorStays(selected, i + 1);
        return Err(KeyError("type"));
      }
      i := i + 1;
    }
    assert selected[..i] == selected;
    r := Ok(t);
  }

  /** Once a prefix of the tally raised, the whole tally raises the same exception. */
  lemma {:induction false} TallyErrorStays(s: seq<Asset>, n: nat)
    requires n <= |s|
    requires TallyOf(s[..n]).Err?
    ensures TallyOf(s) == TallyOf(s[..n])
    decreases |s| - n
  {
    if n < |s| {
      assert s[..n + 1][..n] == s[..n];
      TallyErrorStays(s, n + 1);
    } else {
      assert s[..n] == s;
    }
  }
}
