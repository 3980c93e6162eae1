/**
 * Data-level tagging and naming of processed assets
 * (`add_data_level_metadata` and `build_processed_data_asset_name`).
 *
 * Python returns `list(set(...))`, whose order is unspecified; the model keeps
 * first-occurrence order. The contracts of `Dedup` and `AddDataLevelMetadata`
 * speak only of the elements and of the absence of duplicates; `DedupOfDistinct`
 * and `AddDataLevelMetadataIdempotent` state equal lists, which hold for this
 * order and, for the Python lists, only up to order.
 */
module DataLevels {
  import opened Wrappers
  import opened Py

  /** The two levels the package writes; the strings come from aind_data_schema's DataLevel. */
  datatype DataLevel = Raw | Derived {
    function Tag(): string {
      match this
      case Raw => "raw"
      case Derived => "derived"
    }
  }

  /** The custom-metadata key that records the level. */
  const DataLevelKey: string := "data level"

  predicate NoDuplicates(s: seq<string>) {
    forall i, j :: 0 <= i < j < |s| ==> s[i] != s[j]
  }

  /** `set(s)` listed back in first-occurrence order. */
  function Dedup(s: seq<string>): (r: seq<string>)
    ensures NoDuplicates(r)
    ensures forall x :: x in r <==> x in s
    decreases |s|
  {
    if s == [] then []
    else
      var p := Dedup(s[..|s| - 1]);
      if s[|s| - 1] in p then p else p + [s[|s| - 1]]
  }

  /** `set.discard(x)` on a listed set. */
  function Discard(s: seq<string>, x: string): (r: seq<string>)
    ensures forall y :: y in r <==> y in s && y != x
    ensures NoDuplicates(s) ==> NoDuplicates(r)
    ensures x !in s ==> r == s
  {
    if s == [] then []
    else if s[0] == x then Discard(s[1..], x)
    else
      var rest := Discard(s[1..], x);
      assert NoDuplicates(s) ==> NoDuplicates(s[1..]) && s[0] !in rest by {
        if NoDuplicates(s) {
          forall i, j | 0 <= i < j < |s[1..]| ensures s[1..][i] != s[1..][j] {
            assert s[1..][i] == s[i + 1] && s[1..][j] == s[j + 1];
          }
        }
      }
      [s[0]] + rest
  }

  /**
   * Puts the level's tag into the tag set (dropping the raw tag when the level
   * is derived) and records the level under "data level" in the metadata.
   * Missing (None or empty) tags and metadata start out empty.
   */
  function AddDataLevelMetadata(level: DataLevel, tags: Option<seq<string>>, customMetadata: Option<Object>)
    : (r: (seq<string>, Object))
    ensures NoDuplicates(r.0)
    ensures forall t :: t in r.0 <==>
      (t == level.Tag() || (t in tags.GetOr([]) && !(level == Derived && t == Raw.Tag())))
    ensures r.1.Keys == customMetadata.GetOr(map[]).Keys + {DataLevelKey}
    ensures r.1[DataLevelKey] == Str(level.Tag())
    ensures forall k :: k in customMetadata.GetOr(map[]) && k != DataLevelKey ==>
      r.1[k] == customMetadata.GetOr(map[])[k]
  {
    var listed := Dedup(tags.GetOr([]));
    var added := if level.Tag() in listed then listed else listed + [level.Tag()];
    var leveled := if level == Derived then Discard(added, Raw.Tag()) else added;
    (leveled, customMetadata.GetOr(map[])[DataLevelKey := Str(level.Tag())])
  }

  lemma {:induction false} DedupOfDistinct(s: seq<string>)
    requires NoDuplicates(s)
    ensures Dedup(s) == s
    decreases |s|
  {
    if s != [] {
      var init := s[..|s| - 1];
      assert NoDuplicates(init);
      DedupOfDistinct(init);
      assert s[|s| - 1] !in init;
      assert init + [s[|s| - 1]] == s;
    }
  }

  /**
   * Tagging twice is tagging once: the second application returns the very
   * tag list and metadata the first one produced.
   */
  lemma {:induction false} AddDataLevelMetadataIdempotent(level: DataLevel, tags: Option<seq<string>>, customMetadata: Option<Object>)
    ensures var (t1, m1) := AddDataLevelMetadata(level, tags, customMetadata);
            AddDataLevelMetadata(level, Some(t1), Some(m1)) == (t1, m1)
  {
    var (t1, m1) := AddDataLevelMetadata(level, tags, customMetadata);
    DedupOfDistinct(t1);
    assert level.Tag() in t1;
    if level == Derived {
      assert Raw.Tag() !in t1;
    }
    assert m1[DataLevelKey := Str(level.Tag())] == m1;
  }

  /**
   * The raw and derived tags: tagging as derived removes the raw tag, while
   * tagging as raw leaves a derived tag where it was.
   */
  lemma DataLevelTagsOnLevels(tags: Option<seq<string>>, customMetadata: Option<Object>)
    ensures var derived := AddDataLevelMetadata(Derived, tags, customMetadata).0;
            Derived.Tag() in derived && Raw.Tag() !in derived
    ensures var raw := AddDataLevelMetadata(Raw, tags, customMetadata).0;
            Raw.Tag() in raw && (Derived.Tag() in raw <==> Derived.Tag() in tags.GetOr([]))
  {
  }

  /** `f"{input_data_asset_name}_{process_name}_{capture_time}"`, the capture time given as its formatted string. */
  function BuildProcessedDataAssetName(inputDataAssetName: string, processName: Option<string>, captureTime: string): string {
    inputDataAssetName + "_" + Format(processName) + "_" + captureTime
  }

  /**
   * The built name reads back: it starts with the input name and an underscore,
   * ends with an underscore and the capture time, and what lies between is the
   * process name as Python formats it.
   */
  lemma ProcessedNameParts(inputDataAssetName: string, processName: Option<string>, captureTime: string)
    ensures var name := BuildProcessedDataAssetName(inputDataAssetName, processName, captureTime);
            var p := Format(processName);
            && |name| == |inputDataAssetName| + |p| + |captureTime| + 2
            && name[..|inputDataAssetName|] == inputDataAssetName
            && name[|inputDataAssetName|] == '_'
            && name[|inputDataAssetName| + 1..|inputDataAssetName| + 1 + |p|] == p
            && name[|inputDataAssetName| + 1 + |p|] == '_'
            && name[|name| - |captureTime|..] == captureTime
  {
    var name := BuildProcessedDataAssetName(inputDataAssetName, processName, captureTime);
    var p := Format(processName);
    var n := |inputDataAssetName|;
    assert name == inputDataAssetName + ("_" + p + "_" + captureTime);
    assert name[n..] == "_" + p + "_" + captureTime;
    assert name[n + 1..] == p + "_" + captureTime;
    assert name[n + 1 + |p|..] == "_" + captureTime;
  }
}
