/**
 * The S3 folder-existence check shared by `APIHandler._bucket_prefix_exists`
 * and `DataManager.bucket_folder_exists`. The boto3 client is an oracle: what
 * `list_objects` answers for each request is fixed when the client is made.
 */
module Storage {
  import opened Wrappers
  import opened Py

  /** The keyword arguments of `s3.list_objects(Bucket=…, Prefix=…, Delimiter=…, MaxKeys=…)`. */
  datatype ListObjectsRequest = ListObjectsRequest(bucket: Value, prefix: string, delimiter: string, maxKeys: int)

  /** A boto3 S3 client. */
  class S3Client {
    const listObjects: ListObjectsRequest -> Result<Object, Error>

    constructor (listObjects: ListObjectsRequest -> Result<Object, Error>)
      ensures this.listObjects == listObjects
    {
      this.listObjects := listObjects;
    }
  }

  /** `s.rstrip("/")`. */
  function RStripSlashes(s: string): (r: string)
    ensures r <= s
    ensures r == [] || r[|r| - 1] != '/'
    ensures forall i :: |r| <= i < |s| ==> s[i] == '/'
    decreases |s|
  {
    if s != [] && s[|s| - 1] == '/' then RStripSlashes(s[..|s| - 1]) else s
  }

  /**
   * The stripped prefix is the only prefix of `s` that does not end in "/" and
   * leaves nothing but slashes behind.
   */
  lemma {:induction false} RStripSlashesUnique(s: string, t: string)
    requires t <= s
    requires t == [] || t[|t| - 1] != '/'
    requires forall i :: |t| <= i < |s| ==> s[i] == '/'
    ensures t == RStripSlashes(s)
    decreases |s|
  {
    if |t| < |s| {
      assert s[|s| - 1] == '/';
      assert t <= s[..|s| - 1];
      RStripSlashesUnique(s[..|s| - 1], t);
    } else {
      assert t == s;
    }
  }

  /** The request both checks send: the prefix without trailing slashes, "/" as delimiter, at most one key. */
  function FolderListing(bucket: Value, prefix: string): ListObjectsRequest {
    ListObjectsRequest(bucket, RStripSlashes(prefix), "/", 1)
  }

  /**
   * The folder exists iff the listing answers with a "CommonPrefixes" key; an
   * exception from the client passes through.
   */
  function PrefixExists(listObjects: ListObjectsRequest -> Result<Object, Error>, bucket: Value, prefix: string)
    : (r: Result<bool, Error>)
    ensures var answer := listObjects(ListObjectsRequest(bucket, RStripSlashes(prefix), "/", 1));
      && (r.Ok? <==> answer.Ok?)
      && (r.Ok? ==> (r.value <==> "CommonPrefixes" in answer.value))
      && (r.Err? ==> r.error == answer.error)
  {
    var response :- listObjects(FolderListing(bucket, prefix));
    Ok("CommonPrefixes" in response)
  }
}
