/**
 * Where receipt images live (services/storage.js): in S3 when real AWS
 * credentials are configured, otherwise under the local `/uploads/` path. The
 * two environment variables are inputs; a missing variable is `None`.
 */
module Storage {
  import opened Wrappers
  import opened Text

  /**
   * `isS3Configured()`: both keys set and non-empty, neither is the
   * placeholder `dummy`, and the access key is longer than 10 characters.
   */
  predicate IsS3Configured(accessKey: Option<string>, secretKey: Option<string>)
  {
    && accessKey.Some? && accessKey.value != ""
    && secretKey.Some? && secretKey.value != ""
    && accessKey.value != "dummy"
    && secretKey.value != "dummy"
    && |accessKey.value| > 10
  }

  /**
   * The same test with its redundant parts dropped: an access key longer than
   * 10 characters is neither empty nor `dummy`.
   */
  lemma S3ConfiguredIff(accessKey: Option<string>, secretKey: Option<string>)
    ensures IsS3Configured(accessKey, secretKey) <==>
      && accessKey.Some? && |accessKey.value| > 10
      && secretKey.Some? && secretKey.value != "" && secretKey.value != "dummy"
  {
  }

  const UploadsPrefix: string := "/uploads/"

  /** `getFileUrl(key)`: no URL for S3, the local path of the key otherwise. */
  function GetFileUrl(key: string, accessKey: Option<string>, secretKey: Option<string>): (url: Option<string>)
    ensures url.None? <==> IsS3Configured(accessKey, secretKey)
    ensures url.Some? ==> StartsWith(url.value, UploadsPrefix) && |url.value| == |UploadsPrefix| + |key|
  {
    if IsS3Configured(accessKey, secretKey) then None
    else
      var u := UploadsPrefix + key;
      assert u[..|UploadsPrefix|] == UploadsPrefix;
      Some(u)
  }

  /** The key a local URL names: what follows `/uploads/`. */
  function KeyOfLocalUrl(url: string): Option<string>
  {
    if StartsWith(url, UploadsPrefix) then Some(url[|UploadsPrefix|..]) else None
  }

  /** A local URL names exactly the key it was made from, so distinct keys get distinct URLs. */
  lemma LocalUrlRoundTrip(key: string, accessKey: Option<string>, secretKey: Option<string>)
    requires !IsS3Configured(accessKey, secretKey)
    ensures GetFileUrl(key, accessKey, secretKey).Some?
    ensures KeyOfLocalUrl(GetFileUrl(key, accessKey, secretKey).value) == Some(key)
  {
    var u := GetFileUrl(key, accessKey, secretKey).value;
    assert u == UploadsPrefix + key;
    assert u[|UploadsPrefix|..] == key;
  }
}
