/** upload_file_to_s3 (app.py:99-108): store an object and return its public URL. */
module S3Upload {
  import opened Wrappers
  import opened Services

  function UrlPrefix(bucket: string, region: string): string
  {
    "https://" + bucket + ".s3." + region + ".amazonaws.com/"
  }

  /** The virtual-hosted-style URL of an object key in a bucket of a region. */
  function PublicUrl(bucket: string, region: string, key: string): (url: string)
    ensures |url| == |UrlPrefix(bucket, region)| + |key|
    ensures url[..|UrlPrefix(bucket, region)|] == UrlPrefix(bucket, region)
    ensures url[|UrlPrefix(bucket, region)|..] == key
  {
    UrlPrefix(bucket, region) + key
  }

  /** The object key that a URL of this bucket and region names, or None for any other URL. */
  function ObjectKey(url: string, bucket: string, region: string): (key: Option<string>)
    ensures key.Some? ==> url == PublicUrl(bucket, region, key.value)
  {
    var prefix := UrlPrefix(bucket, region);
    if |prefix| <= |url| && url[..|prefix|] == prefix then Some(url[|prefix|..]) else None
  }

  lemma ObjectKeyOfPublicUrl(bucket: string, region: string, key: string)
    ensures ObjectKey(PublicUrl(bucket, region, key), bucket, region) == Some(key)
  {
    var prefix := UrlPrefix(bucket, region);
    var url := prefix + key;
    assert url[..|prefix|] == prefix;
    assert url[|prefix|..] == key;
  }

  /** Different keys in one bucket get different URLs. */
  lemma PublicUrlInjective(bucket: string, region: string, k1: string, k2: string)
    requires PublicUrl(bucket, region, k1) == PublicUrl(bucket, region, k2)
    ensures k1 == k2
  {
    ObjectKeyOfPublicUrl(bucket, region, k1);
    ObjectKeyOfPublicUrl(bucket, region, k2);
  }

  /** What s3_client.put_object did. */
  datatype PutOutcome =
    | Stored
    | CredentialsMissing(message: string)  // NoCredentialsError or PartialCredentialsError
    | PutRaised(error: Exception)          // any other exception, which propagates

  /** The URL returned (None when credentials are missing) or the exception raised. */
  function UploadFileToS3(bucket: string, region: string, fileName: string, put: PutOutcome)
    : (r: Result<Option<string>, Exception>)
    ensures r == Success(None) <==> put.CredentialsMissing?
    ensures put.PutRaised? <==> r.Failure?
    ensures put.PutRaised? ==> r == Failure(put.error)
    ensures r.Success? && r.value.Some? ==> ObjectKey(r.value.value, bucket, region) == Some(fileName)
  {
    match put
    case Stored =>
      ObjectKeyOfPublicUrl(bucket, region, fileName);
      Success(Some(PublicUrl(bucket, region, fileName)))
    case CredentialsMissing(_) => Success(None)
    case PutRaised(e) => Failure(e)
  }
}
