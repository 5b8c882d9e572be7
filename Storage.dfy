/** File storage in a Supabase bucket (`backend/services/storage.py`): the
    stored name is the upload's file name with every character outside
    `[a-zA-Z0-9._-]` replaced by `_`, and the link handed back is a signed
    URL, else the public URL, else one assembled by hand. The Supabase
    client's calls are oracles. */
module Storage {
  import opened Common

  // ---------------------------------------------------------------------
  // File-name sanitisation

  /** The character class `[a-zA-Z0-9._-]`. */
  predicate AllowedChar(c: char) {
    'a' <= c <= 'z' || 'A' <= c <= 'Z' || '0' <= c <= '9' || c == '.' || c == '_' || c == '-'
  }

  predicate AllAllowed(s: string) {
    forall i :: 0 <= i < |s| ==> AllowedChar(s[i])
  }

  /** `re.sub(r'[^a-zA-Z0-9._-]', '_', filename)`: each character is kept
      when allowed and becomes `_` otherwise, in place. */
  function SanitizeFilename(name: string): (safe: string)
    ensures |safe| == |name|
    ensures forall i :: 0 <= i < |name| ==>
      (AllowedChar(name[i]) ==> safe[i] == name[i]) && (!AllowedChar(name[i]) ==> safe[i] == '_')
  {
    if name == [] then []
    else
      var rest := SanitizeFilename(name[1..]);
      (if AllowedChar(name[0]) then [name[0]] else ['_']) + rest
  }

  /** Only allowed characters come out. */
  lemma SanitizedIsAllowed(name: string)
    ensures AllAllowed(SanitizeFilename(name))
  {
  }

  /** A name is left unchanged exactly when all its characters are allowed. */
  lemma SanitizeFixedPoints(name: string)
    ensures SanitizeFilename(name) == name <==> AllAllowed(name)
  {
  }

  /** Sanitising twice is sanitising once. */
  lemma SanitizeIdempotent(name: string)
    ensures SanitizeFilename(SanitizeFilename(name)) == SanitizeFilename(name)
  {
  }

  // ---------------------------------------------------------------------
  // The storage client

  /** What `create_signed_url` did: raised, or returned a dict whose
      `signedURL` entry is `signedUrl` (None when the entry is missing). */
  datatype SignedReply = SignedRaised | Signed(signedUrl: Option<string>)

  /** What `get_public_url` did: raised, or returned a string. */
  datatype PublicReply = PublicRaised | Public(url: string)

  /** What the bucket upload did. */
  datatype UploadReply = Stored | UploadRaised(message: string)

  /** The Supabase client: `upload(bucket, path, bytes, contentType)`,
      `create_signed_url(bucket, path, expiresIn)`, `get_public_url(bucket, path)`. */
  datatype StorageClient = StorageClient(
    upload: (string, string, Bytes, string) -> UploadReply,
    createSignedUrl: (string, string, int) -> SignedReply,
    getPublicUrl: (string, string) -> PublicReply)

  /** Signed links stay valid for seven days. */
  const SignedUrlExpiry: int := 604800

  /** The link assembled by hand when neither call gives one. */
  function ManualUrl(url: string, bucket: string, filename: string): string {
    url + "/storage/v1/object/public/" + bucket + "/" + filename
  }

  class SupabaseStorage {
    const url: string
    const key: string
    const bucket: string
    /** None when the credentials are missing or `create_client` raised. */
    const client: Option<StorageClient>

    /** `SupabaseStorage.__init__`: `connect` is what `create_client` gives
        for these credentials (None when it raises). */
    constructor (url: string, key: string, bucket: string, connect: Option<StorageClient>)
      ensures this.url == url && this.key == key && this.bucket == bucket
      ensures client == (if url == "" || key == "" then None else connect)
    {
      this.url := url;
      this.key := key;
      this.bucket := bucket;
      if url == "" || key == "" {
        client := None;
      } else {
        client := connect;
      }
    }

    /** `_get_file_url`: a truthy signed URL, else a truthy public URL, else
        the URL assembled by hand. Every call is guarded, so without a client
        (both calls raise) the hand-made URL comes back. */
    function GetFileUrl(filename: string): (r: string)
      ensures r != ""
      ensures client.None? ==> r == ManualUrl(url, bucket, filename)
      ensures client.Some? ==>
        var signed := client.value.createSignedUrl(bucket, filename, SignedUrlExpiry);
        var public := client.value.getPublicUrl(bucket, filename);
        if signed.Signed? && signed.signedUrl.Some? && signed.signedUrl.value != "" then
          r == signed.signedUrl.value
        else if public.Public? && public.url != "" then
          r == public.url
        else
          r == ManualUrl(url, bucket, filename)
    {
      match client
      case None => ManualUrl(url, bucket, filename)
      case Some(c) =>
        var signed := c.createSignedUrl(bucket, filename, SignedUrlExpiry);
        var public := c.getPublicUrl(bucket, filename);
        if signed.Signed? && signed.signedUrl.Some? && signed.signedUrl.value != "" then
          signed.signedUrl.value
        else if public.Public? && public.url != "" then
          public.url
        else
          ManualUrl(url, bucket, filename)
    }

    /** `SupabaseStorage.upload_file`: None without a client or when the
        upload raises; otherwise the link for the sanitised name. */
    function UploadFile(fileBytes: Bytes, filename: string, contentType: string): (r: Option<string>)
      ensures r.None? <==>
        client.None? || client.value.upload(bucket, SanitizeFilename(filename), fileBytes, contentType).UploadRaised?
      ensures r.Some? ==> r.value == GetFileUrl(SanitizeFilename(filename)) && r.value != ""
    {
      match client
      case None => None
      case Some(c) =>
        var safeFilename := SanitizeFilename(filename);
        match c.upload(bucket, safeFilename, fileBytes, contentType)
        case UploadRaised(_) => None
        case Stored => Some(GetFileUrl(safeFilename))
    }
  }

  /** A hand-made link names the stored object by its sanitised name, so its
      last path segment holds allowed characters only. */
  lemma ManualUrlEndsWithSafeName(s: SupabaseStorage, filename: string)
    ensures var safe := SanitizeFilename(filename);
      var m := ManualUrl(s.url, s.bucket, safe);
      EndsWith(m, "/" + safe) && AllAllowed(m[|m| - |safe|..])
  {
  }

  /** Without credentials nothing is stored and no link is returned. */
  lemma MissingCredentialsGiveNone(s: SupabaseStorage, fileBytes: Bytes, filename: string, contentType: string)
    requires s.client.None?
    ensures s.UploadFile(fileBytes, filename, contentType) == None
  {
  }
}
