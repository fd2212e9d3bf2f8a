/**
 * The proof-image upload endpoint: authenticate, check the file, and answer
 * with the image inlined as a base64 data URL.
 */
module Upload {
  import opened Common
  import opened Identity
  import opened Base64

  /** An uploaded file: its name, declared MIME type, and contents. */
  datatype File = File(name: string, mimeType: string, content: seq<byte>)

  /** The multipart form: unreadable, or read, with or without a `file` field. */
  datatype Form = Unreadable | Form(file: Option<File>)

  /** The success body: where the image can be found, its name and its size. */
  datatype Uploaded = Uploaded(url: string, filename: string, size: nat)

  /** The largest accepted file, 5 MiB. */
  const MaxSize: nat := 5 * 1024 * 1024

  const DataPrefix := "data:"
  const Base64Marker := ";base64,"

  /** The data URL of some content with a MIME type. */
  function DataUrl(mimeType: string, content: seq<byte>): string
  {
    DataPrefix + mimeType + Base64Marker + Encode(content)
  }

  /** Index of the last occurrence of `c` in `s`. */
  function LastIndexOf(s: string, c: char): (r: Option<nat>)
    ensures r.None? ==> forall j :: 0 <= j < |s| ==> s[j] != c
    ensures r.Some? ==>
      (r.value < |s| && s[r.value] == c && forall j :: r.value < j < |s| ==> s[j] != c)
  {
    if |s| == 0 then None
    else if s[|s| - 1] == c then Some(|s| - 1)
    else LastIndexOf(s[..|s| - 1], c)
  }

  /**
   * Read a base64 data URL back into its MIME type and contents. The payload
   * never contains `;`, so the last `;` ends the MIME type.
   */
  function ParseDataUrl(url: string): Option<(string, seq<byte>)>
  {
    if !StartsWith(url, DataPrefix) then None
    else
      var rest := url[|DataPrefix|..];
      match LastIndexOf(rest, ';')
      case None => None
      case Some(k) =>
        var tail := rest[k..];
        if !StartsWith(tail, Base64Marker) then None
        else
          match Decode(tail[|Base64Marker|..])
          case None => None
          case Some(content) => Some((rest[..k], content))
  }

  /** Every data URL reads back to the MIME type and contents it was built from. */
  lemma ParseDataUrlInvertsDataUrl(mimeType: string, content: seq<byte>)
    ensures ParseDataUrl(DataUrl(mimeType, content)) == Some((mimeType, content))
  {
    var url := DataUrl(mimeType, content);
    var payload := Encode(content);
    assert StartsWith(url, DataPrefix);
    var rest := url[|DataPrefix|..];
    assert rest == mimeType + Base64Marker + payload;
    var k := |mimeType|;
    assert rest[k] == ';';
    forall j | k < j < |rest| ensures rest[j] != ';' {
      if j < k + |Base64Marker| {
        assert rest[j] == Base64Marker[j - k];
      } else {
        assert rest[j] == payload[j - k - |Base64Marker|];
        assert IsEncodingChar(payload[j - k - |Base64Marker|]);
      }
    }
    assert LastIndexOf(rest, ';') == Some(k);
    var tail := rest[k..];
    assert tail == Base64Marker + payload;
    assert StartsWith(tail, Base64Marker);
    assert tail[|Base64Marker|..] == payload;
    DecodeEncode(content);
    assert rest[..k] == mimeType;
  }

  /**
   * The upload endpoint, given the verifier's result. The checks run in
   * order: authenticated (401), form readable (500), file present (400),
   * MIME type `image/...` (400), at most 5 MiB (400). On success the answer
   * carries the image as a data URL, its name and its size.
   */
  function HandleUpload(auth: Option<AuthInfo>, form: Form): (r: Response<Uploaded>)
    ensures auth.None? ==> r == Error(401, "Unauthorized")
    ensures r.Success? <==>
      && auth.Some? && form.Form? && form.file.Some?
      && StartsWith(form.file.value.mimeType, "image/")
      && |form.file.value.content| <= MaxSize
    ensures r.Success? ==>
      && r.code == 200
      && r.body.url == DataUrl(form.file.value.mimeType, form.file.value.content)
      && ParseDataUrl(r.body.url) == Some((form.file.value.mimeType, form.file.value.content))
      && r.body.filename == form.file.value.name
      && r.body.size == |form.file.value.content|
    ensures auth.Some? && form.Unreadable? ==> r.code == 500
    ensures auth.Some? && form == Form(None) ==> r == Error(400, "No file provided")
    ensures auth.Some? && form.Form? && form.file.Some? && !StartsWith(form.file.value.mimeType, "image/") ==>
      r == Error(400, "File must be an image")
    ensures (auth.Some? && form.Form? && form.file.Some? && StartsWith(form.file.value.mimeType, "image/")
             && |form.file.value.content| > MaxSize) ==> r == Error(400, "File size must be less than 5MB")
  {
    if auth.None? then Error(401, "Unauthorized")
    else
      match form
      case Unreadable => Error(500, "Internal server error")
      case Form(None) => Error(400, "No file provided")
      case Form(Some(file)) =>
        if !StartsWith(file.mimeType, "image/") then Error(400, "File must be an image")
        else if |file.content| > MaxSize then Error(400, "File size must be less than 5MB")
        else
          ParseDataUrlInvertsDataUrl(file.mimeType, file.content);
          Success(200, Uploaded(DataUrl(file.mimeType, file.content), file.name, |file.content|))
  }

  /** The size limit is inclusive: a file of exactly 5 MiB is accepted, one byte more is not. */
  lemma SizeLimitIsInclusive(auth: AuthInfo, name: string, mimeType: string, content: seq<byte>)
    requires StartsWith(mimeType, "image/")
    ensures |content| == MaxSize ==> HandleUpload(Some(auth), Form(Some(File(name, mimeType, content)))).Success?
    ensures |content| == MaxSize + 1 ==>
      HandleUpload(Some(auth), Form(Some(File(name, mimeType, content)))) == Error(400, "File size must be less than 5MB")
  {
  }
}
