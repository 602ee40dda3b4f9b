/** `processAvatarImage`: the null guard and the Cloudinary URL rewrite. The
    download, the base64 read and the unlink are one step here, `fetch`, that
    yields the file's base64 text or None when any of them fails. */
module NotificationService {
  import opened Common

  const UploadSegment: string := "/upload/"
  const CroppedUploadSegment: string := "/upload/w_64,h_64,c_fill,g_face/"

  /** The URL actually downloaded for an avatar URL. */
  function CroppedUrl(imageUrl: string): string {
    ReplaceFirst(imageUrl, UploadSegment, CroppedUploadSegment)
  }

  /** `processAvatarImage(imageUrl)`: a falsy URL gives null without any download; otherwise the
      result is whatever downloading the cropped URL yields, with every failure giving null. */
  function ProcessAvatarImage(imageUrl: Option<string>, fetch: string -> Option<string>): (r: Option<string>)
    ensures !Truthy(imageUrl) ==> r == None
    ensures Truthy(imageUrl) ==> r == fetch(CroppedUrl(imageUrl.value))
  {
    if !Truthy(imageUrl) then None else fetch(CroppedUrl(imageUrl.value))
  }

  /** A URL without `/upload/` is downloaded unchanged. */
  lemma UrlWithoutUploadUnchanged(url: string)
    requires forall j: nat :: j <= |url| ==> !OccursAt(url, UploadSegment, j)
    ensures CroppedUrl(url) == url
  {
  }

  /** With `/upload/` present, the crop parameters are inserted right after its FIRST occurrence
      and the rest of the URL, later occurrences included, is kept. */
  lemma CropInsertedAfterFirstUpload(url: string, i: nat)
    requires OccursAt(url, UploadSegment, i)
    requires forall j: nat :: j < i ==> !OccursAt(url, UploadSegment, j)
    ensures CroppedUrl(url) == url[..i] + "/upload/w_64,h_64,c_fill,g_face/" + url[i + 8..]
    ensures |CroppedUrl(url)| == |url| + 24
  {
    assert IndexOf(url, UploadSegment) == Some(i);
  }

  /** Rewriting keeps everything before the first `/upload/` and its segment: the result starts
      with the original URL up to and including that segment. */
  lemma CroppedUrlKeepsPrefix(url: string)
    ensures IndexOf(url, UploadSegment).Some? ==>
      var i := IndexOf(url, UploadSegment).value;
      CroppedUrl(url)[..i + 8] == url[..i + 8]
  {
  }
}
