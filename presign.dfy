// Media presign handler: media-type classification and size limits, the
// upload key and its extension, the HLS master and quality playlists, and the
// numbered multipart part list. URL signing is a parameter.

module Presign {
  import opened Common

  // ----------------------------------------------------- type and size limit

  const MiB: nat := 1024 * 1024

  /** `MAX_SIZES[type] || MAX_SIZES.document`. */
  function MaxSize(kind: string): (r: nat)
    ensures kind !in {"image", "video", "gif", "audio", "document"} ==> r == 20 * MiB
  {
    if kind == "image" then 10 * MiB
    else if kind == "video" then 500 * MiB
    else if kind == "gif" then 20 * MiB
    else if kind == "audio" then 50 * MiB
    else 20 * MiB
  }

  /** The handler's media type: the content-type family, else the client's `mediaType`, else `document`. */
  function Classify(contentType: string, mediaType: Option<string>): (r: string)
    ensures r == if StartsWith(contentType, "image/") then "image"
                 else if StartsWith(contentType, "video/") then "video"
                 else if StartsWith(contentType, "audio/") then "audio"
                 else OrElse(mediaType, "document")
  {
    var kind := OrElse(mediaType, "document");
    if StartsWith(contentType, "image/") then "image"
    else if StartsWith(contentType, "video/") then "video"
    else if StartsWith(contentType, "audio/") then "audio"
    else if contentType == "image/gif" then "gif"
    else kind
  }

  /** The gif test comes after the `image/` test that already takes `image/gif`. */
  lemma GifNeverFromContentType(contentType: string, mediaType: Option<string>)
    ensures Classify(contentType, mediaType) == "gif" ==> mediaType == Some("gif")
    ensures Classify("image/gif", mediaType) == "image"
    ensures MaxSize(Classify("image/gif", mediaType)) == 10 * MiB
  {
  }

  /** Classification with the specific `image/gif` test placed before the `image/` family. */
  function ClassifyCorrected(contentType: string, mediaType: Option<string>): string {
    if contentType == "image/gif" then "gif"
    else Classify(contentType, mediaType)
  }

  /** GIF uploads get the 20 MiB limit; every other content type is classified as before. */
  lemma CorrectedGif(contentType: string, mediaType: Option<string>)
    ensures ClassifyCorrected("image/gif", mediaType) == "gif"
    ensures MaxSize(ClassifyCorrected("image/gif", mediaType)) == 20 * MiB
    ensures contentType != "image/gif" ==>
      ClassifyCorrected(contentType, mediaType) == Classify(contentType, mediaType)
  {
  }

  // ------------------------------------------------------------ upload key

  /** `filename.split(".").pop()`: what follows the last dot, or the whole name. */
  function Extension(filename: string): (r: string)
    ensures '.' !in r
    ensures EndsWith(filename, r)
    ensures '.' !in filename ==> r == filename
    ensures '.' in filename ==> |r| < |filename| && filename[|filename| - |r| - 1] == '.'
    decreases |filename|
  {
    if filename == [] then []
    else
      var last := filename[|filename| - 1];
      var init := filename[..|filename| - 1];
      assert filename == init + [last];
      if last == '.' then []
      else
        var e := Extension(init);
        assert '.' in filename ==> '.' in init;
        e + [last]
  }

  datatype PresignRequest = PresignRequest(
    filename: Option<string>, contentType: Option<string>, size: Option<int>, mediaType: Option<string>)

  /** What the handler answers with a signed URL for. */
  datatype Upload = Upload(key: string, mediaType: string, contentType: string, originalFilename: string)

  /** `uploads/{type}/{fileId}.{ext}`. */
  function UploadKey(kind: string, fileId: string, filename: string): string {
    "uploads/" + kind + "/" + fileId + "." + Extension(filename)
  }

  /** The 413 message, which gives the limit in whole MiB. */
  function TooLarge(kind: string): string {
    "File too large. Maximum " + kind + " size is " + NatToString(MaxSize(kind) / MiB) + "MB"
  }

  /** POST /upload/presign. */
  function Presign(req: PresignRequest, fileId: string): (r: Reply<Upload>)
    ensures r.Failure? && r.status == 400 <==>
      !Truthy(req.filename) || !Truthy(req.contentType) || req.size.None? || req.size == Some(0)
    ensures Truthy(req.filename) && Truthy(req.contentType) && req.size.Some? && req.size.value != 0 ==>
      (r.Failure? <==> req.size.value > MaxSize(Classify(req.contentType.value, req.mediaType)))
    ensures r.Failure? && r.status != 400 ==>
      var kind := Classify(req.contentType.value, req.mediaType);
      r.status == 413 && r.message == TooLarge(kind)
    ensures r.Success? ==>
      var kind := Classify(req.contentType.value, req.mediaType);
      r.value == Upload(UploadKey(kind, fileId, req.filename.value), kind, req.contentType.value, req.filename.value)
  {
    if !Truthy(req.filename) || !Truthy(req.contentType) || req.size.None? || req.size == Some(0) then
      Failure(400, "filename, contentType and size are required")
    else
      var kind := Classify(req.contentType.value, req.mediaType);
      var maxSize := MaxSize(kind);
      if req.size.value > maxSize then
        Failure(413, TooLarge(kind))
      else
        Success(Upload(UploadKey(kind, fileId, req.filename.value), kind,
                       req.contentType.value, req.filename.value))
  }

  /** A size exactly at the limit is accepted; one byte more is refused. */
  lemma SizeLimitBoundary(filename: string, contentType: string, mediaType: Option<string>, fileId: string)
    requires filename != "" && contentType != ""
    ensures var kind := Classify(contentType, mediaType);
      Presign(PresignRequest(Some(filename), Some(contentType), Some(MaxSize(kind) as int), mediaType), fileId).Success?
      && Presign(PresignRequest(Some(filename), Some(contentType), Some(MaxSize(kind) + 1), mediaType), fileId).status == 413
  {
    var kind := Classify(contentType, mediaType);
    assert MaxSize(kind) >= 10 * MiB;
  }

  /** The key files the upload under its type and keeps the name's extension. */
  lemma UploadKeyShape(kind: string, fileId: string, filename: string)
    ensures StartsWith(UploadKey(kind, fileId, filename), "uploads/" + kind + "/" + fileId + ".")
    ensures EndsWith(UploadKey(kind, fileId, filename), Extension(filename))
  {
    var p := "uploads/" + kind + "/" + fileId + ".";
    var k := UploadKey(kind, fileId, filename);
    assert k == p + Extension(filename);
    assert k[..|p|] == p;
    assert k[|k| - |Extension(filename)|..] == Extension(filename);
  }

  // ------------------------------------------------------------ HLS manifest

  /** A rendition of `VIDEO_QUALITIES`; `bitrate` is written as in the table, e.g. `200k`. */
  datatype Quality = Quality(quality: string, resolution: string, bitrate: string)

  const Qualities: seq<Quality> := [
    Quality("144p", "256x144", "200k"),
    Quality("240p", "426x240", "400k"),
    Quality("360p", "640x360", "800k"),
    Quality("480p", "854x480", "1200k"),
    Quality("720p", "1280x720", "2500k"),
    Quality("1080p", "1920x1080", "5000k")]

  predicate IsDigit(c: char) { '0' <= c <= '9' }

  /** `parseInt` of a string that starts with digits: the value of the leading digits. */
  function LeadingNumber(s: string, acc: nat): nat
    decreases |s|
  {
    if s == [] || !IsDigit(s[0]) then acc
    else LeadingNumber(s[1..], acc * 10 + (s[0] as int - '0' as int))
  }

  /** `parseInt(q.bitrate) * 1000`: kilobits to the bits per second that BANDWIDTH carries. */
  function Bandwidth(q: Quality): nat {
    LeadingNumber(q.bitrate, 0) * 1000
  }

  /** Each line of the master playlist. */
  function TagLine(q: Quality): string {
    "#EXT-X-STREAM-INF:BANDWIDTH=" + NatToString(Bandwidth(q)) + ",RESOLUTION=" + q.resolution
  }

  function UriLine(q: Quality): string {
    q.quality + "/playlist.m3u8"
  }

  /** Each quality contributes its tag line followed by its URI line. */
  function VariantLines(qs: seq<Quality>): (r: seq<string>)
    ensures |r| == 2 * |qs|
    ensures forall i :: 0 <= i < |qs| ==> r[2 * i] == TagLine(qs[i]) && r[2 * i + 1] == UriLine(qs[i])
    decreases |qs|
  {
    if qs == [] then []
    else VariantLines(qs[..|qs| - 1]) + [TagLine(qs[|qs| - 1]), UriLine(qs[|qs| - 1])]
  }

  const HeaderLines: seq<string> := ["#EXTM3U", "#EXT-X-VERSION:3", ""]

  /** Lines each followed by a line feed. */
  function Terminated(lines: seq<string>): string
    decreases |lines|
  {
    if lines == [] then "" else Terminated(lines[..|lines| - 1]) + lines[|lines| - 1] + "\n"
  }

  lemma TerminatedPair(lines: seq<string>, a: string, b: string)
    ensures Terminated(lines + [a, b]) == Terminated(lines) + a + "\n" + b + "\n"
  {
    assert (lines + [a, b])[..|lines| + 1] == lines + [a];
    assert (lines + [a])[..|lines|] == lines;
  }

  lemma {:induction false} TerminatedPrefix(lines: seq<string>, more: seq<string>)
    ensures StartsWith(Terminated(lines + more), Terminated(lines))
    decreases |more|
  {
    if more == [] {
      assert lines + more == lines;
    } else {
      var init := more[..|more| - 1];
      TerminatedPrefix(lines, init);
      assert (lines + more)[..|lines + more| - 1] == lines + init;
    }
  }

  lemma HeaderText()
    ensures Terminated(HeaderLines) == "#EXTM3U\n#EXT-X-VERSION:3\n\n"
  {
    var l1: seq<string> := ["#EXTM3U"];
    assert l1[..0] == [];
    assert Terminated(l1) == "#EXTM3U\n";
    var l2 := l1 + ["#EXT-X-VERSION:3"];
    assert l2[..1] == l1;
    assert Terminated(l2) == "#EXTM3U\n#EXT-X-VERSION:3\n";
    assert HeaderLines[..2] == l2;
  }

  /** One more quality appends its two lines. */
  lemma ManifestStep(qs: seq<Quality>, i: nat)
    requires i < |qs|
    ensures Terminated(HeaderLines + VariantLines(qs[..i + 1]))
         == Terminated(HeaderLines + VariantLines(qs[..i])) + (TagLine(qs[i]) + "\n") + (UriLine(qs[i]) + "\n")
  {
    assert qs[..i + 1][..i] == qs[..i];
    TerminatedPair(HeaderLines + VariantLines(qs[..i]), TagLine(qs[i]), UriLine(qs[i]));
    assert HeaderLines + VariantLines(qs[..i + 1])
        == (HeaderLines + VariantLines(qs[..i])) + [TagLine(qs[i]), UriLine(qs[i])];
  }

  /** The master playlist text for the given renditions. */
  function ManifestText(qs: seq<Quality>): string {
    Terminated(HeaderLines + VariantLines(qs))
  }

  /** GET /video/{videoId}/manifest.m3u8: the loop that appends two lines per quality. */
  method BuildManifest(qs: seq<Quality>) returns (manifest: string)
    ensures manifest == ManifestText(qs)
  {
    manifest := "#EXTM3U\n#EXT-X-VERSION:3\n\n";
    HeaderText();
    assert HeaderLines + VariantLines(qs[..0]) == HeaderLines;
    var i := 0;
    while i < |qs|
      invariant 0 <= i <= |qs|
      invariant manifest == Terminated(HeaderLines + VariantLines(qs[..i]))
    {
      var q := qs[i];
      manifest := manifest + ("#EXT-X-STREAM-INF:BANDWIDTH=" + NatToString(LeadingNumber(q.bitrate, 0) * 1000)
                              + ",RESOLUTION=" + q.resolution + "\n");
      manifest := manifest + (q.quality + "/playlist.m3u8\n");
      ManifestStep(qs, i);
      i := i + 1;
    }
    assert qs[..i] == qs;
  }

  /** The bit rates of the six renditions, in table order. */
  lemma QualityBandwidths()
    ensures |Qualities| == 6
    ensures Bandwidth(Qualities[0]) == 200000 && Bandwidth(Qualities[1]) == 400000
    ensures Bandwidth(Qualities[2]) == 800000 && Bandwidth(Qualities[3]) == 1200000
    ensures Bandwidth(Qualities[4]) == 2500000 && Bandwidth(Qualities[5]) == 5000000
  {
  }

  /**
   * The master playlist opens with `#EXTM3U` (section 4.3.1.1 of RFC 8216)
   * and `#EXT-X-VERSION:3` (section 4.3.1.2), then has one
   * `#EXT-X-STREAM-INF` line with BANDWIDTH in bits per second
   * (section 4.3.4.2) followed by its URI line for each quality, in order.
   */
  lemma ManifestShape(qs: seq<Quality>)
    ensures StartsWith(ManifestText(qs), "#EXTM3U\n#EXT-X-VERSION:3\n\n")
    ensures var lines := HeaderLines + VariantLines(qs);
      ManifestText(qs) == Terminated(lines) && |lines| == 3 + 2 * |qs|
      && forall i :: 0 <= i < |qs| ==>
           lines[3 + 2 * i] == "#EXT-X-STREAM-INF:BANDWIDTH=" + NatToString(Bandwidth(qs[i]))
                               + ",RESOLUTION=" + qs[i].resolution
           && lines[4 + 2 * i] == qs[i].quality + "/playlist.m3u8"
  {
    TerminatedPrefix(HeaderLines, VariantLines(qs));
    HeaderText();
  }

  /** GET /video/{videoId}/{quality}/playlist.m3u8: one fixed single-segment playlist. */
  function QualityPlaylist(videoId: string, quality: string): string {
    "#EXTM3U\n"
    + "#EXT-X-VERSION:3\n#EXT-X-TARGETDURATION:10\n#EXT-X-MEDIA-SEQUENCE:0\n#EXTINF:10.0,\nsegment-0.ts\n"
    + "#EXT-X-ENDLIST"
  }

  /** It opens with `#EXTM3U` and closes with `#EXT-X-ENDLIST` (sections 4.3.1.1 and 4.3.3.4 of RFC 8216). */
  lemma PlaylistShape(videoId: string, quality: string)
    ensures StartsWith(QualityPlaylist(videoId, quality), "#EXTM3U\n")
    ensures EndsWith(QualityPlaylist(videoId, quality), "#EXT-X-ENDLIST")
  {
    var p := QualityPlaylist(videoId, quality);
    var first, last := "#EXTM3U\n", "#EXT-X-ENDLIST";
    var mid := "#EXT-X-VERSION:3\n#EXT-X-TARGETDURATION:10\n#EXT-X-MEDIA-SEQUENCE:0\n#EXTINF:10.0,\nsegment-0.ts\n";
    assert p == first + mid + last;
    assert p[..|first|] == first;
    assert p[|first + mid|..] == last;
  }

  /** The playlist does not depend on the video or the quality asked for. */
  lemma PlaylistIgnoresRequest(v1: string, q1: string, v2: string, q2: string)
    ensures QualityPlaylist(v1, q1) == QualityPlaylist(v2, q2)
  {
  }

  // -------------------------------------------------------------- multipart

  /** One `{ partNumber, uploadUrl }` entry, with the object key it signs. */
  datatype Part = Part(partNumber: nat, objectKey: string, uploadUrl: string)

  function PartKey(key: string, i: nat): string {
    key + ".part" + NatToString(i)
  }

  /** `uploads/multipart/{fileId}/{filename}`. */
  function MultipartKey(fileId: string, filename: string): string {
    "uploads/multipart/" + fileId + "/" + filename
  }

  /** The loop `for (let i = 1; i <= parts; i++)`; `sign` is the presigner. */
  method PartUrls(key: string, parts: int, sign: string -> string) returns (partUrls: seq<Part>)
    ensures |partUrls| == if parts > 0 then parts else 0
    ensures forall i :: 0 <= i < |partUrls| ==>
      partUrls[i] == Part(i + 1, PartKey(key, i + 1), sign(PartKey(key, i + 1)))
  {
    partUrls := [];
    var i := 1;
    while i <= parts
      invariant 1 <= i <= (if parts > 0 then parts else 0) + 1
      invariant |partUrls| == i - 1
      invariant forall j :: 0 <= j < |partUrls| ==>
        partUrls[j] == Part(j + 1, PartKey(key, j + 1), sign(PartKey(key, j + 1)))
      decreases parts - i
    {
      var objectKey := key + ".part" + NatToString(i);
      partUrls := partUrls + [Part(i, objectKey, sign(objectKey))];
      i := i + 1;
    }
  }

  /** Every part has its own object key. */
  lemma PartKeysDistinct(key: string, i: nat, j: nat)
    requires PartKey(key, i) == PartKey(key, j)
    ensures i == j
  {
    var p := key + ".part";
    assert PartKey(key, i)[|p|..] == NatToString(i);
    assert PartKey(key, j)[|p|..] == NatToString(j);
    NatToStringInjective(i, j);
  }

  datatype MultipartRequest = MultipartRequest(
    filename: Option<string>, contentType: Option<string>, size: Option<int>, parts: Option<int>)

  datatype Multipart = Multipart(uploadId: string, key: string, parts: seq<Part>)

  /** POST /upload/multipart. */
  method StartMultipart(req: MultipartRequest, fileId: string, sign: string -> string)
    returns (r: Reply<Multipart>)
    ensures r.Failure? <==>
      !Truthy(req.filename) || !Truthy(req.contentType) || req.size.None? || req.size == Some(0)
      || req.parts.None? || req.parts == Some(0)
    ensures r.Failure? ==> r == Failure(400, "filename, contentType, size, and parts are required")
    ensures r.Success? ==>
      r.value.uploadId == fileId && r.value.key == MultipartKey(fileId, req.filename.value)
      && |r.value.parts| == (if req.parts.value > 0 then req.parts.value else 0)
      && forall i :: 0 <= i < |r.value.parts| ==>
           r.value.parts[i].partNumber == i + 1
           && r.value.parts[i].objectKey == PartKey(r.value.key, i + 1)
           && r.value.parts[i].uploadUrl == sign(PartKey(r.value.key, i + 1))
  {
    if !Truthy(req.filename) || !Truthy(req.contentType) || req.size.None? || req.size == Some(0)
       || req.parts.None? || req.parts == Some(0) {
      return Failure(400, "filename, contentType, size, and parts are required");
    }
    var key := "uploads/multipart/" + fileId + "/" + req.filename.value;
    var partUrls := PartUrls(key, req.parts.value, sign);
    r := Success(Multipart(fileId, key, partUrls));
  }
}
