/** `fileType`: from the `content-type` header of a HEAD request to a MimeType
    descriptor, in the two variants of the pipeline (index.mjs and index.ts). */
module Mime {
  import opened Js

  /** The descriptor every stage passes around; each part may be `undefined`. */
  datatype MimeType = MimeType(mime: JsStr, contentType: JsStr, ext: JsStr)

  /** What the HEAD request reported: a request error, or the response's
      `content-type` header (absent when the server sent none). */
  datatype HeadOutcome = RequestFailed | Headers(contentType: JsStr)

  /** What the byte-sniffing library (`fileTypeFromStream`) reports for a file it
      recognises. */
  datatype FileTypeResult = FileTypeResult(ext: string, mime: string)

  /** The sniffing collaborator used for `application/octet-stream`: the stream or the
      library throws, or it resolves with a result (None: the bytes were not recognised). */
  datatype SniffOutcome = SniffThrows | Sniffed(found: Option<FileTypeResult>)

  /** A resolved descriptor, or the rejection code (`err` field) of the promise. */
  datatype Detection = Detected(m: MimeType) | Rejected(code: int)

  const OctetStream: string := "application/octet-stream"

  /** What `toString()` gives for the plain object the sniffing library returns. */
  const ObjectToString: string := "[object Object]"

  /** The contentType every sniffed descriptor carries: segment 0 of ObjectToString,
      lower-cased (see SniffedContentTypeComputed). */
  const SniffedContentType: string := "[object object]"

  /** `mime.toString().split("/")[0].toLowerCase()` for the library's result object. */
  lemma SniffedContentTypeComputed()
    ensures LowerStr(Split(ObjectToString, '/')[0]) == SniffedContentType
  {
    NoSlashInObjectToString();
    SplitNoSeparator(ObjectToString, '/');
    LowerObjectToString();
  }

  lemma NoSlashInObjectToString()
    ensures '/' !in ObjectToString
  {
    var s := ObjectToString;
    forall k | 0 <= k < |s| ensures s[k] != '/' {
      assert s[k] in "[objectO ]";
    }
  }

  lemma LowerObjectToString()
    ensures LowerStr(ObjectToString) == SniffedContentType
  {
    var s, t := ObjectToString, SniffedContentType;
    forall k | 0 <= k < |s| ensures Lower(s[k]) == t[k] {
      if k == 8 {
        assert s[k] == 'O' && t[k] == 'o';
      } else {
        assert s[k] == t[k] && !('A' <= s[k] <= 'Z');
      }
    }
    LowerStrPointwise(s, t);
  }

  /** The descriptor of the sniffing branch: the library's `ext` and `mime` spread in,
      and a contentType computed from the object's string form rather than its mime. */
  function SniffedDescriptor(f: FileTypeResult): MimeType {
    MimeType(Some(f.mime), Some(SniffedContentType), Some(f.ext))
  }

  /** The `mime` of the non-sniffing branch in index.mjs: the header lower-cased,
      its first "jpeg" replaced by "jpg" (NormaliseMjsMime). */
  function CanonicalMime(header: string): string {
    ReplaceFirst(LowerStr(header), "jpeg", "jpg")
  }

  /** The descriptor of the non-sniffing branch in index.mjs: the canonical mime,
      then segments 0 and 1 of splitting it on "/". */
  function NormaliseMjs(header: string): (m: MimeType)
    ensures m.mime == Some(CanonicalMime(header)) && m.contentType.Some?
    ensures IsLower(m.mime.value)
    ensures Segments01(m.mime.value, '/', m.contentType.value, m.ext)
  {
    var d := CanonicalMime(header);
    LowerStrIsLower(header);
    ReplaceFirstLower(LowerStr(header), "jpeg", "jpg");
    var parts := Split(d, '/');
    SplitSegments(d, '/');
    SegmentZeroLower(d, parts[0]);
    LowerStrOfLower(parts[0]);
    MimeType(Some(d), Some(LowerStr(parts[0])), At(parts, 1))
  }

  /** A prefix of a lower-case string is lower case. */
  lemma SegmentZeroLower(d: string, seg0: string)
    requires IsLower(d) && |seg0| <= |d| && d[..|seg0|] == seg0
    ensures IsLower(seg0)
  {
    assert forall k :: 0 <= k < |seg0| ==> seg0[k] == d[k];
  }

  /** The mime index.mjs reports is the lower-cased header, unchanged when it has no
      "jpeg" and otherwise with "jpg" in place of its first "jpeg". */
  lemma NormaliseMjsMime(header: string)
    ensures IndexOf(LowerStr(header), "jpeg").None? ==> NormaliseMjs(header).mime == Some(LowerStr(header))
    ensures IndexOf(LowerStr(header), "jpeg").Some? ==>
      var l, i := LowerStr(header), IndexOf(LowerStr(header), "jpeg").value;
      && OccursAt(l, "jpeg", i)
      && (forall j: nat :: j < i ==> !OccursAt(l, "jpeg", j))
      && NormaliseMjs(header).mime == Some(l[..i] + "jpg" + l[i + 4..])
  {
    IndexOfSpec(LowerStr(header), "jpeg");
    ReplaceFirstSpec(LowerStr(header), "jpeg", "jpg");
  }

  /** `fileType` of index.mjs. A request error rejects with 0, a missing or empty
      header with 1, an octet-stream header defers to the sniffer (2 when it throws;
      an unrecognised file gives a descriptor with every part undefined); every other
      header is normalised. */
  function FileTypeMjs(head: HeadOutcome, sniff: SniffOutcome): (r: Detection)
    ensures r == Rejected(0) <==> head.RequestFailed?
    ensures r == Rejected(1) <==> head.Headers? && !Truthy(head.contentType)
    ensures r == Rejected(2) <==>
      head.Headers? && Truthy(head.contentType) && head.contentType.value == OctetStream && sniff.SniffThrows?
    ensures r.Rejected? ==> r.code in {0, 1, 2}
    ensures head.Headers? && Truthy(head.contentType) && head.contentType.value != OctetStream ==>
      r == Detected(NormaliseMjs(head.contentType.value))
    ensures head.Headers? && Truthy(head.contentType) && head.contentType.value == OctetStream && sniff.Sniffed? ==>
      r == Detected(if sniff.found.Some? then SniffedDescriptor(sniff.found.value) else MimeType(None, None, None))
  {
    match head
    case RequestFailed => Rejected(0)
    case Headers(h) =>
      if !Truthy(h) then Rejected(1)
      else if h.value == OctetStream then
        match sniff
        case SniffThrows => Rejected(2)
        case Sniffed(None) => Detected(MimeType(None, None, None))
        case Sniffed(Some(f)) => Detected(SniffedDescriptor(f))
      else Detected(NormaliseMjs(h.value))
  }

  /** The descriptor of the non-sniffing branch in index.ts: the header kept verbatim,
      only segment 0 lower-cased, segment 1 kept as it is. */
  function NormaliseTs(header: string): (m: MimeType)
    ensures m.mime == Some(header)
    ensures m.contentType.Some? && IsLower(m.contentType.value)
    ensures Segments01(header, '/', Split(header, '/')[0], m.ext)
    ensures m.contentType.value == LowerStr(Split(header, '/')[0])
  {
    var parts := Split(header, '/');
    SplitSegments(header, '/');
    LowerStrIsLower(parts[0]);
    MimeType(Some(header), Some(LowerStr(parts[0])), At(parts, 1))
  }

  /** `fileType` of index.ts: the same error codes as index.mjs, with NormaliseTs for
      every other header; an unrecognised octet-stream file also rejects with 2,
      because the non-null assertion on the sniffing result does not hold. */
  function FileTypeTs(head: HeadOutcome, sniff: SniffOutcome): (r: Detection)
    ensures r == Rejected(0) <==> head.RequestFailed?
    ensures r == Rejected(1) <==> head.Headers? && !Truthy(head.contentType)
    ensures r == Rejected(2) <==>
      head.Headers? && Truthy(head.contentType) && head.contentType.value == OctetStream &&
      (sniff.SniffThrows? || sniff.found.None?)
    ensures r.Rejected? ==> r.code in {0, 1, 2}
    ensures head.Headers? && Truthy(head.contentType) && head.contentType.value != OctetStream ==>
      r == Detected(NormaliseTs(head.contentType.value))
    ensures (head.Headers? && Truthy(head.contentType) && head.contentType.value == OctetStream &&
             sniff.Sniffed? && sniff.found.Some?) ==>
      r == Detected(SniffedDescriptor(sniff.found.value))
  {
    match head
    case RequestFailed => Rejected(0)
    case Headers(h) =>
      if !Truthy(h) then Rejected(1)
      else if h.value == OctetStream then
        match sniff
        case SniffThrows => Rejected(2)
        case Sniffed(None) => Rejected(2)
        case Sniffed(Some(f)) => Detected(SniffedDescriptor(f))
      else Detected(NormaliseTs(h.value))
  }

  /** When the header is already lower case and has no "jpeg", both variants agree. */
  lemma VariantsAgreeOnCanonicalHeaders(header: string)
    requires IsLower(header) && IndexOf(header, "jpeg").None?
    ensures NormaliseMjs(header) == NormaliseTs(header)
  {
    LowerStrOfLower(header);
  }

  /** A descriptor the index.mjs pipeline itself writes (lower-case, one "/", no
      "jpeg") is a fixed point: sending its `mime` back as a header yields it again. */
  lemma NormaliseMjsRoundTrip(contentType: string, ext: string)
    requires IsLower(contentType) && IsLower(ext)
    requires '/' !in contentType && '/' !in ext
    requires IndexOf(contentType + "/" + ext, "jpeg").None?
    ensures NormaliseMjs(contentType + "/" + ext)
         == MimeType(Some(contentType + "/" + ext), Some(contentType), Some(ext))
  {
    var h := contentType + "/" + ext;
    assert IsLower("/");
    IsLowerConcat(contentType, "/");
    IsLowerConcat(contentType + "/", ext);
    LowerStrOfLower(h);
    assert ReplaceFirst(LowerStr(h), "jpeg", "jpg") == h;
    SplitAtFirst(contentType, '/', ext);
    SplitNoSeparator(ext, '/');
    assert Split(h, '/') == [contentType, ext];
    LowerStrOfLower(contentType);
  }

  /** When normalising yields "<type>/<ext>" with one "/", those are the two parts. */
  lemma NormaliseMjsParts(header: string, contentType: string, ext: string)
    requires CanonicalMime(header) == contentType + "/" + ext
    requires IsLower(contentType) && '/' !in contentType && '/' !in ext
    ensures NormaliseMjs(header) == MimeType(Some(contentType + "/" + ext), Some(contentType), Some(ext))
  {
    SplitAtFirst(contentType, '/', ext);
    SplitNoSeparator(ext, '/');
    LowerStrOfLower(contentType);
  }

  /** The header "image/JPEG" gives mime "image/jpg", contentType "image" and ext "jpg"
      (FileTypeMjs passes every non-octet-stream header to NormaliseMjs). */
  lemma ExampleJpegMjs()
    ensures NormaliseMjs("image/JPEG") == MimeType(Some("image/jpg"), Some("image"), Some("jpg"))
  {
    JpegHeaderReplaced();
    JpegLiterals();
    NormaliseMjsParts("image/JPEG", "image", "jpg");
  }

  /** The literal facts the jpeg examples rest on. */
  lemma JpegLiterals()
    ensures "image/" + "jpeg" == "image/jpeg" && "image/" + "jpg" == "image/jpg"
    ensures "image" + "/" + "jpg" == "image/jpg" && "image" + "/" + "JPEG" == "image/JPEG"
    ensures IsLower("image") && '/' !in "image" && '/' !in "jpg" && '/' !in "JPEG"
  {
  }

  lemma JpegHeaderReplaced()
    ensures CanonicalMime("image/JPEG") == "image/jpg"
  {
    LowerImageJpeg();
    JpegReplaced();
  }

  lemma JpegReplaced()
    ensures ReplaceFirst("image/jpeg", "jpeg", "jpg") == "image/jpg"
  {
    FirstJpegAt6();
    ReplaceFirstAt("image/jpeg", "jpeg", "jpg", 6);
    JpegLiterals();
    SwapTail("image/", "jpeg", "jpg");
  }

  lemma LowerImageJpeg()
    ensures LowerStr("image/JPEG") == "image/jpeg"
  {
    var s, t := "image/JPEG", "image/jpeg";
    forall k | 0 <= k < |s| ensures Lower(s[k]) == t[k] {
      if k >= 6 {
        assert 'A' <= s[k] <= 'Z';
      } else {
        assert s[k] == t[k] && !('A' <= s[k] <= 'Z');
      }
    }
    LowerStrPointwise(s, t);
  }

  lemma FirstJpegAt6()
    ensures IndexOf("image/jpeg", "jpeg") == Some(6)
  {
    var l := "image/jpeg";
    assert OccursAt(l, "jpeg", 6);
    forall j: nat | j < 6 ensures !OccursAt(l, "jpeg", j) {
      assert l[j..j + 4][0] == l[j];
      assert l[j] != 'j';
    }
    IndexOfIsFirst(l, "jpeg", 6);
  }

  /** When a header splits as "<type>/<sub>" with a lower-case type and no further
      "/", index.ts keeps it whole and takes sub as it is. */
  lemma NormaliseTsParts(header: string, contentType: string, sub: string)
    requires header == contentType + "/" + sub
    requires IsLower(contentType) && '/' !in contentType && '/' !in sub
    ensures NormaliseTs(header) == MimeType(Some(header), Some(contentType), Some(sub))
  {
    SplitAtFirst(contentType, '/', sub);
    SplitNoSeparator(sub, '/');
    LowerStrOfLower(contentType);
  }

  /** The same header in index.ts keeps "image/JPEG" and the upper-case ext "JPEG". */
  lemma ExampleJpegTs()
    ensures NormaliseTs("image/JPEG") == MimeType(Some("image/JPEG"), Some("image"), Some("JPEG"))
  {
    JpegLiterals();
    NormaliseTsParts("image/JPEG", "image", "JPEG");
  }

  /** A header with no "/" leaves `ext` undefined in both variants. */
  lemma NoSlashLeavesExtUndefined(header: string)
    requires header != "" && header != OctetStream && '/' !in header
    ensures FileTypeTs(Headers(Some(header)), SniffThrows).m.ext.None?
    ensures FileTypeMjs(Headers(Some(header)), SniffThrows).m.ext.None?
  {
    SplitNoSeparator(header, '/');
    LowerStrNoChar(header, '/');
    ReplaceFirstNoChar(LowerStr(header), "jpeg", "jpg", '/');
    SplitNoSeparator(CanonicalMime(header), '/');
  }
}
