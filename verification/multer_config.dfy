/** src/config/multerConfig.js: where an uploaded receipt is stored, under
    what name, which file types are let through and how large a file may be. */
module MulterConfig {
  import opened Common
  import opened Text
  import opened Library

  /** `allowedMimeTypes`. */
  const AllowedMimeTypes: seq<string> := ["image/jpeg", "image/png", "image/jpg", "application/pdf"]

  /** `limits.fileSize`: 15 MiB. */
  const MaxFileSize: nat := 15 * 1024 * 1024

  /** What `fileFilter` hands its callback: whether it passes an error, and
      whether the file is kept. */
  datatype FilterDecision = FilterDecision(error: bool, accept: bool)

  /** `fileFilter`: keep the file exactly when its MIME type is listed;
      otherwise report an error and drop it. */
  function FileFilter(mimetype: string): (r: FilterDecision)
    ensures r.accept <==> mimetype in AllowedMimeTypes
    ensures r.error <==> !r.accept
  {
    if mimetype in AllowedMimeTypes then FilterDecision(false, true) else FilterDecision(true, false)
  }

  /** Only JPEG, PNG and PDF files pass the filter. */
  lemma FilterAcceptsImagesAndPdfOnly(mimetype: string)
    requires FileFilter(mimetype).accept
    ensures (|mimetype| >= 6 && mimetype[..6] == "image/") || mimetype == "application/pdf"
  {
  }

  /** multer's size limit: a file of at most `MaxFileSize` bytes is kept. */
  function WithinSizeLimit(size: nat): (ok: bool)
    ensures ok <==> size <= 15728640
  {
    size <= MaxFileSize
  }

  /** What `destination` hands its callback: an error, or the folder as path
      segments below the source directory's parent. */
  datatype Destination = Refused | Folder(segments: seq<string>)

  /** `destination`: no (or an empty) `siteId` is an error; otherwise the
      file goes to `uploads/costs/<siteId>`. */
  function DestinationFor(siteId: Option<string>): (r: Destination)
    ensures r.Refused? <==> !Truthy(siteId)
    ensures r.Folder? ==> |r.segments| == 3 && r.segments[..2] == ["uploads", "costs"] && r.segments[2] == siteId.value
  {
    if !Truthy(siteId) then Refused else Folder(["uploads", "costs", siteId.value])
  }

  /** A site id that `path.join` keeps as one folder name of its own: no
      separator and no `.` or `..`. Nothing enforces this: `upload.single`
      runs before the route's validators, so `destination` sees the raw
      `siteId` of the multipart body. */
  predicate PlainSegment(s: string) {
    s != "" && s != "." && s != ".." && forall i :: 0 <= i < |s| ==> s[i] != '/' && s[i] != '\\'
  }

  /** Receipts of different sites land in different folders. */
  lemma SitesGetSeparateFolders(a: Option<string>, b: Option<string>)
    requires a.Some? && b.Some? && PlainSegment(a.value) && PlainSegment(b.value) && a != b
    ensures DestinationFor(a) != DestinationFor(b)
  {
    assert DestinationFor(a).segments[2] == a.value;
  }

  /** `Date.now() + "-" + Math.round(Math.random() * 1e9)`, with the clock
      reading and the rounded random number as parameters. */
  function UniqueSuffix(nowMs: nat, random: nat): string {
    Decimal(nowMs) + "-" + Decimal(random)
  }

  /** `filename`: `cost-<suffix><extension of the original name>`. */
  function FileName(lib: Lib, originalName: string, nowMs: nat, random: nat): (name: string)
    ensures |name| >= 5 && name[..5] == "cost-"
    ensures |name| >= |lib.extname(originalName)|
    ensures name[|name| - |lib.extname(originalName)|..] == lib.extname(originalName)
  {
    "cost-" + UniqueSuffix(nowMs, random) + lib.extname(originalName)
  }

  /** Index of the first `-` in `s`, or `|s|` when there is none. */
  function FirstDash(s: string): (k: nat)
    ensures k <= |s|
  {
    if s == [] || s[0] == '-' then 0 else 1 + FirstDash(s[1..])
  }

  /** A run of digits ends where the first dash after it is. */
  lemma {:induction false} FirstDashAfterDigits(d: string, rest: string)
    requires forall i :: 0 <= i < |d| ==> '0' <= d[i] <= '9'
    ensures FirstDash(d + "-" + rest) == |d|
  {
    if d != [] {
      assert (d + "-" + rest)[1..] == d[1..] + "-" + rest;
      FirstDashAfterDigits(d[1..], rest);
    }
  }

  /** The suffix determines the clock reading and the random number. */
  lemma SuffixInjective(n1: nat, r1: nat, n2: nat, r2: nat)
    requires UniqueSuffix(n1, r1) == UniqueSuffix(n2, r2)
    ensures n1 == n2 && r1 == r2
  {
    var a1, a2 := Decimal(n1), Decimal(n2);
    var s := UniqueSuffix(n1, r1);
    FirstDashAfterDigits(a1, Decimal(r1));
    FirstDashAfterDigits(a2, Decimal(r2));
    assert |a1| == |a2|;
    assert s[..|a1|] == a1;
    assert UniqueSuffix(n2, r2)[..|a2|] == a2;
    DecimalInjective(n1, n2);
    assert s[|a1| + 1..] == Decimal(r1);
    assert UniqueSuffix(n2, r2)[|a2| + 1..] == Decimal(r2);
    DecimalInjective(r1, r2);
  }

  /** Two uploads of the same file get different names unless they happen in
      the same millisecond and draw the same random number. */
  lemma FileNamesDiffer(lib: Lib, originalName: string, n1: nat, r1: nat, n2: nat, r2: nat)
    requires n1 != n2 || r1 != r2
    ensures FileName(lib, originalName, n1, r1) != FileName(lib, originalName, n2, r2)
  {
    var e := lib.extname(originalName);
    var x1, x2 := UniqueSuffix(n1, r1), UniqueSuffix(n2, r2);
    if FileName(lib, originalName, n1, r1) == FileName(lib, originalName, n2, r2) {
      var f := FileName(lib, originalName, n1, r1);
      assert f[5..|f| - |e|] == x1;
      assert FileName(lib, originalName, n2, r2)[5..|f| - |e|] == x2;
      SuffixInjective(n1, r1, n2, r2);
    }
  }
}
