/** The upload checks of serializers.py: `FileUploadSerializer.validate_file` (one file at
    most 50 MiB with an allowed extension) and `BatchPredictionSerializer.validate_files`
    (1 to 10 files, at most 100 MiB together, each passing the single-file checks). */
module Uploads {
  import opened Base

  /** The two attributes of an uploaded file the checks read. */
  datatype UploadedFile = UploadedFile(name: string, size: nat)

  const MaxFileSize: nat := 50 * 1024 * 1024
  const MaxTotalSize: nat := 100 * 1024 * 1024
  const MinBatchFiles: nat := 1
  const MaxBatchFiles: nat := 10

  const AllowedExtensions: seq<string> :=
    [".jpg", ".jpeg", ".png", ".tiff", ".nii", ".nii.gz", ".csv", ".json"]

  /** `str(allowed_extensions)` */
  const AllowedExtensionsText: string :=
    "['.jpg', '.jpeg', '.png', '.tiff', '.nii', '.nii.gz', '.csv', '.json']"

  // ---------------------------------------------------------------------------------------
  // Extensions

  /** `name.split('.')[-1]`: the longest dot-free suffix of the name, which is the whole name
      when it has no dot and otherwise follows its last dot. */
  function LastSegment(name: string): (seg: string)
    ensures |seg| <= |name| && seg == name[|name| - |seg|..]
    ensures '.' !in seg
    ensures |seg| < |name| ==> name[|name| - |seg| - 1] == '.'
  {
    if name == [] then []
    else if name[|name| - 1] == '.' then []
    else
      var init := name[..|name| - 1];
      var before := LastSegment(init);
      var seg := before + [name[|name| - 1]];
      assert name[|name| - |seg|..] == init[|init| - |before|..] + [name[|name| - 1]];
      assert |seg| < |name| ==> name[|name| - |seg| - 1] == init[|init| - |before| - 1];
      seg
  }

  /** `'.' + name.split('.')[-1].lower()` */
  function Extension(name: string): (ext: string)
    ensures |ext| >= 1 && ext[0] == '.'
    ensures ext[1..] == Lower(LastSegment(name))
  {
    "." + Lower(LastSegment(name))
  }

  /** A name split at its last dot gives back the part after it. */
  lemma {:induction false} LastSegmentOfDotted(stem: string, ext: string)
    requires '.' !in ext
    ensures LastSegment(stem + "." + ext) == ext
  {
    if ext != [] {
      var init := ext[..|ext| - 1];
      assert stem + "." + ext == (stem + "." + init) + [ext[|ext| - 1]];
      assert ext == init + [ext[|ext| - 1]];
      LastSegmentOfDotted(stem, init);
    }
  }

  /** Lowering keeps the dot and makes no new one. */
  lemma LowerKeepsDots(s: string)
    ensures ('.' in Lower(s)) == ('.' in s)
  {
    if '.' in Lower(s) {
      var i :| 0 <= i < |s| && Lower(s)[i] == '.';
      assert s[i] == '.';
    }
    if '.' in s {
      var i :| 0 <= i < |s| && s[i] == '.';
      assert Lower(s)[i] == '.';
    }
  }

  /** `.nii.gz` is listed but never matches: an extension holds one dot, at its start. */
  lemma NiiGzNeverMatches(name: string)
    ensures Extension(name) != ".nii.gz"
  {
    var ext := Extension(name);
    var seg := LastSegment(name);
    LowerKeepsDots(seg);
    assert forall i :: 1 <= i < |ext| ==> ext[i] == Lower(seg)[i - 1];
    assert ".nii.gz"[4] == '.';
  }

  // ---------------------------------------------------------------------------------------
  // One file

  predicate SizeAllowed(f: UploadedFile) {
    f.size <= MaxFileSize
  }

  predicate TypeAllowed(f: UploadedFile) {
    Extension(f.name) in AllowedExtensions
  }

  /** `validate_file`: the size is checked before the extension, and an accepted file comes
      back unchanged. */
  function ValidateFile(f: UploadedFile): (r: Result<UploadedFile>)
    ensures r.Ok? <==> SizeAllowed(f) && TypeAllowed(f)
    ensures r.Ok? ==> r.value == f
    ensures !SizeAllowed(f) ==> r == Err(Exception(ValidationError, "File size cannot exceed 50MB"))
    ensures SizeAllowed(f) && !TypeAllowed(f) ==>
              r == Err(Exception(ValidationError, "File type not supported. Allowed: " + AllowedExtensionsText))
  {
    if f.size > MaxFileSize then Err(Exception(ValidationError, "File size cannot exceed 50MB"))
    else if Extension(f.name) !in AllowedExtensions then
      Err(Exception(ValidationError, "File type not supported. Allowed: " + AllowedExtensionsText))
    else Ok(f)
  }

  /** The extension of `stem.ext`, for a dot-free `ext`, is `ext` lowered. */
  lemma ExtensionOfDotted(stem: string, ext: string)
    requires '.' !in ext
    ensures Extension(stem + "." + ext) == "." + Lower(ext)
  {
    LastSegmentOfDotted(stem, ext);
  }

  /** A file `stem.ext` within the size limit passes when `ext` has no dot and, lowered,
      is one of the listed extensions. */
  lemma AcceptedDotted(stem: string, ext: string, size: nat, k: nat)
    requires '.' !in ext && size <= MaxFileSize
    requires k < |AllowedExtensions| && AllowedExtensions[k] == "." + Lower(ext)
    ensures ValidateFile(UploadedFile(stem + "." + ext, size)).Ok?
  {
    ExtensionOfDotted(stem, ext);
  }

  lemma PngListed()
    ensures '.' !in "png" && AllowedExtensions[2] == "." + Lower("png")
  {
    assert forall i :: 0 <= i < 3 ==> "png"[i] != '.';
    assert Lower("png") == "png";
  }

  /** The size limit is inclusive. */
  lemma SizeLimitInclusive()
    ensures ValidateFile(UploadedFile("scan.png", MaxFileSize)).Ok?
    ensures ValidateFile(UploadedFile("scan.png", MaxFileSize + 1)).Err?
  {
    assert ValidateFile(UploadedFile("scan.png", MaxFileSize)).Ok? by {
      PngListed();
      AcceptedDotted("scan", "png", MaxFileSize, 2);
      assert "scan" + "." + "png" == "scan.png" by {
        var a := "scan" + "." + "png";
        assert |a| == 8 && a[..4] == "scan" && a[4] == '.' && a[5..] == "png";
      }
    }
  }

  /** Upper-case extensions pass. */
  lemma UpperCaseExtension()
    ensures ValidateFile(UploadedFile("SCAN.PNG", 10)).Ok?
  {
    assert '.' !in "PNG" && Lower("PNG") == "png" by {
      assert forall i :: 0 <= i < 3 ==> "PNG"[i] != '.';
      assert Lower("PNG") == "png";
    }
    PngListed();
    AcceptedDotted("SCAN", "PNG", 10, 2);
    assert "SCAN" + "." + "PNG" == "SCAN.PNG" by {
      var a := "SCAN" + "." + "PNG";
      assert |a| == 8 && a[..4] == "SCAN" && a[4] == '.' && a[5..] == "PNG";
    }
  }

  /** A name without a dot is read as its own extension. */
  lemma DotlessName()
    ensures ValidateFile(UploadedFile("jpg", 10)).Ok?
  {
    var seg := LastSegment("jpg");
    assert forall i :: 0 <= i < 3 ==> "jpg"[i] != '.';
    assert seg == "jpg";
    assert Lower("jpg") == "jpg";
    assert AllowedExtensions[0] == ".jpg";
    assert Extension("jpg") == ".jpg";
  }

  /** A `.nii.gz` file is refused. */
  lemma NiiGzRefused()
    ensures ValidateFile(UploadedFile("brain.nii.gz", 10)).Err?
  {
    NiiGzNeverMatches("brain.nii.gz");
    LastSegmentOfDotted("brain.nii", "gz");
    assert "brain.nii" + "." + "gz" == "brain.nii.gz";
    assert Lower("gz") == "gz";
    assert ".gz" !in AllowedExtensions;
  }

  // ---------------------------------------------------------------------------------------
  // A batch

  /** `sum(file.size for file in value)` */
  function TotalSize(files: seq<UploadedFile>): nat
  {
    if files == [] then 0 else TotalSize(files[..|files| - 1]) + files[|files| - 1].size
  }

  /** The message for a file that fails the per-file checks of `validate_files`. */
  function FileError(f: UploadedFile): Exception
  {
    if !SizeAllowed(f) then Exception(ValidationError, "File " + f.name + " exceeds 50MB limit")
    else Exception(ValidationError, "File " + f.name + " has unsupported type")
  }

  predicate Accepted(f: UploadedFile) {
    SizeAllowed(f) && TypeAllowed(f)
  }

  /** The index of the first file that fails its size or type check (`|files|` if none). */
  function FirstRejected(files: seq<UploadedFile>): (k: nat)
    ensures k <= |files|
    ensures forall j :: 0 <= j < k ==> SizeAllowed(files[j]) && TypeAllowed(files[j])
    ensures k < |files| ==> !(SizeAllowed(files[k]) && TypeAllowed(files[k]))
  {
    FirstFailing(files, Accepted)
  }

  /** The loop over the files, in order, stopping at the first failure. */
  function CheckEach(files: seq<UploadedFile>): (r: Result<seq<UploadedFile>>)
    ensures r.Ok? <==> FirstRejected(files) == |files|
    ensures r.Ok? ==> r.value == files
    ensures r.Err? ==> r.error == FileError(files[FirstRejected(files)])
  {
    if files == [] then Ok(files)
    else if !SizeAllowed(files[0]) || !TypeAllowed(files[0]) then Err(FileError(files[0]))
    else
      var rest := CheckEach(files[1..]);
      if rest.Err? then Err(rest.error) else Ok(files)
  }

  /** `validate_files`: the total size is checked before any single file; then the first
      failing file decides the error, and a batch where every file passes is returned
      unchanged. */
  function ValidateFiles(files: seq<UploadedFile>): (r: Result<seq<UploadedFile>>)
    ensures TotalSize(files) > MaxTotalSize ==>
              r == Err(Exception(ValidationError, "Total file size cannot exceed 100MB"))
    ensures TotalSize(files) <= MaxTotalSize ==>
              (r.Ok? <==> forall i :: 0 <= i < |files| ==> SizeAllowed(files[i]) && TypeAllowed(files[i]))
    ensures r.Ok? ==> r.value == files
    ensures TotalSize(files) <= MaxTotalSize && r.Err? ==>
              var k := FirstRejected(files);
              && k < |files|
              && (forall j :: 0 <= j < k ==> ValidateFile(files[j]).Ok?)
              && !ValidateFile(files[k]).Ok?
              && r.error == FileError(files[k])
  {
    if TotalSize(files) > MaxTotalSize then
      Err(Exception(ValidationError, "Total file size cannot exceed 100MB"))
    else
      CheckEach(files)
  }

  /** The `files` field with its `min_length=1` and `max_length=10`, which the framework
      checks before `validate_files` runs. */
  function ValidateBatch(files: seq<UploadedFile>): (r: Result<seq<UploadedFile>>)
    ensures |files| < MinBatchFiles ==>
              r == Err(Exception(ValidationError, "Ensure this field has at least 1 elements."))
    ensures |files| > MaxBatchFiles ==>
              r == Err(Exception(ValidationError, "Ensure this field has no more than 10 elements."))
    ensures r.Ok? ==> MinBatchFiles <= |files| <= MaxBatchFiles && r.value == files
    ensures MinBatchFiles <= |files| <= MaxBatchFiles ==> r == ValidateFiles(files)
  {
    if |files| < MinBatchFiles then
      Err(Exception(ValidationError, "Ensure this field has at least 1 elements."))
    else if |files| > MaxBatchFiles then
      Err(Exception(ValidationError, "Ensure this field has no more than 10 elements."))
    else ValidateFiles(files)
  }

  /** A batch passes exactly when it is small enough in total and every file would pass
      `validate_file` on its own. */
  lemma BatchAgreesWithSingle(files: seq<UploadedFile>)
    ensures ValidateFiles(files).Ok? <==>
            TotalSize(files) <= MaxTotalSize &&
            forall i :: 0 <= i < |files| ==> ValidateFile(files[i]) == Ok(files[i])
  {
  }

  lemma TotalSizeOfThree(f: UploadedFile)
    ensures TotalSize([f, f, f]) == 3 * f.size
  {
    assert [f][..0] == [];
    assert TotalSize([f]) == f.size;
    assert [f, f][..1] == [f];
    assert TotalSize([f, f]) == TotalSize([f]) + f.size;
    assert [f, f, f][..2] == [f, f];
    assert TotalSize([f, f, f]) == TotalSize([f, f]) + f.size;
  }

  lemma FortyMiBPngPasses()
    ensures ValidateFile(UploadedFile("a.png", 40 * 1024 * 1024)).Ok?
  {
    PngListed();
    AcceptedDotted("a", "png", 40 * 1024 * 1024, 2);
    assert "a" + "." + "png" == "a.png" by {
      var a := "a" + "." + "png";
      assert |a| == 5 && a[..1] == "a" && a[1] == '.' && a[2..] == "png";
    }
  }

  /** Three files of 40 MiB each pass one by one but not together. */
  lemma TotalLimitIsStricter()
    ensures var f := UploadedFile("a.png", 40 * 1024 * 1024);
      && ValidateFile(f).Ok?
      && ValidateFiles([f, f, f]).Err?
  {
    FortyMiBPngPasses();
    TotalSizeOfThree(UploadedFile("a.png", 40 * 1024 * 1024));
  }
}
