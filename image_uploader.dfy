/** ImageUploader: the checks an uploaded image must pass, the name it is stored under,
    the resize decision, and the upload directory as a set of file names. */
module Images {
  import opened Wrappers
  import opened Ascii

  /** `Path.GetExtension`, scanning back from position `i`: the index of the last '.' of
      `path[..i]` that follows every '/', if any. */
  function DotIndex(path: string, i: nat): (r: Option<nat>)
    requires i <= |path|
    ensures r.Some? ==> r.value < i && path[r.value] == '.'
    ensures r.Some? ==> forall j :: r.value < j < i ==> path[j] != '.' && path[j] != '/'
    decreases i
  {
    if i == 0 then None
    else if path[i - 1] == '.' then Some(i - 1)
    else if path[i - 1] == '/' then None
    else DotIndex(path, i - 1)
  }

  /** A name that could be an extension: a dot and at least one more character,
      none of them a dot or a separator. */
  predicate IsExtension(e: string)
  {
    |e| >= 2 && e[0] == '.' && forall j :: 1 <= j < |e| ==> e[j] != '.' && e[j] != '/'
  }

  /** `Path.GetExtension(path)`: from the last dot of the last path segment to the end, or
      empty when there is no such dot or the dot ends the path. */
  function Extension(path: string): (r: string)
    ensures r == [] || (IsExtension(r) && |r| <= |path| && path[|path| - |r|..] == r)
  {
    match DotIndex(path, |path|)
    case None => ""
    case Some(k) => if k == |path| - 1 then "" else path[k..]
  }

  lemma {:induction false} DotIndexOfSuffix(stem: string, e: string, i: nat)
    requires IsExtension(e)
    requires |stem| < i <= |stem| + |e|
    ensures DotIndex(stem + e, i) == Some(|stem|)
    decreases i
  {
    var path := stem + e;
    if i - 1 > |stem| {
      assert path[i - 1] == e[i - 1 - |stem|];
      DotIndexOfSuffix(stem, e, i - 1);
    } else {
      assert path[i - 1] == e[0];
    }
  }

  /** The extension of `stem + e` is `e` whatever the stem is. */
  lemma ExtensionOfSuffix(stem: string, e: string)
    requires IsExtension(e)
    ensures Extension(stem + e) == e
  {
    DotIndexOfSuffix(stem, e, |stem| + |e|);
    assert (stem + e)[|stem|..] == e;
  }

  lemma {:induction false} DotIndexOfLowered(path: string, i: nat)
    requires i <= |path|
    ensures DotIndex(LowerAll(path), i) == DotIndex(path, i)
    decreases i
  {
    if i > 0 {
      DotIndexOfLowered(path, i - 1);
    }
  }

  /** Lower-casing a path lower-cases its extension and nothing more. */
  lemma ExtensionOfLowered(path: string)
    ensures Extension(LowerAll(path)) == LowerAll(Extension(path))
  {
    DotIndexOfLowered(path, |path|);
    match DotIndex(path, |path|)
    case None =>
    case Some(k) =>
      if k < |path| - 1 {
        assert LowerAll(path)[k..] == LowerAll(path[k..]);
      }
  }

  /** An `IFormFile` as far as the checks look at it. */
  datatype FormFile = FormFile(fileName: string, length: nat)

  const MaxFileSize: nat := 5 * 1024 * 1024
  const AllowedExtensions: seq<string> := [".jpg", ".jpeg", ".png", ".gif", ".svg", ".webp"]

  const EmptyFile := "Dosya boş olamaz."
  /** The size message, with `MaxFileSize / 1024 / 1024` written out as 5. */
  const TooLarge := "Dosya boyutu 5MB'dan büyük olamaz."
  const UnsupportedFormat := "Sadece JPG, JPEG, PNG, GIF, SVG ve WEBP formatları desteklenmektedir."

  /** The argument checks of `UploadImageAsync`, in their order: a missing or empty file,
      then the size, then the lower-cased extension. Success carries that extension. */
  function CheckUpload(file: Option<FormFile>): (r: Result<string, string>)
    ensures r == Failure(EmptyFile) <==> file.None? || file.value.length == 0
    ensures r == Failure(TooLarge) <==> file.Some? && 0 < file.value.length && file.value.length > MaxFileSize
    ensures r == Failure(UnsupportedFormat) <==>
              file.Some? && 0 < file.value.length <= MaxFileSize &&
              LowerAll(Extension(file.value.fileName)) !in AllowedExtensions
    ensures r.Success? ==> r.value in AllowedExtensions && r.value == LowerAll(Extension(file.value.fileName))
  {
    if file.None? || file.value.length == 0 then Failure(EmptyFile)
    else if file.value.length > MaxFileSize then Failure(TooLarge)
    else
      var extension := LowerAll(Extension(file.value.fileName));
      if extension !in AllowedExtensions then Failure(UnsupportedFormat) else Success(extension)
  }

  /** The verdict does not depend on the letter case of the file name. */
  lemma CheckIgnoresCase(name: string, length: nat)
    ensures CheckUpload(Some(FormFile(LowerAll(name), length))) == CheckUpload(Some(FormFile(name, length)))
  {
    ExtensionOfLowered(name);
    LowerAllTwice(Extension(name));
  }

  /** The size limit is inclusive: a file of exactly 5 MiB passes the size check, one byte
      more does not, whatever its name. */
  lemma SizeLimitInclusive(name: string)
    ensures CheckUpload(Some(FormFile(name, MaxFileSize))) != Failure(TooLarge)
    ensures CheckUpload(Some(FormFile(name, MaxFileSize + 1))) == Failure(TooLarge)
  {
  }

  /** Every allowed extension passes, in any letter case, whatever the stem of the name. */
  lemma AllowedExtensionAccepted(stem: string, e: string, length: nat)
    requires 0 < length <= MaxFileSize
    requires IsExtension(e) && LowerAll(e) in AllowedExtensions
    ensures CheckUpload(Some(FormFile(stem + e, length))) == Success(LowerAll(e))
  {
    ExtensionOfSuffix(stem, e);
  }

  /** `$"{Guid.NewGuid()}{extension}"`. */
  function StoredName(guid: string, extension: string): (r: string)
    ensures |r| == |guid| + |extension| && r[|guid|..] == extension
  {
    guid + extension
  }

  /** The stored name keeps the checked extension, so the file is served as the type it
      was accepted as. */
  lemma StoredNameKeepsExtension(guid: string, file: Option<FormFile>)
    requires CheckUpload(file).Success?
    ensures Extension(StoredName(guid, CheckUpload(file).value)) == CheckUpload(file).value
  {
    var e := CheckUpload(file).value;
    assert IsExtension(e) by {
      assert e in AllowedExtensions;
    }
    ExtensionOfSuffix(guid, e);
  }

  const MaxWidth := 1920
  const MaxHeight := 1080

  /** SVGs are kept as uploaded; other images are shrunk only when wider than 1920 or
      taller than 1080. */
  predicate NeedsResize(extension: string, width: nat, height: nat)
  {
    extension != ".svg" && (width > MaxWidth || height > MaxHeight)
  }

  lemma SvgNeverResized(width: nat, height: nat)
    ensures !NeedsResize(".svg", width, height)
  {
  }

  lemma FittingImageKept(extension: string, width: nat, height: nat)
    requires width <= MaxWidth && height <= MaxHeight
    ensures !NeedsResize(extension, width, height)
  {
  }

  /** Why `UploadImageAsync` throws: an argument check, or an image the decoder rejects. */
  datatype UploadError = Rejected(message: string) | NotAnImage

  /** What `UploadImageAsync` returns, with whether the stored file was shrunk. */
  datatype Uploaded = Uploaded(fileName: string, resized: bool)

  /** The upload directory, as the set of file names in it. */
  class UploadDirectory {
    var files: set<string>

    constructor ()
      ensures files == {}
    {
      files := {};
    }

    /** `UploadImageAsync(file)`. `guid` is the fresh GUID text and `dimensions` what the
        decoder reports, `None` when it cannot read the file. The file is written before
        it is decoded, so a file that fails to decode stays in the directory. */
    method UploadImage(file: Option<FormFile>, guid: string, dimensions: Option<(nat, nat)>)
      returns (r: Result<Uploaded, UploadError>)
      modifies this
      ensures CheckUpload(file).Failure? ==>
                r == Failure(Rejected(CheckUpload(file).error)) && files == old(files)
      ensures CheckUpload(file).Success? ==>
                files == old(files) + {StoredName(guid, CheckUpload(file).value)}
      ensures r == Failure(NotAnImage) <==>
                CheckUpload(file).Success? && CheckUpload(file).value != ".svg" && dimensions.None?
      ensures r.Success? <==>
                CheckUpload(file).Success? && (CheckUpload(file).value == ".svg" || dimensions.Some?)
      ensures r.Success? ==>
                CheckUpload(file).Success? &&
                r.value.fileName == StoredName(guid, CheckUpload(file).value) &&
                r.value.resized == (dimensions.Some? &&
                                    NeedsResize(CheckUpload(file).value, dimensions.value.0, dimensions.value.1))
    {
      var checked := CheckUpload(file);
      if checked.Failure? {
        return Failure(Rejected(checked.error));
      }
      var extension := checked.value;
      var fileName := StoredName(guid, extension);
      files := files + {fileName};
      var resized := false;
      if extension != ".svg" {
        if dimensions.None? {
          return Failure(NotAnImage);
        }
        var (width, height) := dimensions.value;
        resized := NeedsResize(extension, width, height);
      }
      r := Success(Uploaded(fileName, resized));
    }

    /** `DeleteImage(fileName)`: a null or empty name does nothing; otherwise that file, and
        only that one, is removed if it is there. */
    method DeleteImage(fileName: Option<string>)
      modifies this
      ensures fileName.None? || fileName.value == "" ==> files == old(files)
      ensures fileName.Some? && fileName.value != "" ==> files == old(files) - {fileName.value}
    {
      if fileName.None? || fileName.value == "" {
        return;
      }
      if fileName.value in files {
        files := files - {fileName.value};
      }
    }
  }
}
