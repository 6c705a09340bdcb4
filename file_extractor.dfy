/** Choosing a text extractor for an uploaded or downloaded file
    (Downloads/notes/backend/file_extractor.py). The PDF, DOCX and OCR libraries
    themselves are outside the model: what each would return for the file's bytes
    is an input, and whether the library could be imported is a flag. */
module FileExtractor {
  import opened Common
  import opened Strs

  datatype Extractor = PdfExtractor | DocxExtractor | ImageExtractor | NoExtractor

  /** Which optional libraries imported successfully. */
  datatype Libraries = Libraries(pdf: bool, docx: bool, ocr: bool)

  /** The text each library would extract from the file's bytes. */
  datatype LibraryOutput = LibraryOutput(pdf: string, docx: string, ocr: string)

  /** `PurePosixPath(p).name`: the last component, trailing slashes ignored. */
  function PathName(p: string): (r: string)
    ensures '/' !in r
  {
    if p != [] && p[|p| - 1] == '/' then PathName(p[..|p| - 1])
    else p[LastIndexOf(p, '/') + 1..]
  }

  /** `PurePosixPath(p).suffix`: from the last dot of the name, unless the dot is its
      first or last character. */
  function Suffix(p: string): (r: string)
    ensures r == [] || (|r| >= 2 && r[0] == '.')
  {
    var name := PathName(p);
    var i := LastIndexOf(name, '.');
    if 0 < i < |name| - 1 then name[i..] else ""
  }

  predicate PdfRule(ext: string, contentType: Option<string>) {
    ext == ".pdf" || (Given(contentType) && Contains(Lower(contentType.value), "pdf"))
  }

  predicate WordRule(ext: string, contentType: Option<string>) {
    ext == ".docx" || ext == ".doc" || (Given(contentType) && Contains(Lower(contentType.value), "word"))
  }

  predicate ImageRule(ext: string, contentType: Option<string>) {
    ext in [".jpg", ".jpeg", ".png", ".gif", ".bmp"]
    || (Given(contentType) && Contains(Lower(contentType.value), "image"))
  }

  /** The branch of `extract_text_from_file` a file takes. The rules are tried in order,
      and a Word document that is not `.docx` gets no extractor. */
  function Dispatch(filename: string, contentType: Option<string>): (r: Extractor)
    ensures filename == "" ==> r == NoExtractor
    ensures r == PdfExtractor <==> filename != "" && PdfRule(Lower(Suffix(filename)), contentType)
    ensures r == DocxExtractor <==>
      filename != "" && !PdfRule(Lower(Suffix(filename)), contentType) && Lower(Suffix(filename)) == ".docx"
    ensures r == ImageExtractor <==>
      filename != "" && !PdfRule(Lower(Suffix(filename)), contentType)
      && !WordRule(Lower(Suffix(filename)), contentType) && ImageRule(Lower(Suffix(filename)), contentType)
  {
    if filename == "" then NoExtractor
    else
      var ext := Lower(Suffix(filename));
      if PdfRule(ext, contentType) then PdfExtractor
      else if WordRule(ext, contentType) then (if ext == ".docx" then DocxExtractor else NoExtractor)
      else if ImageRule(ext, contentType) then ImageExtractor
      else NoExtractor
  }

  /** `extract_text_from_file`: the chosen library's text, or "" when there is no
      extractor or its library is missing. It never fails. */
  function ExtractText(filename: string, contentType: Option<string>, libs: Libraries, out: LibraryOutput): (r: string)
    ensures r != "" ==> Dispatch(filename, contentType) != NoExtractor
    ensures Dispatch(filename, contentType) == PdfExtractor ==> r == (if libs.pdf then out.pdf else "")
    ensures Dispatch(filename, contentType) == DocxExtractor ==> r == (if libs.docx then out.docx else "")
    ensures Dispatch(filename, contentType) == ImageExtractor ==> r == (if libs.ocr then out.ocr else "")
  {
    match Dispatch(filename, contentType)
    case PdfExtractor => if libs.pdf then out.pdf else ""
    case DocxExtractor => if libs.docx then out.docx else ""
    case ImageExtractor => if libs.ocr then out.ocr else ""
    case NoExtractor => ""
  }

  /** A `.doc` file is never read unless its content type mentions PDF. */
  lemma DocIsNeverRead(filename: string, contentType: Option<string>, libs: Libraries, out: LibraryOutput)
    requires Lower(Suffix(filename)) == ".doc"
    requires !(Given(contentType) && Contains(Lower(contentType.value), "pdf"))
    ensures ExtractText(filename, contentType, libs, out) == ""
  {
    assert Lower(Suffix(filename)) != ".pdf" && Lower(Suffix(filename)) != ".docx";
  }

  /** With none of the three libraries installed, nothing is ever extracted. */
  lemma NoLibrariesNoText(filename: string, contentType: Option<string>, out: LibraryOutput)
    ensures ExtractText(filename, contentType, Libraries(false, false, false), out) == ""
  {
  }

  /** `url.split('?')[0]`: everything before the first `?`. */
  function BeforeQuery(url: string): (r: string)
    ensures '?' !in r && r <= url
    ensures |r| < |url| ==> url[|r|] == '?'
  {
    url[..IndexOf(url, '?')]
  }

  /** `os.path.basename(url.split('?')[0])`: the longest suffix of the part before the
      query that holds no `/`. */
  function UrlFilename(url: string): (r: string)
    ensures '?' !in r && '/' !in r
    ensures |r| <= |BeforeQuery(url)| && r == BeforeQuery(url)[|BeforeQuery(url)| - |r|..]
    ensures |r| < |BeforeQuery(url)| ==> BeforeQuery(url)[|BeforeQuery(url)| - |r| - 1] == '/'
  {
    var path := BeforeQuery(url);
    var r := path[LastIndexOf(path, '/') + 1..];
    assert forall k :: 0 <= k < |r| ==> r[k] == path[LastIndexOf(path, '/') + 1 + k];
    r
  }

  /** What fetching the URL gave: a failure, or the response's content type and the text
      each library would extract from its body. */
  datatype Download = DownloadFailed | Fetched(contentType: string, out: LibraryOutput)

  /** `extract_text_from_url`: any download error yields "". */
  function ExtractTextFromUrl(url: string, download: Download, libs: Libraries): (r: string)
    ensures download.DownloadFailed? ==> r == ""
    ensures download.Fetched? ==>
      r == ExtractText(UrlFilename(url), Some(download.contentType), libs, download.out)
  {
    match download
    case DownloadFailed => ""
    case Fetched(ct, out) => ExtractText(UrlFilename(url), Some(ct), libs, out)
  }
}
