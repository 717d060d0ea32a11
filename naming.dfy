/**
 * Names and paths built by the archive endpoint: the archived file's name
 * (`createFileName`) and the Graph upload path of `uploadFileToSharePoint`.
 * The clock and the random generator are parameters: `isoNow` stands for
 * `new Date().toISOString()` and `randomText` for `Math.random().toString(36)`.
 * Each builder has a parser beside it and a round-trip lemma connecting them.
 */
module Naming {
  import opened Wrappers
  import opened Strings

  const FilePrefix: string := "Inventory-Comparison-"
  const FileExtension: string := ".csv"

  /** `isoNow.split('T')[0]`: everything before the first 'T' (the whole text when there is none). */
  function DatePart(isoNow: string): (date: string)
    ensures 'T' !in date
    ensures |date| <= |isoNow| && isoNow[..|date|] == date
    ensures |date| < |isoNow| ==> isoNow[|date|] == 'T'
  {
    FirstPiece(isoNow, 'T');
    Split(isoNow, 'T')[0]
  }

  /** For a well-formed ISO timestamp ("YYYY-MM-DDTHH:MM:SS.sssZ") the date part is its first ten characters. */
  lemma IsoDatePart(isoNow: string)
    requires |isoNow| > 10 && isoNow[10] == 'T' && 'T' !in isoNow[..10]
    ensures DatePart(isoNow) == isoNow[..10]
  {
  }

  /** JavaScript's `s.substr(start, length)` for non-negative arguments. */
  function Substr(s: string, start: nat, length: nat): (r: string)
    ensures |r| <= length
    ensures start <= |s| ==> start + |r| <= |s| && r == s[start..start + |r|]
    ensures start + length <= |s| ==> |r| == length
    ensures start + length > |s| ==> r == s[if start <= |s| then start else |s|..]
  {
    var from := if start <= |s| then start else |s|;
    var to := if start + length <= |s| then start + length else |s|;
    s[from..to]
  }

  /** `Math.random().toString(36).substr(2, 9)`: at most nine characters after the leading "0.". */
  function UniqueId(randomText: string): (id: string)
    ensures |id| <= 9
    ensures |randomText| >= 11 ==> id == randomText[2..11]
    ensures forall ch :: ch in id ==> ch in randomText
  {
    Substr(randomText, 2, 9)
  }

  /** `createFileName()`: "Inventory-Comparison-<date>-<id>.csv". */
  function CreateFileName(isoNow: string, randomText: string): (name: string)
    ensures |name| >= |FilePrefix| + |FileExtension|
    ensures name[..|FilePrefix|] == FilePrefix
    ensures name[|name| - |FileExtension|..] == FileExtension
  {
    FilePrefix + DatePart(isoNow) + "-" + UniqueId(randomText) + FileExtension
  }

  datatype FileNameParts = FileNameParts(date: string, uniqueId: string)

  /** Reads a file name back: the prefix, a date, a last '-', an id without '-', the extension. */
  function ParseFileName(name: string): Option<FileNameParts>
  {
    if |name| < |FilePrefix| + |FileExtension| || name[..|FilePrefix|] != FilePrefix
      || name[|name| - |FileExtension|..] != FileExtension
    then None
    else
      var parts := Split(name[|FilePrefix|..|name| - |FileExtension|], '-');
      if |parts| < 2 then None
      else Some(FileNameParts(Join(parts[..|parts| - 1], '-'), parts[|parts| - 1]))
  }

  /** The file name determines the date and the random id it was built from. */
  lemma FileNameRoundTrip(isoNow: string, randomText: string)
    requires '-' !in randomText
    ensures ParseFileName(CreateFileName(isoNow, randomText))
         == Some(FileNameParts(DatePart(isoNow), UniqueId(randomText)))
  {
    var date, id := DatePart(isoNow), UniqueId(randomText);
    var name := CreateFileName(isoNow, randomText);
    var middle := date + ['-'] + id;
    assert name == FilePrefix + middle + FileExtension;
    assert name[|FilePrefix|..|name| - |FileExtension|] == middle;
    SplitAround(date, id, '-');
    SplitWithoutSeparator(id, '-');
    var parts := Split(middle, '-');
    assert parts[..|parts| - 1] == Split(date, '-');
    JoinSplit(date, '-');
  }

  const SitesPrefix: string := "/sites/"
  const ContentSuffix: string := ":/content"

  /** The Graph path `uploadFileToSharePoint` writes the file to. */
  function UploadPath(siteId: string, libraryName: string, fileName: string): (path: string)
    ensures |path| >= |SitesPrefix| + |ContentSuffix|
    ensures path[..|SitesPrefix|] == SitesPrefix
    ensures path[|path| - |ContentSuffix|..] == ContentSuffix
  {
    SitesPrefix + siteId + "/drive/root:/" + libraryName + "/" + fileName + ContentSuffix
  }

  datatype UploadTarget = UploadTarget(siteId: string, libraryName: string, fileName: string)

  /** Reads an upload path back into the site, the library and the file name. */
  function ParseUploadPath(path: string): Option<UploadTarget>
  {
    if |path| < |SitesPrefix| + |ContentSuffix| || path[..|SitesPrefix|] != SitesPrefix
      || path[|path| - |ContentSuffix|..] != ContentSuffix
    then None
    else
      var parts := Split(path[|SitesPrefix|..|path| - |ContentSuffix|], '/');
      if |parts| < 5 || parts[1] != "drive" || parts[2] != "root:" then None
      else Some(UploadTarget(parts[0], parts[3], Join(parts[4..], '/')))
  }

  /**
   * The path is built from its three arguments alone and determines them,
   * provided the site id and the library name hold no '/'.
   */
  lemma UploadPathRoundTrip(siteId: string, libraryName: string, fileName: string)
    requires '/' !in siteId && '/' !in libraryName
    ensures ParseUploadPath(UploadPath(siteId, libraryName, fileName))
         == Some(UploadTarget(siteId, libraryName, fileName))
  {
    var path := UploadPath(siteId, libraryName, fileName);
    var parts := Split(path[|SitesPrefix|..|path| - |ContentSuffix|], '/');
    UploadPathPieces(siteId, libraryName, fileName);
    assert parts[4..] == Split(fileName, '/');
    JoinSplit(fileName, '/');
  }

  /** Between the fixed prefix and suffix, the path splits at '/' into site, "drive", "root:", library and the file name's pieces. */
  lemma UploadPathPieces(siteId: string, libraryName: string, fileName: string)
    requires '/' !in siteId && '/' !in libraryName
    ensures var path := UploadPath(siteId, libraryName, fileName);
      Split(path[|SitesPrefix|..|path| - |ContentSuffix|], '/')
      == [siteId, "drive", "root:", libraryName] + Split(fileName, '/')
  {
    UploadPathMiddle(siteId, libraryName, fileName);
    assert '/' !in "drive" && '/' !in "root:";
    SplitFourFirst(siteId, "drive", "root:", libraryName, fileName, '/');
  }

  lemma SplitFourFirst(a: string, b: string, c: string, d: string, e: string, sep: char)
    requires sep !in a && sep !in b && sep !in c && sep !in d
    ensures Split(a + [sep] + (b + [sep] + (c + [sep] + (d + [sep] + e))), sep) == [a, b, c, d] + Split(e, sep)
  {
    SplitAtFirst(d, e, sep);
    SplitAtFirst(c, d + [sep] + e, sep);
    SplitAtFirst(b, c + [sep] + (d + [sep] + e), sep);
    SplitAtFirst(a, b + [sep] + (c + [sep] + (d + [sep] + e)), sep);
  }

  lemma UploadPathMiddle(siteId: string, libraryName: string, fileName: string)
    ensures var path := UploadPath(siteId, libraryName, fileName);
      path[|SitesPrefix|..|path| - |ContentSuffix|]
      == siteId + ['/'] + ("drive" + ['/'] + ("root:" + ['/'] + (libraryName + ['/'] + fileName)))
  {
  }

  /** Different sites, libraries or file names give different upload paths. */
  lemma UploadPathInjective(s1: string, l1: string, f1: string, s2: string, l2: string, f2: string)
    requires '/' !in s1 && '/' !in l1 && '/' !in s2 && '/' !in l2
    requires UploadPath(s1, l1, f1) == UploadPath(s2, l2, f2)
    ensures s1 == s2 && l1 == l2 && f1 == f2
  {
    UploadPathRoundTrip(s1, l1, f1);
    UploadPathRoundTrip(s2, l2, f2);
  }
}
