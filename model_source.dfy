/**
 * Where the Prism model comes from: an existing local directory, or a URL
 * of a `.tar` archive that is downloaded and extracted. The file-system
 * test (`os.path.isdir`), the URL syntax check (`validators.url`) and the
 * download-and-extract step are external and enter as parameters.
 */
module ModelSource {
  import opened Wrappers
  import opened PathText

  /** The model used when no `model_path_or_url` is configured. */
  const DefaultModelUrl: string := "http://data.statmt.org/prism/m39v1.tar"

  /** The two `ValueError`s the resolution raises. */
  datatype ModelSourceError =
    | NeitherDirectoryNorUrl   // not an existing directory and not a valid URL
    | NotTarArchive            // a valid URL that does not end in ".tar"

  /** What a valid model source resolves to, before any download. */
  datatype Resolution =
    | LocalDirectory(path: string)            // used as `model_dir` as it is
    | TarArchive(url: string, folder: string) // downloaded; `folder` names the extracted model

  /** The folder an archive extracts to: its basename with every ".tar" removed. */
  function FolderName(url: string): (r: string)
    ensures '/' !in r
    ensures |r| <= |Basename(url)|
  {
    var base := Basename(url);
    RemoveAllPreservesAbsence(base, '/', TarSuffix);
    RemoveAll(base, TarSuffix)
  }

  /** Removing a pattern never introduces a character that was absent. */
  lemma {:induction false} RemoveAllPreservesAbsence(s: string, c: char, pat: string)
    requires |pat| > 0
    requires c !in s
    ensures c !in RemoveAll(s, pat)
    decreases |s|
  {
    if |s| < |pat| {
    } else if s[..|pat|] == pat {
      assert forall k :: 0 <= k < |s[|pat|..]| ==> s[|pat|..][k] == s[|pat| + k];
      RemoveAllPreservesAbsence(s[|pat|..], c, pat);
    } else {
      assert forall k :: 0 <= k < |s[1..]| ==> s[1..][k] == s[1 + k];
      RemoveAllPreservesAbsence(s[1..], c, pat);
    }
  }

  /**
   * The decision procedure of the model download step: a directory wins;
   * otherwise the source must be a URL, and a URL must name a ".tar" file.
   */
  function Resolve(source: string, isDir: string -> bool, isUrl: string -> bool)
    : (r: Result<Resolution, ModelSourceError>)
    ensures r == Failure(NeitherDirectoryNorUrl) <==> !isDir(source) && !isUrl(source)
    ensures r == Failure(NotTarArchive) <==> !isDir(source) && isUrl(source) && !EndsWith(source, TarSuffix)
    ensures r.Success? && r.value.LocalDirectory? <==> isDir(source)
    ensures r.Success? ==> r.value.LocalDirectory? ==> r.value.path == source
    ensures r.Success? ==> r.value.TarArchive? ==>
      r.value.url == source && EndsWith(source, TarSuffix) && '/' !in r.value.folder
  {
    if !isDir(source) && !isUrl(source) then
      Failure(NeitherDirectoryNorUrl)
    else if isDir(source) then
      Success(LocalDirectory(source))
    else if !EndsWith(source, TarSuffix) then
      Failure(NotTarArchive)
    else
      Success(TarArchive(source, FolderName(source)))
  }

  /** The `model_dir` a resolution leads to, given the extraction step. */
  function ModelDir(res: Resolution, downloadAndExtract: string -> string): string
  {
    match res
    case LocalDirectory(path) => path
    case TarArchive(url, folder) => Join(downloadAndExtract(url), folder)
  }

  /**
   * A downloaded model lives in a directory whose last component is the
   * archive's folder name, wherever the extraction step put it.
   */
  lemma ArchiveModelDir(source: string, isDir: string -> bool, isUrl: string -> bool,
                        downloadAndExtract: string -> string)
    requires Resolve(source, isDir, isUrl).Success?
    requires Resolve(source, isDir, isUrl).value.TarArchive?
    ensures Basename(ModelDir(Resolve(source, isDir, isUrl).value, downloadAndExtract))
            == FolderName(source)
  {
    BasenameOfJoin(downloadAndExtract(source), FolderName(source));
  }

  /**
   * An archive at `<prefix>/<name>.tar` extracts to the folder `name` with
   * any ".tar" inside it removed as well.
   */
  lemma ArchiveFolder(prefix: string, name: string)
    requires '/' !in name
    ensures FolderName(prefix + "/" + name + TarSuffix) == RemoveAll(name, TarSuffix)
  {
    assert prefix + "/" + name + TarSuffix == (prefix + "/") + (name + TarSuffix);
    assert '/' !in name + TarSuffix;
    BasenameAfterSeparator(prefix + "/", name + TarSuffix);
    RemoveAllTarSuffix(name);
  }

  /**
   * Every ".tar" of the basename goes, not only the trailing one: the
   * archive `<prefix>/<a>.tar<b>.tar` extracts to the folder `a` + `b`,
   * each with its own ".tar"s removed.
   */
  lemma FolderNameDropsEveryTar(prefix: string, a: string, b: string)
    requires '/' !in a && '/' !in b
    ensures FolderName(prefix + "/" + a + TarSuffix + b + TarSuffix)
            == RemoveAll(a, TarSuffix) + RemoveAll(b, TarSuffix)
  {
    var name := a + TarSuffix + b;
    assert '/' !in name;
    assert prefix + "/" + a + TarSuffix + b + TarSuffix == prefix + "/" + name + TarSuffix;
    ArchiveFolder(prefix, name);
    RemoveAllAcrossTar(a, b);
  }

  /** The default model name holds no ".tar". */
  lemma ModelNameHasNoTar()
    ensures !Occurs("m39v1", TarSuffix)
  {
    forall i: nat | i <= 5 ensures !OccursAt("m39v1", TarSuffix, i) {
      if i + 4 <= 5 {
        assert "m39v1"[i..i + 4][0] != '.';
      }
    }
  }

  /** The default archive extracts to the folder "m39v1". */
  lemma DefaultFolderName()
    ensures EndsWith(DefaultModelUrl, TarSuffix)
    ensures FolderName(DefaultModelUrl) == "m39v1"
  {
    var prefix := "http://data.statmt.org/prism";
    assert DefaultModelUrl == prefix + "/" + "m39v1" + TarSuffix;
    EndsWithAppend(prefix + "/" + "m39v1", TarSuffix);
    ArchiveFolder(prefix, "m39v1");
    ModelNameHasNoTar();
  }

  /**
   * The default source, read as a URL that is not a local directory,
   * resolves to a download whose model folder is "m39v1".
   */
  lemma DefaultSourceResolves(isDir: string -> bool, isUrl: string -> bool)
    requires !isDir(DefaultModelUrl) && isUrl(DefaultModelUrl)
    ensures Resolve(DefaultModelUrl, isDir, isUrl) == Success(TarArchive(DefaultModelUrl, "m39v1"))
  {
    DefaultFolderName();
  }
}
