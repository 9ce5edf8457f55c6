/** The name offered for the CSV download (app.py, line 87). */
module Export {
  import opened Text

  /** Appended to every download name. */
  const FileSuffix: string := "_occurrences.csv"

  /** The species name with each space turned into `_`, then the suffix. */
  function DownloadName(name: string): (f: string)
    ensures ' ' !in f
    ensures |f| == |name| + |FileSuffix|
    ensures f[|name|..] == FileSuffix
    ensures forall i :: 0 <= i < |name| ==> f[i] == (if name[i] == ' ' then '_' else name[i])
  {
    var stem := ReplaceChar(name, ' ', '_');
    assert forall i :: 0 <= i < |stem| ==> stem[i] != ' ';
    stem + FileSuffix
  }

  /** For a name without underscores, the species name can be read back from
      the file name by dropping the suffix and turning `_` into spaces. */
  lemma NameFromDownload(name: string)
    requires '_' !in name
    ensures var f := DownloadName(name);
            ReplaceChar(f[..|f| - |FileSuffix|], '_', ' ') == name
  {
  }

  /** Spaces and underscores are not told apart: the two spellings of a
      name share a download name. */
  lemma SpaceAndUnderscoreCollide()
    ensures DownloadName("Danaus plexippus") == DownloadName("Danaus_plexippus")
  {
  }
}
