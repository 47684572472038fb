/** The corpus loader `create_text_df` (utils/utils.py): one row per regular
    file of a directory listing, numbered in listing order. The listing and
    the files' contents (`os.listdir`, `os.path.isfile`, `read_from_file`)
    are given as a sequence of entries. */
module Utils {
  import opened Sorting

  /** One entry of the listing: its name, whether it is a regular file, and
      what reading it returns. */
  datatype DirEntry = DirEntry(name: string, isFile: bool, contents: string)

  /** One row of the data frame: columns `id`, `topic`, `text`. */
  datatype TextRow = TextRow(id: nat, topic: string, text: string)

  /** `name.split(".")[0]`: the name up to its first dot. */
  function BeforeFirstDot(name: string): (r: string)
    ensures r <= name
    ensures '.' !in r
    ensures |r| < |name| ==> name[|r|] == '.'
  {
    if name == [] || name[0] == '.' then [] else [name[0]] + BeforeFirstDot(name[1..])
  }

  /** A name without a dot is its own topic. */
  lemma {:induction false} NoDotWholeName(name: string)
    requires '.' !in name
    ensures BeforeFirstDot(name) == name
  {
    if name != [] {
      assert '.' !in name[1..];
      NoDotWholeName(name[1..]);
    }
  }

  /** The topic of `stem.rest` is `stem` when the stem has no dot; with the
      empty stem, a dot-file's topic is empty. */
  lemma {:induction false} TopicIsStem(stem: string, rest: string)
    requires '.' !in stem
    ensures BeforeFirstDot(stem + "." + rest) == stem
  {
    if stem != [] {
      assert (stem + "." + rest)[1..] == stem[1..] + "." + rest;
      assert '.' !in stem[1..];
      TopicIsStem(stem[1..], rest);
    }
  }

  function IsFile(e: DirEntry): bool
  {
    e.isFile
  }

  /** The regular files of the listing, in listing order. */
  function Files(listing: seq<DirEntry>): seq<DirEntry>
  {
    Filter(listing, IsFile)
  }

  /** The row made for the `id`-th file. */
  function RowOf(id: nat, e: DirEntry): TextRow
  {
    TextRow(id, BeforeFirstDot(e.name), e.contents)
  }

  /** The rows `create_text_df` builds: the `k`-th file becomes row `k`,
      with its topic and its full contents; other entries make no row. */
  function TextRows(listing: seq<DirEntry>): (r: seq<TextRow>)
    ensures |r| == |Files(listing)|
    ensures forall k :: 0 <= k < |r| ==> r[k] == RowOf(k, Files(listing)[k])
  {
    if listing == [] then []
    else
      var init := listing[..|listing| - 1];
      var last := listing[|listing| - 1];
      assert listing == init + [last];
      FilterSnoc(init, last, IsFile);
      var rows := TextRows(init);
      if last.isFile then rows + [RowOf(|rows|, last)] else rows
  }

  /** `create_text_df`. */
  method CreateTextDf(listing: seq<DirEntry>) returns (data: seq<TextRow>)
    ensures data == TextRows(listing)
  {
    data := [];
    var i := 0;
    for j := 0 to |listing|
      invariant i == |data|
      invariant data == TextRows(listing[..j])
    {
      var item := listing[j];
      assert listing[..j + 1][..j] == listing[..j];
      if item.isFile {
        data := data + [TextRow(i, BeforeFirstDot(item.name), item.contents)];
        i := i + 1;
      }
    }
    assert listing[..|listing|] == listing;
  }
}
