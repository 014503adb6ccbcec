/** The text log of the window: `append_to_info_display` (main.py:155-158)
    sets the display to its old text, a blank line, and the new text. */
module InfoLog {

  /** What separates two entries (main.py:158). */
  const Separator := "\n\n"

  /** The log after one append: the old log is kept as a prefix, followed
      by the separator and then the new text. */
  function Appended(log: string, text: string): (r: string)
    ensures |r| == |log| + |Separator| + |text|
    ensures r[..|log|] == log
    ensures r[|log|..|log| + |Separator|] == Separator
    ensures r[|log| + |Separator|..] == text
  {
    log + Separator + text
  }

  /** The log after appending each text in turn: successive button presses,
      each ending in one `AppendToInfoDisplay` call, take the window's log from
      `log` to `AppendedAll(log, texts)`, one text per successful press. */
  function AppendedAll(log: string, texts: seq<string>): string
  {
    if texts == [] then log else Appended(AppendedAll(log, texts[..|texts| - 1]), texts[|texts| - 1])
  }

  /** The characters a run of appends adds. */
  function AddedLength(texts: seq<string>): nat
  {
    if texts == [] then 0 else AddedLength(texts[..|texts| - 1]) + |Separator| + |texts[|texts| - 1]|
  }

  /** No append ever alters what is already shown: the old log stays a
      prefix, and the log grows by exactly the separators and the texts. */
  lemma {:induction false} LogOnlyGrows(log: string, texts: seq<string>)
    ensures |AppendedAll(log, texts)| == |log| + AddedLength(texts)
    ensures log <= AppendedAll(log, texts)
  {
    if texts != [] {
      var before := AppendedAll(log, texts[..|texts| - 1]);
      LogOnlyGrows(log, texts[..|texts| - 1]);
      var after := Appended(before, texts[|texts| - 1]);
      assert after[..|before|] == before;
      assert after[..|log|] == before[..|log|];
    }
  }

  /** Two runs of appends, one after the other, are one run of both. */
  lemma {:induction false} AppendedAllSplit(log: string, first: seq<string>, second: seq<string>)
    ensures AppendedAll(log, first + second) == AppendedAll(AppendedAll(log, first), second)
  {
    if second == [] {
      assert first + second == first;
    } else {
      var n := |second|;
      assert (first + second)[..|first + second| - 1] == first + second[..n - 1];
      assert (first + second)[|first + second| - 1] == second[n - 1];
      AppendedAllSplit(log, first, second[..n - 1]);
    }
  }
}
