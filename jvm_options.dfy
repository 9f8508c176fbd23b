/**
 * The JVM options field of the settings screen: loading joins the stored
 * list with single spaces (settings.js:131-132); saving stores [] for a
 * blank field and otherwise splits the trimmed text on whitespace runs
 * (settings.js:173-180).
 */
module JvmOptions {
  import opened Text

  /** The text shown in the field for a stored list: `.join(' ')`. */
  function LoadJvmOptions(opts: seq<string>): string {
    JoinSpace(opts)
  }

  /** The list stored for the field's text. */
  function SaveJvmOptions(value: string): (opts: seq<string>)
    // only non-empty, whitespace-free options are ever stored
    ensures forall i | 0 <= i < |opts| :: IsToken(opts[i])
    // nothing is stored exactly when the field is blank or whitespace only
    ensures opts == [] <==> forall i | 0 <= i < |value| :: IsWhitespace(value[i])
  {
    var t := Trim(value);
    TrimEmptyIff(value);
    if t == [] then []
    else
      SplitTrimmedYieldsTokens(t);
      SplitWhitespace(t)
  }

  /**
   * The stored options are the words typed: shown again, they read as the
   * trimmed text with each whitespace run collapsed to one space.
   */
  lemma SaveKeepsTypedWords(value: string)
    ensures LoadJvmOptions(SaveJvmOptions(value)) == CollapseWhitespace(Trim(value))
  {
    if Trim(value) != [] {
      SplitJoinCollapses(Trim(value));
    }
  }

  /** A stored list of options survives being shown and saved again. */
  lemma LoadSaveRoundTrip(opts: seq<string>)
    requires forall i | 0 <= i < |opts| :: IsToken(opts[i])
    ensures SaveJvmOptions(LoadJvmOptions(opts)) == opts
  {
    if opts != [] {
      var s := LoadJvmOptions(opts);
      JoinStartsWithToken(opts);
      TrimOfTrimmed(s);
      SplitJoinRoundTrip(opts);
    }
  }

  /**
   * Saving normalises: whatever the user typed, showing the saved list and
   * saving it again stores the same list.
   */
  lemma SaveIsStable(value: string)
    ensures SaveJvmOptions(LoadJvmOptions(SaveJvmOptions(value))) == SaveJvmOptions(value)
  {
    LoadSaveRoundTrip(SaveJvmOptions(value));
  }
}
