/** The table-name rules shared by import, export and the sync planner. */
module TableNames {

  predicate IsLetter(c: char) {
    'a' <= c <= 'z' || 'A' <= c <= 'Z'
  }

  predicate IsDigit(c: char) {
    '0' <= c <= '9'
  }

  /** /^[A-Za-z_][A-Za-z0-9_]*$/ */
  predicate SafeTableName(name: string) {
    && name != ""
    && (IsLetter(name[0]) || name[0] == '_')
    && forall i :: 0 <= i < |name| ==> IsLetter(name[i]) || IsDigit(name[i]) || name[i] == '_'
  }

  predicate StartsWith(s: string, prefix: string) {
    prefix <= s
  }

  predicate EndsWith(s: string, suffix: string) {
    |suffix| <= |s| && s[|s| - |suffix|..] == suffix
  }

  const FULLTEXT_PREFIX := "dolt_"

  const FULLTEXT_SUFFIXES := ["_fts_doc_count", "_fts_global_count", "_fts_position", "_fts_row_count", "_fts_config"]

  /** A regular-expression dot does not match these. */
  predicate IsLineTerminator(c: char) {
    c == '\n' || c == '\r' || c == '\U{2028}' || c == '\U{2029}'
  }

  /** /^dolt_.*_fts_(?:doc_count|global_count|position|row_count|config)$/ */
  predicate FulltextInternal(name: string) {
    exists i :: 0 <= i < |FULLTEXT_SUFFIXES| && HasSuffix(name, FULLTEXT_SUFFIXES[i])
  }

  predicate HasSuffix(name: string, suffix: string) {
    && |FULLTEXT_PREFIX| + |suffix| <= |name|
    && StartsWith(name, FULLTEXT_PREFIX) && EndsWith(name, suffix)
    && forall k :: |FULLTEXT_PREFIX| <= k < |name| - |suffix| ==> !IsLineTerminator(name[k])
  }

  /** Import drops the hidden tables first and then insists on a safe name. */
  predicate PassesImport(name: string) {
    !FulltextInternal(name) && SafeTableName(name)
  }

  /** Export keeps a changed table that is named (not dropped), safe and not hidden. */
  predicate PassesExport(name: string) {
    |name| > 0 && SafeTableName(name) && !FulltextInternal(name)
  }

  /** A safe name is one word of letters, digits and underscores that does not begin with a digit. */
  lemma SafeNameMeaning(name: string)
    ensures SafeTableName(name) <==>
            && name != "" && !('0' <= name[0] <= '9')
            && forall c :: c in name ==> 'a' <= c <= 'z' || 'A' <= c <= 'Z' || '0' <= c <= '9' || c == '_'
  {
    assert forall i :: 0 <= i < |name| ==> name[i] in name;
  }

  /** `dolt_`, any characters of one line, `_fts_` and one of five endings. */
  ghost predicate FulltextAs(name: string, middle: string, kind: string) {
    && name == "dolt_" + middle + "_fts_" + kind
    && kind in {"doc_count", "global_count", "position", "row_count", "config"}
    && forall i :: 0 <= i < |middle| ==> middle[i] !in {'\n', '\r', '\U{2028}', '\U{2029}'}
  }

  lemma KindOf(i: nat) returns (kind: string)
    requires i < |FULLTEXT_SUFFIXES|
    ensures FULLTEXT_SUFFIXES[i] == "_fts_" + kind && kind in {"doc_count", "global_count", "position", "row_count", "config"}
  {
    kind := FULLTEXT_SUFFIXES[i][5..];
  }

  lemma IndexOf(kind: string) returns (i: nat)
    requires kind in {"doc_count", "global_count", "position", "row_count", "config"}
    ensures i < |FULLTEXT_SUFFIXES| && FULLTEXT_SUFFIXES[i] == "_fts_" + kind
  {
    if kind == "doc_count" {
      i := 0;
    } else if kind == "global_count" {
      i := 1;
    } else if kind == "position" {
      i := 2;
    } else if kind == "row_count" {
      i := 3;
    } else {
      i := 4;
    }
  }

  /** The hidden tables are exactly those with such names. */
  lemma FulltextMeaning(name: string)
    ensures FulltextInternal(name) <==> exists middle, kind :: FulltextAs(name, middle, kind)
  {
    if FulltextInternal(name) {
      var i: nat :| i < |FULLTEXT_SUFFIXES| && HasSuffix(name, FULLTEXT_SUFFIXES[i]);
      var kind := KindOf(i);
      SuffixToParts(name, FULLTEXT_SUFFIXES[i], kind);
    }
    if middle, kind :| FulltextAs(name, middle, kind) {
      var i := IndexOf(kind);
      PartsToSuffix(name, middle, kind, FULLTEXT_SUFFIXES[i]);
    }
  }

  lemma SuffixToParts(name: string, suffix: string, kind: string)
    requires HasSuffix(name, suffix) && suffix == "_fts_" + kind
    requires kind in {"doc_count", "global_count", "position", "row_count", "config"}
    ensures exists middle :: FulltextAs(name, middle, kind)
  {
    var middle := name[5..|name| - |suffix|];
    assert name == name[..5] + middle + name[|name| - |suffix|..];
    assert name[..5] == FULLTEXT_PREFIX;
    assert FulltextAs(name, middle, kind);
  }

  lemma PartsToSuffix(name: string, middle: string, kind: string, suffix: string)
    requires FulltextAs(name, middle, kind) && suffix == "_fts_" + kind
    ensures HasSuffix(name, suffix)
  {
    assert name == FULLTEXT_PREFIX + middle + suffix;
    assert name[..5] == FULLTEXT_PREFIX && name[|name| - |suffix|..] == suffix;
    assert forall k :: 5 <= k < |name| - |suffix| ==> name[k] == middle[k - 5];
  }
}
