/**
 * The two tests that DatabaseManager.execute_query applies to the text of a
 * statement: whether to commit after running it, and whether to fetch and
 * return its rows. The two tests differ: the first looks at the raw text,
 * case-sensitively; the second strips surrounding whitespace and upper-cases
 * the text first. Strings are sequences of Unicode code points, as Python's
 * `str` is.
 */
module SqlText {

  /** Python's `s.startswith(prefix)`. */
  predicate StartsWith(s: string, prefix: string) {
    |prefix| <= |s| && s[..|prefix|] == prefix
  }

  /** Python's `c.isspace()`: the characters that `str.strip()` removes. */
  predicate IsSpace(c: char) {
    ('\U{9}' <= c <= '\U{D}') || ('\U{1C}' <= c <= ' ') || c == '\U{85}' || c == '\U{A0}'
    || c == '\U{1680}' || ('\U{2000}' <= c <= '\U{200A}') || c == '\U{2028}' || c == '\U{2029}'
    || c == '\U{202F}' || c == '\U{205F}' || c == '\U{3000}'
  }

  /** `s.lstrip()`. */
  function LStrip(s: string): string {
    if |s| > 0 && IsSpace(s[0]) then LStrip(s[1..]) else s
  }

  /** `s.rstrip()`. */
  function RStrip(s: string): string {
    if |s| > 0 && IsSpace(s[|s| - 1]) then RStrip(s[..|s| - 1]) else s
  }

  /** lstrip removes the longest run of leading whitespace and keeps the rest as it was. */
  lemma {:induction false} LStripRemovesLeadingSpace(s: string)
    ensures var r := LStrip(s);
      && |r| <= |s| && r == s[|s| - |r|..]
      && (forall i :: 0 <= i < |s| - |r| ==> IsSpace(s[i]))
      && (r == [] || !IsSpace(r[0]))
    decreases |s|
  {
    if |s| > 0 && IsSpace(s[0]) {
      LStripRemovesLeadingSpace(s[1..]);
      var r := LStrip(s);
      forall i | 1 <= i < |s| - |r|
        ensures IsSpace(s[i])
      {
        assert s[i] == s[1..][i - 1];
      }
    }
  }

  /** rstrip removes the longest run of trailing whitespace and keeps the rest as it was. */
  lemma {:induction false} RStripRemovesTrailingSpace(s: string)
    ensures var r := RStrip(s);
      && |r| <= |s| && r == s[..|r|]
      && (forall i :: |r| <= i < |s| ==> IsSpace(s[i]))
      && (r == [] || !IsSpace(r[|r| - 1]))
    decreases |s|
  {
    if |s| > 0 && IsSpace(s[|s| - 1]) {
      RStripRemovesTrailingSpace(s[..|s| - 1]);
      var r := RStrip(s);
      forall i | |r| <= i < |s| - 1
        ensures IsSpace(s[i])
      {
        assert s[i] == s[..|s| - 1][i];
      }
    }
  }

  /** `s.strip()`. */
  function Strip(s: string): string {
    RStrip(LStrip(s))
  }

  /** `c.upper()` for one character; only the ASCII letters are mapped. */
  function UpperChar(c: char): char {
    if 'a' <= c <= 'z' then (c as int - 'a' as int + 'A' as int) as char else c
  }

  /** `s.upper()`, character by character. */
  function Upper(s: string): string {
    seq(|s|, i requires 0 <= i < |s| => UpperChar(s[i]))
  }

  /** execute_query commits right after running `query` (GlossonPharmacy.py:43). */
  predicate Commits(query: string) {
    !StartsWith(query, "SELECT")
  }

  /** execute_query fetches and returns the rows of `query` (GlossonPharmacy.py:47). */
  predicate Fetches(query: string) {
    StartsWith(Upper(Strip(query)), "SELECT")
  }

  /**
   * Reference reading of the fetch test: the keyword SELECT, in any mix of
   * ASCII letter case, begins at position `i` and only whitespace precedes it.
   */
  predicate SelectAfterSpaces(query: string, i: int) {
    0 <= i && i + 6 <= |query|
    && (forall j :: 0 <= j < i ==> IsSpace(query[j]))
    && Upper(query[i..i + 6]) == "SELECT"
  }

  /** A character that upper-cases to an ASCII capital is a letter, never whitespace. */
  lemma CapitalIsNotSpace(c: char)
    requires 'A' <= UpperChar(c) <= 'Z'
    ensures !IsSpace(c)
  {
  }

  lemma KeywordHasNoSpace(w: string)
    requires |w| == 6 && Upper(w) == "SELECT"
    ensures forall k :: 0 <= k < 6 ==> !IsSpace(w[k])
  {
    forall k | 0 <= k < 6
      ensures !IsSpace(w[k])
    {
      assert UpperChar(w[k]) == Upper(w)[k] == "SELECT"[k];
      CapitalIsNotSpace(w[k]);
    }
  }

  /**
   * The fetch test holds exactly when, after leading whitespace, the text
   * begins with SELECT in any letter case: trailing whitespace and the rest
   * of the text play no part.
   */
  lemma FetchesIffSelectAfterSpaces(query: string)
    ensures Fetches(query) <==> exists i :: SelectAfterSpaces(query, i)
  {
    var l := LStrip(query);
    LStripRemovesLeadingSpace(query);
    var n := |query| - |l|;
    var s := RStrip(l);
    RStripRemovesTrailingSpace(l);
    assert Strip(query) == s;
    if Fetches(query) {
      assert Upper(s)[..6] == "SELECT";
      assert s[..6] == l[..6] == query[n..n + 6];
      assert Upper(query[n..n + 6]) == Upper(s)[..6];
      assert SelectAfterSpaces(query, n);
    }
    if i :| SelectAfterSpaces(query, i) {
      var w := query[i..i + 6];
      KeywordHasNoSpace(w);
      assert !IsSpace(query[i]) by { assert query[i] == w[0]; }
      assert n == i;
      assert l[..6] == w;
      assert !IsSpace(l[5]) by { assert l[5] == w[5]; }
      assert s[..6] == w;
      assert Upper(s)[..6] == Upper(w);
    }
  }

  lemma UpperOfUpperKeyword()
    ensures Upper("SELECT") == "SELECT"
  {
    var u := Upper("SELECT");
    assert |u| == 6;
    assert u[0] == 'S' && u[1] == 'E' && u[2] == 'L' && u[3] == 'E' && u[4] == 'C' && u[5] == 'T';
  }

  /** A text that begins with SELECT exactly is fetched, and not committed. */
  lemma SelectPrefixIsFetched(query: string)
    requires StartsWith(query, "SELECT")
    ensures Fetches(query) && !Commits(query)
  {
    assert query[0..6] == "SELECT";
    UpperOfUpperKeyword();
    assert SelectAfterSpaces(query, 0);
    FetchesIffSelectAfterSpaces(query);
  }

  /**
   * A text that opens with a non-whitespace character other than `s` or `S`
   * (an INSERT or an UPDATE) is committed and never fetched.
   */
  lemma OtherLeadIsCommittedOnly(query: string)
    requires |query| > 0 && !IsSpace(query[0]) && UpperChar(query[0]) != 'S'
    ensures Commits(query) && !Fetches(query)
  {
    forall i
      ensures !SelectAfterSpaces(query, i)
    {
      if i == 0 && 6 <= |query| {
        assert Upper(query[0..6])[0] == UpperChar(query[0]);
      }
    }
    FetchesIffSelectAfterSpaces(query);
  }

  /** No statement is left both uncommitted and unfetched. */
  lemma CommitsOrFetches(query: string)
    ensures Commits(query) || Fetches(query)
  {
    if !Commits(query) {
      SelectPrefixIsFetched(query);
    }
  }

  /** A lower-case select is committed and also has its rows fetched. */
  lemma LowerCaseSelectCommitsAndFetches(rest: string)
    ensures Commits("select" + rest) && Fetches("select" + rest)
  {
    var query := "select" + rest;
    assert query[0] == 's';
    assert query[0..6] == "select";
    assert Upper(query[0..6]) == "SELECT";
    assert SelectAfterSpaces(query, 0);
    FetchesIffSelectAfterSpaces(query);
  }

  /** A select preceded by whitespace is committed and also has its rows fetched. */
  lemma IndentedSelectCommitsAndFetches(rest: string)
    ensures Commits(" SELECT" + rest) && Fetches(" SELECT" + rest)
  {
    var query := " SELECT" + rest;
    assert query[0] == ' ';
    assert query[1..7] == "SELECT";
    assert Upper(query[1..7]) == "SELECT";
    assert SelectAfterSpaces(query, 1);
    FetchesIffSelectAfterSpaces(query);
  }
}
