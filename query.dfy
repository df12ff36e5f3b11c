/**
 * The query sanitiser `clean_query` and the ordered list of search
 * strategies that `download_from_youtube` tries for one track.
 */
module Query {
  import opened Text

  // ---------------------------------------------------------------------
  // clean_query
  // ---------------------------------------------------------------------

  /** A character the sanitiser's class `[\w\s\-\']` keeps. */
  predicate Kept(c: char) {
    IsWordChar(c) || IsSpace(c) || c == '-' || c == '\''
  }

  /** A character that may appear inside a word of a sanitised query. */
  predicate CleanChar(c: char) {
    IsWordChar(c) || c == '-' || c == '\''
  }

  predicate AllKept(s: string) {
    forall i :: 0 <= i < |s| ==> Kept(s[i])
  }

  /** The substitution `re.sub(r'[^\w\s\-\']', '', text)`: drop every other character. */
  function StripSpecial(s: string): (r: string)
    ensures AllKept(r)
    ensures |r| <= |s|
  {
    if s == [] then []
    else if Kept(s[0]) then [s[0]] + StripSpecial(s[1..])
    else StripSpecial(s[1..])
  }

  /** A single character survives the substitution exactly when the class keeps it. */
  lemma StripSpecialChar(c: char)
    ensures StripSpecial([c]) == if Kept(c) then [c] else []
  {
    assert [c][1..] == [];
  }

  /**
   * The substitution works character by character: stripping a
   * concatenation strips each part, so every kept character survives, in
   * order, and only the others are dropped.
   */
  lemma {:induction false} StripSpecialAppend(a: string, b: string)
    ensures StripSpecial(a + b) == StripSpecial(a) + StripSpecial(b)
  {
    if a != [] {
      assert (a + b)[0] == a[0];
      assert (a + b)[1..] == a[1..] + b;
      StripSpecialAppend(a[1..], b);
    } else {
      assert a + b == b;
    }
  }

  /** `clean_query(text)`: strip special characters, then re-join the words with single spaces. */
  function CleanQuery(text: string): string {
    Join(Split(StripSpecial(text)))
  }

  /** Re-joining loses no word: the sanitised query splits into exactly the words of the stripped text. */
  lemma CleanQueryKeepsWords(text: string)
    ensures Split(CleanQuery(text)) == Split(StripSpecial(text))
  {
    SplitJoin(Split(StripSpecial(text)));
  }

  /**
   * The shape of a sanitised query: only word characters, `-`, `'` and the
   * plain space, every space strictly inside and never next to another one.
   */
  predicate Sanitised(r: string) {
    && (forall i :: 0 <= i < |r| ==> CleanChar(r[i]) || r[i] == ' ')
    && (forall i :: 0 <= i < |r| && r[i] == ' ' ==> 0 < i < |r| - 1 && r[i + 1] != ' ')
  }

  predicate AllClean(w: string) {
    forall i :: 0 <= i < |w| ==> CleanChar(w[i])
  }

  lemma {:induction false} StripSpecialKeepsKept(s: string)
    requires AllKept(s)
    ensures StripSpecial(s) == s
  {
    if s != [] {
      StripSpecialKeepsKept(s[1..]);
      assert [s[0]] + s[1..] == s;
    }
  }

  /** Every word that `Split` cuts out of kept characters consists of clean characters. */
  lemma {:induction false} SplitOfKeptIsClean(s: string)
    requires AllKept(s)
    ensures forall k :: 0 <= k < |Split(s)| ==> AllClean(Split(s)[k])
    decreases |s|
  {
    if s == [] {
    } else if IsSpace(s[0]) {
      SplitOfKeptIsClean(s[1..]);
    } else {
      var n := RunLength(s);
      SplitOfKeptIsClean(s[n..]);
      var w := s[..n];
      assert forall i :: 0 <= i < |w| ==> w[i] == s[i] && !IsSpace(w[i]);
      assert AllClean(w);
      assert Split(s) == [w] + Split(s[n..]);
    }
  }

  /** Words of clean characters joined with single spaces are sanitised. */
  lemma {:induction false} JoinOfCleanTokensIsSanitised(ws: seq<string>)
    requires forall k :: 0 <= k < |ws| ==> IsToken(ws[k]) && AllClean(ws[k])
    ensures Sanitised(Join(ws))
  {
    if |ws| <= 1 {
    } else {
      var w := ws[0];
      var rest := Join(ws[1..]);
      JoinOfCleanTokensIsSanitised(ws[1..]);
      var r := w + " " + rest;
      assert Join(ws) == r;
      assert rest != [] by {
        assert |ws[1..]| >= 1 && ws[1..][0] != [];
        JoinStartsWithFirst(ws[1..]);
      }
      assert rest[0] != ' ' by {
        JoinStartsWithFirst(ws[1..]);
        assert CleanChar(ws[1][0]);
      }
      forall i | 0 <= i < |r|
        ensures CleanChar(r[i]) || r[i] == ' '
        ensures r[i] == ' ' ==> 0 < i < |r| - 1 && r[i + 1] != ' '
      {
        if i < |w| {
          assert r[i] == w[i];
        } else if i == |w| {
          assert r[i + 1] == rest[0];
        } else {
          assert r[i] == rest[i - |w| - 1];
          if i + 1 < |r| {
            assert r[i + 1] == rest[i - |w|];
          }
        }
      }
    }
  }

  lemma {:induction false} JoinStartsWithFirst(ws: seq<string>)
    requires |ws| >= 1 && ws[0] != []
    ensures Join(ws) != [] && Join(ws)[0] == ws[0][0]
  {
    if |ws| > 1 {
      assert Join(ws) == ws[0] + " " + Join(ws[1..]);
    }
  }

  /** The result of `clean_query` has the sanitised shape. */
  lemma CleanQueryIsSanitised(text: string)
    ensures Sanitised(CleanQuery(text))
  {
    var ws := Split(StripSpecial(text));
    SplitOfKeptIsClean(StripSpecial(text));
    JoinOfCleanTokensIsSanitised(ws);
  }

  /** Words of clean characters joined with spaces consist of kept characters only. */
  lemma {:induction false} JoinOfCleanTokensIsKept(ws: seq<string>)
    requires forall k :: 0 <= k < |ws| ==> AllClean(ws[k])
    ensures AllKept(Join(ws))
  {
    if |ws| > 1 {
      JoinOfCleanTokensIsKept(ws[1..]);
      var r := ws[0] + " " + Join(ws[1..]);
      assert Join(ws) == r;
      forall i | 0 <= i < |r| ensures Kept(r[i]) {
        if i < |ws[0]| {
          assert r[i] == ws[0][i];
        } else if i > |ws[0]| {
          assert r[i] == Join(ws[1..])[i - |ws[0]| - 1];
        }
      }
    }
  }

  /** `clean_query` is idempotent. */
  lemma CleanQueryIdempotent(text: string)
    ensures CleanQuery(CleanQuery(text)) == CleanQuery(text)
  {
    var ws := Split(StripSpecial(text));
    var r := Join(ws);
    SplitOfKeptIsClean(StripSpecial(text));
    JoinOfCleanTokensIsKept(ws);
    StripSpecialKeepsKept(r);
    SplitJoin(ws);
  }

  // ---------------------------------------------------------------------
  // The strategy list of download_from_youtube
  // ---------------------------------------------------------------------

  const Search5 := "ytsearch5:"
  const Search3 := "ytsearch3:"

  /** The raw tokens that the conditional "half query" is made of. */
  function HalfQuery(query: string): string {
    var parts := Split(query);
    Join(parts[..|parts| / 2])
  }

  /** The search strings built from the clean query, the raw query and, when there is one, the half query. */
  function Strategies(cleaned: string, raw: string, half: Option<string>): seq<string> {
    [Search5 + cleaned, Search3 + cleaned, Search5 + raw]
    + (if half.Some? then [Search5 + half.value] else [])
    + [Search5 + cleaned + " official audio", Search3 + cleaned + " official"]
  }

  /** The ordered search strings of `download_from_youtube`; the half query is tried for more than two raw words. */
  function Plan(query: string): seq<string> {
    var parts := Split(query);
    Strategies(CleanQuery(query), query, if |parts| > 2 then Some(HalfQuery(query)) else None)
  }

  /**
   * The strategies, in order: the clean query with 5 and with 3 results,
   * the raw query with 5, the first half of the raw words when there are
   * more than two of them, and the clean query with the suffixes
   * " official audio" (5 results) and " official" (3 results).
   */
  lemma PlanShape(query: string)
    ensures |Plan(query)| == (if |Split(query)| > 2 then 6 else 5)
    ensures Plan(query)[0] == Search5 + CleanQuery(query)
    ensures Plan(query)[1] == Search3 + CleanQuery(query)
    ensures Plan(query)[2] == Search5 + query
    ensures |Split(query)| > 2 ==> Plan(query)[3] == Search5 + HalfQuery(query)
    ensures Plan(query)[|Plan(query)| - 2] == Search5 + CleanQuery(query) + " official audio"
    ensures Plan(query)[|Plan(query)| - 1] == Search3 + CleanQuery(query) + " official"
  {
    var c := CleanQuery(query);
    var mid := if |Split(query)| > 2 then [Search5 + HalfQuery(query)] else [];
    var tail := [Search5 + c + " official audio", Search3 + c + " official"];
    var p := [Search5 + c, Search3 + c, Search5 + query] + mid + tail;
    assert Plan(query) == p;
    assert p[|p| - 2] == tail[0] && p[|p| - 1] == tail[1];
  }

  /** When the half query is tried, it is made of at least one raw token, and of exactly the first half of them. */
  lemma HalfQueryTokens(query: string)
    requires |Split(query)| > 2
    ensures Split(HalfQuery(query)) == Split(query)[..|Split(query)| / 2]
    ensures HalfQuery(query) != []
  {
    var parts := Split(query);
    var half := parts[..|parts| / 2];
    SplitJoin(half);
    JoinStartsWithFirst(half);
  }

  /** The `default_search` option: the search string up to its first colon, plus the colon. */
  function DefaultSearch(searchQuery: string): string {
    BeforeFirst(searchQuery, ':') + ":"
  }

  /**
   * Every strategy's `default_search` is the search prefix it was built
   * with, whatever colons the query itself holds; and the prefix asks for
   * 5 or 3 results.
   */
  lemma PlanDefaultSearch(query: string, k: nat)
    requires k < |Plan(query)|
    ensures DefaultSearch(Plan(query)[k]) in {Search5, Search3}
    ensures Plan(query)[k][..|Search5|] == DefaultSearch(Plan(query)[k])
  {
    StrategiesDefaultSearch(CleanQuery(query), query, if |Split(query)| > 2 then Some(HalfQuery(query)) else None, k);
  }

  /** Each search string starts with the search prefix it was built with. */
  lemma StrategiesDefaultSearch(cleaned: string, raw: string, half: Option<string>, k: nat)
    requires k < |Strategies(cleaned, raw, half)|
    ensures DefaultSearch(Strategies(cleaned, raw, half)[k]) in {Search5, Search3}
    ensures Strategies(cleaned, raw, half)[k][..|Search5|] == DefaultSearch(Strategies(cleaned, raw, half)[k])
  {
    var n := |Strategies(cleaned, raw, half)|;
    if k == 0 {
      DefaultSearchOfPrefix(Search5, cleaned);
    } else if k == 1 {
      DefaultSearchOfPrefix(Search3, cleaned);
    } else if k == 2 {
      DefaultSearchOfPrefix(Search5, raw);
    } else if k == n - 2 {
      assert Search5 + cleaned + " official audio" == Search5 + (cleaned + " official audio");
      DefaultSearchOfPrefix(Search5, cleaned + " official audio");
    } else if k == n - 1 {
      assert Search3 + cleaned + " official" == Search3 + (cleaned + " official");
      DefaultSearchOfPrefix(Search3, cleaned + " official");
    } else {
      DefaultSearchOfPrefix(Search5, half.value);
    }
  }

  /** A search string built on a search prefix has that prefix as its `default_search`. */
  lemma DefaultSearchOfPrefix(pre: string, rest: string)
    requires pre == Search5 || pre == Search3
    ensures DefaultSearch(pre + rest) == pre
    ensures (pre + rest)[..|Search5|] == pre
  {
    var head := pre[..9];
    assert pre + rest == head + [':'] + rest;
    assert forall i :: 0 <= i < 9 ==> head[i] != ':';
    BeforeFirstOfJoined(head, ':', rest);
  }
}
