/** skills/scripts/find-related-sessions.py: pick the archived sessions that
    match a topic and render them as a short plain-text list.  The database
    search is an input (the rows it returned); the filesystem fallback works on
    already-loaded metadata records. */
module RelatedSessions {
  import opened Results
  import opened Strings
  import opened Seqs

  // ---------------------------------------------------------------------------
  // Quote escaping for the SQL query text
  // ---------------------------------------------------------------------------

  /** `topic.replace("'", "''")`. */
  function EscapeQuotes(s: string): string
  {
    if s == [] then []
    else (if s[0] == '\'' then "''" else [s[0]]) + EscapeQuotes(s[1..])
  }

  /** Reading an SQL string body back: each doubled quote stands for one. */
  function UnescapeQuotes(t: string): string
  {
    if t == [] then []
    else if |t| >= 2 && t[0] == '\'' && t[1] == '\'' then "'" + UnescapeQuotes(t[2..])
    else [t[0]] + UnescapeQuotes(t[1..])
  }

  function CountQuotes(s: string): nat
  {
    if s == [] then 0 else (if s[0] == '\'' then 1 else 0) + CountQuotes(s[1..])
  }

  /** The characters other than quotes, in order. */
  function NonQuotes(s: string): string
  {
    if s == [] then [] else (if s[0] == '\'' then [] else [s[0]]) + NonQuotes(s[1..])
  }

  /** find-related-sessions.py:51: escaping doubles every quote and keeps every
      other character in place, so it can be undone exactly. */
  lemma {:induction false} EscapeQuotesFaithful(s: string)
    ensures UnescapeQuotes(EscapeQuotes(s)) == s
    ensures CountQuotes(EscapeQuotes(s)) == 2 * CountQuotes(s)
    ensures NonQuotes(EscapeQuotes(s)) == NonQuotes(s)
    ensures |EscapeQuotes(s)| == |s| + CountQuotes(s)
  {
    if s != [] {
      EscapeQuotesFaithful(s[1..]);
      var rest := EscapeQuotes(s[1..]);
      if s[0] == '\'' {
        var t := "''" + rest;
        assert t[2..] == rest;
        assert t[1..] == "'" + rest && t[1..][1..] == rest;
      } else {
        assert ([s[0]] + rest)[1..] == rest;
      }
    }
  }

  // ---------------------------------------------------------------------------
  // search_filesystem: match, sort newest first, take 5
  // ---------------------------------------------------------------------------

  /** The fields of one archive's `metadata.json` the search reads; `None` is a
      missing key. */
  datatype Metadata = Metadata(
    dirName: string,
    preview: Option<string>,
    workingDirectory: Option<string>,
    archivedAt: Option<string>,
    userMessages: Option<int>)

  /** One result row.  `userMessages` is `None` where the database holds NULL. */
  datatype SessionResult = SessionResult(
    archiveName: string,
    archivedAt: string,
    workingDirectory: string,
    userMessages: Option<int>,
    context: string,
    relevance: real)

  function OrElse<T>(o: Option<T>, default: T): T
  {
    if o.Some? then o.value else default
  }

  /** The lowered space-join of directory name, preview and working directory. */
  function Searchable(m: Metadata): string
  {
    Lower(m.dirName + " " + OrElse(m.preview, "") + " " + OrElse(m.workingDirectory, ""))
  }

  predicate TopicMatches(topic: string, m: Metadata)
  {
    Contains(Searchable(m), Lower(topic))
  }

  /** The result row the filesystem search builds for a matching archive. */
  function ResultOf(m: Metadata): SessionResult
  {
    SessionResult(m.dirName, OrElse(m.archivedAt, "unknown"), OrElse(m.workingDirectory, ""),
                  Some(OrElse(m.userMessages, 0)), Take(OrElse(m.preview, ""), 100), 0.5)
  }

  function MatchRow(topic: string, m: Metadata): seq<SessionResult>
  {
    if TopicMatches(topic, m) then [ResultOf(m)] else []
  }

  /** The rows appended by the directory loop, in archive order. */
  function Matching(topic: string, archive: seq<Metadata>): seq<SessionResult>
  {
    FlatMap(archive, (m: Metadata) => MatchRow(topic, m))
  }

  /** Python's `a <= b` on strings: code-point lexicographic order. */
  predicate LexLe(a: string, b: string)
  {
    a == [] || (b != [] && (a[0] < b[0] || (a[0] == b[0] && LexLe(a[1..], b[1..]))))
  }

  lemma LexLeTotal(a: string, b: string)
    ensures LexLe(a, b) || LexLe(b, a)
  {
  }

  lemma LexLeTransitive(a: string, b: string, c: string)
    requires LexLe(a, b) && LexLe(b, c)
    ensures LexLe(a, c)
  {
  }

  /** Every row is at least as new as every row after it. */
  predicate NewestFirst(rs: seq<SessionResult>)
  {
    forall i, j :: 0 <= i < j < |rs| ==> LexLe(rs[j].archivedAt, rs[i].archivedAt)
  }

  /** Places `x` after every row at least as new as it, which keeps equal dates
      in their original order, as the stable `list.sort(reverse=True)` does. */
  function Insert(sorted: seq<SessionResult>, x: SessionResult): seq<SessionResult>
  {
    if sorted == [] then [x]
    else if LexLe(x.archivedAt, sorted[0].archivedAt) then [sorted[0]] + Insert(sorted[1..], x)
    else [x] + sorted
  }

  lemma {:induction false} InsertKeepsRows(sorted: seq<SessionResult>, x: SessionResult)
    ensures multiset(Insert(sorted, x)) == multiset(sorted) + multiset{x}
  {
    if sorted != [] && LexLe(x.archivedAt, sorted[0].archivedAt) {
      InsertKeepsRows(sorted[1..], x);
      assert sorted == [sorted[0]] + sorted[1..];
    }
  }

  /** A row no newer than the head of a sorted sequence goes in front of it. */
  lemma PrependSorted(x: SessionResult, sorted: seq<SessionResult>)
    requires NewestFirst(sorted)
    requires sorted != [] ==> LexLe(sorted[0].archivedAt, x.archivedAt)
    ensures NewestFirst([x] + sorted)
  {
    var r := [x] + sorted;
    forall i, j | 0 <= i < j < |r|
      ensures LexLe(r[j].archivedAt, r[i].archivedAt)
    {
      if i == 0 {
        assert r[j] == sorted[j - 1];
        if j > 1 {
          LexLeTransitive(sorted[j - 1].archivedAt, sorted[0].archivedAt, x.archivedAt);
        }
      } else {
        assert r[i] == sorted[i - 1] && r[j] == sorted[j - 1];
      }
    }
  }

  /** A row at least as new as everything in a sorted sequence goes in front of it. */
  lemma PrependNewest(x: SessionResult, tail: seq<SessionResult>)
    requires NewestFirst(tail)
    requires forall j :: 0 <= j < |tail| ==> LexLe(tail[j].archivedAt, x.archivedAt)
    ensures NewestFirst([x] + tail)
  {
    var r := [x] + tail;
    forall i, j | 0 <= i < j < |r|
      ensures LexLe(r[j].archivedAt, r[i].archivedAt)
    {
      if i == 0 {
        assert r[j] == tail[j - 1];
      } else {
        assert r[i] == tail[i - 1] && r[j] == tail[j - 1];
      }
    }
  }

  lemma {:induction false} InsertSorted(sorted: seq<SessionResult>, x: SessionResult)
    requires NewestFirst(sorted)
    ensures NewestFirst(Insert(sorted, x))
  {
    if sorted == [] {
    } else if LexLe(x.archivedAt, sorted[0].archivedAt) {
      var tail := Insert(sorted[1..], x);
      InsertSorted(sorted[1..], x);
      InsertKeepsRows(sorted[1..], x);
      forall j | 0 <= j < |tail|
        ensures LexLe(tail[j].archivedAt, sorted[0].archivedAt)
      {
        assert tail[j] in multiset(tail);
        if tail[j] != x {
          assert tail[j] in multiset(sorted[1..]);
          var k :| 0 <= k < |sorted[1..]| && sorted[1..][k] == tail[j];
          assert sorted[k + 1] == tail[j];
        }
      }
      PrependNewest(sorted[0], tail);
    } else {
      LexLeTotal(x.archivedAt, sorted[0].archivedAt);
      PrependSorted(x, sorted);
    }
  }

  /** `results.sort(key=lambda x: x.get('archived_at', ''), reverse=True)`. */
  function SortNewestFirst(rs: seq<SessionResult>): (r: seq<SessionResult>)
    ensures multiset(r) == multiset(rs)
    ensures NewestFirst(r)
  {
    if rs == [] then []
    else
      var init := SortNewestFirst(rs[..|rs| - 1]);
      assert rs == rs[..|rs| - 1] + [rs[|rs| - 1]];
      InsertKeepsRows(init, rs[|rs| - 1]);
      InsertSorted(init, rs[|rs| - 1]);
      Insert(init, rs[|rs| - 1])
  }

  /** The rows dated `d`, in their order. */
  function Dated(rs: seq<SessionResult>, d: string): seq<SessionResult>
  {
    if rs == [] then []
    else (if rs[0].archivedAt == d then [rs[0]] else []) + Dated(rs[1..], d)
  }

  lemma {:induction false} DatedConcat(a: seq<SessionResult>, b: seq<SessionResult>, d: string)
    ensures Dated(a + b, d) == Dated(a, d) + Dated(b, d)
  {
    if a == [] {
      assert a + b == b;
    } else {
      var head := if a[0].archivedAt == d then [a[0]] else [];
      assert (a + b)[0] == a[0] && (a + b)[1..] == a[1..] + b;
      assert Dated(a + b, d) == head + Dated(a[1..] + b, d);
      DatedConcat(a[1..], b, d);
      SeqConcatAssoc(head, Dated(a[1..], d), Dated(b, d));
    }
  }

  lemma DatedLast(rs: seq<SessionResult>, d: string)
    requires rs != []
    ensures Dated(rs, d) == Dated(rs[..|rs| - 1], d) + (if rs[|rs| - 1].archivedAt == d then [rs[|rs| - 1]] else [])
  {
    var x := rs[|rs| - 1];
    assert rs == rs[..|rs| - 1] + [x];
    DatedConcat(rs[..|rs| - 1], [x], d);
    assert [x][1..] == [];
  }

  /** Nothing in a sorted sequence whose head is older than `d` is dated `d`. */
  lemma {:induction false} NoneDated(sorted: seq<SessionResult>, d: string)
    requires NewestFirst(sorted) && sorted != [] && !LexLe(d, sorted[0].archivedAt)
    ensures Dated(sorted, d) == []
  {
    LexLeTotal(d, d);
    if |sorted| > 1 {
      assert NewestFirst(sorted[1..]);
      assert LexLe(sorted[1].archivedAt, sorted[0].archivedAt);
      if LexLe(d, sorted[1].archivedAt) {
        LexLeTransitive(d, sorted[1].archivedAt, sorted[0].archivedAt);
      }
      NoneDated(sorted[1..], d);
    }
  }

  /** `x` lands after every row of its own date. */
  lemma {:induction false} InsertDated(sorted: seq<SessionResult>, x: SessionResult, d: string)
    requires NewestFirst(sorted)
    ensures Dated(Insert(sorted, x), d) == Dated(sorted, d) + (if x.archivedAt == d then [x] else [])
  {
    if sorted == [] {
    } else if LexLe(x.archivedAt, sorted[0].archivedAt) {
      var head := if sorted[0].archivedAt == d then [sorted[0]] else [];
      var tail := Insert(sorted[1..], x);
      assert ([sorted[0]] + tail)[1..] == tail;
      assert Dated(Insert(sorted, x), d) == head + Dated(tail, d);
      assert NewestFirst(sorted[1..]);
      InsertDated(sorted[1..], x, d);
      SeqConcatAssoc(head, Dated(sorted[1..], d), if x.archivedAt == d then [x] else []);
    } else {
      if x.archivedAt == d {
        NoneDated(sorted, d);
      }
      assert ([x] + sorted)[1..] == sorted;
    }
  }

  /** The sort is stable: rows of equal date keep their input order. */
  lemma {:induction false} SortNewestFirstStable(rs: seq<SessionResult>, d: string)
    ensures Dated(SortNewestFirst(rs), d) == Dated(rs, d)
  {
    if rs != [] {
      var init := rs[..|rs| - 1];
      var x := rs[|rs| - 1];
      var sortedInit := SortNewestFirst(init);
      assert SortNewestFirst(rs) == Insert(sortedInit, x);
      SortNewestFirstStable(init, d);
      InsertDated(sortedInit, x, d);
      DatedLast(rs, d);
    }
  }

  function FilesystemResults(topic: string, archive: seq<Metadata>): seq<SessionResult>
  {
    Take(SortNewestFirst(Matching(topic, archive)), 5)
  }

  /** `search_filesystem(topic)` over the loaded metadata records. */
  method SearchFilesystem(topic: string, archive: seq<Metadata>) returns (results: seq<SessionResult>)
    ensures results == FilesystemResults(topic, archive)
  {
    results := [];
    var topicLower := Lower(topic);
    for i := 0 to |archive|
      invariant results == Matching(topic, archive[..i])
    {
      FlatMapStep(archive, i, (m: Metadata) => MatchRow(topic, m));
      var m := archive[i];
      var searchable := Lower(m.dirName + " " + OrElse(m.preview, "") + " " + OrElse(m.workingDirectory, ""));
      if Contains(searchable, topicLower) {
        results := results + [ResultOf(m)];
      }
    }
    assert archive[..|archive|] == archive;
    results := SortNewestFirst(results);
    results := results[..if |results| <= 5 then |results| else 5];
  }

  /** `r` is the row some archive matching `topic` yields. */
  predicate BuiltFromMatch(topic: string, archive: seq<Metadata>, r: SessionResult)
  {
    exists k :: 0 <= k < |archive| && TopicMatches(topic, archive[k]) && r == ResultOf(archive[k])
  }

  /** find-related-sessions.py:139-153: a row comes from the archives exactly
      when the lowered topic occurs in the archive's searchable text. */
  lemma MatchingCharacterized(topic: string, archive: seq<Metadata>, r: SessionResult)
    ensures r in Matching(topic, archive) <==> BuiltFromMatch(topic, archive, r)
  {
    FlatMapMembers(archive, (m: Metadata) => MatchRow(topic, m), r);
  }

  /** find-related-sessions.py:145-160: the first min(5, matches) rows of the
      sorted matches, so at most five rows, newest first, each
      built from a matching archive with relevance 0.5 and the first 100
      characters of its preview as context; every matching archive not shown
      is no newer than every row shown, and all are shown when at most five
      match. */
  lemma FilesystemResultsCharacterized(topic: string, archive: seq<Metadata>)
    ensures var rs, all := FilesystemResults(topic, archive), SortNewestFirst(Matching(topic, archive));
      && |all| == |Matching(topic, archive)|
      && rs == all[..|rs|] && |rs| == (if |all| <= 5 then |all| else 5)
      && |rs| <= 5 && NewestFirst(rs)
      && (forall i :: 0 <= i < |rs| ==>
            BuiltFromMatch(topic, archive, rs[i]))
      && (forall i :: 0 <= i < |rs| ==> rs[i].relevance == 0.5 && |rs[i].context| <= 100)
      && (forall j :: |rs| <= j < |all| ==> forall i :: 0 <= i < |rs| ==> LexLe(all[j].archivedAt, rs[i].archivedAt))
      && (|Matching(topic, archive)| <= 5 ==>
            forall k :: 0 <= k < |archive| && TopicMatches(topic, archive[k]) ==> ResultOf(archive[k]) in rs)
  {
    FilesystemResultsRanked(topic, archive);
    FilesystemResultsSound(topic, archive);
    FilesystemResultsComplete(topic, archive);
  }

  /** The rows kept are the newest: the first five of the sorted matches, or
      all of them when there are fewer. */
  lemma FilesystemResultsRanked(topic: string, archive: seq<Metadata>)
    ensures var rs, all := FilesystemResults(topic, archive), SortNewestFirst(Matching(topic, archive));
      && |all| == |Matching(topic, archive)|
      && rs == all[..|rs|] && |rs| == (if |all| <= 5 then |all| else 5)
      && |rs| <= 5 && NewestFirst(rs)
      && forall j :: |rs| <= j < |all| ==> forall i :: 0 <= i < |rs| ==> LexLe(all[j].archivedAt, rs[i].archivedAt)
  {
    var all := SortNewestFirst(Matching(topic, archive));
    var rs := FilesystemResults(topic, archive);
    assert |all| == |Matching(topic, archive)| by {
      assert |multiset(all)| == |multiset(Matching(topic, archive))|;
    }
    assert rs == all[..|rs|];
    forall j, i | |rs| <= j < |all| && 0 <= i < |rs|
      ensures LexLe(all[j].archivedAt, rs[i].archivedAt)
    {
      assert rs[i] == all[i];
    }
  }

  /** Every row kept comes from a matching archive. */
  lemma FilesystemResultsSound(topic: string, archive: seq<Metadata>)
    ensures var rs := FilesystemResults(topic, archive);
      && (forall i :: 0 <= i < |rs| ==>
            BuiltFromMatch(topic, archive, rs[i]))
      && (forall i :: 0 <= i < |rs| ==> rs[i].relevance == 0.5 && |rs[i].context| <= 100)
  {
    var matches := Matching(topic, archive);
    var all := SortNewestFirst(matches);
    var rs := FilesystemResults(topic, archive);
    assert rs == all[..|rs|];
    forall i | 0 <= i < |rs|
      ensures BuiltFromMatch(topic, archive, rs[i])
      ensures rs[i].relevance == 0.5 && |rs[i].context| <= 100
    {
      assert rs[i] == all[i];
      assert rs[i] in multiset(matches);
      MatchingCharacterized(topic, archive, rs[i]);
    }
  }

  /** With at most five matches, none is dropped. */
  lemma FilesystemResultsComplete(topic: string, archive: seq<Metadata>)
    ensures |Matching(topic, archive)| <= 5 ==>
      forall k :: 0 <= k < |archive| && TopicMatches(topic, archive[k]) ==> ResultOf(archive[k]) in FilesystemResults(topic, archive)
  {
    var matches := Matching(topic, archive);
    var all := SortNewestFirst(matches);
    if |matches| <= 5 {
      assert |all| == |matches| by {
        assert |multiset(all)| == |multiset(matches)|;
      }
      assert FilesystemResults(topic, archive) == all;
      forall k | 0 <= k < |archive| && TopicMatches(topic, archive[k])
        ensures ResultOf(archive[k]) in all
      {
        MatchingCharacterized(topic, archive, ResultOf(archive[k]));
        assert ResultOf(archive[k]) in multiset(all);
      }
    }
  }

  // ---------------------------------------------------------------------------
  // format_output
  // ---------------------------------------------------------------------------

  const HeaderPrefix := "RELATED SESSIONS: "

  /** The header; `days` is `None` when not given, and `0` is falsy as in Python. */
  function Header(topic: string, days: Option<int>): string
  {
    HeaderPrefix + topic + (if days.Some? && days.value != 0 then " (last " + IntToString(days.value) + " days)" else "")
  }

  /** The lines printed when nothing matched, after the header and blank line. */
  const NoResultLines: seq<string> := [
    "No matching sessions found.",
    "",
    "Try:",
    "  - Different keywords",
    "  - Longer time range (--days=30)",
    "  - 'sessions list' to browse all"]

  const ContinuationScript := "prepare-continuation.sh"

  const FooterLines: seq<string> := ["---", "Use: " + ContinuationScript + " <archive_name> to resume"]

  /** `r['archived_at'][:10] if r['archived_at'] else 'unknown'`. */
  function DateOf(r: SessionResult): string
  {
    if r.archivedAt != "" then Take(r.archivedAt, 10) else "unknown"
  }

  function ContextOf(r: SessionResult): string
  {
    Take(r.context, 80)
  }

  /** `f"{msgs}"`: a database NULL prints as `None`. */
  function MessagesText(n: Option<int>): string
  {
    if n.Some? then IntToString(n.value) else "None"
  }

  /** The lines of entry number `i`; `relevanceText` stands for `f"{abs(float(x)):.2f}"`. */
  function EntryLines(i: nat, r: SessionResult, relevanceText: real -> string): seq<string>
  {
    [NatToString(i) + ". " + r.archiveName,
     "   Date: " + DateOf(r) + " | Messages: " + MessagesText(r.userMessages) + " | Relevance: " + relevanceText(r.relevance)]
    + (if ContextOf(r) != "" then ["   " + ContextOf(r) + "..."] else [])
    + [""]
  }

  /** The entries of `rs`, numbered from 1. */
  function Entries(rs: seq<SessionResult>, relevanceText: real -> string): seq<string>
  {
    if rs == [] then []
    else Entries(rs[..|rs| - 1], relevanceText) + EntryLines(|rs|, rs[|rs| - 1], relevanceText)
  }

  function OutputLines(results: seq<SessionResult>, topic: string, days: Option<int>,
                       relevanceText: real -> string): seq<string>
  {
    if results == [] then [Header(topic, days), ""] + NoResultLines
    else [Header(topic, days), ""] + Entries(Take(results, 3), relevanceText) + FooterLines
  }

  /** One turn of the `enumerate(results[:3], 1)` loop. */
  method AppendEntry(lines: seq<string>, i: nat, r: SessionResult, relevanceText: real -> string)
    returns (lines': seq<string>)
    ensures lines' == lines + EntryLines(i, r, relevanceText)
  {
    var date := if r.archivedAt != "" then Take(r.archivedAt, 10) else "unknown";
    var context := Take(r.context, 80);
    lines' := lines + [NatToString(i) + ". " + r.archiveName];
    lines' := lines' + ["   Date: " + date + " | Messages: " + MessagesText(r.userMessages) + " | Relevance: " + relevanceText(r.relevance)];
    if context != "" {
      lines' := lines' + ["   " + context + "..."];
    }
    lines' := lines' + [""];
  }

  lemma EntriesStep(rs: seq<SessionResult>, i: nat, relevanceText: real -> string)
    requires i < |rs|
    ensures Entries(rs[..i + 1], relevanceText) == Entries(rs[..i], relevanceText) + EntryLines(i + 1, rs[i], relevanceText)
  {
    assert rs[..i + 1][..i] == rs[..i];
  }

  /** Appending entry i + 1 to the first i entries gives the first i + 1. */
  lemma AppendedEntries(lines: seq<string>, shown: seq<SessionResult>, i: nat, relevanceText: real -> string)
    requires i < |shown|
    ensures lines + Entries(shown[..i], relevanceText) + EntryLines(i + 1, shown[i], relevanceText)
            == lines + Entries(shown[..i + 1], relevanceText)
  {
    EntriesStep(shown, i, relevanceText);
    SeqConcatAssoc(lines, Entries(shown[..i], relevanceText), EntryLines(i + 1, shown[i], relevanceText));
  }

  lemma SeqConcatAssoc<T>(a: seq<T>, b: seq<T>, c: seq<T>)
    ensures a + b + c == a + (b + c)
  {
  }

  /** The `enumerate(results[:3], 1)` loop. */
  method AppendEntries(lines: seq<string>, shown: seq<SessionResult>, relevanceText: real -> string)
    returns (lines': seq<string>)
    ensures lines' == lines + Entries(shown, relevanceText)
  {
    lines' := lines;
    for i := 0 to |shown|
      invariant lines' == lines + Entries(shown[..i], relevanceText)
    {
      AppendedEntries(lines, shown, i, relevanceText);
      lines' := AppendEntry(lines', i + 1, shown[i], relevanceText);
    }
    assert shown[..|shown|] == shown;
  }

  /** `format_output(results, topic, days)`. */
  method FormatOutput(results: seq<SessionResult>, topic: string, days: Option<int>,
                      relevanceText: real -> string) returns (output: string)
    ensures output == Join("\n", OutputLines(results, topic, days, relevanceText))
  {
    var lines: seq<string> := [];
    var timeRange := if days.Some? && days.value != 0 then " (last " + IntToString(days.value) + " days)" else "";
    lines := lines + [HeaderPrefix + topic + timeRange];
    lines := lines + [""];
    assert lines == [Header(topic, days), ""];
    if results == [] {
      lines := lines + NoResultLines;
    } else {
      lines := AppendEntries(lines, Take(results, 3), relevanceText);
      lines := lines + FooterLines;
    }
    output := Join("\n", lines);
  }

  /** find-related-sessions.py:167-168: the header names the topic, and it is
      longer than that exactly when a non-zero number of days was given, in
      which case it names that number. */
  lemma HeaderCarriesDays(topic: string, days: Option<int>)
    ensures IsPrefix(HeaderPrefix + topic, Header(topic, days))
    ensures |Header(topic, days)| > |HeaderPrefix + topic| <==> days.Some? && days.value != 0
    ensures days.Some? && days.value != 0 ==>
      Header(topic, days)[|HeaderPrefix + topic|..] == " (last " + IntToString(days.value) + " days)"
  {
    var h := Header(topic, days);
    assert h[..|HeaderPrefix + topic|] == HeaderPrefix + topic;
  }

  /** A line of an entry: blank, a numbered heading, or indented. */
  predicate EntryLine(l: string)
  {
    l == "" || '0' <= l[0] <= '9' || l[0] == ' '
  }

  lemma {:induction false} EntriesShape(rs: seq<SessionResult>, relevanceText: real -> string)
    ensures forall l :: l in Entries(rs, relevanceText) ==> EntryLine(l)
  {
    if rs != [] {
      EntriesShape(rs[..|rs| - 1], relevanceText);
    }
  }

  /** find-related-sessions.py:171-178: the no-match message appears exactly
      when there are no results, and then follows the header and a blank line
      together with the suggestions. */
  lemma NoMatchMessage(results: seq<SessionResult>, topic: string, days: Option<int>,
                       relevanceText: real -> string)
    ensures var lines := OutputLines(results, topic, days, relevanceText);
      "No matching sessions found." in lines <==> results == []
    ensures results == [] ==>
      OutputLines(results, topic, days, relevanceText)[2..] == NoResultLines
  {
    var lines := OutputLines(results, topic, days, relevanceText);
    if results != [] {
      EntriesShape(Take(results, 3), relevanceText);
      var entries := Entries(Take(results, 3), relevanceText);
      assert lines == [Header(topic, days), ""] + entries + FooterLines;
      var message := "No matching sessions found.";
      assert Header(topic, days)[0] == 'R' && message[0] == 'N';
      assert !EntryLine(message);
      assert message !in entries;
      assert message !in FooterLines;
    }
  }

  /** A numbered entry heading starts with a digit. */
  function NumberedLine(l: string): seq<string>
  {
    if l != "" && '0' <= l[0] <= '9' then [l] else []
  }

  function Headings(lines: seq<string>): seq<string>
  {
    FlatMap(lines, NumberedLine)
  }

  lemma EntryHeadings(i: nat, r: SessionResult, relevanceText: real -> string)
    ensures Headings(EntryLines(i, r, relevanceText)) == [NatToString(i) + ". " + r.archiveName]
  {
    var lines := EntryLines(i, r, relevanceText);
    var head := NatToString(i) + ". " + r.archiveName;
    assert lines == [head] + lines[1..];
    FlatMapConcat([head], lines[1..], NumberedLine);
    assert NumberedLine(head) == [head];
    assert FlatMap([head], NumberedLine) == [head] by {
      assert [head][..0] == [];
    }
    var tail := lines[1..];
    forall k | 0 <= k < |tail|
      ensures NumberedLine(tail[k]) == []
    {
    }
    NoHeadings(tail);
  }

  lemma {:induction false} NoHeadings(lines: seq<string>)
    requires forall k :: 0 <= k < |lines| ==> NumberedLine(lines[k]) == []
    ensures Headings(lines) == []
  {
    if lines != [] {
      NoHeadings(lines[..|lines| - 1]);
    }
  }

  /** The heading of the `n`-th entry. */
  function Title(n: nat, r: SessionResult): string
  {
    NatToString(n) + ". " + r.archiveName
  }

  /** The heading of each result of `rs`, numbered from 1. */
  function Titles(rs: seq<SessionResult>): seq<string>
  {
    if rs == [] then [] else Titles(rs[..|rs| - 1]) + [Title(|rs|, rs[|rs| - 1])]
  }

  lemma {:induction false} TitlesIndexed(rs: seq<SessionResult>)
    ensures |Titles(rs)| == |rs|
    ensures forall k :: 0 <= k < |rs| ==> Titles(rs)[k] == Title(k + 1, rs[k])
  {
    if rs != [] {
      var init := rs[..|rs| - 1];
      TitlesIndexed(init);
      forall k | 0 <= k < |init|
        ensures Titles(rs)[k] == Title(k + 1, rs[k])
      {
        assert Titles(rs)[k] == Titles(init)[k];
        assert init[k] == rs[k];
      }
    }
  }

  lemma {:induction false} EntriesHeadings(rs: seq<SessionResult>, relevanceText: real -> string)
    ensures Headings(Entries(rs, relevanceText)) == Titles(rs)
  {
    if rs != [] {
      var init := rs[..|rs| - 1];
      EntriesHeadings(init, relevanceText);
      FlatMapConcat(Entries(init, relevanceText), EntryLines(|rs|, rs[|rs| - 1], relevanceText), NumberedLine);
      EntryHeadings(|rs|, rs[|rs| - 1], relevanceText);
    }
  }

  lemma FixedLinesHaveNoHeadings()
    ensures Headings(NoResultLines) == [] && Headings(FooterLines) == []
  {
    assert NoResultLines[0][0] == 'N' && NoResultLines[1] == "" && NoResultLines[2][0] == 'T';
    assert NoResultLines[3][0] == ' ' && NoResultLines[4][0] == ' ' && NoResultLines[5][0] == ' ';
    NoHeadings(NoResultLines);
    assert FooterLines[0][0] == '-' && FooterLines[1][0] == 'U';
    NoHeadings(FooterLines);
  }

  /** find-related-sessions.py:180-187: the output numbers the first (at most)
      three results consecutively from 1, one heading each, in result order. */
  lemma NumberedEntries(results: seq<SessionResult>, topic: string, days: Option<int>,
                        relevanceText: real -> string)
    ensures var h := Headings(OutputLines(results, topic, days, relevanceText));
      && |h| == (if |results| <= 3 then |results| else 3)
      && forall k :: 0 <= k < |h| ==> h[k] == NatToString(k + 1) + ". " + results[k].archiveName
  {
    var shown := Take(results, 3);
    OutputHeadings(results, topic, days, relevanceText);
    EntriesHeadings(shown, relevanceText);
    TitlesIndexed(shown);
  }

  lemma FramedHeadings(h: string, mid: seq<string>, tail: seq<string>)
    requires NumberedLine(h) == [] && Headings(tail) == []
    ensures Headings([h, ""] + mid + tail) == Headings(mid)
  {
    NoHeadings([h, ""]);
    FlatMapConcat([h, ""], mid, NumberedLine);
    FlatMapConcat([h, ""] + mid, tail, NumberedLine);
  }

  /** Only the entries contribute headings to the output. */
  lemma OutputHeadings(results: seq<SessionResult>, topic: string, days: Option<int>,
                       relevanceText: real -> string)
    ensures Headings(OutputLines(results, topic, days, relevanceText)) == Headings(Entries(Take(results, 3), relevanceText))
  {
    var h := Header(topic, days);
    assert h[0] == 'R';
    FixedLinesHaveNoHeadings();
    if results == [] {
      assert OutputLines(results, topic, days, relevanceText) == [h, ""] + [] + NoResultLines;
      FramedHeadings(h, [], NoResultLines);
    } else {
      FramedHeadings(h, Entries(Take(results, 3), relevanceText), FooterLines);
    }
  }

  /** find-related-sessions.py:182-190: an entry shows the first ten characters
      of the date, `unknown` only for an empty date, the first 80 characters of
      context, and has its context line exactly when that context is not empty. */
  lemma EntryShape(i: nat, r: SessionResult, relevanceText: real -> string)
    ensures IsPrefix(DateOf(r), r.archivedAt) <==> r.archivedAt != ""
    ensures r.archivedAt == "" ==> DateOf(r) == "unknown"
    ensures |DateOf(r)| <= 10
    ensures |ContextOf(r)| <= 80 && IsPrefix(ContextOf(r), r.context)
    ensures ContextOf(r) == "" <==> r.context == ""
    ensures r.archivedAt != "" ==> DateOf(r) == r.archivedAt[..if |r.archivedAt| <= 10 then |r.archivedAt| else 10]
    ensures ContextOf(r) == r.context[..if |r.context| <= 80 then |r.context| else 80]
    ensures var lines := EntryLines(i, r, relevanceText);
      && |lines| == (if r.context != "" then 4 else 3)
      && (("   " + ContextOf(r) + "...") in lines <==> r.context != "")
  {
    var lines := EntryLines(i, r, relevanceText);
    if r.context == "" {
      var c := "   " + ContextOf(r) + "...";
      assert c[0] == ' ' && c[3] == '.';
      assert lines[0][0] == NatToString(i)[0];
      assert lines[1][3] == 'D';
      assert lines == [lines[0], lines[1], ""];
      assert c != lines[0] && c != lines[1] && c != lines[2];
    }
  }

  // ---------------------------------------------------------------------------
  // main: database first, filesystem second
  // ---------------------------------------------------------------------------

  /** The rows `main` formats: the database rows unless there are none. */
  function ChosenResults(dbResults: seq<SessionResult>, topic: string, archive: seq<Metadata>): seq<SessionResult>
  {
    if dbResults != [] then dbResults else FilesystemResults(topic, archive)
  }

  /** `main()` after argument parsing; `dbResults` is what `search_database`
      returned (empty when the database is missing or the query failed). */
  method FindRelated(topic: string, days: Option<int>, dbResults: seq<SessionResult>,
                     archive: seq<Metadata>, relevanceText: real -> string)
    returns (output: string, searchedFilesystem: bool)
    ensures searchedFilesystem <==> dbResults == []
    ensures output == Join("\n", OutputLines(ChosenResults(dbResults, topic, archive), topic, days, relevanceText))
  {
    var results := dbResults;
    searchedFilesystem := false;
    if results == [] {
      results := SearchFilesystem(topic, archive);
      searchedFilesystem := true;
    }
    output := FormatOutput(results, topic, days, relevanceText);
  }

  /** find-related-sessions.py:214-216: database rows are used unchanged when
      there are any; otherwise every row formatted comes from a matching
      archive, and the output reports no match exactly when neither source
      found anything. */
  lemma FallbackChoice(dbResults: seq<SessionResult>, topic: string, archive: seq<Metadata>)
    ensures dbResults != [] ==> ChosenResults(dbResults, topic, archive) == dbResults
    ensures dbResults == [] ==>
      forall r :: r in ChosenResults(dbResults, topic, archive) ==> BuiltFromMatch(topic, archive, r)
    ensures ChosenResults(dbResults, topic, archive) == [] <==>
      dbResults == [] && forall k :: 0 <= k < |archive| ==> !TopicMatches(topic, archive[k])
  {
    if dbResults == [] {
      FilesystemResultsCharacterized(topic, archive);
      var rs := FilesystemResults(topic, archive);
      forall r | r in rs
        ensures BuiltFromMatch(topic, archive, r)
      {
        var i :| 0 <= i < |rs| && rs[i] == r;
      }
      var matches := Matching(topic, archive);
      var all := SortNewestFirst(matches);
      if matches != [] {
        MatchingCharacterized(topic, archive, matches[0]);
      }
      if exists k :: 0 <= k < |archive| && TopicMatches(topic, archive[k]) {
        var k :| 0 <= k < |archive| && TopicMatches(topic, archive[k]);
        MatchingCharacterized(topic, archive, ResultOf(archive[k]));
        assert ResultOf(archive[k]) in multiset(all);
        assert rs != [];
      }
    }
  }
}
