/** skills/scripts/extract-key-points.py: reduce a parsed session transcript to
    a short Markdown summary of decisions, completions, outcomes and pending work.
    Records are already-decoded JSON lines (blank and undecodable lines are gone);
    case folding is ASCII. */
module KeyPoints {
  import opened Results
  import opened Strings
  import opened PyJson
  import opened Seqs

  const DecisionKeywords: seq<string> :=
    ["decided", "will use", "going with", "chose", "selected",
     "the plan is", "approach:", "solution:", "we'll", "let's go with"]

  const CompletionKeywords: seq<string> :=
    ["completed", "finished", "done", "implemented", "fixed",
     "resolved", "working now", "tests pass", "deployed"]

  const OutcomeKeywords: seq<string> :=
    ["result:", "outcome:", "conclusion:", "summary:",
     "in summary", "to summarize", "key takeaway"]

  const InProgressKeywords: seq<string> :=
    ["next:", "todo:", "still need", "remaining:", "next step",
     "will need to", "should also", "don't forget"]

  // ---------------------------------------------------------------------------
  // extract_content
  // ---------------------------------------------------------------------------

  predicate IsThinkingBlock(block: Json)
  {
    block.JObj? && Get(block.members, "type", JNull) == JStr("thinking")
  }

  /** What the block loop appends to `text_parts` for one block: the `text` of a
      text block, a plain string as it is, nothing for anything else. */
  function BlockPart(block: Json): seq<Json>
  {
    match block
    case JObj(fields) => if Get(fields, "type", JNull) == JStr("text") then [Get(fields, "text", JStr(""))] else []
    case JStr(_) => [block]
    case _ => []
  }

  function BlockParts(blocks: seq<Json>): seq<Json>
  {
    if blocks == [] then []
    else BlockParts(blocks[..|blocks| - 1]) + BlockPart(blocks[|blocks| - 1])
  }

  predicate AllStrings(parts: seq<Json>)
  {
    forall i :: 0 <= i < |parts| ==> parts[i].JStr?
  }

  function StringsOf(parts: seq<Json>): (r: seq<string>)
    requires AllStrings(parts)
    ensures |r| == |parts| && forall i :: 0 <= i < |parts| ==> r[i] == parts[i].s
  {
    seq(|parts|, i requires 0 <= i < |parts| => parts[i].s)
  }

  /** The least index of a part that is not a string. */
  function FirstNonString(parts: seq<Json>): (k: nat)
    requires !AllStrings(parts)
    ensures k < |parts| && !parts[k].JStr? && AllStrings(parts[..k])
    ensures forall j :: 0 <= j < k ==> parts[j].JStr?
  {
    if !parts[0].JStr? then 0 else 1 + FirstNonString(parts[1..])
  }

  /** `sep.join(parts)`: the strings joined with `sep`, or the TypeError naming
      the first part that is not a string, its index and its type. */
  function JoinParts(sep: string, parts: seq<Json>): (r: Result<string>)
    ensures r.Ok? <==> AllStrings(parts)
    ensures r.Ok? ==> r.value == Join(sep, StringsOf(parts))
    ensures r.Err? ==>
      exists k :: && 0 <= k < |parts| && !parts[k].JStr?
                  && (forall j :: 0 <= j < k ==> parts[j].JStr?)
                  && r.error == "sequence item " + NatToString(k) + ": expected str instance, " + TypeName(parts[k]) + " found"
  {
    if AllStrings(parts) then Ok(Join(sep, StringsOf(parts)))
    else
      var k := FirstNonString(parts);
      Err("sequence item " + NatToString(k) + ": expected str instance, " + TypeName(parts[k]) + " found")
  }

  /** `[str(c) for c in items if c]`. */
  function TruthyStrings(items: seq<Json>): seq<string>
  {
    if items == [] then []
    else TruthyStrings(items[..|items| - 1])
         + (if Truthy(items[|items| - 1]) then [PyStr(items[|items| - 1])] else [])
  }

  /** `extract_content(msg)` for a record that is a dict. */
  function ContentOf(fields: seq<Member>): Result<string>
  {
    var message := Get(fields, "message", JNull);
    if HasKey(fields, "message") && message.JObj? then
      var content := Get(message.members, "content", JStr(""));
      if content.JArr? then JoinParts(" ", BlockParts(content.items))
      else Ok(if Truthy(content) then PyStr(content) else "")
    else if HasKey(fields, "content") then
      var content := Get(fields, "content", JNull);
      if content.JStr? then Ok(content.s)
      else if content.JArr? then Ok(Join(" ", TruthyStrings(content.items)))
      else Ok("")
    else Ok("")
  }

  /** The block loop of `extract_content`: text of text blocks and plain
      strings, in order; thinking blocks and anything else skipped. */
  method CollectTextParts(blocks: seq<Json>) returns (textParts: seq<Json>)
    ensures textParts == BlockParts(blocks)
  {
    textParts := [];
    for k := 0 to |blocks|
      invariant textParts == BlockParts(blocks[..k])
    {
      assert blocks[..k + 1][..k] == blocks[..k];
      var block := blocks[k];
      if block.JObj? {
        if Get(block.members, "type", JNull) == JStr("text") {
          textParts := textParts + [Get(block.members, "text", JStr(""))];
        } else if Get(block.members, "type", JNull) == JStr("thinking") {
          continue;
        }
      } else if block.JStr? {
        textParts := textParts + [block];
      }
    }
    assert blocks[..|blocks|] == blocks;
  }

  /** `extract_content`: the nested `message.content`, flattening a list of
      blocks; else the direct `content`; else the empty string. */
  method ExtractContent(fields: seq<Member>) returns (r: Result<string>)
    ensures r == ContentOf(fields)
  {
    var message := Get(fields, "message", JNull);
    if HasKey(fields, "message") && message.JObj? {
      var content := Get(message.members, "content", JStr(""));
      if content.JArr? {
        var textParts := CollectTextParts(content.items);
        return JoinParts(" ", textParts);
      }
      return Ok(if Truthy(content) then PyStr(content) else "");
    }
    if HasKey(fields, "content") {
      var content := Get(fields, "content", JNull);
      if content.JStr? {
        return Ok(content.s);
      }
      if content.JArr? {
        return Ok(Join(" ", TruthyStrings(content.items)));
      }
    }
    return Ok("");
  }

  lemma {:induction false} BlockPartsConcat(a: seq<Json>, b: seq<Json>)
    ensures BlockParts(a + b) == BlockParts(a) + BlockParts(b)
  {
    if b == [] {
      assert a + b == a;
    } else {
      assert (a + b)[..|a + b| - 1] == a + b[..|b| - 1];
      BlockPartsConcat(a, b[..|b| - 1]);
    }
  }

  /** extract-key-points.py:56-57: a thinking block contributes nothing, wherever
      it stands among the blocks. */
  lemma ThinkingBlockIgnored(before: seq<Json>, thinking: Json, after: seq<Json>)
    requires IsThinkingBlock(thinking)
    ensures BlockParts(before + [thinking] + after) == BlockParts(before + after)
  {
    assert BlockPart(thinking) == [] by {
      assert Get(thinking.members, "type", JNull) != JStr("text");
    }
    assert BlockParts([thinking]) == [] by {
      assert [thinking][..0] == [];
    }
    BlockPartsConcat(before + [thinking], after);
    BlockPartsConcat(before, [thinking]);
    BlockPartsConcat(before, after);
  }

  /** An object record whose `message.content` is a list of blocks. */
  function NestedRecord(blocks: seq<Json>): seq<Member>
  {
    [Member("message", JObj([Member("content", JArr(blocks))]))]
  }

  function TextBlock(text: string): Json
  {
    JObj([Member("type", JStr("text")), Member("text", JStr(text))])
  }

  lemma TextBlockPart(text: string)
    ensures BlockPart(TextBlock(text)) == [JStr(text)]
  {
    var fields := [Member("type", JStr("text")), Member("text", JStr(text))];
    assert Get(fields, "type", JNull) == JStr("text");
    assert Get(fields, "text", JStr("")) == Get(fields[1..], "text", JStr(""));
  }

  function TextBlocks(texts: seq<string>): seq<Json>
  {
    if texts == [] then [] else TextBlocks(texts[..|texts| - 1]) + [TextBlock(texts[|texts| - 1])]
  }

  function StringValues(texts: seq<string>): (r: seq<Json>)
    ensures |r| == |texts| && forall i :: 0 <= i < |texts| ==> r[i] == JStr(texts[i])
  {
    if texts == [] then [] else StringValues(texts[..|texts| - 1]) + [JStr(texts[|texts| - 1])]
  }

  lemma {:induction false} TextBlocksParts(texts: seq<string>)
    ensures BlockParts(TextBlocks(texts)) == StringValues(texts)
  {
    if texts != [] {
      var n := |texts| - 1;
      var blocks := TextBlocks(texts);
      assert blocks[..|blocks| - 1] == TextBlocks(texts[..n]);
      TextBlocksParts(texts[..n]);
      TextBlockPart(texts[n]);
    }
  }

  /** extract-key-points.py:47-60: a nested list of text blocks yields their texts
      joined by single spaces. */
  lemma TextBlocksJoinedWithSpaces(texts: seq<string>)
    ensures ContentOf(NestedRecord(TextBlocks(texts))) == Ok(Join(" ", texts))
  {
    TextBlocksParts(texts);
    assert StringsOf(StringValues(texts)) == texts;
    var fields := NestedRecord(TextBlocks(texts));
    assert HasKey(fields, "message") by { assert fields[0].key == "message"; }
    assert HasKey(fields[0].value.members, "content") by { assert fields[0].value.members[0].key == "content"; }
  }

  /** The flattening fails exactly when some text block's `text` is not a string. */
  lemma NestedContentFailsOnNonString(blocks: seq<Json>)
    ensures ContentOf(NestedRecord(blocks)).Err? <==> !AllStrings(BlockParts(blocks))
  {
    var fields := NestedRecord(blocks);
    assert HasKey(fields, "message") by { assert fields[0].key == "message"; }
    assert HasKey(fields[0].value.members, "content") by { assert fields[0].value.members[0].key == "content"; }
  }

  // ---------------------------------------------------------------------------
  // get_message_type
  // ---------------------------------------------------------------------------

  predicate NamesUser(t: Json) { t == JStr("user") || t == JStr("user_message") }
  predicate NamesAssistant(t: Json) { t == JStr("assistant") || t == JStr("assistant_message") }

  /** `get_message_type(msg)`: the `type` field decides when it names a side;
      otherwise a nested message's `role`; otherwise the raw `type`.  Calling
      `.get` on something that is not a dict raises AttributeError. */
  function MessageType(record: Json): (r: Result<Json>)
    ensures r.Ok? ==> record.JObj?
  {
    if !record.JObj? then Err(NoGetError(record))
    else
      var t := Get(record.members, "type", JStr(""));
      if NamesUser(t) then Ok(JStr("user"))
      else if NamesAssistant(t) then Ok(JStr("assistant"))
      else if HasKey(record.members, "message") then
        var message := Get(record.members, "message", JNull);
        if !message.JObj? then Err(NoGetError(message))
        else
          var role := Get(message.members, "role", JStr(""));
          if role == JStr("user") then Ok(JStr("user"))
          else if role == JStr("assistant") then Ok(JStr("assistant"))
          else Ok(t)
      else Ok(t)
  }

  function TypeField(record: Json): Json
    requires record.JObj?
  {
    Get(record.members, "type", JStr(""))
  }

  function RoleField(record: Json): Json
    requires record.JObj?
  {
    var message := Get(record.members, "message", JNull);
    if HasKey(record.members, "message") && message.JObj? then Get(message.members, "role", JStr("")) else JStr("")
  }

  /** extract-key-points.py:74-87, case by case: the `type` field wins when it
      names a side, the nested `role` is consulted only when it does not, any
      other record keeps its raw `type`, and non-dicts fail. */
  lemma MessageTypeClassifies(record: Json)
    ensures MessageType(record) == Ok(JStr("user")) <==>
      record.JObj? && (NamesUser(TypeField(record))
        || (!NamesAssistant(TypeField(record)) && RoleField(record) == JStr("user")
            && Get(record.members, "message", JNull).JObj?))
    ensures MessageType(record) == Ok(JStr("assistant")) <==>
      record.JObj? && (NamesAssistant(TypeField(record))
        || (!NamesUser(TypeField(record)) && RoleField(record) == JStr("assistant")
            && Get(record.members, "message", JNull).JObj?))
    ensures MessageType(record).Ok? && MessageType(record).value != JStr("user")
            && MessageType(record).value != JStr("assistant") ==>
      MessageType(record).value == TypeField(record)
    ensures MessageType(record).Err? <==>
      !record.JObj? || (!NamesUser(TypeField(record)) && !NamesAssistant(TypeField(record))
                        && HasKey(record.members, "message") && !Get(record.members, "message", JNull).JObj?)
  {
  }

  // ---------------------------------------------------------------------------
  // find_matching_content
  // ---------------------------------------------------------------------------

  predicate IsSentenceEnd(c: char)
  {
    c == '.' || c == '!' || c == '?' || c == '\n'
  }

  /** `re.split(r'[.!?\n]', s)`: the pieces between sentence-ending characters,
      empty pieces included. */
  function Sentences(s: string): (r: seq<string>)
    ensures |r| >= 1 && IsPrefix(r[0], s)
  {
    if s == [] then [""]
    else if IsSentenceEnd(s[0]) then [""] + Sentences(s[1..])
    else
      var rest := Sentences(s[1..]);
      [[s[0]] + rest[0]] + rest[1..]
  }

  /** Every piece of the split occurs in the text and holds no sentence end. */
  lemma {:induction false} SentencesWithin(s: string)
    ensures forall k :: 0 <= k < |Sentences(s)| ==> Contains(s, Sentences(s)[k])
    ensures forall k, m :: 0 <= k < |Sentences(s)| && 0 <= m < |Sentences(s)[k]| ==> !IsSentenceEnd(Sentences(s)[k][m])
  {
    if s != [] {
      SentencesWithin(s[1..]);
      var rest := Sentences(s[1..]);
      var r := Sentences(s);
      forall k | 0 <= k < |r|
        ensures Contains(s, r[k])
        ensures forall m :: 0 <= m < |r[k]| ==> !IsSentenceEnd(r[k][m])
      {
        if IsSentenceEnd(s[0]) {
          if k == 0 {
            assert IsPrefix(r[k], s[0..]);
          } else {
            assert r[k] == rest[k - 1];
            ContainsInTail(s, rest[k - 1]);
          }
        } else if k == 0 {
          assert r[0] == [s[0]] + rest[0];
          assert IsPrefix(r[0], s[0..]);
          forall m | 0 <= m < |r[0]|
            ensures !IsSentenceEnd(r[0][m])
          {
            if m > 0 {
              assert r[0][m] == rest[0][m - 1];
            }
          }
        } else {
          assert r[k] == rest[k];
          ContainsInTail(s, rest[k]);
        }
      }
    } else {
      assert IsPrefix(Sentences(s)[0], s[0..]);
    }
  }

  lemma ContainsInTail(s: string, p: string)
    requires s != [] && Contains(s[1..], p)
    ensures Contains(s, p)
  {
    var i :| 0 <= i <= |s[1..]| && IsPrefix(p, s[1..][i..]);
    assert s[1..][i..] == s[i + 1..];
  }

  /** The sentence-ending characters of `s`, in order. */
  function Separators(s: string): (r: string)
    ensures forall k :: 0 <= k < |r| ==> IsSentenceEnd(r[k])
  {
    if s == [] then []
    else (if IsSentenceEnd(s[0]) then [s[0]] else []) + Separators(s[1..])
  }

  /** `pieces[0] + seps[0] + pieces[1] + ... + pieces[n]`. */
  function Interleave(pieces: seq<string>, seps: string): string
    requires |pieces| == |seps| + 1
    decreases |seps|
  {
    if seps == [] then pieces[0]
    else pieces[0] + [seps[0]] + Interleave(pieces[1..], seps[1..])
  }

  lemma InterleaveConsFirst(c: char, pieces: seq<string>, seps: string)
    requires |pieces| == |seps| + 1
    ensures Interleave([[c] + pieces[0]] + pieces[1..], seps) == [c] + Interleave(pieces, seps)
  {
    var p := [[c] + pieces[0]] + pieces[1..];
    if seps != [] {
      assert p[1..] == pieces[1..];
    }
  }

  /** The split loses only the separators: putting each sentence-ending
      character back between its two pieces rebuilds the text, and there is
      one piece more than there are separators. */
  lemma {:induction false} SentencesRebuild(s: string)
    ensures |Sentences(s)| == |Separators(s)| + 1
    ensures Interleave(Sentences(s), Separators(s)) == s
  {
    if s != [] {
      SentencesRebuild(s[1..]);
      var rest := Sentences(s[1..]);
      if IsSentenceEnd(s[0]) {
        assert Sentences(s) == [""] + rest;
        assert Separators(s) == [s[0]] + Separators(s[1..]);
        assert Interleave(Sentences(s), Separators(s)) == "" + [s[0]] + Interleave(rest, Separators(s[1..])) by {
          assert Sentences(s)[1..] == rest;
          assert Separators(s)[1..] == Separators(s[1..]);
        }
        assert s == [s[0]] + s[1..];
      } else {
        assert Sentences(s) == [[s[0]] + rest[0]] + rest[1..];
        assert Separators(s) == Separators(s[1..]);
        InterleaveConsFirst(s[0], rest, Separators(s[1..]));
        assert s == [s[0]] + s[1..];
      }
    }
  }

  /** Whether a sentence yields a match for a lower-cased keyword, and the
      `clean` text it then yields. */
  predicate Qualifies(sentence: string, keywordLower: string)
  {
    Contains(Lower(sentence), keywordLower) && |Strip(sentence)| > 10
  }

  function Clean(sentence: string): string
  {
    Take(Strip(sentence), 150)
  }

  /** What one sentence contributes for a lower-cased keyword. */
  function SentenceMatch(sentence: string, keywordLower: string): seq<string>
  {
    if Qualifies(sentence, keywordLower) then [Clean(sentence)] else []
  }

  /** The matches of one keyword, sentence by sentence, repeats kept; nothing
      when the whole text does not mention the keyword. */
  function KeywordMatches(content: string, keyword: string): seq<string>
  {
    if Contains(Lower(content), Lower(keyword))
    then FlatMap(Sentences(content), s => SentenceMatch(s, Lower(keyword)))
    else []
  }

  /** Every match found, keyword after keyword, before repeats are dropped. */
  function Candidates(content: string, keywords: seq<string>): seq<string>
  {
    FlatMap(keywords, kw => KeywordMatches(content, kw))
  }

  function MatchingContent(content: string, keywords: seq<string>): seq<string>
  {
    Dedupe(Candidates(content, keywords))
  }

  /** The sentence loop of `find_matching_content` for one keyword, appending
      each qualifying `clean` text not yet in `matches`. */
  method AddSentenceMatches(matches: seq<string>, before: seq<string>, sentences: seq<string>, keywordLower: string)
    returns (matches': seq<string>)
    requires matches == Dedupe(before)
    ensures matches' == Dedupe(before + FlatMap(sentences, s => SentenceMatch(s, keywordLower)))
  {
    matches' := matches;
    var f := s => SentenceMatch(s, keywordLower);
    assert before + FlatMap(sentences[..0], f) == before;
    for j := 0 to |sentences|
      invariant matches' == Dedupe(before + FlatMap(sentences[..j], f))
    {
      var sentence := sentences[j];
      var prior := before + FlatMap(sentences[..j], f);
      ExtendedBySentence(before, sentences, j, f, SentenceMatch(sentence, keywordLower));
      DedupeAppendOne(prior, SentenceMatch(sentence, keywordLower));
      if Contains(Lower(sentence), keywordLower) && |Strip(sentence)| > 10 {
        var clean := Take(Strip(sentence), 150);
        if clean !in matches' {
          matches' := matches' + [clean];
        }
      }
    }
    assert sentences[..|sentences|] == sentences;
  }

  /** One more sentence extends the candidates by what it contributes. */
  lemma ExtendedBySentence(before: seq<string>, sentences: seq<string>, j: nat, f: string -> seq<string>, here: seq<string>)
    requires j < |sentences| && f(sentences[j]) == here
    ensures before + FlatMap(sentences[..j + 1], f) == before + FlatMap(sentences[..j], f) + here
  {
    FlatMapStep(sentences, j, f);
  }

  /** `find_matching_content(content, keywords)`. */
  method FindMatchingContent(content: string, keywords: seq<string>) returns (matches: seq<string>)
    ensures matches == MatchingContent(content, keywords)
  {
    matches := [];
    var contentLower := Lower(content);
    for i := 0 to |keywords|
      invariant matches == Dedupe(Candidates(content, keywords[..i]))
    {
      FlatMapStep(keywords, i, kw => KeywordMatches(content, kw));
      var before := Candidates(content, keywords[..i]);
      var keywordLower := Lower(keywords[i]);
      if Contains(contentLower, keywordLower) {
        matches := AddSentenceMatches(matches, before, Sentences(content), keywordLower);
      } else {
        assert before + KeywordMatches(content, keywords[i]) == before;
      }
    }
    assert keywords[..|keywords|] == keywords;
  }

  /** `sentence` yields `m` as a match for the lower-cased keyword. */
  predicate Yields(sentence: string, keywordLower: string, m: string)
  {
    Qualifies(sentence, keywordLower) && m == Clean(sentence)
  }

  /** Some sentence of `content` mentions `keyword` (ignoring case), has more
      than ten characters once stripped, and yields `m`. */
  predicate MatchedBy(content: string, keyword: string, m: string)
  {
    var sentences := Sentences(content);
    exists j :: 0 <= j < |sentences| && Yields(sentences[j], Lower(keyword), m)
  }

  lemma KeywordMatchesMembers(content: string, keyword: string, m: string)
    ensures m in KeywordMatches(content, keyword) <==> MatchedBy(content, keyword, m)
  {
    if MatchedBy(content, keyword, m) {
      MatchedByIsFound(content, keyword, m);
    }
    if m in KeywordMatches(content, keyword) {
      FoundIsMatchedBy(content, keyword, m);
    }
  }

  lemma SentenceIn(content: string, j: nat)
    requires j < |Sentences(content)|
    ensures Contains(content, Sentences(content)[j])
  {
    SentencesWithin(content);
  }

  lemma MatchedByIsFound(content: string, keyword: string, m: string)
    requires MatchedBy(content, keyword, m)
    ensures m in KeywordMatches(content, keyword)
  {
    var sentences := Sentences(content);
    var f := s => SentenceMatch(s, Lower(keyword));
    var j :| 0 <= j < |sentences| && Yields(sentences[j], Lower(keyword), m);
    assert m in f(sentences[j]);
    SentenceIn(content, j);
    LowerContains(content, sentences[j], Lower(keyword));
    FlatMapMembers(sentences, f, m);
  }

  lemma FoundIsMatchedBy(content: string, keyword: string, m: string)
    requires m in KeywordMatches(content, keyword)
    ensures MatchedBy(content, keyword, m)
  {
    var sentences := Sentences(content);
    var f := s => SentenceMatch(s, Lower(keyword));
    FlatMapMembers(sentences, f, m);
    var j :| 0 <= j < |sentences| && m in f(sentences[j]);
    assert Yields(sentences[j], Lower(keyword), m);
  }

  lemma CandidatesMembers(content: string, keywords: seq<string>, m: string)
    ensures m in Candidates(content, keywords) <==>
      exists k :: 0 <= k < |keywords| && MatchedBy(content, keywords[k], m)
  {
    var g := kw => KeywordMatches(content, kw);
    FlatMapMembers(keywords, g, m);
    forall k | 0 <= k < |keywords|
      ensures m in g(keywords[k]) <==> MatchedBy(content, keywords[k], m)
    {
      KeywordMatchesMembers(content, keywords[k], m);
    }
  }

  /** extract-key-points.py:90-105: the matches are exactly the stripped, cut
      sentences that mention some keyword and are longer than ten characters,
      each listed once, in the order they are first found. */
  lemma MatchingContentCharacterized(content: string, keywords: seq<string>)
    ensures forall m :: m in MatchingContent(content, keywords) <==>
      exists k :: 0 <= k < |keywords| && MatchedBy(content, keywords[k], m)
    ensures NoDuplicates(MatchingContent(content, keywords))
    ensures forall m :: m in MatchingContent(content, keywords) ==> 10 < |m| <= 150
    ensures forall i, j :: 0 <= i < j < |MatchingContent(content, keywords)| ==>
      FirstIndex(Candidates(content, keywords), MatchingContent(content, keywords)[i])
        < FirstIndex(Candidates(content, keywords), MatchingContent(content, keywords)[j])
  {
    var c := Candidates(content, keywords);
    DedupeOrder(c);
    forall m
      ensures m in MatchingContent(content, keywords) <==>
        exists k :: 0 <= k < |keywords| && MatchedBy(content, keywords[k], m)
    {
      CandidatesMembers(content, keywords, m);
    }
    forall m | m in MatchingContent(content, keywords)
      ensures 10 < |m| <= 150
    {
      CandidatesMembers(content, keywords, m);
    }
  }

  // ---------------------------------------------------------------------------
  // extract_key_points
  // ---------------------------------------------------------------------------

  datatype KeyPoints = KeyPoints(
    decisions: seq<string>,
    completions: seq<string>,
    outcomes: seq<string>,
    inProgress: seq<string>,
    firstUserMessage: string,
    lastUserMessage: string,
    userCount: nat,
    assistantCount: nat)

  const Initial := KeyPoints([], [], [], [], "", "", 0, 0)

  /** A record as the loop sees it: its side and its text. */
  datatype Reading = Reading(kind: Json, content: string)

  /** `get_message_type(msg)` then `extract_content(msg)`; the first to raise
      aborts the whole extraction. */
  function Read(record: Json): Result<Reading>
  {
    var kind :- MessageType(record);
    var content :- ContentOf(record.members);
    Ok(Reading(kind, content))
  }

  /** The four lists of matches one assistant text contributes. */
  datatype Findings = Findings(decisions: seq<string>, completions: seq<string>,
                               outcomes: seq<string>, inProgress: seq<string>)

  /** The four `find_matching_content` calls on one assistant text. */
  function Analyze(content: string): Findings
  {
    Findings(MatchingContent(content, DecisionKeywords), MatchingContent(content, CompletionKeywords),
             MatchingContent(content, OutcomeKeywords), MatchingContent(content, InProgressKeywords))
  }

  /** One pass of the record loop after reading: content shorter than ten
      characters is skipped; user records are counted and remembered;
      assistant records are counted and searched for key points by `analyze`,
      which the script instantiates with `Analyze`. */
  function Step(acc: KeyPoints, rd: Reading, analyze: string -> Findings): KeyPoints
  {
    if |rd.content| < 10 then acc
    else if rd.kind == JStr("user") then
      acc.(userCount := acc.userCount + 1,
           firstUserMessage := if acc.firstUserMessage == "" then Take(rd.content, 200) else acc.firstUserMessage,
           lastUserMessage := Take(rd.content, 200))
    else if rd.kind == JStr("assistant") then
      var f := analyze(rd.content);
      acc.(assistantCount := acc.assistantCount + 1,
           decisions := acc.decisions + f.decisions,
           completions := acc.completions + f.completions,
           outcomes := acc.outcomes + f.outcomes,
           inProgress := acc.inProgress + f.inProgress)
    else acc
  }

  function Accumulate(records: seq<Json>, read: Json -> Result<Reading>, analyze: string -> Findings): Result<KeyPoints>
  {
    if records == [] then Ok(Initial)
    else
      var acc :- Accumulate(records[..|records| - 1], read, analyze);
      var rd :- read(records[|records| - 1]);
      Ok(Step(acc, rd, analyze))
  }

  /** "Deduplicate and limit". */
  function Finish(acc: KeyPoints): KeyPoints
  {
    acc.(decisions := Take(Dedupe(acc.decisions), 5),
         completions := Take(Dedupe(acc.completions), 5),
         outcomes := Take(Dedupe(acc.outcomes), 3),
         inProgress := Take(Dedupe(acc.inProgress), 3))
  }

  /** `extract_key_points` over the decoded records; `Err` carries the message
      the script prints after `ERROR: ` before exiting with status 1. */
  function KeyPointsOf(records: seq<Json>): Result<KeyPoints>
  {
    var acc :- Accumulate(records, Read, Analyze);
    Ok(Finish(acc))
  }

  lemma {:induction false} AccumulateStopsAtError(records: seq<Json>, n: nat, read: Json -> Result<Reading>, analyze: string -> Findings)
    requires n <= |records| && Accumulate(records[..n], read, analyze).Err?
    ensures Accumulate(records, read, analyze) == Accumulate(records[..n], read, analyze)
  {
    if n < |records| {
      var init := records[..|records| - 1];
      assert init[..n] == records[..n];
      AccumulateStopsAtError(init, n, read, analyze);
    } else {
      assert records[..n] == records;
    }
  }

  /** The first record that raises decides the outcome. */
  lemma AccumulateFailsAt(records: seq<Json>, i: nat, acc: KeyPoints, read: Json -> Result<Reading>,
                          analyze: string -> Findings, e: string)
    requires i < |records| && Accumulate(records[..i], read, analyze) == Ok(acc) && read(records[i]) == Err(e)
    ensures Accumulate(records, read, analyze) == Err(e)
  {
    assert records[..i + 1][..i] == records[..i];
    assert Accumulate(records[..i + 1], read, analyze) == Err(e);
    AccumulateStopsAtError(records, i + 1, read, analyze);
  }

  lemma AccumulateStep(records: seq<Json>, i: nat, acc: KeyPoints, rd: Reading)
    requires i < |records| && Accumulate(records[..i], Read, Analyze) == Ok(acc) && Read(records[i]) == Ok(rd)
    ensures Accumulate(records[..i + 1], Read, Analyze) == Ok(Step(acc, rd, Analyze))
  {
    assert records[..i + 1][..i] == records[..i];
  }

  /** The rest of one pass of the record loop, once the record is read: skip
      short content, count the side, remember user requests, and extend the
      lists with an assistant message's matches. */
  method Tally(acc: KeyPoints, msgType: Json, content: string) returns (acc': KeyPoints)
    ensures acc' == Step(acc, Reading(msgType, content), Analyze)
  {
    acc' := acc;
    if |content| < 10 {
      return;
    }
    if msgType == JStr("user") {
      acc' := acc'.(userCount := acc'.userCount + 1);
      if acc'.firstUserMessage == "" {
        acc' := acc'.(firstUserMessage := Take(content, 200));
      }
      acc' := acc'.(lastUserMessage := Take(content, 200));
    } else if msgType == JStr("assistant") {
      acc' := acc'.(assistantCount := acc'.assistantCount + 1);
    }
    if msgType != JStr("assistant") {
      return;
    }
    var decisions := FindMatchingContent(content, DecisionKeywords);
    var completions := FindMatchingContent(content, CompletionKeywords);
    var outcomes := FindMatchingContent(content, OutcomeKeywords);
    var inProgress := FindMatchingContent(content, InProgressKeywords);
    acc' := acc'.(decisions := acc'.decisions + decisions,
                  completions := acc'.completions + completions,
                  outcomes := acc'.outcomes + outcomes,
                  inProgress := acc'.inProgress + inProgress);
  }

  method ExtractKeyPoints(records: seq<Json>) returns (r: Result<KeyPoints>)
    ensures r == KeyPointsOf(records)
  {
    var acc := Initial;
    for i := 0 to |records|
      invariant Accumulate(records[..i], Read, Analyze) == Ok(acc)
    {
      var msg := records[i];
      var msgType := MessageType(msg);
      if msgType.Err? {
        assert Read(msg) == Err(msgType.error);
        AccumulateFailsAt(records, i, acc, Read, Analyze, msgType.error);
        return Err(msgType.error);
      }
      var content := ExtractContent(msg.members);
      if content.Err? {
        assert Read(msg) == Err(content.error);
        AccumulateFailsAt(records, i, acc, Read, Analyze, content.error);
        return Err(content.error);
      }
      AccumulateStep(records, i, acc, Reading(msgType.value, content.value));
      acc := Tally(acc, msgType.value, content.value);
    }
    assert records[..|records|] == records;
    return Ok(Finish(acc));
  }

  /** A record raises while being classified or read. */
  predicate Fails(read: Json -> Result<Reading>, record: Json)
  {
    read(record).Err?
  }

  /** The content of a reading counted on `side`: classified as `side`, with
      at least ten characters. */
  function CountedIn(rd: Reading, side: string): seq<string>
  {
    if |rd.content| >= 10 && rd.kind == JStr(side) then [rd.content] else []
  }

  /** The content of a record that is read without error and counted on `side`. */
  function CountedText(read: Json -> Result<Reading>, record: Json, side: string): seq<string>
  {
    if read(record).Ok? then CountedIn(read(record).value, side) else []
  }

  /** The contents of the counted records of one side, in order. */
  function TextsOf(records: seq<Json>, read: Json -> Result<Reading>, side: string): seq<string>
  {
    FlatMap(records, (r: Json) => CountedText(read, r, side))
  }

  /** The four lists the script keeps. */
  datatype Category = Decisions | Completions | Outcomes | InProgress

  function ListOf(k: KeyPoints, c: Category): seq<string>
  {
    match c
    case Decisions => k.decisions
    case Completions => k.completions
    case Outcomes => k.outcomes
    case InProgress => k.inProgress
  }

  function FindingsOf(f: Findings, c: Category): seq<string>
  {
    match c
    case Decisions => f.decisions
    case Completions => f.completions
    case Outcomes => f.outcomes
    case InProgress => f.inProgress
  }

  function KeywordsOf(c: Category): seq<string>
  {
    match c
    case Decisions => DecisionKeywords
    case Completions => CompletionKeywords
    case Outcomes => OutcomeKeywords
    case InProgress => InProgressKeywords
  }

  /** The limit `extract_key_points` applies to each list. */
  function LimitOf(c: Category): nat
  {
    match c
    case Decisions => 5
    case Completions => 5
    case Outcomes => 3
    case InProgress => 3
  }

  /** One list of findings, gathered over the texts in order. */
  function MatchesOf(texts: seq<string>, analyze: string -> Findings, c: Category): seq<string>
  {
    FlatMap(texts, (t: string) => FindingsOf(analyze(t), c))
  }

  /** The extraction aborts exactly when some record raises. */
  lemma {:induction false} AccumulateFailsIff(records: seq<Json>, read: Json -> Result<Reading>, analyze: string -> Findings)
    ensures Accumulate(records, read, analyze).Err? <==> exists i :: 0 <= i < |records| && Fails(read, records[i])
  {
    if records != [] {
      var init := records[..|records| - 1];
      AccumulateFailsIff(init, read, analyze);
      if exists i :: 0 <= i < |records| && Fails(read, records[i]) {
        var i :| 0 <= i < |records| && Fails(read, records[i]);
        if i < |init| {
          assert init[i] == records[i];
        }
      }
      if exists i :: 0 <= i < |init| && Fails(read, init[i]) {
        var i :| 0 <= i < |init| && Fails(read, init[i]);
        assert records[i] == init[i];
      }
    }
  }

  lemma StepCounts(acc: KeyPoints, rd: Reading, analyze: string -> Findings)
    ensures Step(acc, rd, analyze).userCount == acc.userCount + |CountedIn(rd, "user")|
    ensures Step(acc, rd, analyze).assistantCount == acc.assistantCount + |CountedIn(rd, "assistant")|
    ensures Step(acc, rd, analyze).firstUserMessage
         == if acc.firstUserMessage == "" && CountedIn(rd, "user") != [] then Take(rd.content, 200) else acc.firstUserMessage
    ensures Step(acc, rd, analyze).lastUserMessage
         == if CountedIn(rd, "user") != [] then Take(rd.content, 200) else acc.lastUserMessage
  {
    assert JStr("user") != JStr("assistant");
  }

  /** extract-key-points.py:138-145, stated record-independently: the counts are
      the numbers of counted user and assistant records, and the first and last
      user messages are the first 200 characters of the first and last counted
      user records. */
  lemma {:induction false} AccumulateCounts(records: seq<Json>, read: Json -> Result<Reading>, analyze: string -> Findings)
    requires Accumulate(records, read, analyze).Ok?
    ensures var a, users := Accumulate(records, read, analyze).value, TextsOf(records, read, "user");
      && a.userCount == |users|
      && a.assistantCount == |TextsOf(records, read, "assistant")|
      && a.firstUserMessage == (if users == [] then "" else Take(users[0], 200))
      && a.lastUserMessage == (if users == [] then "" else Take(users[|users| - 1], 200))
  {
    if records != [] {
      var init := records[..|records| - 1];
      AccumulateLast(records, read, analyze);
      AccumulateCounts(init, read, analyze);
      var acc := Accumulate(init, read, analyze).value;
      var rd := read(records[|records| - 1]).value;
      StepCounts(acc, rd, analyze);
      TextsLong(init, read, "user");
      var users := TextsOf(init, read, "user");
      TextsOfLast(records, read, "user");
      TextsOfLast(records, read, "assistant");
      if CountedIn(rd, "user") != [] && users != [] {
        assert (users + CountedIn(rd, "user"))[0] == users[0];
      }
    }
  }

  /** The last record of a successful extraction was read without error and
      applied to the result of the others. */
  lemma AccumulateLast(records: seq<Json>, read: Json -> Result<Reading>, analyze: string -> Findings)
    requires records != [] && Accumulate(records, read, analyze).Ok?
    ensures var init, last := records[..|records| - 1], records[|records| - 1];
      && Accumulate(init, read, analyze).Ok? && read(last).Ok?
      && Accumulate(records, read, analyze).value == Step(Accumulate(init, read, analyze).value, read(last).value, analyze)
  {
  }

  lemma TextsOfLast(records: seq<Json>, read: Json -> Result<Reading>, side: string)
    requires records != [] && read(records[|records| - 1]).Ok?
    ensures TextsOf(records, read, side)
         == TextsOf(records[..|records| - 1], read, side) + CountedIn(read(records[|records| - 1]).value, side)
  {
  }

  /** Counted texts have at least ten characters. */
  lemma TextsLong(records: seq<Json>, read: Json -> Result<Reading>, side: string)
    ensures forall i :: 0 <= i < |TextsOf(records, read, side)| ==> |TextsOf(records, read, side)[i]| >= 10
  {
    var texts := TextsOf(records, read, side);
    forall i | 0 <= i < |texts|
      ensures |texts[i]| >= 10
    {
      FlatMapMembers(records, (r: Json) => CountedText(read, r, side), texts[i]);
    }
  }

  lemma StepLists(acc: KeyPoints, rd: Reading, analyze: string -> Findings, c: Category)
    ensures ListOf(Step(acc, rd, analyze), c)
         == ListOf(acc, c) + (if |rd.content| >= 10 && rd.kind == JStr("assistant") then FindingsOf(analyze(rd.content), c) else [])
  {
    if |rd.content| >= 10 && rd.kind == JStr("assistant") {
      assert rd.kind != JStr("user");
    }
  }

  /** extract-key-points.py:147-160: each list is the concatenation, in record
      order, of the matches of every counted assistant record. */
  lemma {:induction false} AccumulateFindings(records: seq<Json>, read: Json -> Result<Reading>, analyze: string -> Findings, c: Category)
    requires Accumulate(records, read, analyze).Ok?
    ensures ListOf(Accumulate(records, read, analyze).value, c) == MatchesOf(TextsOf(records, read, "assistant"), analyze, c)
  {
    if records == [] {
      assert ListOf(Initial, c) == [];
    } else {
      var init, last := records[..|records| - 1], records[|records| - 1];
      AccumulateFindings(init, read, analyze, c);
      var acc := Accumulate(init, read, analyze).value;
      var rd := read(last).value;
      assert Accumulate(records, read, analyze).value == Step(acc, rd, analyze);
      var counted := |rd.content| >= 10 && rd.kind == JStr("assistant");
      var extra := if counted then FindingsOf(analyze(rd.content), c) else [];
      StepLists(acc, rd, analyze, c);
      assert ListOf(Accumulate(records, read, analyze).value, c) == ListOf(acc, c) + extra;
      var assistants := TextsOf(init, read, "assistant");
      var here := CountedIn(rd, "assistant");
      FlatMapSnoc(init, last, (r: Json) => CountedText(read, r, "assistant"));
      assert records == init + [last];
      assert TextsOf(records, read, "assistant") == assistants + here;
      MatchesOfExtend(assistants, here, analyze, c);
    }
  }

  lemma MatchesOfExtend(texts: seq<string>, here: seq<string>, analyze: string -> Findings, c: Category)
    requires |here| <= 1
    ensures MatchesOf(texts + here, analyze, c)
         == MatchesOf(texts, analyze, c) + (if here == [] then [] else FindingsOf(analyze(here[0]), c))
  {
    if here == [] {
      assert texts + here == texts;
    } else {
      assert here == [here[0]];
      FlatMapSnoc(texts, here[0], (t: string) => FindingsOf(analyze(t), c));
    }
  }

  /** Python's `xs[:n]` of `list(dict.fromkeys(xs))`: at most `n` elements, no
      repeats, each from `xs`, the earliest distinct ones in order, and all of
      them when there are no more than `n`. */
  lemma LimitedDistinct(xs: seq<string>, n: nat)
    ensures var l := Take(Dedupe(xs), n);
      && |l| <= n && NoDuplicates(l)
      && (forall i :: 0 <= i < |l| ==> l[i] in xs)
      && l == Dedupe(xs)[..|l|]
      && (|Dedupe(xs)| <= n ==> forall i :: 0 <= i < |xs| ==> xs[i] in l)
  {
    var d := Dedupe(xs);
    var l := Take(d, n);
    forall i | 0 <= i < |l|
      ensures l[i] in xs
    {
      assert l[i] == d[i];
    }
  }

  lemma AnalyzeShort(t: string, c: Category)
    ensures forall m :: m in FindingsOf(Analyze(t), c) ==> 10 < |m| <= 150
  {
    MatchingContentCharacterized(t, KeywordsOf(c));
  }

  lemma GatheredShort(texts: seq<string>, analyze: string -> Findings, c: Category)
    requires forall t :: t in texts ==> forall m :: m in FindingsOf(analyze(t), c) ==> 10 < |m| <= 150
    ensures forall m :: m in MatchesOf(texts, analyze, c) ==> 10 < |m| <= 150
  {
    forall m | m in MatchesOf(texts, analyze, c)
      ensures 10 < |m| <= 150
    {
      FlatMapMembers(texts, (t: string) => FindingsOf(analyze(t), c), m);
    }
  }

  /** extract-key-points.py:170-173: each final list is duplicate-free, holds at
      most 5, 5, 3 or 3 entries, and every entry is a matched sentence of 11 to
      150 characters. */
  lemma KeyPointsBounded(records: seq<Json>, c: Category)
    requires KeyPointsOf(records).Ok?
    ensures var l := ListOf(KeyPointsOf(records).value, c);
      && |l| <= LimitOf(c) && NoDuplicates(l)
      && (forall i :: 0 <= i < |l| ==> 10 < |l[i]| <= 150)
  {
    KeyPointsOfFinish(records);
    AnalyzeShortEverywhere(c);
    GatheredBounded(records, Read, Analyze, c);
    FinishList(Accumulate(records, Read, Analyze).value, c);
  }

  lemma KeyPointsOfFinish(records: seq<Json>)
    ensures KeyPointsOf(records).Ok? <==> Accumulate(records, Read, Analyze).Ok?
    ensures KeyPointsOf(records).Ok? ==> KeyPointsOf(records).value == Finish(Accumulate(records, Read, Analyze).value)
  {
  }

  lemma FinishList(acc: KeyPoints, c: Category)
    ensures ListOf(Finish(acc), c) == Take(Dedupe(ListOf(acc, c)), LimitOf(c))
  {
  }

  lemma AnalyzeShortEverywhere(c: Category)
    ensures forall t, m :: m in FindingsOf(Analyze(t), c) ==> 10 < |m| <= 150
  {
    forall t, m | m in FindingsOf(Analyze(t), c)
      ensures 10 < |m| <= 150
    {
      AnalyzeShort(t, c);
    }
  }

  /** With any reader and any analysis whose findings are 11 to 150
      characters long, each finished list is short, distinct and bounded. */
  lemma GatheredBounded(records: seq<Json>, read: Json -> Result<Reading>, analyze: string -> Findings, c: Category)
    requires Accumulate(records, read, analyze).Ok?
    requires forall t, m :: m in FindingsOf(analyze(t), c) ==> 10 < |m| <= 150
    ensures var l := Take(Dedupe(ListOf(Accumulate(records, read, analyze).value, c)), LimitOf(c));
      && |l| <= LimitOf(c) && NoDuplicates(l)
      && (forall i :: 0 <= i < |l| ==> 10 < |l[i]| <= 150)
  {
    AccumulateFindings(records, read, analyze, c);
    GatheredShort(TextsOf(records, read, "assistant"), analyze, c);
    DistinctShortPrefix(ListOf(Accumulate(records, read, analyze).value, c), LimitOf(c));
  }

  lemma DistinctShortPrefix(xs: seq<string>, n: nat)
    requires forall m :: m in xs ==> 10 < |m| <= 150
    ensures var l := Take(Dedupe(xs), n);
      && |l| <= n && NoDuplicates(l)
      && (forall i :: 0 <= i < |l| ==> 10 < |l[i]| <= 150)
  {
    LimitedDistinct(xs, n);
    var l := Take(Dedupe(xs), n);
    forall i | 0 <= i < |l|
      ensures 10 < |l[i]| <= 150
    {
      assert l[i] in xs;
    }
  }

  /** Remembered user messages are at most 200 characters. */
  lemma UserMessagesShort(records: seq<Json>)
    requires KeyPointsOf(records).Ok?
    ensures |KeyPointsOf(records).value.firstUserMessage| <= 200
    ensures |KeyPointsOf(records).value.lastUserMessage| <= 200
  {
    AccumulateCounts(records, Read, Analyze);
  }

  // ---------------------------------------------------------------------------
  // format_output
  // ---------------------------------------------------------------------------

  /** `f"- {x}"` for each entry. */
  function Bullets(items: seq<string>): (r: seq<string>)
    ensures |r| == |items|
    ensures forall i :: 0 <= i < |items| ==> r[i] == "- " + items[i]
  {
    if items == [] then [] else Bullets(items[..|items| - 1]) + ["- " + items[|items| - 1]]
  }

  /** A titled list showing at most `limit` entries, omitted when empty. */
  function Section(title: string, items: seq<string>, limit: nat): seq<string>
  {
    if items == [] then [] else [title] + Bullets(Take(items, limit)) + [""]
  }

  function Title(c: Category): string
  {
    match c
    case Decisions => "**Key Decisions:**"
    case Completions => "**Completed:**"
    case InProgress => "**In Progress / Next:**"
    case Outcomes => "**Outcomes:**"
  }

  /** How many entries of each list the summary shows. */
  function ShownOf(c: Category): nat
  {
    match c
    case Decisions => 3
    case Completions => 3
    case InProgress => 2
    case Outcomes => 2
  }

  function HeaderLines(k: KeyPoints): seq<string>
  {
    ["## Session Key Points", "",
     "**Messages:** " + NatToString(k.userCount) + " user / " + NatToString(k.assistantCount) + " assistant", ""]
  }

  function RequestLines(k: KeyPoints): seq<string>
  {
    if k.firstUserMessage != "" then ["**Initial Request:**", "> " + Take(k.firstUserMessage, 150) + "...", ""] else []
  }

  function SectionOf(k: KeyPoints, c: Category): seq<string>
  {
    Section(Title(c), ListOf(k, c), ShownOf(c))
  }

  /** The lines `format_output` joins: header, initial request, then decisions,
      completions, work in progress and outcomes. */
  function SummaryLines(k: KeyPoints): seq<string>
  {
    HeaderLines(k) + RequestLines(k)
      + SectionOf(k, Decisions) + SectionOf(k, Completions)
      + SectionOf(k, InProgress) + SectionOf(k, Outcomes)
  }

  /** The `for x in items[:limit]` loop of one section. */
  method AppendBullets(lines: seq<string>, shown: seq<string>) returns (out: seq<string>)
    ensures out == lines + Bullets(shown)
  {
    out := lines;
    for i := 0 to |shown|
      invariant out == lines + Bullets(shown[..i])
    {
      AppendedBullet(lines, shown, i);
      out := out + ["- " + shown[i]];
    }
    assert shown[..|shown|] == shown;
  }

  /** Appending bullet i + 1 to the first i bullets gives the first i + 1. */
  lemma AppendedBullet(lines: seq<string>, shown: seq<string>, i: nat)
    requires i < |shown|
    ensures lines + Bullets(shown[..i]) + ["- " + shown[i]] == lines + Bullets(shown[..i + 1])
  {
    assert shown[..i + 1][..i] == shown[..i];
    assert Bullets(shown[..i + 1]) == Bullets(shown[..i]) + ["- " + shown[i]];
  }

  method AppendSection(lines: seq<string>, title: string, items: seq<string>, limit: nat) returns (out: seq<string>)
    ensures out == lines + Section(title, items, limit)
  {
    out := lines;
    if items != [] {
      out := AppendBullets(out + [title], Take(items, limit));
      out := out + [""];
    }
  }

  /** `format_output(results)`. */
  method FormatOutput(k: KeyPoints) returns (output: string)
    ensures output == Join("\n", SummaryLines(k))
  {
    var lines: seq<string> := [];
    lines := lines + ["## Session Key Points"];
    lines := lines + [""];
    lines := lines + ["**Messages:** " + NatToString(k.userCount) + " user / " + NatToString(k.assistantCount) + " assistant"];
    lines := lines + [""];
    if k.firstUserMessage != "" {
      lines := lines + ["**Initial Request:**"];
      lines := lines + ["> " + Take(k.firstUserMessage, 150) + "..."];
      lines := lines + [""];
    }
    assert lines == HeaderLines(k) + RequestLines(k);
    lines := AppendSection(lines, "**Key Decisions:**", k.decisions, 3);
    lines := AppendSection(lines, "**Completed:**", k.completions, 3);
    lines := AppendSection(lines, "**In Progress / Next:**", k.inProgress, 2);
    lines := AppendSection(lines, "**Outcomes:**", k.outcomes, 2);
    assert lines == SummaryLines(k);
    output := Join("\n", lines);
  }

  /** A line of the summary that is a bullet. */
  predicate IsBullet(line: string)
  {
    |line| >= 2 && line[..2] == "- "
  }

  function CountBullets(lines: seq<string>): nat
  {
    if lines == [] then 0
    else CountBullets(lines[..|lines| - 1]) + (if IsBullet(lines[|lines| - 1]) then 1 else 0)
  }

  lemma {:induction false} CountBulletsConcat(a: seq<string>, b: seq<string>)
    ensures CountBullets(a + b) == CountBullets(a) + CountBullets(b)
  {
    if b == [] {
      assert a + b == a;
    } else {
      assert (a + b)[..|a + b| - 1] == a + b[..|b| - 1];
      CountBulletsConcat(a, b[..|b| - 1]);
    }
  }

  lemma {:induction false} NoBullets(lines: seq<string>)
    requires forall i :: 0 <= i < |lines| ==> !IsBullet(lines[i])
    ensures CountBullets(lines) == 0
  {
    if lines != [] {
      NoBullets(lines[..|lines| - 1]);
    }
  }

  lemma {:induction false} BulletsCounted(items: seq<string>)
    ensures CountBullets(Bullets(items)) == |items|
  {
    if items != [] {
      var b := Bullets(items);
      assert b[..|b| - 1] == Bullets(items[..|items| - 1]);
      assert IsBullet(b[|b| - 1]);
      BulletsCounted(items[..|items| - 1]);
    }
  }

  /** A section holds one bullet per shown entry, and its only starred line is
      its title, present exactly when the list is non-empty. */
  lemma SectionFacts(title: string, items: seq<string>, limit: nat)
    requires title != [] && title[0] == '*'
    ensures CountBullets(Section(title, items, limit)) == if |items| <= limit then |items| else limit
    ensures forall t :: t != [] && t[0] == '*' ==> (t in Section(title, items, limit) <==> items != [] && t == title)
  {
    if items != [] {
      var b := Bullets(Take(items, limit));
      BulletsCounted(Take(items, limit));
      CountBulletsConcat([title], b);
      CountBulletsConcat([title] + b, [""]);
      NoBullets([title]);
      NoBullets([""]);
      assert Section(title, items, limit) == [title] + b + [""];
    }
  }

  lemma TitleFacts(c: Category)
    ensures Title(c) != [] && Title(c)[0] == '*' && Title(c)[2] != 'M'
    ensures forall c' :: Title(c') == Title(c) ==> c' == c
  {
  }

  lemma HeadNoBullets(k: KeyPoints)
    ensures CountBullets(HeaderLines(k) + RequestLines(k)) == 0
  {
    var h, q := HeaderLines(k), RequestLines(k);
    assert h[0][0] == '#' && h[1] == "" && h[2][0] == '*' && h[3] == "";
    NoBullets(h);
    if q != [] {
      assert q[0][0] == '*' && q[1][0] == '>';
    }
    NoBullets(q);
    CountBulletsConcat(h, q);
  }

  lemma HeadFacts(k: KeyPoints)
    ensures forall t :: |t| > 2 && t[0] == '*' && t[2] != 'M' ==> t !in HeaderLines(k) + RequestLines(k) || t == "**Initial Request:**"
  {
    var h, q := HeaderLines(k), RequestLines(k);
    var messages := "**Messages:** " + NatToString(k.userCount) + " user / " + NatToString(k.assistantCount) + " assistant";
    assert messages[0] == '*' && messages[2] == 'M';
    assert h == ["## Session Key Points", "", messages, ""];
    assert h[0][0] == '#';
  }

  lemma SectionOfCount(k: KeyPoints, c: Category)
    ensures CountBullets(SectionOf(k, c)) == if |ListOf(k, c)| <= ShownOf(c) then |ListOf(k, c)| else ShownOf(c)
  {
    TitleFacts(c);
    SectionFacts(Title(c), ListOf(k, c), ShownOf(c));
  }

  lemma SectionOfFacts(k: KeyPoints, c: Category)
    ensures forall t :: t != [] && t[0] == '*' ==> (t in SectionOf(k, c) <==> ListOf(k, c) != [] && t == Title(c))
  {
    TitleFacts(c);
    SectionFacts(Title(c), ListOf(k, c), ShownOf(c));
  }

  /** extract-key-points.py:197-223: the summary shows at most 3 decisions, 3
      completions, 2 items in progress and 2 outcomes. */
  lemma SummaryBullets(k: KeyPoints)
    ensures CountBullets(SummaryLines(k))
         == (if |k.decisions| <= 3 then |k.decisions| else 3)
          + (if |k.completions| <= 3 then |k.completions| else 3)
          + (if |k.inProgress| <= 2 then |k.inProgress| else 2)
          + (if |k.outcomes| <= 2 then |k.outcomes| else 2)
  {
    SectionsCount(k);
    HeadNoBullets(k);
    CountBulletsOfFive(HeaderLines(k) + RequestLines(k), SectionOf(k, Decisions), SectionOf(k, Completions),
                       SectionOf(k, InProgress), SectionOf(k, Outcomes));
  }

  lemma SectionsCount(k: KeyPoints)
    ensures CountBullets(SectionOf(k, Decisions)) == if |k.decisions| <= 3 then |k.decisions| else 3
    ensures CountBullets(SectionOf(k, Completions)) == if |k.completions| <= 3 then |k.completions| else 3
    ensures CountBullets(SectionOf(k, InProgress)) == if |k.inProgress| <= 2 then |k.inProgress| else 2
    ensures CountBullets(SectionOf(k, Outcomes)) == if |k.outcomes| <= 2 then |k.outcomes| else 2
  {
    SectionOfCount(k, Decisions);
    SectionOfCount(k, Completions);
    SectionOfCount(k, InProgress);
    SectionOfCount(k, Outcomes);
  }

  lemma CountBulletsOfFive(a: seq<string>, b: seq<string>, c: seq<string>, d: seq<string>, e: seq<string>)
    ensures CountBullets(a + b + c + d + e) == CountBullets(a) + CountBullets(b) + CountBullets(c) + CountBullets(d) + CountBullets(e)
  {
    CountBulletsConcat(a, b);
    CountBulletsConcat(a + b, c);
    CountBulletsConcat(a + b + c, d);
    CountBulletsConcat(a + b + c + d, e);
  }

  /** extract-key-points.py:197-223: a section's title appears exactly when its
      list is non-empty. */
  lemma SummaryTitles(k: KeyPoints, c: Category)
    ensures Title(c) in SummaryLines(k) <==> ListOf(k, c) != []
  {
    TitleFacts(c);
    HeadFacts(k);
    SectionOfFacts(k, Decisions);
    SectionOfFacts(k, Completions);
    SectionOfFacts(k, InProgress);
    SectionOfFacts(k, Outcomes);
    var hq := HeaderLines(k) + RequestLines(k);
    assert SummaryLines(k) == hq + SectionOf(k, Decisions) + SectionOf(k, Completions)
                                 + SectionOf(k, InProgress) + SectionOf(k, Outcomes);
  }
}
