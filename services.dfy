/** The recall assistant's conversation with the language model
    (ask/services.py): the correction of the tool calls the model proposes,
    the dispatch to the two handlers, the bounded loop of model turns and
    the fallback answers for a turn without tool calls. The model is an
    oracle from the messages sent so far to its next turn; the clock is a
    parameter. */
module Services {
  import opened Wrappers
  import opened Strings
  import opened OpenFda
  import opened Tools

  // ---------------------------------------------------------------------
  // Class label

  predicate SaysClassI(uq: string) {
    Contains(uq, " 1") || Contains(uq, " class 1") || Contains(uq, "class i")
  }

  predicate SaysClassII(uq: string) {
    Contains(uq, " 2") || Contains(uq, " class 2") || Contains(uq, "class ii")
  }

  predicate SaysClassIII(uq: string) {
    Contains(uq, " 3") || Contains(uq, " class 3") || Contains(uq, "class iii")
  }

  /** The classification filter read off the lowered question: only when it
      mentions "classification", and then Class I, II, III in that order,
      the first that matches winning. */
  function ClassLabel(uq: string): (lbl: Option<string>)
    ensures !Contains(uq, "classification") ==> lbl == None
    ensures lbl.Some? ==> lbl.value in {"Class I", "Class II", "Class III"}
    ensures lbl == Some("Class I") <==> Contains(uq, "classification") && SaysClassI(uq)
    ensures lbl == Some("Class II") <==> Contains(uq, "classification") && !SaysClassI(uq) && SaysClassII(uq)
    ensures lbl == Some("Class III") <==>
              Contains(uq, "classification") && !SaysClassI(uq) && !SaysClassII(uq) && SaysClassIII(uq)
  {
    if !Contains(uq, "classification") then None
    else if SaysClassI(uq) then Some("Class I")
    else if SaysClassII(uq) then Some("Class II")
    else if SaysClassIII(uq) then Some("Class III")
    else None
  }

  /** "class i" occurs inside "class ii" and "class iii", so a question
      about either of those is labelled Class I. */
  lemma HigherClassesReadAsClassI(uq: string)
    requires Contains(uq, "classification")
    requires Contains(uq, "class ii") || Contains(uq, "class iii")
    ensures ClassLabel(uq) == Some("Class I")
  {
    assert OccursAt("class ii", "class i", 0);
    assert OccursAt("class iii", "class i", 0);
    ContainsAt("class ii", "class i", 0);
    ContainsAt("class iii", "class i", 0);
    if Contains(uq, "class ii") {
      ContainsTransitive(uq, "class ii", "class i");
    } else {
      ContainsTransitive(uq, "class iii", "class i");
    }
  }

  // ---------------------------------------------------------------------
  // Firm name extraction

  /** The words dropped from an extracted firm name. */
  const StopWords: seq<string> := ["is", "are", "exists", "for", "of", "the"]

  /** `[t for t in tokens if t not in StopWords]`. */
  function DropStopWords(tokens: seq<string>): (kept: seq<string>)
    ensures |kept| <= |tokens|
    ensures forall t :: t in kept <==> t in tokens && t !in StopWords
  {
    if tokens == [] then []
    else (if tokens[0] in StopWords then [] else [tokens[0]]) + DropStopWords(tokens[1..])
  }

  /** The words after the first "firm", stop words removed. */
  function FirmWords(uq: string): (words: seq<string>)
    requires Contains(uq, "firm")
  {
    DropStopWords(Split(Strip(After(uq, "firm").value, false)))
  }

  /** The firm name the assistant extracts from the lowered question (the
      same steps at three places): the words after the first "firm" without
      stop words, joined by single spaces, stripped of whitespace and then
      of quote marks; "" when "firm" does not occur. */
  function ExtractFirm(uq: string): (firm: string)
    ensures !Contains(uq, "firm") ==> firm == ""
    ensures firm == [] || (!IsQuote(firm[0]) && !IsQuote(firm[|firm| - 1]))
  {
    if Contains(uq, "firm") then StripSpaceAndQuotes(Join(FirmWords(uq), " ")) else ""
  }

  /** The extracted name keeps no stop word and only words that follow the
      first "firm". */
  lemma FirmWordsSpec(uq: string)
    requires Contains(uq, "firm")
    ensures forall t :: t in FirmWords(uq) ==> t !in StopWords && IsWord(t)
    ensures forall t :: t in FirmWords(uq) <==> t in Split(Strip(After(uq, "firm").value, false)) && t !in StopWords
  {
  }

  /** Every character of the extracted name comes from the question, or is
      the space that joins two words. */
  lemma ExtractFirmChars(uq: string)
    ensures forall c :: c in ExtractFirm(uq) ==> c == ' ' || c in uq
  {
    if Contains(uq, "firm") {
      var rest := After(uq, "firm").value;
      AfterChars(uq, "firm");
      var t := Strip(rest, false);
      StripChars(rest, false);
      SplitChars(t);
      JoinedWordsChars(FirmWords(uq), Split(t), t);
      var joined := Join(FirmWords(uq), " ");
      assert forall c :: c in ExtractFirm(uq) ==> c in joined;
    }
  }

  lemma AfterChars(s: string, sep: string)
    requires Contains(s, sep)
    ensures CharsIn(After(s, sep).value, s)
  {
    var i := Find(s, sep).value;
    OccursChars(s, s[i + |sep|..], i + |sep|);
  }

  /** Words drawn from `t`, joined by spaces, use only spaces and characters
      of `t`. */
  lemma JoinedWordsChars(parts: seq<string>, words: seq<string>, t: string)
    requires forall x :: x in parts ==> x in words
    requires forall k :: 0 <= k < |words| ==> CharsIn(words[k], t)
    ensures forall c :: c in Join(parts, " ") ==> c == ' ' || c in t
  {
    forall c | c in Join(parts, " ") && c != ' ' ensures c in t {
      var k :| 0 <= k < |parts| && c in parts[k];
      assert parts[k] in words;
      var j :| 0 <= j < |words| && words[j] == parts[k];
    }
  }

  /** The name is extracted from the lowered question, so it is lower-case. */
  lemma ExtractedFirmIsLowerCase(question: string)
    ensures NoUpper(ExtractFirm(Lower(question)))
  {
    var uq := Lower(question);
    LowerHasNoUpper(question);
    ExtractFirmChars(uq);
    NoUpperChars(ExtractFirm(uq), uq);
  }

  lemma NoUpperChars(w: string, s: string)
    requires NoUpper(s)
    requires forall c :: c in w ==> c == ' ' || c in s
    ensures NoUpper(w)
  {
    forall k | 0 <= k < |w| ensures !IsUpper(w[k]) {
      assert w[k] in w;
      if w[k] != ' ' {
        var j :| 0 <= j < |s| && s[j] == w[k];
      }
    }
  }

  // ---------------------------------------------------------------------
  // The "recalls for firm" pattern

  /** How many whitespace characters `\s+` can consume at the start of `t`. */
  function SpaceRun(t: string): (n: nat)
    ensures n <= |t|
    ensures forall k :: 0 <= k < n ==> IsSpace(t[k])
    ensures n == |t| || !IsSpace(t[n])
  {
    var r := SkipSpace(t);
    |t| - |r|
  }

  /** How many characters `.+` would take from the start of `t` at most:
      everything up to the first newline. */
  function LineLength(t: string): (n: nat)
    ensures n <= |t|
    ensures forall k :: 0 <= k < n ==> t[k] != '\n'
    ensures n == |t| || t[n] == '\n'
  {
    if t == [] || t[0] == '\n' then 0 else 1 + LineLength(t[1..])
  }

  /** `\s+` followed by `word` (which starts with a letter) at the start of
      `t`: the number of characters matched. */
  function SpacedWord(t: string, word: string): (n: Option<nat>)
    ensures n.Some? ==> n.value == SpaceRun(t) + |word| <= |t|
  {
    var w := SpaceRun(t);
    if w >= 1 && OccursAt(t, word, w) then Some(w + |word|) else None
  }

  /** A group of the pattern: at least one character, none a newline. */
  predicate OneLine(g: Option<string>) {
    g.Some? ==> g.value != [] && '\n' !in g.value
  }

  /** `\s+(.+)` at the start of `t`, the greedy `\s+` giving back one
      character at a time: the group starts at the last position `j >= 1`
      no later than the end of the whitespace run where `.` matches (any
      character but a newline) and runs to the end of that line. */
  function Capture(t: string): (g: Option<string>)
    ensures OneLine(g)
  {
    var w := SpaceRun(t);
    if w == 0 then None else CaptureBack(t, w)
  }

  function CaptureBack(t: string, j: nat): (g: Option<string>)
    requires 1 <= j <= |t|
    decreases j
    ensures OneLine(g)
  {
    if j < |t| && t[j] != '\n' then Some(t[j..j + LineLength(t[j..])])
    else if j == 1 then None
    else CaptureBack(t, j - 1)
  }

  /** `recalls\s+for\s+firm\s+(.+)` matched at position `p`. */
  function RecallsForFirmAt(s: string, p: nat): (g: Option<string>)
    requires p <= |s|
    ensures OneLine(g)
  {
    if !OccursAt(s, "recalls", p) then None
    else
      match SpacedWord(s[p + 7..], "for")
      case None => None
      case Some(a) =>
        match SpacedWord(s[p + 7 + a..], "firm")
        case None => None
        case Some(b) => Capture(s[p + 7 + a + b..])
  }

  /** `list\s+(?:all\s+)?recalls\s+for\s+firm\s+(.+)` matched at position
      `p`: the optional `all\s+` is tried first, then left out. */
  function ListRecallsAt(s: string, p: nat): (g: Option<string>)
    requires p <= |s|
    ensures OneLine(g)
  {
    if !OccursAt(s, "list", p) then None
    else
      var w := SpaceRun(s[p + 4..]);
      if w == 0 then None
      else
        var q := p + 4 + w;
        var withAll :=
          if OccursAt(s, "all", q) && SpaceRun(s[q + 3..]) >= 1 then RecallsForFirmAt(s, q + 3 + SpaceRun(s[q + 3..]))
          else None;
        if withAll.Some? then withAll else RecallsForFirmAt(s, q)
  }

  /** The pattern at position `p`, its first alternative before its second. */
  function PatternAt(s: string, p: nat): (g: Option<string>)
    requires p <= |s|
    ensures OneLine(g)
  {
    if RecallsForFirmAt(s, p).Some? then RecallsForFirmAt(s, p) else ListRecallsAt(s, p)
  }

  /** The group of the pattern at each position of `s` (including its end). */
  function Matches(s: string): (gs: seq<Option<string>>)
    ensures |gs| == |s| + 1
    ensures forall i :: 0 <= i <= |s| ==> gs[i] == PatternAt(s, i)
  {
    seq(|s| + 1, i requires 0 <= i <= |s| => PatternAt(s, i))
  }

  /** The first group at or after position `p`: the positions are tried
      left to right. */
  function FirstMatch(gs: seq<Option<string>>, p: nat): (g: Option<string>)
    requires p <= |gs|
    decreases |gs| - p
  {
    if p == |gs| then None
    else if gs[p].Some? then gs[p]
    else FirstMatch(gs, p + 1)
  }

  /** `re.search` of the firm-listing pattern: the group of the leftmost
      match. */
  function FirmListMatch(uq: string): (g: Option<string>)
    ensures OneLine(g)
  {
    var gs := Matches(uq);
    FirstMatchOneLine(gs, 0);
    FirstMatch(gs, 0)
  }

  lemma {:induction false} FirstMatchOneLine(gs: seq<Option<string>>, p: nat)
    requires p <= |gs| && forall i :: 0 <= i < |gs| ==> OneLine(gs[i])
    decreases |gs| - p
    ensures OneLine(FirstMatch(gs, p))
  {
    if p < |gs| && gs[p].None? {
      FirstMatchOneLine(gs, p + 1);
    }
  }

  /** The search finds nothing exactly when no position matches, and
      otherwise the group of a position before which none matches. */
  lemma {:induction false} FirstMatchLeftmost(gs: seq<Option<string>>, p: nat)
    requires p <= |gs|
    decreases |gs| - p
    ensures FirstMatch(gs, p).None? <==> forall i :: p <= i < |gs| ==> gs[i].None?
    ensures FirstMatch(gs, p).Some? ==>
              exists i :: p <= i < |gs| && gs[i] == FirstMatch(gs, p) && forall j :: p <= j < i ==> gs[j].None?
  {
    if p < |gs| && gs[p].None? {
      FirstMatchLeftmost(gs, p + 1);
    }
  }

  /** The leftmost match wins: FirmListMatch is the group at the first
      position of the question where the pattern matches. */
  lemma FirmListLeftmost(uq: string)
    ensures FirmListMatch(uq).None? <==> forall i :: 0 <= i <= |uq| ==> PatternAt(uq, i).None?
    ensures FirmListMatch(uq).Some? ==>
              exists i :: 0 <= i <= |uq| && PatternAt(uq, i) == FirmListMatch(uq)
                          && forall j :: 0 <= j < i ==> PatternAt(uq, j).None?
  {
    var gs := Matches(uq);
    FirstMatchLeftmost(gs, 0);
    if FirmListMatch(uq).Some? {
      var i :| 0 <= i < |gs| && gs[i] == FirstMatch(gs, 0) && forall j :: 0 <= j < i ==> gs[j].None?;
      assert PatternAt(uq, i) == FirmListMatch(uq);
    }
  }

  /** A match at the very start of the question is the one found. */
  lemma MatchAtStart(uq: string)
    requires PatternAt(uq, 0).Some?
    ensures FirmListMatch(uq) == PatternAt(uq, 0)
  {
    assert Matches(uq)[0] == PatternAt(uq, 0);
  }

  lemma SpaceRunOne(t: string)
    requires |t| >= 2 && t[0] == ' ' && !IsSpace(t[1])
    ensures SpaceRun(t) == 1
  {
  }

  lemma SpacedWordOne(t: string, word: string)
    requires |word| >= 1 && !IsSpace(word[0])
    requires |t| >= 1 + |word| && t[0] == ' ' && t[1..1 + |word|] == word
    ensures SpacedWord(t, word) == Some(1 + |word|)
  {
    assert t[1] == word[0];
    SpaceRunOne(t);
  }

  lemma NoNewlineLine(t: string)
    requires '\n' !in t
    ensures LineLength(t) == |t|
  {
    if t != [] {
      assert t[0] in t;
      assert forall c :: c in t[1..] ==> c in t;
      NoNewlineLine(t[1..]);
    }
  }

  /** After exactly one space, the group starts right behind it. */
  lemma CaptureAfterOneSpace(t: string)
    requires |t| >= 2 && SpaceRun(t) == 1 && t[1] != '\n'
    ensures Capture(t) == Some(t[1..1 + LineLength(t[1..])])
  {
  }

  /** `\s+(.+)` on a single space and a line that starts with a word
      captures that line. */
  lemma CaptureLine(t: string, name: string)
    requires name != [] && !IsSpace(name[0]) && '\n' !in name
    requires t == " " + name
    ensures Capture(t) == Some(name)
  {
    assert t[0] == ' ' && t[1] == name[0] && t[1..] == name;
    SpaceRunOne(t);
    CaptureAfterOneSpace(t);
    NoNewlineLine(name);
    assert t[1..1 + |name|] == name;
  }

  /** "recalls for firm " at position `p`, then one line: that line is the
      group. */
  lemma RecallsForFirmLine(s: string, p: nat, name: string)
    requires name != [] && !IsSpace(name[0]) && '\n' !in name
    requires p <= |s| && s[p..] == "recalls for firm " + name
    ensures RecallsForFirmAt(s, p) == Some(name)
  {
    RecallsWord(s, p, name);
    ForWord(s[p + 7..], name);
    assert s[p + 7..][4..] == s[p + 11..];
    FirmWord(s[p + 11..], name);
    assert s[p + 11..][5..] == s[p + 16..];
    RecallsForFirmSteps(s, p);
    CaptureLine(s[p + 16..], name);
  }

  lemma RecallsWord(s: string, p: nat, name: string)
    requires p <= |s| && s[p..] == "recalls for firm " + name
    ensures p + 16 <= |s| && OccursAt(s, "recalls", p) && s[p + 7..] == " for firm " + name
  {
    assert s[p..p + 7] == s[p..][..7];
    assert s[p + 7..] == s[p..][7..];
  }

  lemma ForWord(u: string, name: string)
    requires u == " for firm " + name
    ensures SpacedWord(u, "for") == Some(4) && u[4..] == " firm " + name
  {
    SpacedWordOne(u, "for");
  }

  lemma FirmWord(v: string, name: string)
    requires v == " firm " + name
    ensures SpacedWord(v, "firm") == Some(5) && v[5..] == " " + name
  {
    SpacedWordOne(v, "firm");
  }

  /** "recalls", then " for", then " firm", each after one space: the group
      is whatever `\s+(.+)` captures behind them. */
  lemma RecallsForFirmSteps(s: string, p: nat)
    requires p + 16 <= |s| && OccursAt(s, "recalls", p)
    requires SpacedWord(s[p + 7..], "for") == Some(4)
    requires SpacedWord(s[p + 11..], "firm") == Some(5)
    ensures RecallsForFirmAt(s, p) == Capture(s[p + 16..])
  {
  }

  /** "list all recalls for firm " at position `p`, then one line: the
      second alternative, taking the optional "all", captures that line. */
  lemma ListAllRecallsLine(s: string, p: nat, name: string)
    requires name != [] && !IsSpace(name[0]) && '\n' !in name
    requires p <= |s| && s[p..] == "list all recalls for firm " + name
    ensures ListRecallsAt(s, p) == Some(name)
  {
    ListAllPrefix(s, p, "recalls for firm " + name);
    RecallsForFirmLine(s, p + 9, name);
    ListRecallsTakesAll(s, p);
  }

  /** With "list", one space, "all" and one space at `p`, the optional
      `all\s+` is taken whenever the rest matches. */
  lemma ListRecallsTakesAll(s: string, p: nat)
    requires p + 9 <= |s|
    requires OccursAt(s, "list", p) && SpaceRun(s[p + 4..]) == 1
    requires OccursAt(s, "all", p + 5) && SpaceRun(s[p + 8..]) == 1
    requires RecallsForFirmAt(s, p + 9).Some?
    ensures ListRecallsAt(s, p) == RecallsForFirmAt(s, p + 9)
  {
    var q := p + 4 + SpaceRun(s[p + 4..]);
    assert q == p + 5;
    assert q + 3 + SpaceRun(s[q + 3..]) == p + 9;
  }

  lemma ListAllPrefix(s: string, p: nat, rest: string)
    requires rest != [] && !IsSpace(rest[0])
    requires p <= |s| && s[p..] == "list all " + rest
    ensures p + 9 <= |s| && s[p + 9..] == rest
    ensures OccursAt(s, "list", p) && SpaceRun(s[p + 4..]) == 1
    ensures OccursAt(s, "all", p + 5) && SpaceRun(s[p + 8..]) == 1
  {
    ListWord(s, p, rest);
    AllWord(s, p + 4, rest);
  }

  lemma ListWord(s: string, p: nat, rest: string)
    requires p <= |s| && s[p..] == "list all " + rest
    ensures p + 4 <= |s| && OccursAt(s, "list", p) && s[p + 4..] == " all " + rest
  {
    assert s[p..p + 4] == s[p..][..4];
    assert s[p + 4..] == s[p..][4..];
  }

  lemma AllWord(s: string, p: nat, rest: string)
    requires rest != [] && !IsSpace(rest[0])
    requires p <= |s| && s[p..] == " all " + rest
    ensures p + 5 <= |s| && s[p + 5..] == rest
    ensures SpaceRun(s[p..]) == 1 && OccursAt(s, "all", p + 1) && SpaceRun(s[p + 4..]) == 1
  {
    var t := s[p..];
    SpaceRunOne(t);
    assert s[p + 1..p + 4] == t[1..4];
    assert s[p + 4..] == t[4..];
    SpaceRunOne(t[4..]);
    assert s[p + 5..] == t[5..];
  }

  /** A question that opens with "recalls for firm " captures the rest of
      its line. */
  lemma RecallsForFirmCaptures(name: string)
    requires name != [] && !IsSpace(name[0]) && '\n' !in name
    ensures FirmListMatch("recalls for firm " + name) == Some(name)
  {
    var s := "recalls for firm " + name;
    RecallsForFirmLine(s, 0, name);
    MatchAtStart(s);
  }

  /** The second alternative: "list all recalls for firm " likewise. */
  lemma ListAllRecallsCaptures(name: string)
    requires name != [] && !IsSpace(name[0]) && '\n' !in name
    ensures FirmListMatch("list all recalls for firm " + name) == Some(name)
  {
    var s := "list all recalls for firm " + name;
    assert s[0] == 'l';
    assert !OccursAt(s, "recalls", 0);
    ListAllRecallsLine(s, 0, name);
    MatchAtStart(s);
  }

  // ---------------------------------------------------------------------
  // Correcting the proposed call

  const SearchTool := "search_recalls"
  const StatsTool := "get_recall_stats"

  /** One function call the model proposes. */
  datatype FunctionCall = FunctionCall(name: string, args: ToolArgs)

  /** `{"stats": ["firmTotal"], "firm": ...}`, plus the class label. */
  function FirmTotalArgs(extracted: string, modelFirm: Option<string>, lbl: Option<string>): ToolArgs {
    NoArgs.(stats := Some([Value.Text("firmTotal")]),
            firm := Some(if extracted != "" then extracted else modelFirm.GetOr("")),
            classification := lbl)
  }

  /** `{"stats": ["bottomFirms"], "bottomFirmsLimit": 10}`, plus the class
      label. */
  function FewestArgs(lbl: Option<string>): ToolArgs {
    NoArgs.(stats := Some([Value.Text("bottomFirms")]), bottomFirmsLimit := Some(10), classification := lbl)
  }

  /** `{"firm": ..., "limit": 50, "sort": "recall_initiation_date:desc"}`. */
  function FirmListArgs(firm: string): ToolArgs {
    NoArgs.(firm := Some(firm), limit := Some(Int(50)), sort := Some(NewestFirst))
  }

  predicate AsksFirmCount(uq: string) {
    Contains(uq, "how many") && Contains(uq, "firm")
  }

  predicate AsksFewest(uq: string) {
    Contains(uq, "least") || Contains(uq, "fewest")
  }

  /** The call the assistant actually makes for a proposed one: the firm
      total rewrite, then the forced bottom-firms ranking, then the
      firm-listing search, each later rule replacing what came before. */
  function CorrectCall(question: string, call: FunctionCall): (c: FunctionCall)
    ensures var uq := Lower(question);
            c != call ==> (call.name == StatsTool && AsksFirmCount(uq)) || AsksFewest(uq) || FirmListMatch(uq).Some?
  {
    var uq := Lower(question);
    var lbl := ClassLabel(uq);
    var afterCount :=
      if call.name == StatsTool && AsksFirmCount(uq) then
        FunctionCall(call.name, FirmTotalArgs(ExtractFirm(uq), call.args.firm, lbl))
      else call;
    var afterFewest := if AsksFewest(uq) then FunctionCall(StatsTool, FewestArgs(lbl)) else afterCount;
    match FirmListMatch(uq)
    case Some(g) => FunctionCall(SearchTool, FirmListArgs(StripSpaceAndQuotes(g)))
    case None => afterFewest
  }

  /** A firm-listing match overrides every other rewrite: a search for the
      captured firm, 50 records newest first, with no classification. */
  lemma FirmListOverrides(question: string, call: FunctionCall)
    requires FirmListMatch(Lower(question)).Some?
    ensures var c := CorrectCall(question, call);
            && c.name == SearchTool
            && c.args == FirmListArgs(StripSpaceAndQuotes(FirmListMatch(Lower(question)).value))
            && c.args.classification.None? && c.args.stats.None?
  {
  }

  /** "least" or "fewest" forces the bottom-firms ranking of 10, whatever
      the model proposed, unless a firm listing matched. */
  lemma FewestForcesBottomFirms(question: string, call: FunctionCall)
    requires AsksFewest(Lower(question)) && FirmListMatch(Lower(question)).None?
    ensures CorrectCall(question, call) == FunctionCall(StatsTool, FewestArgs(ClassLabel(Lower(question))))
  {
  }

  /** The firm-total rewrite fires only for a statistics call about "how
      many" and "firm", and then its arguments are exactly the firm total,
      the firm (the extracted one, else the model's) and the class label. */
  lemma FirmCountRewrite(question: string, call: FunctionCall)
    requires !AsksFewest(Lower(question)) && FirmListMatch(Lower(question)).None?
    ensures call.name == StatsTool && AsksFirmCount(Lower(question)) ==>
              CorrectCall(question, call)
              == FunctionCall(StatsTool, FirmTotalArgs(ExtractFirm(Lower(question)), call.args.firm,
                                                       ClassLabel(Lower(question))))
    ensures !(call.name == StatsTool && AsksFirmCount(Lower(question))) ==> CorrectCall(question, call) == call
  {
  }

  /** A corrected call is one of the two tools unless it is the model's own
      call left untouched. */
  lemma CorrectedName(question: string, call: FunctionCall)
    ensures CorrectCall(question, call).name in {SearchTool, StatsTool, call.name}
    ensures CorrectCall(question, call).name != call.name ==>
              AsksFewest(Lower(question)) || FirmListMatch(Lower(question)).Some?
  {
  }

  /** A firm-count question turned into exactly one remote call: the firm
      total asks for nothing but that metric, so the handler issues one
      search and answers with the firm total and the firm alone. */
  lemma FirmCountAsksOnlyFirmTotal(question: string, call: FunctionCall, api: Params -> Result<Reply>,
                                   thisYear: int)
    requires call.name == StatsTool && AsksFirmCount(Lower(question))
    requires !AsksFewest(Lower(question)) && FirmListMatch(Lower(question)).None?
    requires FirmOf(CorrectCall(question, call).args) != ""
    ensures var args := CorrectCall(question, call).args;
            var p := FirmTotalParams(FirmOf(args), ClassOf(args));
            && StatsRun(args, api, thisYear).calls == [p]
            && (api(p).Ok? ==>
                  StatsRun(args, api, thisYear).result
                  == Ok(NoStats.(firmTotal := Some(TotalOf(api(p).value)), firm := Some(FirmOf(args)))))
  {
    var uq := Lower(question);
    FirmCountRewrite(question, call);
    OnlyFirmTotalStats(FirmTotalArgs(ExtractFirm(uq), call.args.firm, ClassLabel(uq)), api, thisYear);
  }

  /** Arguments that ask for the firm total alone, with a firm. */
  lemma OnlyFirmTotalStats(args: ToolArgs, api: Params -> Result<Reply>, thisYear: int)
    requires args.stats == Some([Value.Text("firmTotal")]) && FirmOf(args) != ""
    ensures var p := FirmTotalParams(FirmOf(args), ClassOf(args));
            && StatsRun(args, api, thisYear).calls == [p]
            && (api(p).Ok? ==>
                  StatsRun(args, api, thisYear).result
                  == Ok(NoStats.(firmTotal := Some(TotalOf(api(p).value)), firm := Some(FirmOf(args)))))
  {
    assert Requested(args.stats) == ["firmTotal"] by {
      assert StringsOf([Value.Text("firmTotal")]) == ["firmTotal"] + StringsOf([]);
    }
    StatsFirmTotalOnly(args, api, thisYear);
  }

  // ---------------------------------------------------------------------
  // Dispatch

  /** The outcome of a dispatched call and the requests it issued. */
  ghost function Dispatch(name: string, args: ToolArgs, api: Params -> Result<Reply>, thisYear: int): (r: Run<Payload>)
    ensures name == SearchTool ==> r.calls == [SearchRequest(args)]
    ensures r.result.Ok? && r.result.value.Recalls? ==> name == SearchTool
    ensures r.result.Ok? && r.result.value.Stats? ==> name == StatsTool
  {
    if name == SearchTool then Run(SearchOutcome(args, api), [SearchRequest(args)])
    else if name == StatsTool then
      var s := StatsRun(args, api, thisYear);
      Run(if s.result.Ok? then Ok(Stats(s.result.value)) else Err(s.result.error), s.calls)
    else Run(Ok(ToolError("Unknown tool: " + name)), [])
  }

  /** The correction of every proposed call for one question. */
  function Corrector(question: string): FunctionCall -> FunctionCall {
    (call: FunctionCall) => CorrectCall(question, call)
  }

  /** `call_tool` as a function of the corrected name and arguments. */
  ghost function Dispatcher(api: Params -> Result<Reply>, thisYear: int): (string, ToolArgs) -> Run<Payload> {
    (name: string, args: ToolArgs) => Dispatch(name, args, api, thisYear)
  }

  /** An unknown tool name is answered with an error payload, and nothing
      is sent to the remote API. */
  lemma UnknownToolMakesNoCall(name: string, args: ToolArgs, api: Params -> Result<Reply>, thisYear: int)
    requires name != SearchTool && name != StatsTool
    ensures Dispatch(name, args, api, thisYear) == Run(Ok(ToolError("Unknown tool: " + name)), [])
  {
  }

  /** `call_tool`. */
  method CallTool(name: string, args: ToolArgs, client: Client, thisYear: int) returns (r: Result<Payload>)
    modifies client
    ensures r == Dispatch(name, args, client.api, thisYear).result
    ensures client.log == old(client.log) + Dispatch(name, args, client.api, thisYear).calls
  {
    if name == SearchTool {
      r := SearchRecalls(args, client);
      return;
    }
    if name == StatsTool {
      var s := GetRecallStats(args, client, thisYear);
      r := if s.Ok? then Ok(Stats(s.value)) else Err(s.error);
      return;
    }
    r := Ok(ToolError("Unknown tool: " + name));
  }

  // ---------------------------------------------------------------------
  // Fallback answers

  /** The reply of the assistant: the answer text and the payload shown
      with it (None where the source returns null). */
  datatype Answer = Answer(answer: string, data: Option<Payload>)

  /** The present moment, as the fallbacks use it: the current year, and
      the `%Y%m%d` rendering of the day a given number of days ago. */
  datatype Clock = Clock(year: int, dateDaysAgo: nat -> string)

  /** Which fallback applies to a lowered question, tried in order. */
  datatype Rule = LastRecalls | FirmRecalls | TopFirmsRule | TimeRange | FirmTotal | NoRule

  predicate AsksTopFirms(uq: string) {
    Contains(uq, "which firms") || Contains(uq, "top firms") || Contains(uq, "most recalls")
    || Contains(uq, "who has the most")
  }

  function SelectRule(uq: string): (r: Rule)
    ensures r == LastRecalls <==> Contains(uq, "last") && Contains(uq, "recall")
    ensures r == FirmRecalls ==> Contains(uq, "firm")
    ensures r == TopFirmsRule ==> AsksTopFirms(uq)
    ensures r == FirmTotal ==> AsksFirmCount(uq) && !Contains(uq, "list") && !Contains(uq, "recalls for firm")
    ensures r == NoRule ==> !AsksTopFirms(uq) && !AsksFirmCount(uq)
  {
    if Contains(uq, "last") && Contains(uq, "recall") then LastRecalls
    else if (Contains(uq, "list") || Contains(uq, "recalls for firm") || Contains(uq, "list all recalls"))
            && Contains(uq, "firm") then FirmRecalls
    else if AsksTopFirms(uq) then TopFirmsRule
    else if (Contains(uq, "last") || Contains(uq, "past")) && Contains(uq, "recall") then TimeRange
    else if AsksFirmCount(uq) then FirmTotal
    else NoRule
  }

  /** The first rule shadows the time range for "last": a time range is
      only ever read after "past". */
  lemma TimeRangeOnlyAfterPast(uq: string)
    requires SelectRule(uq) == TimeRange
    ensures Contains(uq, "past") && !Contains(uq, "last") && Contains(uq, "recall")
  {
  }

  /** The whitespace-separated words after the first `word`. */
  function WordsAfter(uq: string, word: string): seq<string>
    requires Contains(uq, word)
  {
    Split(Strip(After(uq, word).value, false))
  }

  /** "last N recalls": N is the first word after "last" when it is all
      digits, else 10. */
  function LastCount(uq: string): nat
    requires Contains(uq, "last")
  {
    var tokens := WordsAfter(uq, "last");
    if tokens != [] && IsDigits(tokens[0]) then DigitsValue(tokens[0]) else 10
  }

  /** A time range as written after "last" or "past": a count (1 unless the
      first word is all digits) and a unit word ("days" when none). */
  datatype Span = Span(n: nat, unit: string)

  function SpanAfter(uq: string, word: string): Span
    requires Contains(uq, word)
  {
    var tokens := WordsAfter(uq, word);
    if tokens != [] && IsDigits(tokens[0]) then
      Span(DigitsValue(tokens[0]), if |tokens| > 1 then tokens[1] else "days")
    else Span(1, if tokens != [] then tokens[0] else "days")
  }

  function SpanOf(uq: string): Span
    requires Contains(uq, "last") || Contains(uq, "past")
  {
    if Contains(uq, "last") then SpanAfter(uq, "last") else SpanAfter(uq, "past")
  }

  /** After a keyword at the very start of the question, the words are
      read from the text that follows it. */
  lemma WordsAfterStart(word: string, w: string, rest: string)
    requires IsWord(w) && (rest == [] || (IsSpace(rest[0]) && !IsSpace(rest[|rest| - 1])))
    ensures Contains(word + " " + w + rest, word)
    ensures WordsAfter(word + " " + w + rest, word) == [w] + Split(rest)
  {
    var tail := " " + w + rest;
    AppendAssoc(word + " ", w, rest);
    AppendAssoc(word, " ", w + rest);
    AppendAssoc(" ", w, rest);
    var uq := word + tail;
    AfterPrefix(word, tail);
    assert OccursAt(uq, word, 0);
    assert Find(uq, word) == Some(0);
    SplitAfterSpace(w, rest);
  }

  /** "last 5 recalls" asks for 5: a number written after "last" is the
      count the first rule reads. */
  lemma LastCountReads(k: nat, rest: string)
    requires rest == [] || (IsSpace(rest[0]) && !IsSpace(rest[|rest| - 1]))
    ensures Contains("last" + " " + NatToString(k) + rest, "last")
    ensures LastCount("last" + " " + NatToString(k) + rest) == k
  {
    var d := NatToString(k);
    DigitsWord(d);
    WordsAfterStart("last", d, rest);
    assert WordsAfter("last" + " " + d + rest, "last")[0] == d;
    DecimalRoundTrip(k);
  }

  lemma DigitsWord(d: string)
    requires IsDigits(d)
    ensures IsWord(d)
  {
    assert forall i :: 0 <= i < |d| ==> IsDigit(d[i]);
  }

  /** "past 2 weeks" reads as a span of 2 units of "weeks": the number and
      the unit word after "past", when the question has no "last". */
  lemma SpanPastReads(k: nat, unit: string)
    requires IsWord(unit) && !Contains("past" + " " + NatToString(k) + (" " + unit), "last")
    ensures Contains("past" + " " + NatToString(k) + (" " + unit), "past")
    ensures SpanOf("past" + " " + NatToString(k) + (" " + unit)) == Span(k, unit)
  {
    PastTokens(NatToString(k), unit);
    DecimalRoundTrip(k);
  }

  /** The words after a leading "past" in "past D U". */
  lemma PastTokens(d: string, unit: string)
    requires IsDigits(d) && IsWord(unit)
    ensures Contains("past" + " " + d + (" " + unit), "past")
    ensures WordsAfter("past" + " " + d + (" " + unit), "past") == [d, unit]
  {
    DigitsWord(d);
    var rest := " " + unit;
    assert rest[0] == ' ' && rest[|rest| - 1] == unit[|unit| - 1];
    WordsAfterStart("past", d, rest);
    SplitOne(unit);
  }

  lemma SplitOne(w: string)
    requires IsWord(w)
    ensures Split(" " + w) == [w]
  {
    SplitSpaces(" ", w);
    SplitFirstWord(w, []);
    assert w + [] == w;
  }

  /** `s.rstrip('s')`. */
  function TrimTrailingS(s: string): (r: string)
    ensures |r| <= |s| && r == s[..|r|]
    ensures r == [] || r[|r| - 1] != 's'
    ensures forall k :: |r| <= k < |s| ==> s[k] == 's'
  {
    if s != [] && s[|s| - 1] == 's' then TrimTrailingS(s[..|s| - 1]) else s
  }

  /** How many days back the range reaches: once trailing `s`s are dropped
      from the unit, a week is seven days, a month thirty, and a day or any
      other unit one. */
  function SpanDays(span: Span): (days: nat)
    ensures TrimTrailingS(span.unit) == "week" ==> days == 7 * span.n
    ensures TrimTrailingS(span.unit) == "month" ==> days == 30 * span.n
    ensures TrimTrailingS(span.unit) != "week" && TrimTrailingS(span.unit) != "month" ==> days == span.n
  {
    var u := TrimTrailingS(span.unit);
    if u == "day" then span.n
    else if u == "week" then 7 * span.n
    else if u == "month" then 30 * span.n
    else span.n
  }

  lemma SpanDaysUnits(n: nat)
    ensures SpanDays(Span(n, "weeks")) == 7 * n && SpanDays(Span(n, "week")) == 7 * n
    ensures SpanDays(Span(n, "months")) == 30 * n && SpanDays(Span(n, "days")) == n
    ensures SpanDays(Span(n, "hours")) == n && SpanDays(Span(n, "weekss")) == 7 * n
  {
    assert "weekss"[..5] == "weeks";
    assert "weeks"[..4] == "week";
    assert "months"[..5] == "month";
    assert "days"[..3] == "day";
    assert "hours"[..4] == "hour";
  }

  function DateRangeQuery(start: string, end: string): string {
    "recall_initiation_date:[" + start + " TO " + end + "]"
  }

  /** The search arguments of the first, second and fourth rules. */
  function LastArgs(n: nat): ToolArgs {
    NoArgs.(limit := Some(Int(n)), sort := Some(NewestFirst))
  }

  function RangeArgs(query: string): ToolArgs {
    NoArgs.(query := Some(query), limit := Some(Int(50)), sort := Some(NewestFirst))
  }

  const TopFirmsArgs := NoArgs.(stats := Some([Value.Text("topFirms")]), topFirmsLimit := Some(10))

  function RecallCount(p: Payload): nat {
    if p.Recalls? then |p.recalls| else 0
  }

  /** A search fallback: the handler's payload, and an answer naming how
      many recalls it holds between `prefix` and `suffix`; a failing
      search is an error. */
  ghost function SearchAnswerRun(args: ToolArgs, api: Params -> Result<Reply>, prefix: string, suffix: string)
    : Run<Answer>
  {
    match SearchOutcome(args, api)
    case Err(e) => Run(Err(e), [SearchRequest(args)])
    case Ok(p) => Run(Ok(Answer(prefix + IntToString(RecallCount(p)) + suffix, Some(p))), [SearchRequest(args)])
  }

  /** One line per ranked firm: `i. firm: count`, from 1. */
  function TopLines(top: seq<FirmCount>): (lines: seq<string>)
    ensures |lines| == |top|
    ensures forall i :: 0 <= i < |top| ==>
              lines[i] == IntToString(i + 1) + ". " + top[i].firm + ": " + IntToString(top[i].count)
  {
    seq(|top|, i requires 0 <= i < |top| => IntToString(i + 1) + ". " + top[i].firm + ": " + IntToString(top[i].count))
  }

  function TopAnswer(top: seq<FirmCount>): string {
    if top == [] then "No firm recall data available."
    else "Top firms by recall count:\n" + Join(TopLines(top), "\n")
  }

  ghost function TopFirmsRun(api: Params -> Result<Reply>, thisYear: int): Run<Answer> {
    var s := StatsRun(TopFirmsArgs, api, thisYear);
    match s.result
    case Err(e) => Run(Err(e), s.calls)
    case Ok(v) => Run(Ok(Answer(TopAnswer(v.topFirms.GetOr([])), Some(Stats(v)))), s.calls)
  }

  /** The firm total fallback: one `limit=1` search for the firm's total,
      then a sample of up to ten of its recalls. Every failure on the way
      is swallowed into the default answer. */
  ghost function FirmTotalRun(firm: string, otherwise: Answer, api: Params -> Result<Reply>): Run<Answer> {
    if firm == "" then Run(Ok(otherwise), [])
    else
      var p := FirmSearch(firm);
      match api(p)
      case Err(_) => Run(Ok(otherwise), [p])
      case Ok(reply) =>
        var s := SampleRun(firm, TotalOf(reply), otherwise, api);
        Run(s.result, [p] + s.calls)
  }

  /** The `limit=1` search for the firm's total. */
  function FirmSearch(firm: string): Params {
    SearchParams(Some(FirmClause(firm)), None, 1, 0, None)
  }

  /** The sample search: the firm's newest recalls, at most ten. */
  function SampleArgs(firm: string, total: int): ToolArgs {
    NoArgs.(query := Some(FirmClause(firm)), limit := Some(Int(if total < 10 then total else 10)),
            sort := Some(NewestFirst))
  }

  /** The answer once the total is known: the total with the sample, or
      the default answer when the sample search fails. */
  ghost function SampleRun(firm: string, total: int, otherwise: Answer, api: Params -> Result<Reply>): Run<Answer> {
    var sample := SampleArgs(firm, total);
    match SearchOutcome(sample, api)
    case Err(_) => Run(Ok(otherwise), [SearchRequest(sample)])
    case Ok(payload) =>
      Run(Ok(Answer("Total recalls for firm " + firm + ": " + IntToString(total), Some(payload))),
          [SearchRequest(sample)])
  }

  /** The answer to a turn without tool calls, and the requests it issues:
      the first rule that applies, else the model's text with the last
      tool payload. */
  ghost function FallbackRun(question: string, text: string, last: Option<Payload>,
                             api: Params -> Result<Reply>, clock: Clock): Run<Answer>
  {
    var uq := Lower(question);
    match SelectRule(uq)
    case LastRecalls =>
      var n := LastCount(uq);
      SearchAnswerRun(LastArgs(n), api, "Last " + IntToString(n) + " recalls (newest first). Found ", ".")
    case FirmRecalls =>
      var firm := ExtractFirm(uq);
      SearchAnswerRun(FirmListArgs(firm), api, "Showing ", " recalls for firm " + firm + " (newest first).")
    case TopFirmsRule => TopFirmsRun(api, clock.year)
    case TimeRange =>
      var start := clock.dateDaysAgo(SpanDays(SpanOf(uq)));
      var end := clock.dateDaysAgo(0);
      SearchAnswerRun(RangeArgs(DateRangeQuery(start, end)), api, "Showing ",
                      " recalls from " + start + " to " + end + ".")
    case FirmTotal => FirmTotalRun(ExtractFirm(uq), Answer(text, last), api)
    case NoRule => Run(Ok(Answer(text, last)), [])
  }

  /** The firm total and the default answer always come back with an
      answer: only the searching and ranking rules can fail. */
  lemma FallbackNeverFails(question: string, text: string, last: Option<Payload>,
                           api: Params -> Result<Reply>, clock: Clock)
    requires SelectRule(Lower(question)) == FirmTotal || SelectRule(Lower(question)) == NoRule
    ensures FallbackRun(question, text, last, api, clock).result.Ok?
  {
    var uq := Lower(question);
    if SelectRule(uq) == FirmTotal {
      FirmTotalNeverFails(ExtractFirm(uq), Answer(text, last), api);
    }
  }

  /** The three searching rules issue exactly one request. */
  lemma FallbackSearchesOnce(question: string, text: string, last: Option<Payload>,
                             api: Params -> Result<Reply>, clock: Clock)
    requires var rule := SelectRule(Lower(question));
             rule == LastRecalls || rule == FirmRecalls || rule == TimeRange
    ensures |FallbackRun(question, text, last, api, clock).calls| == 1
  {
  }

  /** Rules that search or rank report a failed remote call as an error;
      the firm total rule never does. */
  lemma FirmTotalNeverFails(firm: string, otherwise: Answer, api: Params -> Result<Reply>)
    ensures FirmTotalRun(firm, otherwise, api).result.Ok?
    ensures firm == "" ==> FirmTotalRun(firm, otherwise, api) == Run(Ok(otherwise), [])
    ensures var p := SearchParams(Some(FirmClause(firm)), None, 1, 0, None);
            firm != "" && api(p).Err? ==> FirmTotalRun(firm, otherwise, api) == Run(Ok(otherwise), [p])
    ensures firm != "" && api(FirmSearch(firm)).Ok? ==>
              var total := TotalOf(api(FirmSearch(firm)).value);
              var sample := SampleArgs(firm, total);
              var r := FirmTotalRun(firm, otherwise, api);
              && r.calls == [FirmSearch(firm), SearchRequest(sample)]
              && (SearchOutcome(sample, api).Err? ==> r.result == Ok(otherwise))
              && (SearchOutcome(sample, api).Ok? ==>
                    r.result == Ok(Answer("Total recalls for firm " + firm + ": " + IntToString(total),
                                          Some(SearchOutcome(sample, api).value))))
  {
  }

  /** The firm total's first request is the handler's own firm total
      request for that firm without a classification. */
  lemma FirmTotalRequest(firm: string)
    ensures SearchParams(Some(FirmClause(firm)), None, 1, 0, None) == FirmTotalParams(firm, "")
  {
    assert FirmTotalQuery(firm, "") == Join([FirmClause(firm)], " AND ") == FirmClause(firm);
  }

  /** Without a matching rule the answer is the model's own text and the
      last tool payload, and nothing is requested. */
  lemma DefaultAnswer(question: string, text: string, last: Option<Payload>, api: Params -> Result<Reply>,
                      clock: Clock)
    requires SelectRule(Lower(question)) == NoRule
    ensures FallbackRun(question, text, last, api, clock) == Run(Ok(Answer(text, last)), [])
  {
  }

  /** Rule 1 applies to any question with "last" and "recall": a search
      for the newest records, as many as the number after "last". */
  lemma LastRecallsRule(question: string, text: string, last: Option<Payload>, api: Params -> Result<Reply>,
                        clock: Clock)
    requires Contains(Lower(question), "last") && Contains(Lower(question), "recall")
    ensures var n := LastCount(Lower(question));
            FallbackRun(question, text, last, api, clock)
            == SearchAnswerRun(LastArgs(n), api, "Last " + IntToString(n) + " recalls (newest first). Found ", ".")
  {
  }

  /** Any question with "last" and "recall" asks for the newest records,
      as many as the number after "last" (10 without one), bounded to
      [1, 50], and nothing else. */
  lemma LastRecallsRequest(question: string, text: string, last: Option<Payload>, api: Params -> Result<Reply>,
                           clock: Clock)
    requires Contains(Lower(question), "last") && Contains(Lower(question), "recall")
    ensures var n := LastCount(Lower(question));
            FallbackRun(question, text, last, api, clock).calls
            == [map["limit" := IntParam(Clamp(n, 1, 50)), "skip" := IntParam(0), "sort" := TextParam(NewestFirst)]]
  {
    var n := LastCount(Lower(question));
    LastRecallsRule(question, text, last, api, clock);
    LastArgsRequest(n);
    RecentParamsShape(Clamp(n, 1, 50));
  }

  /** Rule 1 sends the request `get_recent_enforcements` would send for
      the bounded count. */
  lemma LastArgsRequest(n: nat)
    ensures SearchRequest(LastArgs(n)) == RecentParams(Clamp(n, 1, 50))
  {
    assert CoerceLimit(Some(Int(n))) == Clamp(n, 1, 50);
    assert Strip("", false) == "";
    assert FirmScopedQuery(None, None) == None;
    ClampIdempotent(n, 1, 50);
  }

  /** Rule 1 answers "Last N recalls (newest first). Found C." for the
      newest N records, C being how many the search returned. */
  lemma LastRecallsAnswer(question: string, text: string, last: Option<Payload>, api: Params -> Result<Reply>,
                          clock: Clock)
    requires Contains(Lower(question), "last") && Contains(Lower(question), "recall")
    ensures var n := LastCount(Lower(question));
            var r := FallbackRun(question, text, last, api, clock);
            && (SearchOutcome(LastArgs(n), api).Err? ==> r.result == Err(SearchOutcome(LastArgs(n), api).error))
            && (SearchOutcome(LastArgs(n), api).Ok? ==>
                  var p := SearchOutcome(LastArgs(n), api).value;
                  r.result == Ok(Answer("Last " + IntToString(n) + " recalls (newest first). Found "
                                        + IntToString(RecallCount(p)) + ".", Some(p))))
  {
    LastRecallsRule(question, text, last, api, clock);
  }

  /** A search fallback. */
  method SearchAnswer(args: ToolArgs, prefix: string, suffix: string, client: Client) returns (r: Result<Answer>)
    modifies client
    ensures r == SearchAnswerRun(args, client.api, prefix, suffix).result
    ensures client.log == old(client.log) + SearchAnswerRun(args, client.api, prefix, suffix).calls
  {
    var payload := SearchRecalls(args, client);
    if payload.Err? {
      return Err(payload.error);
    }
    var count := if payload.value.Recalls? then |payload.value.recalls| else 0;
    r := Ok(Answer(prefix + IntToString(count) + suffix, Some(payload.value)));
  }

  /** The top firms fallback. */
  method TopFirmsAnswer(client: Client, thisYear: int) returns (r: Result<Answer>)
    modifies client
    ensures r == TopFirmsRun(client.api, thisYear).result
    ensures client.log == old(client.log) + TopFirmsRun(client.api, thisYear).calls
  {
    var stats := GetRecallStats(TopFirmsArgs, client, thisYear);
    if stats.Err? {
      return Err(stats.error);
    }
    var top := stats.value.topFirms.GetOr([]);
    var answer: string;
    if top != [] {
      answer := "Top firms by recall count:\n" + Join(TopLines(top), "\n");
    } else {
      answer := "No firm recall data available.";
    }
    r := Ok(Answer(answer, Some(Stats(stats.value))));
  }

  /** The firm total fallback; a failure leaves the default answer. */
  method FirmTotalAnswer(firm: string, otherwise: Answer, client: Client) returns (r: Answer)
    modifies client
    ensures FirmTotalRun(firm, otherwise, client.api).result == Ok(r)
    ensures client.log == old(client.log) + FirmTotalRun(firm, otherwise, client.api).calls
  {
    if firm == "" {
      return otherwise;
    }
    var query := FirmClause(firm);
    var data := client.SearchEnforcements(Some(query), None, 1, 0, None);
    if data.Err? {
      return otherwise;
    }
    r := SampleAnswer(firm, TotalOf(data.value), otherwise, client);
    AppendAssoc(old(client.log), [FirmSearch(firm)], SampleRun(firm, TotalOf(data.value), otherwise, client.api).calls);
  }

  /** The sample step of the firm total fallback. */
  method SampleAnswer(firm: string, total: int, otherwise: Answer, client: Client) returns (r: Answer)
    modifies client
    ensures SampleRun(firm, total, otherwise, client.api).result == Ok(r)
    ensures client.log == old(client.log) + SampleRun(firm, total, otherwise, client.api).calls
  {
    var answer := "Total recalls for firm " + firm + ": " + IntToString(total);
    var sample := SearchRecalls(SampleArgs(firm, total), client);
    if sample.Err? {
      return otherwise;
    }
    r := Answer(answer, Some(sample.value));
  }

  /** The fallback chain for a turn without tool calls. */
  method Fallback(question: string, text: string, last: Option<Payload>, client: Client, clock: Clock)
    returns (r: Result<Answer>)
    modifies client
    ensures r == FallbackRun(question, text, last, client.api, clock).result
    ensures client.log == old(client.log) + FallbackRun(question, text, last, client.api, clock).calls
  {
    var uq := Lower(question);
    match SelectRule(uq) {
      case LastRecalls =>
        var n := LastCount(uq);
        r := SearchAnswer(LastArgs(n), "Last " + IntToString(n) + " recalls (newest first). Found ", ".", client);
      case FirmRecalls =>
        var firm := ExtractFirm(uq);
        r := SearchAnswer(FirmListArgs(firm), "Showing ", " recalls for firm " + firm + " (newest first).", client);
      case TopFirmsRule =>
        r := TopFirmsAnswer(client, clock.year);
      case TimeRange =>
        var start := clock.dateDaysAgo(SpanDays(SpanOf(uq)));
        var end := clock.dateDaysAgo(0);
        r := SearchAnswer(RangeArgs(DateRangeQuery(start, end)), "Showing ",
                          " recalls from " + start + " to " + end + ".", client);
      case FirmTotal =>
        var answer := FirmTotalAnswer(ExtractFirm(uq), Answer(text, last), client);
        r := Ok(answer);
      case NoRule =>
        r := Ok(Answer(text, last));
    }
  }

  // ---------------------------------------------------------------------
  // The conversation

  /** A message sent to the model: the question, or a tool's payload. */
  datatype Message = UserMessage(text: string) | ToolMessage(name: string, payload: Payload)

  /** A model turn: the function calls among its parts, and its text ("" when
      it has none). */
  datatype Turn = Turn(calls: seq<FunctionCall>, text: string)

  /** The state the loop carries: the messages sent so far and the payload
      of the most recent tool call. */
  datatype Chat = Chat(sent: seq<Message>, last: Option<Payload>)

  const MaxRounds := 5
  const Apology := "Sorry, I could not complete the request."

  /** A run with some requests issued before it. */
  function Preceded<T>(done: seq<Params>, r: Run<T>): Run<T> {
    Run(r.result, done + r.calls)
  }

  /** The tool calls of one turn, in order: each is corrected, dispatched,
      and its payload sent back to the model and kept as the latest; a
      failing handler ends the conversation with its error. */
  ghost function ToolCallsRun(calls: seq<FunctionCall>, correct: FunctionCall -> FunctionCall,
                              dispatch: (string, ToolArgs) -> Run<Payload>, chat: Chat): Run<Chat>
    decreases |calls|
  {
    if calls == [] then Run(Ok(chat), [])
    else
      var c := correct(calls[0]);
      var d := dispatch(c.name, c.args);
      match d.result
      case Err(e) => Run(Err(e), d.calls)
      case Ok(p) =>
        Preceded(d.calls, ToolCallsRun(calls[1..], correct, dispatch, Chat(chat.sent + [ToolMessage(c.name, p)], Some(p))))
  }

  /** How the rounds end: with a turn that made no calls (its text and the
      latest payload), or with the rounds used up (the conversation as it
      then stands). */
  datatype Stop = FinalTurn(text: string, last: Option<Payload>) | OutOfRounds(final: Chat)

  /** At most `rounds` more model turns: a turn with tool calls runs them
      with `runCalls` and goes on; the first turn without any stops them.
      A failing handler ends the rounds with its error. */
  ghost function RoundsRun(model: seq<Message> -> Turn, runCalls: (seq<FunctionCall>, Chat) -> Run<Chat>,
                           rounds: nat, chat: Chat): (r: Run<Stop>)
    decreases rounds
    ensures r.result.Ok? && r.result.value.FinalTurn? ==>
              exists sent :: model(sent).calls == [] && model(sent).text == r.result.value.text
  {
    if rounds == 0 then Run(Ok(OutOfRounds(chat)), [])
    else
      var turn := model(chat.sent);
      if turn.calls == [] then Run(Ok(FinalTurn(turn.text, chat.last)), [])
      else
        var t := runCalls(turn.calls, chat);
        match t.result
        case Err(e) => Run(Err(e), t.calls)
        case Ok(next) => Preceded(t.calls, RoundsRun(model, runCalls, rounds - 1, next))
  }

  /** The tool calls of a turn, for one question. */
  ghost function CallsRunner(question: string, api: Params -> Result<Reply>, thisYear: int)
    : (seq<FunctionCall>, Chat) -> Run<Chat>
  {
    (calls: seq<FunctionCall>, chat: Chat) => ToolCallsRun(calls, Corrector(question), Dispatcher(api, thisYear), chat)
  }

  /** The answer once the rounds have stopped: the fallback chain for a
      final turn, the apology when the rounds ran out. */
  ghost function Finish(question: string, stop: Stop, api: Params -> Result<Reply>, clock: Clock): Run<Answer> {
    match stop
    case FinalTurn(text, last) => FallbackRun(question, text, last, api, clock)
    case OutOfRounds(final) => Run(Ok(Answer(Apology, final.last)), [])
  }

  /** `run_conversation_with_gemini`: the question is sent first, then at
      most five turns are inspected. */
  ghost function Conversation(question: string, model: seq<Message> -> Turn, api: Params -> Result<Reply>,
                              clock: Clock): (r: Run<Answer>)
    ensures var first := model([UserMessage(question)]);
            first.calls == [] ==> r == FallbackRun(question, first.text, None, api, clock)
  {
    var rounds := RoundsRun(model, CallsRunner(question, api, clock.year), MaxRounds, Chat([UserMessage(question)], None));
    match rounds.result
    case Err(e) => Run(Err(e), rounds.calls)
    case Ok(stop) => Preceded(rounds.calls, Finish(question, stop, api, clock))
  }

  /** The payload of the most recent tool message. */
  function LatestPayload(sent: seq<Message>): Option<Payload>
    decreases |sent|
  {
    if sent == [] then None
    else if sent[|sent| - 1].ToolMessage? then Some(sent[|sent| - 1].payload)
    else LatestPayload(sent[..|sent| - 1])
  }

  predicate KeepsLatest(chat: Chat) {
    chat.last == LatestPayload(chat.sent)
  }

  /** `msgs` are the tool messages for `calls`, one each, in order, under
      the corrected names. */
  predicate Reported(msgs: seq<Message>, calls: seq<FunctionCall>, correct: FunctionCall -> FunctionCall) {
    |msgs| == |calls| && forall k :: 0 <= k < |calls| ==> msgs[k].ToolMessage? && msgs[k].name == correct(calls[k]).name
  }

  /** One tool message per call, under the corrected name, is sent back in
      order, and the kept payload is always the latest one sent. */
  lemma {:induction false} ToolCallsSendPayloads(calls: seq<FunctionCall>, correct: FunctionCall -> FunctionCall,
                                                 dispatch: (string, ToolArgs) -> Run<Payload>, chat: Chat)
    requires KeepsLatest(chat)
    decreases |calls|
    ensures var t := ToolCallsRun(calls, correct, dispatch, chat);
            t.result.Ok? ==>
              && KeepsLatest(t.result.value)
              && |chat.sent| <= |t.result.value.sent|
              && t.result.value.sent[..|chat.sent|] == chat.sent
              && Reported(t.result.value.sent[|chat.sent|..], calls, correct)
              && (calls != [] ==> t.result.value.last.Some?)
  {
    if calls != [] {
      var c := correct(calls[0]);
      var d := dispatch(c.name, c.args);
      if d.result.Ok? {
        var p := d.result.value;
        var next := Chat(chat.sent + [ToolMessage(c.name, p)], Some(p));
        assert LatestPayload(next.sent) == Some(p);
        ToolCallsSendPayloads(calls[1..], correct, dispatch, next);
        var rest := ToolCallsRun(calls[1..], correct, dispatch, next);
        assert ToolCallsRun(calls, correct, dispatch, chat).result == rest.result;
        if rest.result.Ok? {
          SentAfterFirst(calls, correct, chat.sent, ToolMessage(c.name, p), rest.result.value.sent);
        }
      }
    }
  }

  /** The first call's message followed by those of the other calls. */
  lemma SentAfterFirst(calls: seq<FunctionCall>, correct: FunctionCall -> FunctionCall, before: seq<Message>,
                       first: Message, sent: seq<Message>)
    requires calls != [] && first.ToolMessage? && first.name == correct(calls[0]).name
    requires |before| + 1 <= |sent| && sent[..|before| + 1] == before + [first]
    requires Reported(sent[|before| + 1..], calls[1..], correct)
    ensures sent[..|before|] == before
    ensures Reported(sent[|before|..], calls, correct)
  {
    assert sent[..|before|] == sent[..|before| + 1][..|before|];
    var msgs := sent[|before|..];
    assert msgs == [first] + sent[|before| + 1..] by {
      assert sent[|before|] == sent[..|before| + 1][|before|] == first;
    }
    forall k | 0 <= k < |calls| ensures msgs[k].ToolMessage? && msgs[k].name == correct(calls[k]).name {
      if k > 0 {
        assert msgs[k] == sent[|before| + 1..][k - 1];
        assert calls[k] == calls[1..][k - 1];
      }
    }
  }

  /** One step of the inner loop: the run still to go after the first `i`
      calls is the next call's requests followed by the rest. */
  lemma ToolCallsStep(calls: seq<FunctionCall>, i: nat, correct: FunctionCall -> FunctionCall,
                      dispatch: (string, ToolArgs) -> Run<Payload>, chat0: Chat, chat: Chat,
                      done: seq<Params>, c: FunctionCall, d: Run<Payload>)
    requires i < |calls| && c == correct(calls[i]) && d == dispatch(c.name, c.args)
    requires ToolCallsRun(calls, correct, dispatch, chat0) == Preceded(done, ToolCallsRun(calls[i..], correct, dispatch, chat))
    ensures d.result.Err? ==> ToolCallsRun(calls, correct, dispatch, chat0) == Run(Err(d.result.error), done + d.calls)
    ensures d.result.Ok? ==>
              ToolCallsRun(calls, correct, dispatch, chat0)
              == Preceded(done + d.calls, ToolCallsRun(calls[i + 1..], correct, dispatch,
                                                       Chat(chat.sent + [ToolMessage(c.name, d.result.value)], Some(d.result.value))))
  {
    assert calls[i..][0] == calls[i] && calls[i..][1..] == calls[i + 1..];
    if d.result.Ok? {
      var r := ToolCallsRun(calls[i + 1..], correct, dispatch,
                            Chat(chat.sent + [ToolMessage(c.name, d.result.value)], Some(d.result.value)));
      AppendAssoc(done, d.calls, r.calls);
    }
  }

  /** The last step of the inner loop: no call is left. */
  lemma ToolCallsDone(calls: seq<FunctionCall>, correct: FunctionCall -> FunctionCall,
                      dispatch: (string, ToolArgs) -> Run<Payload>, chat0: Chat, chat: Chat, done: seq<Params>)
    requires ToolCallsRun(calls, correct, dispatch, chat0) == Preceded(done, ToolCallsRun(calls[|calls|..], correct, dispatch, chat))
    ensures ToolCallsRun(calls, correct, dispatch, chat0) == Run(Ok(chat), done)
  {
    assert calls[|calls|..] == [];
  }

  /** One proposed call: corrected for the question, then dispatched. */
  method CallCorrected(question: string, call: FunctionCall, client: Client, thisYear: int)
    returns (c: FunctionCall, r: Result<Payload>, ghost d: Run<Payload>)
    modifies client
    ensures c == Corrector(question)(call)
    ensures d == Dispatcher(client.api, thisYear)(c.name, c.args)
    ensures r == d.result && client.log == old(client.log) + d.calls
  {
    c := CorrectCall(question, call);
    d := Dispatch(c.name, c.args, client.api, thisYear);
    r := CallTool(c.name, c.args, client, thisYear);
  }

  /** The tool calls of one turn, as the inner loop of
      `run_conversation_with_gemini` runs them. */
  method ToolCalls(question: string, calls: seq<FunctionCall>, client: Client, thisYear: int, chat0: Chat)
    returns (r: Result<Chat>)
    modifies client
    ensures r == ToolCallsRun(calls, Corrector(question), Dispatcher(client.api, thisYear), chat0).result
    ensures client.log == old(client.log) + ToolCallsRun(calls, Corrector(question), Dispatcher(client.api, thisYear), chat0).calls
  {
    ghost var correct := Corrector(question);
    ghost var dispatch := Dispatcher(client.api, thisYear);
    ghost var done: seq<Params> := [];
    var chat := chat0;
    var i := 0;
    while i < |calls|
      invariant 0 <= i <= |calls|
      invariant client.log == old(client.log) + done
      invariant ToolCallsRun(calls, correct, dispatch, chat0) == Preceded(done, ToolCallsRun(calls[i..], correct, dispatch, chat))
    {
      var c, payload, d := CallCorrected(question, calls[i], client, thisYear);
      ToolCallsStep(calls, i, correct, dispatch, chat0, chat, done, c, d);
      AppendAssoc(old(client.log), done, d.calls);
      done := done + d.calls;
      if payload.Err? {
        r := Err(payload.error);
        return;
      }
      chat := Chat(chat.sent + [ToolMessage(c.name, payload.value)], Some(payload.value));
      i := i + 1;
    }
    ToolCallsDone(calls, correct, dispatch, chat0, chat, done);
    r := Ok(chat);
  }

  lemma PrecededByNothing<T>(r: Run<T>)
    ensures Preceded([], r) == r
  {
    assert [] + r.calls == r.calls;
  }

  /** One round of the outer loop. */
  lemma RoundsStep(model: seq<Message> -> Turn, runCalls: (seq<FunctionCall>, Chat) -> Run<Chat>,
                   rounds: nat, chat: Chat, done: seq<Params>, whole: Run<Stop>)
    requires rounds > 0 && whole == Preceded(done, RoundsRun(model, runCalls, rounds, chat))
    ensures var turn := model(chat.sent);
            var t := runCalls(turn.calls, chat);
            && (turn.calls == [] ==> whole == Run(Ok(FinalTurn(turn.text, chat.last)), done))
            && (turn.calls != [] && t.result.Err? ==> whole == Run(Err(t.result.error), done + t.calls))
            && (turn.calls != [] && t.result.Ok? ==>
                  whole == Preceded(done + t.calls, RoundsRun(model, runCalls, rounds - 1, t.result.value)))
  {
    var turn := model(chat.sent);
    var t := runCalls(turn.calls, chat);
    if turn.calls == [] {
      assert done + [] == done;
    } else if t.result.Ok? {
      AppendAssoc(done, t.calls, RoundsRun(model, runCalls, rounds - 1, t.result.value).calls);
    }
  }

  /** `runCalls` runs the tool calls of a turn as the assistant does for
      `question`. The trigger keeps the fact dormant until a run of those
      tool calls is mentioned. */
  ghost predicate RunsToolCalls(runCalls: (seq<FunctionCall>, Chat) -> Run<Chat>, question: string,
                                api: Params -> Result<Reply>, thisYear: int)
  {
    forall calls: seq<FunctionCall>, chat: Chat
      {:trigger ToolCallsRun(calls, Corrector(question), Dispatcher(api, thisYear), chat)} ::
      runCalls(calls, chat) == ToolCallsRun(calls, Corrector(question), Dispatcher(api, thisYear), chat)
  }

  lemma CallsRunnerRuns(question: string, api: Params -> Result<Reply>, thisYear: int)
    ensures RunsToolCalls(CallsRunner(question, api, thisYear), question, api, thisYear)
  {
  }

  /** One round of the loop of `run_conversation_with_gemini`: the model's
      turn, and its tool calls when it makes any. `whole` is the run of all
      the rounds, of which `done` are the requests issued so far and `left`
      the rounds still to go; the round either stops the loop with
      `whole`'s result or leaves one round fewer. */
  method Round(question: string, model: seq<Message> -> Turn, client: Client, thisYear: int, chat: Chat,
               ghost runCalls: (seq<FunctionCall>, Chat) -> Run<Chat>,
               ghost left: nat, ghost start: seq<Params>, ghost done: seq<Params>, ghost whole: Run<Stop>)
    returns (stop: Option<Result<Stop>>, next: Chat, ghost doneAfter: seq<Params>)
    requires RunsToolCalls(runCalls, question, client.api, thisYear)
    requires left > 0 && client.log == start + done
    requires whole == Preceded(done, RoundsRun(model, runCalls, left, chat))
    modifies client
    ensures client.log == start + doneAfter
    ensures stop.Some? ==> whole == Run(stop.value, doneAfter)
    ensures stop.None? ==> whole == Preceded(doneAfter, RoundsRun(model, runCalls, left - 1, next))
  {
    var turn := model(chat.sent);
    RoundsStep(model, runCalls, left, chat, done, whole);
    next := chat;
    if turn.calls == [] {
      doneAfter := done;
      stop := Some(Ok(FinalTurn(turn.text, chat.last)));
      return;
    }
    ghost var t := ToolCallsRun(turn.calls, Corrector(question), Dispatcher(client.api, thisYear), chat);
    assert runCalls(turn.calls, chat) == t;
    var calls := ToolCalls(question, turn.calls, client, thisYear, chat);
    AppendAssoc(start, done, t.calls);
    doneAfter := done + t.calls;
    if calls.Err? {
      stop := Some(Err(calls.error));
    } else {
      stop := None;
      next := calls.value;
    }
  }

  /** The loop of `run_conversation_with_gemini`: the question is sent,
      then each model turn with tool calls has them run, until a turn makes
      none or five rounds have passed. The model is an oracle from the
      messages sent so far to its next turn. */
  method RunRounds(question: string, model: seq<Message> -> Turn, client: Client, thisYear: int,
                   ghost runCalls: (seq<FunctionCall>, Chat) -> Run<Chat>)
    returns (r: Result<Stop>)
    requires RunsToolCalls(runCalls, question, client.api, thisYear)
    modifies client
    ensures var rounds := RoundsRun(model, runCalls, MaxRounds, Chat([UserMessage(question)], None));
            r == rounds.result && client.log == old(client.log) + rounds.calls
  {
    var chat := Chat([UserMessage(question)], None);
    ghost var whole := RoundsRun(model, runCalls, MaxRounds, chat);
    ghost var done: seq<Params> := [];
    PrecededByNothing(whole);
    var left := MaxRounds;
    while left > 0
      invariant 0 <= left
      invariant client.log == old(client.log) + done
      invariant whole == Preceded(done, RoundsRun(model, runCalls, left, chat))
    {
      var stop, next, doneAfter := Round(question, model, client, thisYear, chat, runCalls, left, old(client.log), done, whole);
      done := doneAfter;
      if stop.Some? {
        r := stop.value;
        return;
      }
      chat := next;
      left := left - 1;
    }
    assert done + [] == done;
    r := Ok(OutOfRounds(chat));
  }

  /** `run_conversation_with_gemini`. */
  method RunConversation(question: string, model: seq<Message> -> Turn, client: Client, clock: Clock)
    returns (r: Result<Answer>)
    modifies client
    ensures r == Conversation(question, model, client.api, clock).result
    ensures client.log == old(client.log) + Conversation(question, model, client.api, clock).calls
  {
    ghost var rounds := RoundsRun(model, CallsRunner(question, client.api, clock.year), MaxRounds,
                                  Chat([UserMessage(question)], None));
    CallsRunnerRuns(question, client.api, clock.year);
    var stop := RunRounds(question, model, client, clock.year, CallsRunner(question, client.api, clock.year));
    match stop {
      case Err(e) =>
        r := Err(e);
      case Ok(FinalTurn(text, last)) =>
        r := Fallback(question, text, last, client, clock);
        AppendAssoc(old(client.log), rounds.calls, FallbackRun(question, text, last, client.api, clock).calls);
      case Ok(OutOfRounds(final)) =>
        r := Ok(Answer(Apology, final.last));
        assert rounds.calls + [] == rounds.calls;
    }
  }

  /** The last message sent is a tool message, and its payload is the one
      kept. */
  predicate EndsWithTool(chat: Chat) {
    && |chat.sent| > 0
    && chat.sent[|chat.sent| - 1].ToolMessage?
    && chat.last == Some(chat.sent[|chat.sent| - 1].payload)
  }

  /** A run of tool calls that succeeds ends with a tool message and keeps
      its payload as the latest. */
  ghost predicate KeepsPayloads(runCalls: (seq<FunctionCall>, Chat) -> Run<Chat>) {
    forall calls: seq<FunctionCall>, chat: Chat ::
      calls != [] && KeepsLatest(chat) && runCalls(calls, chat).result.Ok? ==>
        KeepsLatest(runCalls(calls, chat).result.value) && EndsWithTool(runCalls(calls, chat).result.value)
  }

  /** A model that asks for a tool in every turn uses up the rounds; after
      at least one round the conversation ends with a tool message whose
      payload is the one kept. */
  lemma {:induction false} EndlessCallsUseUpRounds(model: seq<Message> -> Turn,
                                                   runCalls: (seq<FunctionCall>, Chat) -> Run<Chat>,
                                                   rounds: nat, chat: Chat)
    requires forall h :: model(h).calls != []
    requires KeepsPayloads(runCalls) && KeepsLatest(chat)
    decreases rounds
    ensures var r := RoundsRun(model, runCalls, rounds, chat);
            r.result.Ok? ==>
              && r.result.value.OutOfRounds?
              && KeepsLatest(r.result.value.final)
              && (rounds > 0 ==> EndsWithTool(r.result.value.final))
  {
    if rounds > 0 {
      var turn := model(chat.sent);
      var t := runCalls(turn.calls, chat);
      if t.result.Ok? {
        EndlessCallsUseUpRounds(model, runCalls, rounds - 1, t.result.value);
        if rounds == 1 {
          assert RoundsRun(model, runCalls, rounds - 1, t.result.value).result == Ok(OutOfRounds(t.result.value));
        }
      }
    }
  }

  /** A chat that keeps the latest payload and ends with a tool message
      ends with the kept payload. */
  lemma EndsWithReported(chat: Chat, before: nat, calls: seq<FunctionCall>, correct: FunctionCall -> FunctionCall)
    requires KeepsLatest(chat) && calls != []
    requires before <= |chat.sent| && Reported(chat.sent[before..], calls, correct)
    ensures EndsWithTool(chat)
  {
    var n := |chat.sent|;
    assert chat.sent[n - 1] == chat.sent[before..][|calls| - 1];
  }

  /** The tool calls of the assistant keep the latest payload. */
  lemma CallsRunnerKeepsPayloads(question: string, api: Params -> Result<Reply>, thisYear: int)
    ensures KeepsPayloads(CallsRunner(question, api, thisYear))
  {
    forall calls: seq<FunctionCall>, chat: Chat | calls != [] && KeepsLatest(chat)
      ensures var t := CallsRunner(question, api, thisYear)(calls, chat);
              t.result.Ok? ==> KeepsLatest(t.result.value) && EndsWithTool(t.result.value)
    {
      var t := ToolCallsRun(calls, Corrector(question), Dispatcher(api, thisYear), chat);
      ToolCallsSendPayloads(calls, Corrector(question), Dispatcher(api, thisYear), chat);
      if t.result.Ok? {
        EndsWithReported(t.result.value, |chat.sent|, calls, Corrector(question));
      }
    }
  }

  /** The whole conversation: five rounds of tool calls end in the apology,
      shown with the payload of the last tool message sent. */
  lemma EndlessCallsApologise(question: string, model: seq<Message> -> Turn, api: Params -> Result<Reply>, clock: Clock)
    requires forall h :: model(h).calls != []
    ensures var rounds := RoundsRun(model, CallsRunner(question, api, clock.year), MaxRounds,
                                    Chat([UserMessage(question)], None));
            var r := Conversation(question, model, api, clock);
            r.result.Ok? ==>
              && rounds.result.Ok? && rounds.result.value.OutOfRounds?
              && EndsWithTool(rounds.result.value.final)
              && r.result.value == Answer(Apology, rounds.result.value.final.last)
  {
    assert LatestPayload([UserMessage(question)]) == None by {
      assert [UserMessage(question)][..0] == [];
    }
    CallsRunnerKeepsPayloads(question, api, clock.year);
    EndlessCallsUseUpRounds(model, CallsRunner(question, api, clock.year), MaxRounds, Chat([UserMessage(question)], None));
  }
}
