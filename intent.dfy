/** The keyword intent classifier that runs after every successful model
    reply: it decides between a patient search, a help request and general
    chat, and for a search pulls a patient name and a result limit out of
    the message. All keyword tests are substring tests on the lower-cased
    message; only the name search looks at whole words. */
module Intent {
  import opened Wrappers
  import opened Text

  datatype IntentKind = General | PatientSearch | Help | Error

  /** The arguments for the patient-list tool; `None` stands for a key that
      the classifier did not put into its `tool_params` dictionary. */
  datatype ToolParams = ToolParams(patientName: Option<string>, limit: Option<nat>)

  const NoToolParams: ToolParams := ToolParams(None, None)

  /** The classifier's verdict. Confidence is in tenths (0.8 is 8). */
  datatype IntentAnalysis = IntentAnalysis(intent: IntentKind, confidence: nat, requiresTool: bool, toolParams: ToolParams)

  const PatientKeywords: seq<string> := ["patient", "patients", "find", "search", "list", "show", "get"]
  const NameKeywords: seq<string> := ["named", "called", "name", "with name"]
  const MedicalKeywords: seq<string> := ["diagnosis", "medication", "allergy", "allergies", "condition", "treatment", "medicine"]
  const HelpKeywords: seq<string> := ["help", "what", "how", "command"]
  /** Words that are never taken as a patient name. */
  const NameStopwords: seq<string> := ["is", "are", "the", "a", "an"]
  /** Characters trimmed from both ends of a candidate name. */
  const NamePunctuation: set<char> := {'.', ',', '!', '?'}

  const SearchConfidence: nat := 8
  const HelpConfidence: nat := 9
  const GeneralConfidence: nat := 5

  // ---------------------------------------------------------------------
  // Name extraction

  /** A word announces a name when its lower-case form is one of the name
      keywords (only single-word keywords can match a word). */
  predicate IsNameIndicator(word: string) {
    Lower(word) in NameKeywords
  }

  /** A trimmed word that may be a name: not empty and not a stopword. */
  predicate AcceptableName(potential: string) {
    potential != "" && Lower(potential) !in NameStopwords
  }

  /** The word after an indicator, with punctuation trimmed, unless that
      leaves nothing or a stopword. */
  function CandidateName(word: string): (r: Option<string>)
    ensures r.Some? ==> r.value != "" && Lower(r.value) !in NameStopwords
    ensures r.Some? ==> r.value == Strip(word, NamePunctuation)
    ensures r.None? ==> Strip(word, NamePunctuation) == "" || Lower(Strip(word, NamePunctuation)) in NameStopwords
  {
    var potential := Strip(word, NamePunctuation);
    if potential != "" && Lower(potential) !in NameStopwords then Some(potential) else None
  }

  /** The first position at or after `from` that holds an indicator and
      has a following word. */
  function FirstIndicatorFrom(words: seq<string>, from: nat): (r: Option<nat>)
    ensures r.Some? ==> from <= r.value && r.value + 1 < |words| && IsNameIndicator(words[r.value])
    ensures r.Some? ==> forall j :: from <= j < r.value ==> !IsNameIndicator(words[j])
    ensures r.None? ==> forall j :: from <= j && j + 1 < |words| ==> !IsNameIndicator(words[j])
    decreases |words| - from
  {
    if from + 1 >= |words| then None
    else if IsNameIndicator(words[from]) then Some(from)
    else FirstIndicatorFrom(words, from + 1)
  }

  /** The patient name: the candidate after the first indicator. The search
      stops at that indicator even when its successor is rejected. */
  function NameAfterIndicator(words: seq<string>): Option<string> {
    match FirstIndicatorFrom(words, 0)
    case None => None
    case Some(i) => CandidateName(words[i + 1])
  }

  /** `i` is the first indicator position that has a following word. */
  predicate IsFirstIndicator(words: seq<string>, i: nat) {
    i + 1 < |words| && IsNameIndicator(words[i])
    && forall j :: 0 <= j < i ==> !IsNameIndicator(words[j])
  }

  /** A patient name, when found, is the trimmed successor of the first
      indicator word, is not empty and is not a stopword; there is no name
      when no indicator has a following word; and when the first indicator's
      successor survives trimming and is not a stopword, it is the name. */
  lemma NameAfterIndicatorSpec(words: seq<string>)
    ensures NameAfterIndicator(words).Some? ==>
      (exists i: nat :: IsFirstIndicator(words, i)
        && NameAfterIndicator(words).value == Strip(words[i + 1], NamePunctuation))
      && NameAfterIndicator(words).value != ""
      && Lower(NameAfterIndicator(words).value) !in NameStopwords
    ensures (forall i: nat :: !IsFirstIndicator(words, i)) ==> NameAfterIndicator(words).None?
    ensures forall i: nat :: IsFirstIndicator(words, i) && AcceptableName(Strip(words[i + 1], NamePunctuation)) ==>
      NameAfterIndicator(words) == Some(Strip(words[i + 1], NamePunctuation))
  {
    match FirstIndicatorFrom(words, 0)
    case None =>
    case Some(f) =>
      assert IsFirstIndicator(words, f);
      forall i: nat | IsFirstIndicator(words, i)
        ensures NameAfterIndicator(words) == CandidateName(words[i + 1])
      {
        FirstIndicatorUnique(words, i, f);
      }
  }

  /** There is at most one first indicator. */
  lemma FirstIndicatorUnique(words: seq<string>, i: nat, f: nat)
    requires IsFirstIndicator(words, i) && IsFirstIndicator(words, f)
    ensures i == f
  {
    if i < f {
      assert false;
    } else if f < i {
      assert false;
    }
  }

  // ---------------------------------------------------------------------
  // Limit extraction: the regular expression `(\d+)\s*patient`

  /** End of the run of digits that starts at `p`. */
  function DigitRunEnd(s: string, p: nat): (e: nat)
    requires p <= |s|
    ensures p <= e <= |s|
    ensures forall i :: p <= i < e ==> IsDigit(s[i])
    ensures e < |s| ==> !IsDigit(s[e])
    decreases |s| - p
  {
    if p < |s| && IsDigit(s[p]) then DigitRunEnd(s, p + 1) else p
  }

  /** End of the run of whitespace that starts at `p`. */
  function SpaceRunEnd(s: string, p: nat): (e: nat)
    requires p <= |s|
    ensures p <= e <= |s|
    ensures forall i :: p <= i < e ==> IsSpace(s[i])
    ensures e < |s| ==> !IsSpace(s[e])
    decreases |s| - p
  {
    if p < |s| && IsSpace(s[p]) then SpaceRunEnd(s, p + 1) else p
  }

  /** A match of the pattern at offset `p` with the digit group `s[p..j]`
      and the whitespace `s[j..k]`, as a backtracking matcher may find it. */
  predicate RegexMatch(s: string, p: nat, j: nat, k: nat) {
    p < j <= k <= |s|
    && (forall i :: p <= i < j ==> IsDigit(s[i]))
    && (forall i :: j <= i < k ==> IsSpace(s[i]))
    && IsPrefix("patient", s[k..])
  }

  /** The pattern matches at `p` with maximal runs of digits and whitespace. */
  predicate LimitMatchAt(s: string, p: nat) {
    p < |s| && IsDigit(s[p]) && IsPrefix("patient", s[SpaceRunEnd(s, DigitRunEnd(s, p))..])
  }

  /** Any match at `p` uses the maximal digit and whitespace runs, since
      "patient" starts with a letter: the matched group is unique. */
  lemma RegexMatchIsMaximal(s: string, p: nat, j: nat, k: nat)
    requires RegexMatch(s, p, j, k)
    ensures j == DigitRunEnd(s, p) && k == SpaceRunEnd(s, j) && LimitMatchAt(s, p)
  {
    assert s[k] == 'p';
    assert !IsDigit(s[j]) && !IsSpace(s[k]);
    var e := DigitRunEnd(s, p);
    assert e < |s| ==> !IsDigit(s[e]);
    assert j == e;
    var f := SpaceRunEnd(s, j);
    assert f < |s| ==> !IsSpace(s[f]);
  }

  /** Conversely, a match with maximal runs is a match of the pattern. */
  lemma LimitMatchIsRegexMatch(s: string, p: nat)
    requires LimitMatchAt(s, p)
    ensures RegexMatch(s, p, DigitRunEnd(s, p), SpaceRunEnd(s, DigitRunEnd(s, p)))
  {
  }

  /** The integer value of the digit group of the match at `p`. */
  function LimitGroupValue(s: string, p: nat): nat
    requires LimitMatchAt(s, p)
  {
    DigitsValue(s[p..DigitRunEnd(s, p)])
  }

  /** `re.search`: the leftmost offset at or after `from` where the pattern
      matches, and the value of its digit group. */
  function FindLimitFrom(s: string, from: nat): Option<nat>
    requires from <= |s|
    decreases |s| - from
  {
    if from == |s| then None
    else if LimitMatchAt(s, from) then Some(LimitGroupValue(s, from))
    else FindLimitFrom(s, from + 1)
  }

  /** The search finds a match exactly when there is one at or after
      `from`, and then it is the leftmost one. */
  lemma {:induction false} FindLimitFromIsLeftmost(s: string, from: nat)
    requires from <= |s|
    ensures FindLimitFrom(s, from).None? <==> forall p :: from <= p < |s| ==> !LimitMatchAt(s, p)
    ensures FindLimitFrom(s, from).Some? ==>
      exists p :: from <= p < |s| && LimitMatchAt(s, p) && (forall q :: from <= q < p ==> !LimitMatchAt(s, q))
        && FindLimitFrom(s, from).value == LimitGroupValue(s, p)
    decreases |s| - from
  {
    if from < |s| {
      if LimitMatchAt(s, from) {
        assert FindLimitFrom(s, from) == Some(LimitGroupValue(s, from));
      } else {
        FindLimitFromIsLeftmost(s, from + 1);
        if FindLimitFrom(s, from + 1).Some? {
          var p :| from + 1 <= p < |s| && LimitMatchAt(s, p) && (forall q :: from + 1 <= q < p ==> !LimitMatchAt(s, q))
            && FindLimitFrom(s, from + 1).value == LimitGroupValue(s, p);
          assert forall q :: from <= q < p ==> !LimitMatchAt(s, q);
        }
      }
    }
  }

  /** Offsets that hold no digit cannot start a match and are skipped. */
  lemma {:induction false} FindLimitSkipsNonDigits(s: string, from: nat, to: nat)
    requires from <= to <= |s|
    requires forall i :: from <= i < to ==> !IsDigit(s[i])
    ensures FindLimitFrom(s, from) == FindLimitFrom(s, to)
    decreases |s| - from
  {
    if from < to {
      FindLimitSkipsNonDigits(s, from + 1, to);
    }
  }

  function FindLimit(s: string): Option<nat> {
    FindLimitFrom(s, 0)
  }

  // ---------------------------------------------------------------------
  // The classifier

  predicate MentionsPatients(userLower: string) {
    ContainsAny(userLower, PatientKeywords) || ContainsAny(userLower, MedicalKeywords)
  }

  /** What `_analyze_intent` returns for a message. The model's reply is an
      argument of the source function but takes no part in the decision. */
  function Classify(userMessage: string): (r: IntentAnalysis)
    ensures r.requiresTool <==> r.intent == PatientSearch
    ensures r.intent != PatientSearch ==> r.toolParams == NoToolParams
    ensures r.intent != Error
    ensures r.confidence in {SearchConfidence, HelpConfidence, GeneralConfidence}
  {
    var userLower := Lower(userMessage);
    if MentionsPatients(userLower) then
      var name := if ContainsAny(userLower, NameKeywords) then NameAfterIndicator(Words(userMessage)) else None;
      IntentAnalysis(PatientSearch, SearchConfidence, true, ToolParams(name, FindLimit(userLower)))
    else if ContainsAny(userLower, HelpKeywords) then
      IntentAnalysis(Help, HelpConfidence, false, NoToolParams)
    else
      IntentAnalysis(General, GeneralConfidence, false, NoToolParams)
  }

  /** The word loop of `_analyze_intent`: it stops at the first name
      indicator that has a following word, whether or not that word is
      accepted as a name. */
  method ScanForName(words: seq<string>) returns (name: Option<string>)
    ensures name == NameAfterIndicator(words)
  {
    name := None;
    var i := 0;
    while i < |words|
      invariant 0 <= i <= |words|
      invariant FirstIndicatorFrom(words, 0) == FirstIndicatorFrom(words, i)
      invariant name == None
    {
      if IsNameIndicator(words[i]) && i + 1 < |words| {
        name := CandidateName(words[i + 1]);
        break;
      }
      i := i + 1;
    }
  }

  /** `_analyze_intent`. */
  method AnalyzeIntent(userMessage: string, assistantResponse: string) returns (r: IntentAnalysis)
    ensures r == Classify(userMessage)
  {
    var userLower := Lower(userMessage);
    if MentionsPatients(userLower) {
      var name: Option<string> := None;
      if ContainsAny(userLower, NameKeywords) {
        name := ScanForName(Words(userMessage));
      }
      r := IntentAnalysis(PatientSearch, SearchConfidence, true, ToolParams(name, FindLimit(userLower)));
    } else if ContainsAny(userLower, HelpKeywords) {
      r := IntentAnalysis(Help, HelpConfidence, false, NoToolParams);
    } else {
      r := IntentAnalysis(General, GeneralConfidence, false, NoToolParams);
    }
  }

  // ---------------------------------------------------------------------
  // Properties

  /** Patient and medical keywords win over help keywords: any of them
      anywhere in the lower-cased message makes it a tool-requiring search. */
  lemma PatientKeywordsTakePrecedence(userMessage: string)
    requires MentionsPatients(Lower(userMessage))
    ensures var r := Classify(userMessage);
      r.intent == PatientSearch && r.requiresTool && r.confidence == SearchConfidence
  {
  }

  /** Without patient or medical keywords, a help keyword gives help, and
      otherwise the message is general; neither asks for the tool. */
  lemma NonSearchIntents(userMessage: string)
    requires !MentionsPatients(Lower(userMessage))
    ensures var r := Classify(userMessage);
      && !r.requiresTool && r.toolParams == NoToolParams
      && (ContainsAny(Lower(userMessage), HelpKeywords) ==> r.intent == Help && r.confidence == HelpConfidence)
      && (!ContainsAny(Lower(userMessage), HelpKeywords) ==> r.intent == General && r.confidence == GeneralConfidence)
  {
  }

  /** `p` is the leftmost offset where `(\d+)\s*patient` matches. */
  predicate IsLeftmostLimitMatch(s: string, p: nat) {
    LimitMatchAt(s, p) && forall q :: 0 <= q < p ==> !LimitMatchAt(s, q)
  }

  /** The classifier's limit is the digit group of the leftmost match of
      `(\d+)\s*patient` in the lower-cased message, unclamped, and there
      is none when nothing matches. */
  lemma ClassifiedLimit(userMessage: string)
    requires MentionsPatients(Lower(userMessage))
    ensures Classify(userMessage).toolParams.limit.None? <==>
      forall p :: 0 <= p < |userMessage| ==> !LimitMatchAt(Lower(userMessage), p)
    ensures Classify(userMessage).toolParams.limit.Some? ==>
      exists p: nat :: IsLeftmostLimitMatch(Lower(userMessage), p)
        && Classify(userMessage).toolParams.limit.value == LimitGroupValue(Lower(userMessage), p)
  {
    FindLimitFromIsLeftmost(Lower(userMessage), 0);
  }

  // ---------------------------------------------------------------------
  // Worked examples

  /** For a search, the limit is looked for in the lower-cased message. */
  lemma SearchLimit(userMessage: string)
    requires MentionsPatients(Lower(userMessage))
    ensures Classify(userMessage).toolParams.limit == FindLimit(Lower(userMessage))
  {
  }

  /** For a search whose message holds a name keyword, the name is taken
      from the message's whitespace-separated words. */
  lemma SearchName(userMessage: string)
    requires MentionsPatients(Lower(userMessage))
    requires ContainsAny(Lower(userMessage), NameKeywords)
    ensures Classify(userMessage).toolParams.patientName == NameAfterIndicator(Words(userMessage))
  {
  }

  lemma {:induction false} NoLimitInLimitThree()
    ensures FindLimit("find patients named john, limit 3") == None
  {
    var lower := "find patients named john, limit 3";
    FindLimitSkipsNonDigits(lower, 0, 32);
    assert DigitRunEnd(lower, 32) == 33;
  }

  /** "limit 3" is not a limit for the classifier: its digits are not
      followed by "patient", so the pattern finds nothing. */
  lemma LimitNeedsPatientAfterDigits()
    ensures Classify("find patients named John, limit 3").toolParams.limit == None
  {
    var m := "find patients named John, limit 3";
    var lower := "find patients named john, limit 3";
    LimitThreeLower(m, lower);
    NoLimitInLimitThree();
    LimitThreeMentions(lower);
    SearchLimit(m);
  }

  lemma LimitThreeLower(m: string, lower: string)
    requires m == "find patients named John, limit 3" && lower == "find patients named john, limit 3"
    ensures Lower(m) == lower
  {
  }

  lemma LimitThreeMentions(lower: string)
    requires lower == "find patients named john, limit 3"
    ensures MentionsPatients(lower)
  {
    assert OccursAt(lower, "find", 0);
    ContainsAt(lower, "find");
    assert PatientKeywords[2] == "find";
  }

  /** A count written before "patients" is the limit. */
  lemma CountBeforePatients()
    ensures Classify("show me 7 patients").toolParams.limit == Some(7)
  {
    var m := "show me 7 patients";
    var lower := "show me 7 patients";
    CountLower(m, lower);
    CountMentions(lower);
    CountFound(lower);
    SearchLimit(m);
  }

  lemma CountLower(m: string, lower: string)
    requires m == "show me 7 patients" && lower == m
    ensures Lower(m) == lower
  {
  }

  lemma CountMentions(lower: string)
    requires lower == "show me 7 patients"
    ensures MentionsPatients(lower)
  {
    assert OccursAt(lower, "show", 0);
    ContainsAt(lower, "show");
    assert PatientKeywords[5] == "show";
  }

  lemma CountFound(lower: string)
    requires lower == "show me 7 patients"
    ensures FindLimit(lower) == Some(7)
  {
    FindLimitSkipsNonDigits(lower, 0, 8);
    CountMatch(lower);
    assert FindLimitFrom(lower, 8) == Some(7);
  }

  lemma CountMatch(lower: string)
    requires lower == "show me 7 patients"
    ensures LimitMatchAt(lower, 8) && LimitGroupValue(lower, 8) == 7
  {
    assert DigitRunEnd(lower, 8) == 9;
    assert SpaceRunEnd(lower, 9) == 10;
    assert lower[10..] == "patients";
    assert lower[8..9] == "7";
    assert "7"[..0] == [];
    assert DigitsValue("7") == 7;
  }

  /** A message without digits has no limit. */
  lemma NoLimitWithoutDigits(s: string)
    requires forall i :: 0 <= i < |s| ==> !IsDigit(s[i])
    ensures FindLimit(s) == None
  {
    FindLimitSkipsNonDigits(s, 0, |s|);
  }

  lemma {:induction false} AliceWords()
    ensures Words("find patients named Alice") == ["find", "patients", "named", "Alice"]
  {
    var ws := ["find", "patients", "named", "Alice"];
    AliceJoin(ws);
    AliceAreWords(ws);
    WordsOfJoin(ws);
  }

  lemma AliceJoin(ws: seq<string>)
    requires ws == ["find", "patients", "named", "Alice"]
    ensures Join(ws, " ") == "find patients named Alice"
  {
    JoinFour("find", "patients", "named", "Alice", " ");
  }

  lemma JoinFour(a: string, b: string, c: string, d: string, sep: string)
    ensures Join([a, b, c, d], sep) == a + sep + b + sep + c + sep + d
  {
    assert [a, b, c, d][1..] == [b, c, d] && [b, c, d][1..] == [c, d] && [c, d][1..] == [d];
    assert Join([c, d], sep) == c + sep + d;
    assert Join([b, c, d], sep) == b + sep + (c + sep + d);
  }

  lemma AliceAreWords(ws: seq<string>)
    requires ws == ["find", "patients", "named", "Alice"]
    ensures forall i :: 0 <= i < |ws| ==> IsWord(ws[i])
  {
    assert IsWord(ws[0]) && IsWord(ws[1]) && IsWord(ws[2]) && IsWord(ws[3]);
  }

  lemma PlainWordsAreNotIndicators(w: string)
    requires w == "find" || w == "patients"
    ensures !IsNameIndicator(w)
  {
    assert Lower(w) == w;
  }

  lemma NamedIsIndicator()
    ensures IsNameIndicator("named")
  {
    assert Lower("named") == "named";
  }

  lemma AliceIsCandidate()
    ensures CandidateName("Alice") == Some("Alice")
  {
    AliceUnstripped();
    AliceLower();
    LongWordIsNoStopword("alice");
  }

  lemma LongWordIsNoStopword(w: string)
    requires |w| > 3
    ensures w !in NameStopwords
  {
    assert forall i :: 0 <= i < |NameStopwords| ==> |NameStopwords[i]| <= 3;
  }

  lemma AliceLower()
    ensures Lower("Alice") == "alice"
  {
    LowerAt("Alice", 0);
    assert Lower("Alice") == "alice";
  }

  lemma AliceUnstripped()
    ensures Strip("Alice", NamePunctuation) == "Alice"
  {
    StripUntouched("Alice", NamePunctuation);
  }

  lemma NameAtThird(ws: seq<string>)
    requires |ws| == 4 && !IsNameIndicator(ws[0]) && !IsNameIndicator(ws[1]) && IsNameIndicator(ws[2])
    ensures NameAfterIndicator(ws) == CandidateName(ws[3])
  {
    assert FirstIndicatorFrom(ws, 2) == Some(2);
    assert FirstIndicatorFrom(ws, 1) == FirstIndicatorFrom(ws, 2);
  }

  lemma AliceName(ws: seq<string>)
    requires ws == ["find", "patients", "named", "Alice"]
    ensures NameAfterIndicator(ws) == Some("Alice")
  {
    PlainWordsAreNotIndicators(ws[0]);
    PlainWordsAreNotIndicators(ws[1]);
    NamedIsIndicator();
    AliceIsCandidate();
    NameAtThird(ws);
  }

  lemma AliceSearch(lower: string)
    requires lower == "find patients named alice"
    ensures MentionsPatients(lower) && ContainsAny(lower, NameKeywords) && FindLimit(lower) == None
  {
    AliceMentions(lower);
    AliceHasNameKeyword(lower);
    AliceHasNoDigits(lower);
    NoLimitWithoutDigits(lower);
  }

  lemma AliceHasNoDigits(lower: string)
    requires lower == "find patients named alice"
    ensures forall i :: 0 <= i < |lower| ==> !IsDigit(lower[i])
  {
  }

  lemma AliceMentions(lower: string)
    requires lower == "find patients named alice"
    ensures MentionsPatients(lower)
  {
    assert OccursAt(lower, "find", 0);
    ContainsAt(lower, "find");
    assert PatientKeywords[2] == "find";
  }

  lemma AliceHasNameKeyword(lower: string)
    requires lower == "find patients named alice"
    ensures ContainsAny(lower, NameKeywords)
  {
    assert OccursAt(lower, "named", 14);
    ContainsAt(lower, "named");
    assert NameKeywords[0] == "named";
  }

  /** The word after "named" is the patient name. */
  lemma NameAfterNamed(m: string)
    requires m == "find patients named Alice"
    ensures Classify(m).toolParams == ToolParams(Some("Alice"), None)
  {
    var lower := "find patients named alice";
    assert Lower(m) == lower;
    AliceSearch(lower);
    AliceWords();
    AliceName(Words(m));
    SearchName(m);
    SearchLimit(m);
  }

  /** Keyword tests are substring tests: "get" inside "forget" makes a
      patient search. */
  lemma SubstringKeywords()
    ensures Classify("Please forget it").intent == PatientSearch
  {
    var lower := "please forget it";
    assert Lower("Please forget it") == lower;
    assert OccursAt(lower, "get", 10);
    ContainsAt(lower, "get");
    assert PatientKeywords[6] == "get";
  }
}
