/**
 Structured questions rendered as plain text, and the parser of the free-text reply: option
 matching by number, exact token and prefix, then cancel, single, positional and keyed replies.
 */
module UserInput {
  import opened Wrappers
  import opened Text

  const OTHER_LABEL := "None of the above"
  const NOTE_PREFIX := "user_note: "

  datatype QuestionOption = QuestionOption(name: string, description: string)

  datatype Question = Question(
    id: string, header: string, question: string,
    options: Option<seq<QuestionOption>>, isOther: bool)

  type Answer = seq<string>
  type Answers = map<string, Answer>

  datatype PendingRequest = PendingRequest(
    submissionId: string, callId: string, turnId: string, questions: seq<Question>)

  datatype InputError =
    | NoMatch(answer: string, questionId: string)
    | ExpectedKey(line: string)
    | UnknownKey(key: string)
    | MissingAnswers(ids: seq<string>)

  predicate HasOptions(q: Question) {
    q.options.Some? && q.options.value != []
  }

  /** Everything the prompt lists for a question, in the order it numbers them. */
  function OfferedLabels(q: Question): (labels: seq<string>)
    requires HasOptions(q)
  {
    seq(|q.options.value|, i requires 0 <= i < |q.options.value| => q.options.value[i].name)
    + if q.isOther then [OTHER_LABEL] else []
  }

  /** The numbered lines shown for the offered labels. */
  function OptionLine(q: Question, i: nat): string
    requires HasOptions(q) && i < |OfferedLabels(q)|
  {
    "   " + PrintNat(i + 1) + ". "
    + if i < |q.options.value|
      then q.options.value[i].name + " - " + q.options.value[i].description
      else OTHER_LABEL
  }

  function NormalizeToken(value: string): (token: string)
    ensures forall c :: c in token ==> IsAsciiAlphanumeric(c)
  {
    if value == "" then ""
    else (if IsAsciiAlphanumeric(value[0]) then [ToLowerAscii(value[0])] else "") + NormalizeToken(value[1..])
  }

  function ExactMatches(labels: seq<string>, token: string): (r: seq<string>)
    ensures forall l :: l in r <==> l in labels && NormalizeToken(l) == token
  {
    if labels == [] then []
    else (if NormalizeToken(labels[0]) == token then [labels[0]] else []) + ExactMatches(labels[1..], token)
  }

  predicate PrefixRelated(name: string, token: string) {
    token <= NormalizeToken(name) || NormalizeToken(name) <= token
  }

  function PrefixMatches(labels: seq<string>, token: string): (r: seq<string>)
    ensures forall l :: l in r <==> l in labels && PrefixRelated(l, token)
  {
    if labels == [] then []
    else (if PrefixRelated(labels[0], token) then [labels[0]] else []) + PrefixMatches(labels[1..], token)
  }

  function MatchByNumber(q: Question, trimmed: string): Option<string>
    requires HasOptions(q)
  {
    match ParseUsize(trimmed)
    case None => None
    case Some(index) =>
      if 1 <= index <= |q.options.value| then Some(q.options.value[index - 1].name)
      else if q.isOther && index == |q.options.value| + 1 then Some(OTHER_LABEL)
      else None
  }

  function MatchByToken(q: Question, token: string): Option<string>
    requires HasOptions(q)
  {
    if token == "" then None
    else
      var exact := ExactMatches(OfferedLabels(q), token);
      var prefix := PrefixMatches(OfferedLabels(q), token);
      if |exact| == 1 then Some(exact[0])
      else if |prefix| == 1 then Some(prefix[0])
      else None
  }

  function MatchOption(q: Question, answer: string): Option<string> {
    if !HasOptions(q) then None
    else
      var trimmed := Trim(answer);
      var byNumber := MatchByNumber(q, trimmed);
      if byNumber.Some? then byNumber else MatchByToken(q, NormalizeToken(trimmed))
  }

  /** The part of a reply that selects an option, and the note after a bar. */
  function SplitNote(trimmed: string): (string, Option<string>) {
    match SplitOnce(trimmed, '|')
    case Some((selection, note)) => (Trim(selection), Some(Trim(note)))
    case None => (trimmed, None)
  }

  function ParseAnswer(q: Question, raw: string): Result<Answer, InputError> {
    var trimmed := Trim(raw);
    if HasOptions(q) then
      var (selection, note) := SplitNote(trimmed);
      match MatchOption(q, selection)
      case Some(choice) =>
        Ok([choice] + if note.Some? && note.value != "" then [NOTE_PREFIX + note.value] else [])
      case None =>
        if q.isOther && trimmed != "" then Ok([OTHER_LABEL, NOTE_PREFIX + trimmed])
        else Err(NoMatch(trimmed, q.id))
    else Ok(if trimmed == "" then [] else [NOTE_PREFIX + trimmed])
  }

  /** Fills the answer entry by entry: the selected label, then the note. */
  method ParseRequestUserInputAnswer(q: Question, raw: string) returns (r: Result<Answer, InputError>)
    ensures r == ParseAnswer(q, raw)
  {
    var trimmed := Trim(raw);
    var answers: Answer := [];
    if HasOptions(q) {
      var (selection, note) := SplitNote(trimmed);
      var choice := MatchOption(q, selection);
      if choice.Some? {
        answers := answers + [choice.value];
        assert answers == [choice.value];
        if note.Some? && note.value != "" {
          answers := answers + [NOTE_PREFIX + note.value];
        }
        assert answers == [choice.value] + if note.Some? && note.value != "" then [NOTE_PREFIX + note.value] else [];
        return Ok(answers);
      }
      if q.isOther && trimmed != "" {
        answers := answers + [OTHER_LABEL];
        answers := answers + [NOTE_PREFIX + trimmed];
        assert answers == [OTHER_LABEL, NOTE_PREFIX + trimmed];
        return Ok(answers);
      }
      return Err(NoMatch(trimmed, q.id));
    }
    if trimmed != "" {
      answers := answers + [NOTE_PREFIX + trimmed];
      assert answers == [NOTE_PREFIX + trimmed];
    }
    return Ok(answers);
  }

  ghost function QuestionIds(questions: seq<Question>): set<string> {
    set q | q in questions :: q.id
  }

  ghost predicate DistinctIds(questions: seq<Question>) {
    forall i, j :: 0 <= i < j < |questions| ==> questions[i].id != questions[j].id
  }

  function EmptyAnswers(questions: seq<Question>): (m: Answers)
    ensures m.Keys == QuestionIds(questions)
    ensures forall id :: id in m ==> m[id] == []
  {
    if questions == [] then map[] else EmptyAnswers(questions[1..])[questions[0].id := []]
  }

  predicate EqIgnoreAsciiCase(a: string, b: string) {
    |a| == |b| && forall i :: 0 <= i < |a| ==> ToLowerAscii(a[i]) == ToLowerAscii(b[i])
  }

  predicate IsCancel(raw: string) {
    var trimmed := Trim(raw);
    trimmed == "" || trimmed == "/cancel" || EqIgnoreAsciiCase(trimmed, "cancel")
  }

  function NonBlankLines(lines: seq<string>): (r: seq<string>)
    ensures forall l :: l in r ==> l != "" && IsTrimmed(l)
  {
    if lines == [] then []
    else
      TrimIsTrimmed(lines[0]);
      (if Trim(lines[0]) == "" then [] else [Trim(lines[0])]) + NonBlankLines(lines[1..])
  }

  function ReplyLines(raw: string): seq<string> {
    NonBlankLines(Lines(Trim(raw)))
  }

  predicate IsPositional(questions: seq<Question>, raw: string) {
    var lines := ReplyLines(raw);
    |lines| == |questions| && !forall l :: l in lines ==> ':' in l
  }

  function ParsePositional(questions: seq<Question>, lines: seq<string>, answers: Answers): Result<Answers, InputError>
    requires |lines| == |questions|
  {
    if lines == [] then Ok(answers)
    else
      match ParseAnswer(questions[0], lines[0])
      case Err(e) => Err(e)
      case Ok(a) => ParsePositional(questions[1..], lines[1..], answers[questions[0].id := a])
  }

  predicate AnswersToKey(q: Question, token: string) {
    NormalizeToken(q.id) == token || NormalizeToken(q.header) == token
  }

  function FindByToken(questions: seq<Question>, token: string): (r: Option<Question>)
    ensures r.Some? ==> r.value in questions && AnswersToKey(r.value, token)
    ensures r.None? ==> forall q :: q in questions ==> !AnswersToKey(q, token)
  {
    if questions == [] then None
    else if AnswersToKey(questions[0], token) then Some(questions[0])
    else FindByToken(questions[1..], token)
  }

  /** The question a key addresses: by number, where zero means the first, or by id or header token. */
  function FindQuestion(questions: seq<Question>, key: string): (r: Option<Question>)
    ensures r.Some? ==> r.value in questions
  {
    match ParseUsize(key)
    case Some(index) =>
      var i := if index == 0 then 0 else index - 1;
      if i < |questions| then Some(questions[i]) else None
    case None => FindByToken(questions, NormalizeToken(key))
  }

  /** One `<id>: <answer>` line: the id it answers and the answer. */
  function ParseLine(questions: seq<Question>, line: string): Result<(string, Answer), InputError> {
    match SplitOnce(line, ':')
    case None => Err(ExpectedKey(line))
    case Some((rawKey, rawValue)) =>
      match FindQuestion(questions, Trim(rawKey))
      case None => Err(UnknownKey(Trim(rawKey)))
      case Some(q) =>
        match ParseAnswer(q, Trim(rawValue))
        case Err(e) => Err(e)
        case Ok(a) => Ok((q.id, a))
  }

  function ParseKeyed(questions: seq<Question>, lines: seq<string>, answers: Answers): Result<Answers, InputError> {
    if lines == [] then Ok(answers)
    else
      match ParseLine(questions, lines[0])
      case Err(e) => Err(e)
      case Ok((id, a)) => ParseKeyed(questions, lines[1..], answers[id := a])
  }

  function MissingIds(questions: seq<Question>, answers: Answers): seq<string> {
    if questions == [] then []
    else (if questions[0].id in answers then [] else [questions[0].id]) + MissingIds(questions[1..], answers)
  }

  function ParseResponse(questions: seq<Question>, raw: string): Result<Answers, InputError> {
    if IsCancel(raw) then Ok(EmptyAnswers(questions))
    else if |questions| == 1 then
      match ParseAnswer(questions[0], Trim(raw))
      case Err(e) => Err(e)
      case Ok(a) => Ok(map[questions[0].id := a])
    else if IsPositional(questions, raw) then ParsePositional(questions, ReplyLines(raw), map[])
    else
      match ParseKeyed(questions, ReplyLines(raw), map[])
      case Err(e) => Err(e)
      case Ok(answers) =>
        if |answers| != |questions| then Err(MissingAnswers(MissingIds(questions, answers))) else Ok(answers)
  }

  /** The loop over the lines of a keyed reply; the first line that fails ends it. */
  method ParseKeyedLines(questions: seq<Question>, lines: seq<string>) returns (r: Result<Answers, InputError>)
    ensures r == ParseKeyed(questions, lines, map[])
  {
    var answers: Answers := map[];
    for i := 0 to |lines|
      invariant ParseKeyed(questions, lines, map[]) == ParseKeyed(questions, lines[i..], answers)
    {
      assert lines[i..][0] == lines[i] && lines[i..][1..] == lines[i + 1..];
      var answered := ParseKeyedLine(questions, lines[i]);
      match answered
      case Err(e) => return Err(e);
      case Ok((id, answer)) => answers := answers[id := answer];
    }
    return Ok(answers);
  }

  method ParseKeyedLine(questions: seq<Question>, line: string) returns (r: Result<(string, Answer), InputError>)
    ensures r == ParseLine(questions, line)
  {
    var split := SplitOnce(line, ':');
    if split.None? {
      return Err(ExpectedKey(line));
    }
    var key, value := Trim(split.value.0), Trim(split.value.1);
    var question := FindQuestion(questions, key);
    if question.None? {
      return Err(UnknownKey(key));
    }
    var answer := ParseRequestUserInputAnswer(question.value, value);
    match answer
    case Err(e) => r := Err(e);
    case Ok(a) => r := Ok((question.value.id, a));
  }

  /** The reply parser: cancel, a single question, positional lines, or keyed lines that must be complete. */
  method ParseRequestUserInputResponse(questions: seq<Question>, raw: string)
    returns (r: Result<Answers, InputError>)
    ensures r == ParseResponse(questions, raw)
  {
    if IsCancel(raw) {
      return Ok(EmptyAnswers(questions));
    }
    if |questions| == 1 {
      var single := ParseRequestUserInputAnswer(questions[0], Trim(raw));
      return match single
        case Err(e) => Err(e)
        case Ok(a) => Ok(map[questions[0].id := a]);
    }
    var lines := ReplyLines(raw);
    if IsPositional(questions, raw) {
      return ParsePositional(questions, lines, map[]);
    }
    var keyed := ParseKeyedLines(questions, lines);
    if keyed.Ok? && |keyed.value| != |questions| {
      return Err(MissingAnswers(MissingIds(questions, keyed.value)));
    }
    return keyed;
  }

  // ---------------------------------------------------------------------------------------------
  // Keys

  /** A number means the question it numbers, zero the first, and one too large none. */
  lemma NumberKeyFinds(questions: seq<Question>, k: nat)
    requires k < USIZE_LIMIT
    ensures FindQuestion(questions, PrintNat(k))
         == if k == 0 && questions != [] then Some(questions[0])
            else if 1 <= k <= |questions| then Some(questions[k - 1])
            else None
  {
    ParseOfPrint(k, USIZE_LIMIT);
  }

  /** A name means the first question whose id or header it spells. */
  ghost predicate NamesFirst(questions: seq<Question>, key: string, i: nat) {
    && i < |questions| && AnswersToKey(questions[i], NormalizeToken(key))
    && forall j :: 0 <= j < i ==> !AnswersToKey(questions[j], NormalizeToken(key))
  }

  lemma {:induction false} FirstByToken(questions: seq<Question>, token: string, i: nat)
    requires i < |questions| && AnswersToKey(questions[i], token)
    requires forall j :: 0 <= j < i ==> !AnswersToKey(questions[j], token)
    ensures FindByToken(questions, token) == Some(questions[i])
  {
    if i > 0 {
      FirstByToken(questions[1..], token, i - 1);
    }
  }

  lemma NameKeyFinds(questions: seq<Question>, key: string)
    requires ParseUsize(key).None?
    ensures forall i: nat :: NamesFirst(questions, key, i) ==> FindQuestion(questions, key) == Some(questions[i])
    ensures FindQuestion(questions, key).None? <==> forall q :: q in questions ==> !AnswersToKey(q, NormalizeToken(key))
  {
    forall i: nat | NamesFirst(questions, key, i) ensures FindQuestion(questions, key) == Some(questions[i]) {
      FirstByToken(questions, NormalizeToken(key), i);
    }
  }

  // ---------------------------------------------------------------------------------------------
  // Option matching

  /** Whatever the fallback chain selects was offered. */
  lemma MatchWasOffered(q: Question, answer: string)
    requires MatchOption(q, answer).Some?
    ensures HasOptions(q) && MatchOption(q, answer).value in OfferedLabels(q)
  {
    var labels := OfferedLabels(q);
    var trimmed := Trim(answer);
    var byNumber := MatchByNumber(q, trimmed);
    if byNumber.Some? {
      var index := ParseUsize(trimmed).value;
      assert labels[index - 1] == byNumber.value;
    } else {
      var token := NormalizeToken(trimmed);
      var exact := ExactMatches(labels, token);
      var prefix := PrefixMatches(labels, token);
      if |exact| == 1 {
        assert exact[0] in exact;
      } else {
        assert prefix[0] in prefix;
      }
    }
  }

  lemma NumberSelects(q: Question, s: string, i: nat)
    requires HasOptions(q) && i < |OfferedLabels(q)|
    requires IsTrimmed(s) && ParseUsize(s) == Some(i + 1)
    ensures MatchOption(q, s) == Some(OfferedLabels(q)[i])
  {
    TrimOfTrimmed(s);
  }

  lemma NumberInLine(number: string, rest: string)
    ensures ("   " + number + ". " + rest)[3..3 + |number|] == number
  {}

  /** Each number the prompt prints selects the label printed beside it. */
  lemma PrintedNumberSelects(q: Question, i: nat)
    requires HasOptions(q) && i < |OfferedLabels(q)| && i + 1 < USIZE_LIMIT
    ensures MatchOption(q, PrintNat(i + 1)) == Some(OfferedLabels(q)[i])
    ensures OptionLine(q, i)[3..3 + |PrintNat(i + 1)|] == PrintNat(i + 1)
  {
    var s := PrintNat(i + 1);
    DigitsAreTrimmed(s);
    ParseOfPrint(i + 1, USIZE_LIMIT);
    NumberSelects(q, s, i);
    NumberInLine(s, if i < |q.options.value| then q.options.value[i].name + " - " + q.options.value[i].description
                    else OTHER_LABEL);
  }

  /** The only label with this token. */
  ghost predicate OnlyExact(labels: seq<string>, token: string, i: nat) {
    && i < |labels| && NormalizeToken(labels[i]) == token
    && forall j :: 0 <= j < |labels| && j != i ==> NormalizeToken(labels[j]) != token
  }

  /** The only label that continues this token, or that it continues. */
  ghost predicate OnlyPrefix(labels: seq<string>, token: string, i: nat) {
    && i < |labels| && (token <= NormalizeToken(labels[i]) || NormalizeToken(labels[i]) <= token)
    && forall j :: 0 <= j < |labels| && j != i ==>
         !(token <= NormalizeToken(labels[j])) && !(NormalizeToken(labels[j]) <= token)
  }

  lemma {:induction false} ExactMatchIsUnique(labels: seq<string>, i: nat, token: string)
    requires OnlyExact(labels, token, i)
    ensures ExactMatches(labels, token) == [labels[i]]
  {
    var rest := labels[1..];
    if i == 0 {
      assert forall l :: l in rest ==> NormalizeToken(l) != token;
      NoExactMatch(rest, token);
    } else {
      assert forall j :: 0 <= j < |rest| ==> rest[j] == labels[j + 1];
      ExactMatchIsUnique(rest, i - 1, token);
    }
  }

  lemma NoExactMatch(labels: seq<string>, token: string)
    requires forall l :: l in labels ==> NormalizeToken(l) != token
    ensures ExactMatches(labels, token) == []
  {}

  lemma NoPrefixMatch(labels: seq<string>, token: string)
    requires forall l :: l in labels ==> !PrefixRelated(l, token)
    ensures PrefixMatches(labels, token) == []
  {}

  lemma {:induction false} PrefixMatchIsUnique(labels: seq<string>, i: nat, token: string)
    requires OnlyPrefix(labels, token, i)
    ensures PrefixMatches(labels, token) == [labels[i]]
  {
    var rest := labels[1..];
    if i == 0 {
      assert forall l :: l in rest ==> !PrefixRelated(l, token);
      NoPrefixMatch(rest, token);
    } else {
      assert forall j :: 0 <= j < |rest| ==> rest[j] == labels[j + 1];
      PrefixMatchIsUnique(rest, i - 1, token);
    }
  }

  lemma {:induction false} OneExactMatch(labels: seq<string>, token: string) returns (i: nat)
    requires |ExactMatches(labels, token)| == 1
    ensures OnlyExact(labels, token, i)
  {
    var rest := labels[1..];
    if NormalizeToken(labels[0]) == token {
      assert ExactMatches(rest, token) == [];
      assert forall j :: 0 < j < |labels| ==> labels[j] == rest[j - 1] && rest[j - 1] in rest;
      i := 0;
    } else {
      i := OneExactMatch(rest, token);
      assert forall j :: 0 < j < |labels| ==> labels[j] == rest[j - 1];
      i := i + 1;
    }
  }

  lemma {:induction false} OnePrefixMatch(labels: seq<string>, token: string) returns (i: nat)
    requires |PrefixMatches(labels, token)| == 1
    ensures OnlyPrefix(labels, token, i)
  {
    var rest := labels[1..];
    if PrefixRelated(labels[0], token) {
      assert PrefixMatches(rest, token) == [];
      assert forall j :: 0 < j < |labels| ==> labels[j] == rest[j - 1] && rest[j - 1] in rest;
      i := 0;
    } else {
      i := OnePrefixMatch(rest, token);
      assert forall j :: 0 < j < |labels| ==> labels[j] == rest[j - 1];
      i := i + 1;
    }
  }

  /** The number of an offered label. */
  predicate NumbersLabel(q: Question, trimmed: string)
    requires HasOptions(q)
  {
    ParseUsize(trimmed).Some? && 1 <= ParseUsize(trimmed).value <= |OfferedLabels(q)|
  }

  /** By token: the only label spelled so, or, when there is none such, the only one a prefix relates to. */
  ghost predicate TokenMeans(labels: seq<string>, token: string, i: nat) {
    && token != ""
    && (OnlyExact(labels, token, i) || (OnlyPrefix(labels, token, i) && forall k: nat :: !OnlyExact(labels, token, k)))
  }

  lemma TokenSelectsExactly(q: Question, token: string, choice: string)
    requires HasOptions(q)
    ensures MatchByToken(q, token) == Some(choice) <==>
              exists i: nat :: TokenMeans(OfferedLabels(q), token, i) && OfferedLabels(q)[i] == choice
  {
    var labels := OfferedLabels(q);
    forall i: nat | OnlyExact(labels, token, i) ensures ExactMatches(labels, token) == [labels[i]] {
      ExactMatchIsUnique(labels, i, token);
    }
    forall i: nat | OnlyPrefix(labels, token, i) ensures PrefixMatches(labels, token) == [labels[i]] {
      PrefixMatchIsUnique(labels, i, token);
    }
    if token != "" {
      if |ExactMatches(labels, token)| == 1 {
        var i := OneExactMatch(labels, token);
        assert TokenMeans(labels, token, i);
      } else if |PrefixMatches(labels, token)| == 1 {
        var i := OnePrefixMatch(labels, token);
        assert TokenMeans(labels, token, i);
      }
    }
  }

  lemma NumberSelectsExactly(q: Question, trimmed: string)
    requires HasOptions(q)
    ensures MatchByNumber(q, trimmed)
         == if NumbersLabel(q, trimmed) then Some(OfferedLabels(q)[ParseUsize(trimmed).value - 1]) else None
  {}

  /** What an answer selects: the label it numbers, and else the one its token means. */
  ghost predicate Selects(q: Question, trimmed: string, choice: string)
    requires HasOptions(q)
  {
    if NumbersLabel(q, trimmed) then OfferedLabels(q)[ParseUsize(trimmed).value - 1] == choice
    else exists i: nat :: TokenMeans(OfferedLabels(q), NormalizeToken(trimmed), i) && OfferedLabels(q)[i] == choice
  }

  /**
   An answer selects the label it numbers; else the only label spelled like it but for case and
   punctuation; else the only one that starts so, or that it starts with.
   */
  lemma AnswerSelectsExactly(q: Question, answer: string, choice: string)
    requires HasOptions(q)
    ensures MatchOption(q, answer) == Some(choice) <==> Selects(q, Trim(answer), choice)
  {
    var trimmed := Trim(answer);
    NumberSelectsExactly(q, trimmed);
    if !NumbersLabel(q, trimmed) {
      TokenSelectsExactly(q, NormalizeToken(trimmed), choice);
    }
  }

  /** A token keeps the ASCII letters and digits, in lower case, and nothing else. */
  lemma TokenOfSnoc(s: string, c: char)
    ensures NormalizeToken(s + [c])
         == NormalizeToken(s) + if 'a' <= c <= 'z' || '0' <= c <= '9' then [c]
                                else if 'A' <= c <= 'Z' then [(c as int - 'A' as int + 'a' as int) as char] else ""
  {
    NormalizeOfAppend(s, [c]);
    assert [c][1..] == "";
  }

  /** A label nobody else shares a token with is selected by typing it, unless it reads as a number. */
  lemma OwnLabelSelects(q: Question, i: nat)
    requires HasOptions(q) && i < |OfferedLabels(q)|
    requires var labels := OfferedLabels(q);
             && ParseUsize(Trim(labels[i])).None?
             && NormalizeToken(labels[i]) != ""
             && forall j :: 0 <= j < |labels| && j != i ==> NormalizeToken(labels[j]) != NormalizeToken(labels[i])
    ensures MatchOption(q, OfferedLabels(q)[i]) == Some(OfferedLabels(q)[i])
  {
    var labels := OfferedLabels(q);
    NormalizeOfTrim(labels[i]);
    ExactMatchIsUnique(labels, i, NormalizeToken(labels[i]));
  }

  lemma {:induction false} NormalizeOfAppend(a: string, b: string)
    ensures NormalizeToken(a + b) == NormalizeToken(a) + NormalizeToken(b)
  {
    if a == "" {
      assert a + b == b;
    } else {
      assert (a + b)[1..] == a[1..] + b;
      NormalizeOfAppend(a[1..], b);
    }
  }

  lemma {:induction false} NormalizeOfTrimStart(s: string)
    ensures NormalizeToken(TrimStart(s)) == NormalizeToken(s)
  {
    if s != "" && IsWhitespace(s[0]) {
      NormalizeOfTrimStart(s[1..]);
    }
  }

  lemma {:induction false} NormalizeOfTrimEnd(s: string)
    ensures NormalizeToken(TrimEnd(s)) == NormalizeToken(s)
  {
    if s != "" && IsWhitespace(s[|s| - 1]) {
      var last := s[|s| - 1..];
      assert s == s[..|s| - 1] + last;
      NormalizeOfAppend(s[..|s| - 1], last);
      assert NormalizeToken(last) == "" + NormalizeToken(last[1..]);
      NormalizeOfTrimEnd(s[..|s| - 1]);
    }
  }

  lemma NormalizeOfTrim(s: string)
    ensures NormalizeToken(Trim(s)) == NormalizeToken(s)
  {
    NormalizeOfTrimStart(s);
    NormalizeOfTrimEnd(TrimStart(s));
  }

  // ---------------------------------------------------------------------------------------------
  // What is refused

  /** The words that cancel, in any case: nothing, `cancel`, and in lower case `/cancel`. */
  lemma CancelExactly(raw: string)
    ensures IsCancel(raw) <==>
              var t := Trim(raw);
              || t == "" || t == "/cancel"
              || (|t| == 6 && t[0] in {'c', 'C'} && t[1] in {'a', 'A'} && t[2] in {'n', 'N'}
                  && t[3] in {'c', 'C'} && t[4] in {'e', 'E'} && t[5] in {'l', 'L'})
  {
    var t, word := Trim(raw), "cancel";
    if |t| == 6 {
      assert word[0] == 'c' && word[1] == 'a' && word[2] == 'n' && word[3] == 'c' && word[4] == 'e' && word[5] == 'l';
      assert EqIgnoreAsciiCase(t, word) <==>
               && ToLowerAscii(t[0]) == 'c' && ToLowerAscii(t[1]) == 'a' && ToLowerAscii(t[2]) == 'n'
               && ToLowerAscii(t[3]) == 'c' && ToLowerAscii(t[4]) == 'e' && ToLowerAscii(t[5]) == 'l';
    }
  }

  /** Only an option question refuses an answer: one that selects nothing and may not be given in free text. */
  lemma AnswerRefusedExactly(q: Question, raw: string)
    ensures ParseAnswer(q, raw).Err? <==>
              && HasOptions(q) && MatchOption(q, SplitNote(Trim(raw)).0).None?
              && (!q.isOther || Trim(raw) == "")
    ensures ParseAnswer(q, raw).Err? ==> ParseAnswer(q, raw).error == NoMatch(Trim(raw), q.id)
  {}

  /** What a line of a keyed reply comes to: its key up to the first colon, then its answer. */
  lemma LineComesTo(questions: seq<Question>, key: string, value: string)
    requires ':' !in key
    ensures ParseLine(questions, key) == Err(ExpectedKey(key))
    ensures ParseLine(questions, key + [':'] + value)
         == match FindQuestion(questions, Trim(key))
            case None => Err(UnknownKey(Trim(key)))
            case Some(q) =>
              (match ParseAnswer(q, Trim(value))
               case Err(e) => Err(e)
               case Ok(answer) => Ok((q.id, answer)))
  {
    SplitOnceAbsent(key, ':');
    SplitOnceAt(key, ':', value);
  }

  /** A keyed reply is refused for its first bad line. */
  lemma {:induction false} FirstBadLineRefuses(questions: seq<Question>, lines: seq<string>, acc: Answers, i: nat)
    requires i < |lines| && ParseLine(questions, lines[i]).Err?
    requires forall j :: 0 <= j < i ==> ParseLine(questions, lines[j]).Ok?
    ensures ParseKeyed(questions, lines, acc) == Err(ParseLine(questions, lines[i]).error)
    decreases |lines|
  {
    if i > 0 {
      var (id, a) := ParseLine(questions, lines[0]).value;
      FirstBadLineRefuses(questions, lines[1..], acc[id := a], i - 1);
    }
  }

  lemma {:induction false} MissingExactly(questions: seq<Question>, answers: Answers)
    ensures forall id :: id in MissingIds(questions, answers) <==> id in QuestionIds(questions) && id !in answers
  {
    if questions != [] {
      MissingExactly(questions[1..], answers);
      assert forall q :: q in questions <==> q == questions[0] || q in questions[1..];
    }
  }

  /** A keyed reply whose lines are all good is refused for the questions it leaves out. */
  lemma UnansweredRefuses(questions: seq<Question>, raw: string)
    requires !IsCancel(raw) && |questions| != 1 && !IsPositional(questions, raw)
    requires LinesParse(questions, ReplyLines(raw)) && DistinctIds(questions)
    requires AddressedIds(questions, ReplyLines(raw)) != QuestionIds(questions)
    ensures var r := ParseResponse(questions, raw);
            && r.Err? && r.error.MissingAnswers?
            && forall id :: id in r.error.ids <==>
                 id in QuestionIds(questions) && id !in AddressedIds(questions, ReplyLines(raw))
  {
    KeyedReplyAccepted(questions, raw);
    KeyedOutcome(questions, ReplyLines(raw), map[]);
    MissingExactly(questions, ParseKeyed(questions, ReplyLines(raw), map[]).value);
  }

  // ---------------------------------------------------------------------------------------------
  // What a successful parse returns

  /** An option question gets an offered label first; a free-text question gets a note or nothing. */
  ghost predicate FitsQuestion(q: Question, a: Answer) {
    if HasOptions(q) then
      && 1 <= |a| <= 2
      && a[0] in OfferedLabels(q)
      && (|a| == 2 ==> NOTE_PREFIX < a[1])
    else
      && |a| <= 1
      && (|a| == 1 ==> NOTE_PREFIX < a[0])
  }

  lemma ParsedAnswerFits(q: Question, raw: string)
    requires ParseAnswer(q, raw).Ok?
    ensures FitsQuestion(q, ParseAnswer(q, raw).value)
  {
    if HasOptions(q) {
      var (selection, note) := SplitNote(Trim(raw));
      if MatchOption(q, selection).Some? {
        MatchWasOffered(q, selection);
      } else {
        var labels := OfferedLabels(q);
        assert labels[|labels| - 1] == OTHER_LABEL;
      }
    }
  }

  /** Every answer is for some asked question and fits it, or is empty because the user cancelled. */
  ghost predicate AnswersFit(questions: seq<Question>, answers: Answers) {
    forall id :: id in answers ==> exists q :: q in questions && q.id == id && FitsQuestion(q, answers[id])
  }

  lemma {:induction false} PositionalOutcome(
      all: seq<Question>, questions: seq<Question>, lines: seq<string>, answers: Answers)
    requires |lines| == |questions|
    requires forall q :: q in questions ==> q in all
    requires AnswersFit(all, answers)
    requires ParsePositional(questions, lines, answers).Ok?
    ensures var m := ParsePositional(questions, lines, answers).value;
            m.Keys == answers.Keys + QuestionIds(questions) && AnswersFit(all, m)
    decreases |lines|
  {
    if lines != [] {
      var q := questions[0];
      var a := ParseAnswer(q, lines[0]).value;
      ParsedAnswerFits(q, lines[0]);
      assert q in all;
      assert AnswersFit(all, answers[q.id := a]);
      PositionalOutcome(all, questions[1..], lines[1..], answers[q.id := a]);
      assert QuestionIds(questions) == {q.id} + QuestionIds(questions[1..]);
    }
  }

  ghost predicate LinesParse(questions: seq<Question>, lines: seq<string>) {
    forall l :: l in lines ==> ParseLine(questions, l).Ok?
  }

  /** The ids the lines address. */
  ghost function AddressedIds(questions: seq<Question>, lines: seq<string>): set<string>
    requires LinesParse(questions, lines)
  {
    set l | l in lines :: ParseLine(questions, l).value.0
  }

  /** The keyed loop succeeds exactly when each line does, and answers exactly the addressed ids. */
  lemma {:induction false} KeyedOutcome(questions: seq<Question>, lines: seq<string>, answers: Answers)
    requires AnswersFit(questions, answers)
    ensures ParseKeyed(questions, lines, answers).Ok? <==> LinesParse(questions, lines)
    ensures LinesParse(questions, lines) ==>
              var m := ParseKeyed(questions, lines, answers).value;
              m.Keys == answers.Keys + AddressedIds(questions, lines) && AnswersFit(questions, m)
    decreases |lines|
  {
    if lines != [] {
      assert lines[0] in lines;
      assert forall l :: l in lines <==> l == lines[0] || l in lines[1..];
      if ParseLine(questions, lines[0]).Ok? {
        var (id, a) := ParseLine(questions, lines[0]).value;
        LineFits(questions, lines[0]);
        assert AnswersFit(questions, answers[id := a]);
        KeyedOutcome(questions, lines[1..], answers[id := a]);
        if LinesParse(questions, lines) {
          assert AddressedIds(questions, lines) == {id} + AddressedIds(questions, lines[1..]);
        }
      }
    }
  }

  lemma LineFits(questions: seq<Question>, line: string)
    requires ParseLine(questions, line).Ok?
    ensures var (id, a) := ParseLine(questions, line).value;
            exists q :: q in questions && q.id == id && FitsQuestion(q, a)
  {
    var (rawKey, rawValue) := SplitOnce(line, ':').value;
    var q := FindQuestion(questions, Trim(rawKey)).value;
    ParsedAnswerFits(q, Trim(rawValue));
  }

  lemma DistinctIdsCons(questions: seq<Question>)
    requires questions != []
    ensures QuestionIds(questions) == QuestionIds(questions[1..]) + {questions[0].id}
    ensures DistinctIds(questions) <==>
              questions[0].id !in QuestionIds(questions[1..]) && DistinctIds(questions[1..])
  {
    var rest := questions[1..];
    assert forall k :: 0 <= k < |rest| ==> rest[k] == questions[k + 1];
    if DistinctIds(questions) {
      forall i, j | 0 <= i < j < |rest| ensures rest[i].id != rest[j].id {
        assert questions[i + 1].id != questions[j + 1].id;
      }
      forall q | q in rest ensures q.id != questions[0].id {
        var k :| 0 <= k < |rest| && rest[k] == q;
        assert questions[0].id != questions[k + 1].id;
      }
    }
    if questions[0].id !in QuestionIds(rest) && DistinctIds(rest) {
      forall i, j | 0 <= i < j < |questions| ensures questions[i].id != questions[j].id {
        assert rest[j - 1] == questions[j] && rest[j - 1] in rest;
        if i > 0 {
          assert rest[i - 1].id != rest[j - 1].id;
        }
      }
    }
  }

  /** There are at most as many ids as questions, and as many only when no two are equal. */
  lemma {:induction false} IdCount(questions: seq<Question>)
    ensures |QuestionIds(questions)| <= |questions|
    ensures |QuestionIds(questions)| == |questions| <==> DistinctIds(questions)
  {
    if questions != [] {
      IdCount(questions[1..]);
      DistinctIdsCons(questions);
    }
  }

  lemma SubsetOfEqualSize<T>(a: set<T>, b: set<T>)
    requires a <= b && |a| >= |b|
    ensures a == b
  {
    assert |b - a| == |b| - |a|;
  }

  /** In all four reply modes, success answers each question and nothing else, with answers that fit. */
  lemma ParsedResponseIsComplete(questions: seq<Question>, raw: string)
    requires ParseResponse(questions, raw).Ok?
    ensures var m := ParseResponse(questions, raw).value;
            && m.Keys == QuestionIds(questions)
            && if IsCancel(raw) then forall id :: id in m ==> m[id] == [] else AnswersFit(questions, m)
  {
    var lines := ReplyLines(raw);
    if IsCancel(raw) {
    } else if |questions| == 1 {
      assert questions == [questions[0]];
      ParsedAnswerFits(questions[0], Trim(raw));
    } else if IsPositional(questions, raw) {
      PositionalOutcome(questions, questions, lines, map[]);
    } else {
      KeyedOutcome(questions, lines, map[]);
      AddressedAreAsked(questions, lines);
      IdCount(questions);
      SubsetOfEqualSize(AddressedIds(questions, lines), QuestionIds(questions));
    }
  }

  lemma AddressedAreAsked(questions: seq<Question>, lines: seq<string>)
    requires LinesParse(questions, lines)
    ensures AddressedIds(questions, lines) <= QuestionIds(questions)
  {
    forall l | l in lines ensures ParseLine(questions, l).value.0 in QuestionIds(questions) {
      LineFits(questions, l);
    }
  }

  lemma KeyedResponse(questions: seq<Question>, raw: string, answers: Answers)
    requires !IsCancel(raw) && |questions| != 1 && !IsPositional(questions, raw)
    requires ParseKeyed(questions, ReplyLines(raw), map[]) == Ok(answers) && |answers| == |questions|
    ensures ParseResponse(questions, raw) == Ok(answers)
  {}

  /**
   Exactly when a keyed reply is accepted: each line is a known key with a parsable answer, each
   question is addressed, and no two questions share an id.
   */
  lemma KeyedReplyAccepted(questions: seq<Question>, raw: string)
    requires !IsCancel(raw) && |questions| != 1 && !IsPositional(questions, raw)
    ensures ParseResponse(questions, raw).Ok? <==>
              && LinesParse(questions, ReplyLines(raw))
              && AddressedIds(questions, ReplyLines(raw)) == QuestionIds(questions)
              && DistinctIds(questions)
  {
    var lines := ReplyLines(raw);
    KeyedOutcome(questions, lines, map[]);
    IdCount(questions);
    if LinesParse(questions, lines) {
      AddressedAreAsked(questions, lines);
      if |AddressedIds(questions, lines)| == |questions| {
        SubsetOfEqualSize(AddressedIds(questions, lines), QuestionIds(questions));
      }
    }
  }
}
