/**
 Writing answers as `<id>: <answer>` lines, in any order, and parsing them gives the intended answers back.
 */
module UserInputRoundTrip {
  import opened Wrappers
  import opened Text
  import opened UserInput

  /** The ways a user can answer one question. */
  datatype Reply =
    | ByNumber(index: nat, note: Option<string>)
    | ByName(index: nat, note: Option<string>)
    | FreeText(text: string)

  function NoteSuffix(note: Option<string>): string {
    if note.Some? then " | " + note.value else ""
  }

  function Render(q: Question, reply: Reply): string
    requires Sayable(q, reply)
  {
    match reply
    case ByNumber(i, note) => PrintNat(i + 1) + NoteSuffix(note)
    case ByName(i, note) => OfferedLabels(q)[i] + NoteSuffix(note)
    case FreeText(text) => text
  }

  function Intended(q: Question, reply: Reply): Answer
    requires Sayable(q, reply)
  {
    match reply
    case FreeText(text) =>
      if HasOptions(q) then [OTHER_LABEL, NOTE_PREFIX + text]
      else if text == "" then []
      else [NOTE_PREFIX + text]
    case _ =>
      [OfferedLabels(q)[reply.index]]
      + if reply.note.Some? then [NOTE_PREFIX + reply.note.value] else []
  }

  predicate OneLine(text: string) {
    '\n' !in text && IsTrimmed(text)
  }

  /** A label that can be typed: its token is its own, it is not a number and it fits on the line. */
  predicate Typeable(labels: seq<string>, i: nat)
    requires i < |labels|
  {
    && '|' !in labels[i] && '\n' !in labels[i]
    && ParseUsize(Trim(labels[i])).None?
    && NormalizeToken(labels[i]) != ""
    && forall j :: 0 <= j < |labels| && j != i ==> NormalizeToken(labels[j]) != NormalizeToken(labels[i])
  }

  predicate NoteSayable(note: Option<string>) {
    note.Some? ==> OneLine(note.value) && note.value != ""
  }

  predicate Sayable(q: Question, reply: Reply) {
    match reply
    case FreeText(text) =>
      && OneLine(text)
      && (HasOptions(q) ==> q.isOther && text != "" && MatchOption(q, SplitNote(text).0).None?)
    case ByNumber(i, note) =>
      HasOptions(q) && i < |OfferedLabels(q)| && i + 1 < USIZE_LIMIT && NoteSayable(note)
    case ByName(i, note) =>
      HasOptions(q) && i < |OfferedLabels(q)| && Typeable(OfferedLabels(q), i) && NoteSayable(note)
  }

  /** How a line says which question it answers. */
  datatype Key = ById | ByHeader | ByPosition

  function KeyText(questions: seq<Question>, i: nat, key: Key): string
    requires i < |questions|
  {
    match key
    case ById => questions[i].id
    case ByHeader => questions[i].header
    case ByPosition => PrintNat(i + 1)
  }

  function Line(key: string, q: Question, reply: Reply): string
    requires Sayable(q, reply)
  {
    key + ": " + Render(q, reply)
  }

  /** A key that can be typed and means its question: a number does, and a name no question before answers to. */
  predicate Reaches(questions: seq<Question>, i: nat, key: Key)
    requires i < |questions|
  {
    var text := KeyText(questions, i, key);
    if key.ByPosition? then i + 1 < USIZE_LIMIT
    else
      && ':' !in text && '\n' !in text && ParseUsize(Trim(text)).None?
      && forall j :: 0 <= j < i ==> !AnswersToKey(questions[j], NormalizeToken(text))
  }

  ghost predicate Addressable(questions: seq<Question>, keys: seq<Key>) {
    |keys| == |questions| && forall i :: 0 <= i < |questions| ==> Reaches(questions, i, keys[i])
  }

  ghost predicate AllSayable(questions: seq<Question>, replies: seq<Reply>) {
    |questions| == |replies| && forall i :: 0 <= i < |questions| ==> Sayable(questions[i], replies[i])
  }

  ghost predicate Indices(order: seq<nat>, n: nat) {
    forall k :: 0 <= k < |order| ==> order[k] < n
  }

  ghost predicate IsPermutation(order: seq<nat>, n: nat) {
    && |order| == n && Indices(order, n)
    && forall i, j :: 0 <= i < j < |order| ==> order[i] != order[j]
  }

  function ReplyLinesInOrder(questions: seq<Question>, keys: seq<Key>, replies: seq<Reply>, order: seq<nat>): seq<string>
    requires AllSayable(questions, replies) && |keys| == |questions| && Indices(order, |questions|)
  {
    if order == [] then []
    else
      var i := order[0];
      [Line(KeyText(questions, i, keys[i]), questions[i], replies[i])]
      + ReplyLinesInOrder(questions, keys, replies, order[1..])
  }

  function ReplyText(questions: seq<Question>, keys: seq<Key>, replies: seq<Reply>, order: seq<nat>): string
    requires AllSayable(questions, replies) && |keys| == |questions| && Indices(order, |questions|)
  {
    Join(ReplyLinesInOrder(questions, keys, replies, order), "\n")
  }

  /** The answer each question is meant to get. */
  function IntendedValues(questions: seq<Question>, replies: seq<Reply>): (values: seq<Answer>)
    requires AllSayable(questions, replies)
    ensures |values| == |questions|
  {
    seq(|questions|, i requires 0 <= i < |questions| => Intended(questions[i], replies[i]))
  }

  function AnswersOf(questions: seq<Question>, values: seq<Answer>): Answers
    requires |questions| == |values|
  {
    if questions == [] then map[]
    else AnswersOf(questions[1..], values[1..])[questions[0].id := values[0]]
  }

  // ---------------------------------------------------------------------------------------------
  // Separators survive trimming

  lemma TrimAroundSeparator(a: string, c: char, b: string)
    requires !IsWhitespace(c)
    ensures Trim(a + [c] + b) == TrimStart(a) + [c] + TrimEnd(b)
  {
    var x := TrimStart(a);
    assert a + [c] + b == a + ([c] + b);
    TrimStartOfConcat(a, [c] + b);
    assert x + ([c] + b) == (x + [c]) + b;
    TrimEndOfConcat(x + [c], b);
  }

  /** Splitting a trimmed line at its first separator and trimming both sides ignores the outer trim. */
  lemma SplitOfTrimmed(a: string, c: char, b: string)
    requires !IsWhitespace(c) && c !in a
    ensures SplitOnce(Trim(a + [c] + b), c) == Some((TrimStart(a), TrimEnd(b)))
    ensures Trim(TrimStart(a)) == Trim(a) && Trim(TrimEnd(b)) == Trim(b)
  {
    TrimAroundSeparator(a, c, b);
    SplitOnceAt(TrimStart(a), c, TrimEnd(b));
    TrimOfTrimStart(a);
    TrimOfTrimEnd(b);
  }

  // ---------------------------------------------------------------------------------------------
  // One answer

  lemma AnswerIgnoresTrim(q: Question, raw: string)
    ensures ParseAnswer(q, Trim(raw)) == ParseAnswer(q, raw)
  {
    TrimIsTrimmed(raw);
  }

  lemma MatchIgnoresTrim(q: Question, answer: string)
    ensures MatchOption(q, Trim(answer)) == MatchOption(q, answer)
  {
    TrimIsTrimmed(answer);
  }

  lemma SplitNoteOfBar(choice: string, note: string)
    requires '|' !in choice && IsTrimmed(note)
    ensures SplitNote(Trim(choice + (" | " + note))) == (Trim(choice), Some(note))
  {
    var a, b := choice + " ", " " + note;
    assert choice + (" | " + note) == a + ['|'] + b;
    SplitOfTrimmed(a, '|', b);
    TrimDropLast(a);
    assert a[..|a| - 1] == choice;
    TrimDropFirst(b);
    assert b[1..] == note;
    TrimOfTrimmed(note);
  }

  lemma SplitNoteWithout(choice: string)
    requires '|' !in choice
    ensures SplitNote(Trim(choice)) == (Trim(choice), None)
  {
    TrimIsTrimmed(choice);
    SplitOnceAbsent(Trim(choice), '|');
  }

  lemma SplitNoteOfChoice(choice: string, note: Option<string>)
    requires '|' !in choice
    requires note.Some? ==> IsTrimmed(note.value)
    ensures SplitNote(Trim(choice + NoteSuffix(note))) == (Trim(choice), note)
  {
    match note
    case Some(text) => SplitNoteOfBar(choice, text);
    case None =>
      SplitNoteWithout(choice);
      assert choice + NoteSuffix(note) == choice;
  }

  lemma NumberReplyParses(q: Question, i: nat, note: Option<string>)
    requires Sayable(q, ByNumber(i, note))
    ensures ParseAnswer(q, Render(q, ByNumber(i, note))) == Ok(Intended(q, ByNumber(i, note)))
  {
    var s := PrintNat(i + 1);
    SplitNoteOfChoice(s, note);
    DigitsAreTrimmed(s);
    TrimOfTrimmed(s);
    PrintedNumberSelects(q, i);
  }

  lemma NameReplyParses(q: Question, i: nat, note: Option<string>)
    requires Sayable(q, ByName(i, note))
    ensures ParseAnswer(q, Render(q, ByName(i, note))) == Ok(Intended(q, ByName(i, note)))
  {
    var s := OfferedLabels(q)[i];
    SplitNoteOfChoice(s, note);
    MatchIgnoresTrim(q, s);
    OwnLabelSelects(q, i);
  }

  lemma TextReplyParses(q: Question, text: string)
    requires Sayable(q, FreeText(text))
    ensures ParseAnswer(q, Render(q, FreeText(text))) == Ok(Intended(q, FreeText(text)))
  {
    TrimOfTrimmed(text);
  }

  /** A rendered reply parses to the answer it stands for. */
  lemma RenderedReplyParses(q: Question, reply: Reply)
    requires Sayable(q, reply)
    ensures ParseAnswer(q, Render(q, reply)) == Ok(Intended(q, reply))
  {
    match reply
    case ByNumber(i, note) => NumberReplyParses(q, i, note);
    case ByName(i, note) => NameReplyParses(q, i, note);
    case FreeText(text) => TextReplyParses(q, text);
  }

  lemma RenderedReplyIsOneLine(q: Question, reply: Reply)
    requires Sayable(q, reply)
    ensures '\n' !in Render(q, reply)
  {}

  // ---------------------------------------------------------------------------------------------
  // One line

  lemma KeyIsPlain(questions: seq<Question>, i: nat, key: Key)
    requires i < |questions| && Reaches(questions, i, key)
    ensures ':' !in KeyText(questions, i, key) && '\n' !in KeyText(questions, i, key)
  {}

  /** A key that reaches its question finds it. */
  lemma KeyFinds(questions: seq<Question>, i: nat, key: Key)
    requires i < |questions| && Reaches(questions, i, key)
    ensures FindQuestion(questions, Trim(KeyText(questions, i, key))) == Some(questions[i])
  {
    var text := KeyText(questions, i, key);
    if key.ByPosition? {
      DigitsAreTrimmed(text);
      TrimOfTrimmed(text);
      NumberKeyFinds(questions, i + 1);
    } else {
      NormalizeOfTrim(text);
      FirstByToken(questions, NormalizeToken(text), i);
    }
  }

  lemma KeyedLineParses(questions: seq<Question>, i: nat, text: string, reply: Reply)
    requires i < |questions| && Sayable(questions[i], reply)
    requires ':' !in text && FindQuestion(questions, Trim(text)) == Some(questions[i])
    ensures var line := Trim(Line(text, questions[i], reply));
            ParseLine(questions, line) == Ok((questions[i].id, Intended(questions[i], reply))) && ':' in line
  {
    var q := questions[i];
    var b := " " + Render(q, reply);
    assert Line(text, q, reply) == text + [':'] + b;
    SplitOfTrimmed(text, ':', b);
    TrimAroundSeparator(text, ':', b);
    assert (TrimStart(text) + [':'] + TrimEnd(b))[|TrimStart(text)|] == ':';
    TrimDropFirst(b);
    AnswerIgnoresTrim(q, Render(q, reply));
    RenderedReplyParses(q, reply);
  }

  lemma OwnLineParses(questions: seq<Question>, i: nat, key: Key, reply: Reply)
    requires i < |questions| && Reaches(questions, i, key) && Sayable(questions[i], reply)
    ensures var line := Trim(Line(KeyText(questions, i, key), questions[i], reply));
            ParseLine(questions, line) == Ok((questions[i].id, Intended(questions[i], reply))) && ':' in line
  {
    KeyIsPlain(questions, i, key);
    KeyFinds(questions, i, key);
    KeyedLineParses(questions, i, KeyText(questions, i, key), reply);
  }

  // ---------------------------------------------------------------------------------------------
  // Lines of the whole reply

  function Clean(line: string): seq<string> {
    if Trim(line) == "" then [] else [Trim(line)]
  }

  function CleanLines(s: string): seq<string> {
    NonBlankLines(Lines(s))
  }

  lemma CleanCarriageReturn(line: string)
    ensures Clean(StripCarriageReturn(line)) == Clean(line)
  {
    if line != "" && line[|line| - 1] == '\r' {
      TrimDropLast(line);
    }
  }

  /** The trimmed, non-blank lines of a text, without regard to carriage returns. */
  function Cleaned(s: string): seq<string> {
    var i := IndexOf(s, '\n');
    if i == |s| then Clean(s) else Clean(s[..i]) + Cleaned(s[i + 1..])
  }

  lemma {:induction false} CleanLinesAreCleaned(s: string)
    ensures CleanLines(s) == Cleaned(s)
    decreases |s|
  {
    var i := IndexOf(s, '\n');
    if s == "" {
    } else if i == |s| {
      assert Lines(s) == [s];
      assert NonBlankLines([s][1..]) == [];
    } else {
      var rest := Lines(s[i + 1..]);
      assert Lines(s) == [StripCarriageReturn(s[..i])] + rest;
      assert Lines(s)[1..] == rest;
      CleanCarriageReturn(s[..i]);
      CleanLinesAreCleaned(s[i + 1..]);
    }
  }

  lemma CleanDropFirst(line: string)
    requires line != "" && IsWhitespace(line[0])
    ensures Clean(line) == Clean(line[1..])
  {
    TrimDropFirst(line);
  }

  lemma CleanDropLast(line: string)
    requires line != "" && IsWhitespace(line[|line| - 1])
    ensures Clean(line) == Clean(line[..|line| - 1])
  {
    TrimDropLast(line);
  }

  lemma CleanedAtBreak(s: string, i: nat)
    requires i < |s| && IndexOf(s, '\n') == i
    ensures Cleaned(s) == Clean(s[..i]) + Cleaned(s[i + 1..])
  {}

  lemma IndexOfRest(s: string, c: char)
    requires s != "" && s[0] != c
    ensures IndexOf(s[1..], c) == IndexOf(s, c) - 1
  {}

  lemma CleanedUnbroken(s: string)
    requires IndexOf(s, '\n') == |s|
    ensures Cleaned(s) == Clean(s)
  {}

  lemma CleanedDropBreak(s: string)
    requires s != "" && s[0] == '\n'
    ensures Cleaned(s) == Cleaned(s[1..])
  {
    CleanedAtBreak(s, 0);
    assert s[..0] == "" && Clean("") == [];
  }

  lemma CleanedDropFirstOfLine(s: string, i: nat)
    requires s != "" && IsWhitespace(s[0]) && 0 < i < |s| && IndexOf(s, '\n') == i
    ensures Cleaned(s) == Cleaned(s[1..])
  {
    var rest := s[1..];
    IndexOfRest(s, '\n');
    CleanedAtBreak(s, i);
    CleanedAtBreak(rest, i - 1);
    CleanDropFirst(s[..i]);
    assert s[..i][1..] == rest[..i - 1] && rest[i..] == s[i + 1..];
  }

  lemma CleanedDropFirst(s: string)
    requires s != "" && IsWhitespace(s[0])
    ensures Cleaned(s) == Cleaned(s[1..])
  {
    var i := IndexOf(s, '\n');
    if i == 0 {
      CleanedDropBreak(s);
    } else if i < |s| {
      CleanedDropFirstOfLine(s, i);
    } else {
      IndexOfRest(s, '\n');
      CleanedUnbroken(s);
      CleanedUnbroken(s[1..]);
      CleanDropFirst(s);
    }
  }

  lemma IndexOfPrefix(s: string, c: char)
    requires s != ""
    ensures var i, init := IndexOf(s, c), s[..|s| - 1];
            IndexOf(init, c) == if i < |init| then i else |init|
  {
    var init := s[..|s| - 1];
    var i, j := IndexOf(s, c), IndexOf(init, c);
    assert forall k :: 0 <= k < |init| ==> init[k] == s[k];
  }

  lemma {:induction false} CleanedDropLast(s: string)
    requires s != "" && IsWhitespace(s[|s| - 1])
    ensures Cleaned(s) == Cleaned(s[..|s| - 1])
    decreases |s|
  {
    var init, i := s[..|s| - 1], IndexOf(s, '\n');
    IndexOfPrefix(s, '\n');
    if i == |s| {
      CleanDropLast(s);
    } else if i == |s| - 1 {
      assert s[..i] == init && s[i + 1..] == "";
      assert Cleaned("") == [];
    } else {
      var tail := s[i + 1..];
      assert init[..i] == s[..i] && init[i + 1..] == tail[..|tail| - 1];
      CleanedDropLast(tail);
    }
  }

  lemma {:induction false} CleanedOfTrimEnd(s: string)
    ensures Cleaned(TrimEnd(s)) == Cleaned(s)
    decreases |s|
  {
    if s != "" && IsWhitespace(s[|s| - 1]) {
      CleanedDropLast(s);
      CleanedOfTrimEnd(s[..|s| - 1]);
    }
  }

  lemma {:induction false} CleanedOfTrimStart(s: string)
    ensures Cleaned(TrimStart(s)) == Cleaned(s)
    decreases |s|
  {
    if s != "" && IsWhitespace(s[0]) {
      CleanedDropFirst(s);
      CleanedOfTrimStart(s[1..]);
    }
  }

  /** Trimming a whole reply changes none of its trimmed, non-blank lines. */
  lemma CleanLinesOfTrim(s: string)
    ensures CleanLines(Trim(s)) == CleanLines(s)
  {
    CleanLinesAreCleaned(Trim(s));
    CleanedOfTrimEnd(TrimStart(s));
    CleanedOfTrimStart(s);
    CleanLinesAreCleaned(s);
  }

  lemma {:induction false} CleanedJoin(lines: seq<string>)
    requires forall l :: l in lines ==> '\n' !in l
    ensures Cleaned(Join(lines, "\n")) == NonBlankLines(lines)
  {
    if lines != [] {
      var first, rest := lines[0], lines[1..];
      assert first in lines;
      if |lines| == 1 {
        assert IndexOf(first, '\n') == |first|;
        assert NonBlankLines(rest) == [];
      } else {
        CleanedJoin(rest);
        var tail := Join(rest, "\n");
        var s := first + ['\n'] + tail;
        assert Join(lines, "\n") == s;
        IndexOfFirst(first, '\n', tail);
        assert s[..|first|] == first && s[|first| + 1..] == tail;
      }
    }
  }

  lemma CleanLinesOfJoin(lines: seq<string>)
    requires forall l :: l in lines ==> '\n' !in l
    ensures CleanLines(Join(lines, "\n")) == NonBlankLines(lines)
  {
    CleanLinesAreCleaned(Join(lines, "\n"));
    CleanedJoin(lines);
  }

  // ---------------------------------------------------------------------------------------------
  // The whole reply

  ghost function Elements(order: seq<nat>): set<nat> {
    set x | x in order
  }

  lemma KeyedStep(questions: seq<Question>, keys: seq<Key>, replies: seq<Reply>, todo: seq<nat>, acc: Answers)
    requires AllSayable(questions, replies) && Addressable(questions, keys)
    requires todo != [] && Indices(todo, |questions|)
    ensures var i := todo[0];
            ParseKeyed(questions, NonBlankLines(ReplyLinesInOrder(questions, keys, replies, todo)), acc)
            == ParseKeyed(questions, NonBlankLines(ReplyLinesInOrder(questions, keys, replies, todo[1..])),
                          acc[questions[i].id := IntendedValues(questions, replies)[i]])
  {
    var i := todo[0];
    var line := Line(KeyText(questions, i, keys[i]), questions[i], replies[i]);
    var lines := ReplyLinesInOrder(questions, keys, replies, todo);
    assert lines[0] == line && lines[1..] == ReplyLinesInOrder(questions, keys, replies, todo[1..]);
    OwnLineParses(questions, i, keys[i], replies[i]);
    var clean := NonBlankLines(lines);
    assert Trim(line) != "";
    assert clean[0] == Trim(line) && clean[1..] == NonBlankLines(lines[1..]);
  }

  /** The answers recorded line by line. */
  function Record(questions: seq<Question>, values: seq<Answer>, order: seq<nat>, acc: Answers): Answers
    requires |questions| == |values| && Indices(order, |questions|)
  {
    if order == [] then acc
    else Record(questions, values, order[1..], acc[questions[order[0]].id := values[order[0]]])
  }

  lemma {:induction false} KeyedLoop(
      questions: seq<Question>, keys: seq<Key>, replies: seq<Reply>, todo: seq<nat>, acc: Answers)
    requires AllSayable(questions, replies) && Addressable(questions, keys)
    requires Indices(todo, |questions|)
    ensures ParseKeyed(questions, NonBlankLines(ReplyLinesInOrder(questions, keys, replies, todo)), acc)
         == Ok(Record(questions, IntendedValues(questions, replies), todo, acc))
    decreases |todo|
  {
    if todo != [] {
      var i := todo[0];
      KeyedStep(questions, keys, replies, todo, acc);
      KeyedLoop(questions, keys, replies, todo[1..], acc[questions[i].id := IntendedValues(questions, replies)[i]]);
    }
  }

  lemma {:induction false} RecordGet(
      questions: seq<Question>, values: seq<Answer>, order: seq<nat>, acc: Answers, i: nat)
    requires |questions| == |values| && DistinctIds(questions)
    requires Indices(order, |questions|) && i < |questions|
    requires i in order || (questions[i].id in acc && acc[questions[i].id] == values[i])
    ensures var m := Record(questions, values, order, acc);
            questions[i].id in m && m[questions[i].id] == values[i]
    decreases |order|
  {
    if order != [] {
      var k := order[0];
      assert k == i || questions[k].id != questions[i].id;
      RecordGet(questions, values, order[1..], acc[questions[k].id := values[k]], i);
    }
  }

  lemma {:induction false} RecordKeys(questions: seq<Question>, values: seq<Answer>, order: seq<nat>, acc: Answers)
    requires |questions| == |values| && Indices(order, |questions|)
    requires acc.Keys <= QuestionIds(questions)
    ensures Record(questions, values, order, acc).Keys <= QuestionIds(questions)
    decreases |order|
  {
    if order != [] {
      var q := questions[order[0]];
      assert q in questions;
      RecordKeys(questions, values, order[1..], acc[q.id := values[order[0]]]);
    }
  }

  lemma {:induction false} AnswersOfContents(questions: seq<Question>, values: seq<Answer>)
    requires |questions| == |values| && DistinctIds(questions)
    ensures var m := AnswersOf(questions, values);
            && m.Keys == QuestionIds(questions)
            && forall i :: 0 <= i < |questions| ==> m[questions[i].id] == values[i]
  {
    if questions != [] {
      DistinctIdsCons(questions);
      AnswersOfContents(questions[1..], values[1..]);
      var m := AnswersOf(questions, values);
      forall i | 0 <= i < |questions| ensures m[questions[i].id] == values[i] {
        if i > 0 {
          assert questions[i] == questions[1..][i - 1] && questions[i] in questions[1..];
        }
      }
    }
  }

  ghost function Below(n: nat): (s: set<nat>)
    ensures |s| == n && forall k: nat :: k in s <==> k < n
  {
    if n == 0 then {} else Below(n - 1) + {n - 1}
  }

  lemma {:induction false} DistinctCount(order: seq<nat>)
    requires forall i, j :: 0 <= i < j < |order| ==> order[i] != order[j]
    ensures |Elements(order)| == |order|
  {
    if order != [] {
      var n := |order| - 1;
      DistinctCount(order[..n]);
      assert order == order[..n] + [order[n]];
      assert order[n] !in order[..n];
      assert Elements(order) == Elements(order[..n]) + {order[n]};
    }
  }

  lemma {:induction false} ReplyLinesHaveKeys(
      questions: seq<Question>, keys: seq<Key>, replies: seq<Reply>, order: seq<nat>)
    requires AllSayable(questions, replies) && Addressable(questions, keys) && Indices(order, |questions|)
    ensures var lines := ReplyLinesInOrder(questions, keys, replies, order);
            && |NonBlankLines(lines)| == |order|
            && (forall l :: l in lines ==> '\n' !in l)
            && (forall l :: l in NonBlankLines(lines) ==> ':' in l)
  {
    if order != [] {
      var i := order[0];
      var q, reply, key := questions[i], replies[i], keys[i];
      OwnLineParses(questions, i, key, reply);
      KeyIsPlain(questions, i, key);
      RenderedReplyIsOneLine(q, reply);
      ReplyLinesHaveKeys(questions, keys, replies, order[1..]);
      var lines := ReplyLinesInOrder(questions, keys, replies, order);
      assert lines[0] == Line(KeyText(questions, i, key), q, reply);
      assert lines[1..] == ReplyLinesInOrder(questions, keys, replies, order[1..]);
    }
  }

  lemma CleanLineOccurs(s: string, c: char)
    requires exists l :: l in CleanLines(s) && c in l
    ensures c in s
  {
    var l :| l in CleanLines(s) && c in l;
    CleanLineIsPart(Lines(s), l);
    var whole :| whole in Lines(s) && l == Trim(whole);
    TrimIsTrimmed(whole);
    LineIsPart(s, whole);
  }

  lemma {:induction false} CleanLineIsPart(lines: seq<string>, l: string)
    requires l in NonBlankLines(lines)
    ensures exists whole :: whole in lines && l == Trim(whole)
  {
    if l == Trim(lines[0]) {
      assert lines[0] in lines;
    } else {
      CleanLineIsPart(lines[1..], l);
      var whole :| whole in lines[1..] && l == Trim(whole);
      assert whole in lines;
    }
  }

  lemma {:induction false} LineIsPart(s: string, whole: string)
    requires whole in Lines(s)
    ensures forall c :: c in whole ==> c in s
  {
    var i := IndexOf(s, '\n');
    if i < |s| && whole != StripCarriageReturn(s[..i]) {
      LineIsPart(s[i + 1..], whole);
    }
  }

  lemma ColonIsNotCancel(raw: string)
    requires ':' in Trim(raw)
    ensures !IsCancel(raw)
  {
    var trimmed := Trim(raw);
    var i :| 0 <= i < |trimmed| && trimmed[i] == ':';
    if |trimmed| == |"cancel"| {
      assert ToLowerAscii(trimmed[i]) == ':' && ToLowerAscii("cancel"[i]) != ':';
    }
  }

  lemma ReplyTakesKeyedBranch(questions: seq<Question>, keys: seq<Key>, replies: seq<Reply>, order: seq<nat>)
    requires |questions| >= 2
    requires Addressable(questions, keys) && AllSayable(questions, replies)
    requires IsPermutation(order, |questions|)
    ensures var raw := ReplyText(questions, keys, replies, order);
            && !IsCancel(raw) && !IsPositional(questions, raw)
            && ReplyLines(raw) == NonBlankLines(ReplyLinesInOrder(questions, keys, replies, order))
  {
    var raw := ReplyText(questions, keys, replies, order);
    var lines := ReplyLinesInOrder(questions, keys, replies, order);
    ReplyLinesHaveKeys(questions, keys, replies, order);
    CleanLinesOfTrim(raw);
    CleanLinesOfJoin(lines);
    var clean := ReplyLines(raw);
    assert clean[0] in clean;
    TrimIsTrimmed(raw);
    CleanLineOccurs(Trim(raw), ':');
    ColonIsNotCancel(raw);
  }

  lemma PermutationElements(order: seq<nat>, n: nat)
    requires IsPermutation(order, n)
    ensures Elements(order) == Below(n)
  {
    DistinctCount(order);
    SubsetOfEqualSize(Elements(order), Below(n));
  }

  /** Recording every answer once, in any order, gives each question its own. */
  lemma RecordAll(questions: seq<Question>, values: seq<Answer>, order: seq<nat>)
    requires |questions| == |values| && DistinctIds(questions)
    requires IsPermutation(order, |questions|)
    ensures Record(questions, values, order, map[]) == AnswersOf(questions, values)
    ensures |AnswersOf(questions, values)| == |questions|
  {
    var m, whole := Record(questions, values, order, map[]), AnswersOf(questions, values);
    AnswersOfContents(questions, values);
    PermutationElements(order, |questions|);
    forall i | 0 <= i < |questions| ensures questions[i].id in m && m[questions[i].id] == values[i] {
      assert i in Below(|questions|) && i in Elements(order);
      RecordGet(questions, values, order, map[], i);
    }
    RecordKeys(questions, values, order, map[]);
    SameAnswers(questions, values, m, whole);
    IdCount(questions);
    assert |whole| == |whole.Keys|;
  }

  lemma SameAnswers(questions: seq<Question>, values: seq<Answer>, a: Answers, b: Answers)
    requires |questions| == |values|
    requires a.Keys <= QuestionIds(questions) && b.Keys <= QuestionIds(questions)
    requires forall i :: 0 <= i < |questions| ==> questions[i].id in a && a[questions[i].id] == values[i]
    requires forall i :: 0 <= i < |questions| ==> questions[i].id in b && b[questions[i].id] == values[i]
    ensures a == b
  {
    forall id | id in QuestionIds(questions) ensures id in a && id in b && a[id] == b[id] {
      var q :| q in questions && q.id == id;
      var i :| 0 <= i < |questions| && questions[i] == q;
    }
  }

  /**
   The round trip: for two or more questions, answers written one per line in any order, each keyed by
   the id, the header or the number of its question, parse to exactly the intended answers.
   */
  lemma ReplyRoundTrip(questions: seq<Question>, keys: seq<Key>, replies: seq<Reply>, order: seq<nat>)
    requires |questions| >= 2 && DistinctIds(questions)
    requires Addressable(questions, keys) && AllSayable(questions, replies)
    requires IsPermutation(order, |questions|)
    ensures ParseResponse(questions, ReplyText(questions, keys, replies, order))
         == Ok(AnswersOf(questions, IntendedValues(questions, replies)))
  {
    var raw := ReplyText(questions, keys, replies, order);
    ReplyTakesKeyedBranch(questions, keys, replies, order);
    var values := IntendedValues(questions, replies);
    KeyedLoop(questions, keys, replies, order, map[]);
    RecordAll(questions, values, order);
    KeyedResponse(questions, raw, AnswersOf(questions, values));
  }

  // ---------------------------------------------------------------------------------------------
  // Replies without keys

  /**
   A single question answered as printed gets the intended answer exactly when the reply is no word
   for cancel, or intends nothing.
   */
  lemma SingleReplyRoundTripExactlyWhen(q: Question, reply: Reply)
    requires Sayable(q, reply)
    ensures ParseResponse([q], Render(q, reply)) == Ok(map[q.id := Intended(q, reply)])
       <==> !IsCancel(Render(q, reply)) || Intended(q, reply) == []
  {
    var raw, m := Render(q, reply), map[q.id := Intended(q, reply)];
    RenderedReplyParses(q, reply);
    AnswerIgnoresTrim(q, raw);
    var none := EmptyAnswers([q]);
    assert [q][1..] == [];
    assert none == map[q.id := []];
    assert m[q.id] == Intended(q, reply);
  }

  function RenderedInOrder(questions: seq<Question>, replies: seq<Reply>): (r: seq<string>)
    requires AllSayable(questions, replies)
    ensures |r| == |questions|
    ensures forall i :: 0 <= i < |r| ==> r[i] == Render(questions[i], replies[i])
  {
    seq(|questions|, i requires 0 <= i < |questions| => Render(questions[i], replies[i]))
  }

  /** No reply is blank, and some has no colon that could set off a key. */
  ghost predicate Keyless(lines: seq<string>) {
    && (forall l :: l in lines ==> Trim(l) != "")
    && exists l :: l in lines && ':' !in Trim(l)
  }

  lemma {:induction false} CleanCount(lines: seq<string>)
    ensures |NonBlankLines(lines)| <= |lines|
    ensures |NonBlankLines(lines)| == |lines| <==> forall l :: l in lines ==> Trim(l) != ""
    ensures |NonBlankLines(lines)| == |lines| ==> forall i :: 0 <= i < |lines| ==> NonBlankLines(lines)[i] == Trim(lines[i])
  {
    if lines != [] {
      assert lines[0] in lines;
      CleanCount(lines[1..]);
    }
  }

  lemma NoBreakInCancel(raw: string)
    requires IsCancel(raw)
    ensures '\n' !in Trim(raw)
  {
    var trimmed := Trim(raw);
    forall i | 0 <= i < |trimmed| ensures trimmed[i] != '\n' {
      if EqIgnoreAsciiCase(trimmed, "cancel") {
        assert ToLowerAscii("cancel"[i]) != '\n';
      }
    }
  }

  lemma CancelIsOneLine(raw: string)
    requires IsCancel(raw)
    ensures |ReplyLines(raw)| <= 1
  {
    NoBreakInCancel(raw);
    CleanLinesAreCleaned(Trim(raw));
    assert IndexOf(Trim(raw), '\n') == |Trim(raw)|;
  }

  /** The lines are the printed replies, trimmed. */
  ghost predicate AreTrimmed(questions: seq<Question>, replies: seq<Reply>, lines: seq<string>)
    requires AllSayable(questions, replies)
  {
    |lines| == |questions| && forall i :: 0 <= i < |lines| ==> lines[i] == Trim(Render(questions[i], replies[i]))
  }

  lemma SomeLineIsKeyless(lines: seq<string>, clean: seq<string>)
    requires |clean| == |lines| && forall i :: 0 <= i < |lines| ==> clean[i] == Trim(lines[i])
    ensures (exists l :: l in lines && ':' !in Trim(l)) <==> !forall l :: l in clean ==> ':' in l
  {
    if l :| l in lines && ':' !in Trim(l) {
      var i :| 0 <= i < |lines| && lines[i] == l;
      assert clean[i] in clean;
    }
    if l :| l in clean && ':' !in l {
      var i :| 0 <= i < |clean| && clean[i] == l;
      assert lines[i] in lines;
    }
  }

  /** Replies written one per line are taken by position exactly when they are keyless. */
  lemma PositionalExactlyWhenKeyless(questions: seq<Question>, replies: seq<Reply>)
    requires AllSayable(questions, replies)
    ensures var lines, raw := RenderedInOrder(questions, replies), Join(RenderedInOrder(questions, replies), "\n");
            && (IsPositional(questions, raw) <==> Keyless(lines))
            && (Keyless(lines) ==> AreTrimmed(questions, replies, ReplyLines(raw)))
  {
    var lines := RenderedInOrder(questions, replies);
    var raw := Join(lines, "\n");
    forall l | l in lines ensures '\n' !in l {
      var i :| 0 <= i < |lines| && lines[i] == l;
      RenderedReplyIsOneLine(questions[i], replies[i]);
    }
    TrimIsTrimmed(raw);
    CleanLinesOfTrim(raw);
    CleanLinesOfJoin(lines);
    CleanCount(lines);
    if |ReplyLines(raw)| == |lines| {
      SomeLineIsKeyless(lines, ReplyLines(raw));
    }
  }

  /** The questions from a place on, in order. */
  function From(k: nat, n: nat): (order: seq<nat>)
    requires k <= n
    ensures |order| == n - k && forall i :: 0 <= i < |order| ==> order[i] == k + i
    decreases n - k
  {
    if k == n then [] else [k] + From(k + 1, n)
  }

  lemma {:induction false} PositionalLoop(
      questions: seq<Question>, replies: seq<Reply>, lines: seq<string>, k: nat, acc: Answers)
    requires AllSayable(questions, replies) && AreTrimmed(questions, replies, lines) && k <= |questions|
    ensures ParsePositional(questions[k..], lines[k..], acc)
         == Ok(Record(questions, IntendedValues(questions, replies), From(k, |questions|), acc))
    decreases |questions| - k
  {
    if k < |questions| {
      var q, values, order := questions[k], IntendedValues(questions, replies), From(k, |questions|);
      AnswerIgnoresTrim(q, Render(q, replies[k]));
      RenderedReplyParses(q, replies[k]);
      assert questions[k..][1..] == questions[k + 1..] && lines[k..][1..] == lines[k + 1..];
      assert order[0] == k && order[1..] == From(k + 1, |questions|);
      PositionalLoop(questions, replies, lines, k + 1, acc[q.id := values[k]]);
    }
  }

  lemma LinesParseByPosition(questions: seq<Question>, replies: seq<Reply>, lines: seq<string>)
    requires AllSayable(questions, replies) && DistinctIds(questions) && AreTrimmed(questions, replies, lines)
    ensures ParsePositional(questions, lines, map[]) == Ok(AnswersOf(questions, IntendedValues(questions, replies)))
  {
    var order := From(0, |questions|);
    PositionalLoop(questions, replies, lines, 0, map[]);
    assert questions[0..] == questions && lines[0..] == lines;
    assert IsPermutation(order, |questions|);
    RecordAll(questions, IntendedValues(questions, replies), order);
  }

  lemma PositionalResponse(questions: seq<Question>, raw: string)
    requires |questions| >= 2 && IsPositional(questions, raw)
    ensures ParseResponse(questions, raw) == ParsePositional(questions, ReplyLines(raw), map[])
  {
    if IsCancel(raw) {
      CancelIsOneLine(raw);
    }
  }

  lemma PositionalReplyParses(questions: seq<Question>, replies: seq<Reply>, raw: string)
    requires |questions| >= 2 && DistinctIds(questions) && AllSayable(questions, replies)
    requires IsPositional(questions, raw) && AreTrimmed(questions, replies, ReplyLines(raw))
    ensures ParseResponse(questions, raw) == Ok(AnswersOf(questions, IntendedValues(questions, replies)))
  {
    PositionalResponse(questions, raw);
    LinesParseByPosition(questions, replies, ReplyLines(raw));
  }

  /**
   Two or more questions answered one per line, in their order and without keys, get the intended
   answers.
   */
  lemma PositionalRoundTrip(questions: seq<Question>, replies: seq<Reply>)
    requires |questions| >= 2 && DistinctIds(questions) && AllSayable(questions, replies)
    requires Keyless(RenderedInOrder(questions, replies))
    ensures ParseResponse(questions, Join(RenderedInOrder(questions, replies), "\n"))
         == Ok(AnswersOf(questions, IntendedValues(questions, replies)))
  {
    var raw := Join(RenderedInOrder(questions, replies), "\n");
    PositionalExactlyWhenKeyless(questions, replies);
    PositionalReplyParses(questions, replies, raw);
  }
}
