/** `AiFlashcardViewModel`: asks a language model for flashcards on a topic
    and parses its reply with the regular expression
    `\d+\.\s*Q:\s*(.*?)\s*A:\s*(.*)`, searched for repeatedly as
    `Regex.findAll` does.

    The regular expression is modelled by its meaning under
    `java.util.regex`: `\d` is an ASCII digit, `\s` one of the six ASCII
    spaces, `.` any character but a line terminator, and the search tries
    each start position in turn and, at a start, takes the first match in
    backtracking order (greedy `\s*` and `.*`, lazy `.*?`). */
module Flashcards {
  import opened Kotlin

  datatype Flashcard = Flashcard(question: string, answer: string)

  datatype UiState = Idle | Loading | Success(flashcards: seq<Flashcard>) | Error(message: string)

  /** How the model call ended: a reply whose text may be null, or an
      exception with a (nullable) localized message. */
  datatype ModelReply = Replied(text: Option<string>) | Threw(message: Option<string>)

  /** `\d`. */
  predicate IsDigit(c: char) {
    '0' <= c <= '9'
  }

  /** `\s`: space, tab, line feed, vertical tab, form feed, carriage return. */
  predicate IsRegexSpace(c: char) {
    c == ' ' || c == '\t' || c == '\n' || c == '\U{B}' || c == '\U{C}' || c == '\r'
  }

  /** `.`: every character except the line terminators. */
  predicate IsDotChar(c: char) {
    !(c == '\n' || c == '\r' || c == '\U{85}' || c == '\U{2028}' || c == '\U{2029}')
  }

  /** The character classes the pattern uses. */
  datatype CharClass = Digit | Space | Dot

  predicate InClass(k: CharClass, c: char) {
    match k
    case Digit => IsDigit(c)
    case Space => IsRegexSpace(c)
    case Dot => IsDotChar(c)
  }

  /** `s[i..j]` consists of characters satisfying `p`. */
  ghost predicate Run(s: string, i: int, j: int, p: CharClass) {
    0 <= i <= j <= |s| && forall k :: i <= k < j ==> InClass(p, s[k])
  }

  /** The character `c` is at `i` in `s`. */
  predicate CharAt(s: string, i: int, c: char) {
    0 <= i < |s| && s[i] == c
  }

  /** The two-character marker `Q:` or `A:` (for `letter` `Q` or `A`)
      starts at `i` in `s`. */
  predicate MarkerAt(s: string, i: int, letter: char) {
    CharAt(s, i, letter) && CharAt(s, i + 1, ':')
  }

  /** The end of the longest run of `p`-characters starting at `i`: where a
      greedy `p*` stops. */
  function RunEnd(s: string, i: nat, p: CharClass): (j: nat)
    requires i <= |s|
    ensures i <= j <= |s|
    decreases |s| - i
  {
    if i == |s| || !InClass(p, s[i]) then i else RunEnd(s, i + 1, p)
  }

  /** `RunEnd` ends a run of `p` that cannot be extended. */
  lemma {:induction false} RunEndSpec(s: string, i: nat, p: CharClass)
    requires i <= |s|
    ensures Run(s, i, RunEnd(s, i, p), p)
    ensures RunEnd(s, i, p) == |s| || !InClass(p, s[RunEnd(s, i, p)])
    decreases |s| - i
  {
    if i < |s| && InClass(p, s[i]) {
      RunEndSpec(s, i + 1, p);
    }
  }

  /** A run of `p` from `i` that cannot be extended ends where `RunEnd` says. */
  lemma RunEndUnique(s: string, i: nat, j: nat, p: CharClass)
    requires i <= |s| && Run(s, i, j, p) && (j == |s| || !InClass(p, s[j]))
    ensures RunEnd(s, i, p) == j
  {
    var r := RunEnd(s, i, p);
    RunEndSpec(s, i, p);
    if r < j {
      assert false;
    } else if r > j {
      assert false;
    }
  }

  /** Starting a greedy run later inside the same run ends at the same place. */
  lemma RunEndFrom(s: string, i: nat, j: nat, p: CharClass)
    requires i <= |s| && i <= j <= RunEnd(s, i, p)
    ensures RunEnd(s, j, p) == RunEnd(s, i, p)
  {
    RunEndSpec(s, i, p);
    RunEndUnique(s, j, RunEnd(s, i, p), p);
  }

  /** After the lazy group stops at `e`, `\s*A:` matches: the spaces from `e`
      end at an `A:`. Greedy `\s*` is the only choice, as `A` is no space. */
  predicate AnswerAt(s: string, e: nat)
    requires e <= |s|
  {
    MarkerAt(s, RunEnd(s, e, Space), 'A')
  }

  /** The lazy `(.*?)`: the first end in `[e, limit]` after which `\s*A:`
      matches. */
  function FirstAnswerMarker(s: string, e: nat, limit: nat): (r: Option<nat>)
    requires e <= limit <= |s|
    ensures r.Some? ==> e <= r.value <= limit && AnswerAt(s, r.value)
    decreases limit - e
  {
    if AnswerAt(s, e) then Some(e)
    else if e == limit then None
    else FirstAnswerMarker(s, e + 1, limit)
  }

  /** The marker found is the first one: no end before it works, and when
      none is found no end in the range works. */
  lemma {:induction false} FirstAnswerMarkerSpec(s: string, e: nat, limit: nat)
    requires e <= limit <= |s|
    ensures var r := FirstAnswerMarker(s, e, limit);
      && (r.Some? ==> forall k :: e <= k < r.value ==> !AnswerAt(s, k))
      && (r.None? ==> forall k :: e <= k <= limit ==> !AnswerAt(s, k))
    decreases limit - e
  {
    if !AnswerAt(s, e) && e < limit {
      FirstAnswerMarkerSpec(s, e + 1, limit);
    }
  }

  /** One match: it starts at `start`, group 1 is `s[qStart..qEnd]`, group 2
      is `s[aStart..end]`, and the match ends at `end`. */
  datatype Match = Match(start: nat, qStart: nat, qEnd: nat, aStart: nat, end: nat)

  predicate WellFormed(s: string, m: Match) {
    m.start < m.qStart <= m.qEnd < m.aStart <= m.end <= |s|
  }

  /** The regular expression matches `s[m.start..m.end]` with its groups at
      the positions `m` records; `d`, `q` and `f` are where `.`, `Q:` and
      `A:` sit. This states what the pattern accepts, in any backtracking
      order. */
  ghost predicate Shape(s: string, m: Match, d: nat, q: nat, f: nat) {
    QuestionShape(s, m.start, d, q) && AnswerShape(s, m, q, f)
  }

  /** `\d+\.\s*Q:` matches `s[start..q + 2]`, with its `.` at `d`. */
  ghost predicate QuestionShape(s: string, start: nat, d: nat, q: nat) {
    && start < d && Run(s, start, d, Digit) && CharAt(s, d, '.')
    && Run(s, d + 1, q, Space) && MarkerAt(s, q, 'Q')
  }

  /** `\s*(.*?)\s*A:\s*(.*)` matches from `q + 2` to `m.end`, with the
      groups where `m` says and its `A:` at `f`. */
  ghost predicate AnswerShape(s: string, m: Match, q: nat, f: nat) {
    && Run(s, q + 2, m.qStart, Space)
    && Run(s, m.qStart, m.qEnd, Dot)
    && Run(s, m.qEnd, f, Space) && MarkerAt(s, f, 'A')
    && Run(s, f + 2, m.aStart, Space)
    && Run(s, m.aStart, m.end, Dot)
  }

  ghost predicate Matches(s: string, m: Match) {
    exists d: nat, q: nat, f: nat :: Shape(s, m, d, q, f)
  }

  /** `\d+\.\s*Q:` at `p`: the only way it can match (the digit run and the
      spaces are given up to nothing, as `.` is no digit and `Q` no space),
      and where its `Q:` sits. */
  function QuestionMarker(s: string, p: nat): (q: Option<nat>)
    requires p <= |s|
    ensures q.Some? ==> p < q.value && MarkerAt(s, q.value, 'Q')
  {
    var d := RunEnd(s, p, Digit);
    if d == p || !CharAt(s, d, '.') then None
    else
      var q := RunEnd(s, d + 1, Space);
      if MarkerAt(s, q, 'Q') then Some(q) else None
  }

  /** The match once group 1 is `s[b..e]`: `\s*A:\s*` greedily, then group 2
      as far as the line goes. */
  function MatchEnding(s: string, p: nat, b: nat, e: nat): (m: Match)
    requires p < b <= e <= |s| && AnswerAt(s, e)
    ensures m.start == p && m.qStart == b && m.qEnd == e && WellFormed(s, m)
  {
    var f := RunEnd(s, e, Space);
    var g := RunEnd(s, f + 2, Space);
    Match(p, b, e, g, RunEnd(s, g, Dot))
  }

  /** The match the regex engine reports when it tries start position `p`,
      if any. */
  function MatchAt(s: string, p: nat): (r: Option<Match>)
    requires p <= |s|
    ensures r.Some? ==> r.value.start == p && WellFormed(s, r.value)
  {
    match QuestionMarker(s, p)
    case None => None
    case Some(q) => MatchFrom(s, p, RunEnd(s, q + 2, Space))
  }

  /** The rest of the attempt at `p` once group 1 starts at `b`: the first
      end the lazy group allows, if any. */
  function MatchFrom(s: string, p: nat, b: nat): (r: Option<Match>)
    requires p < b <= |s|
    ensures r.Some? ==> r.value.start == p && r.value.qStart == b && WellFormed(s, r.value)
  {
    match FirstAnswerMarker(s, b, RunEnd(s, b, Dot))
    case None => None
    case Some(e) => Some(MatchEnding(s, p, b, e))
  }

  /** What `MatchAt` reports is a match of the regular expression. */
  lemma MatchAtSound(s: string, p: nat)
    requires p <= |s| && MatchAt(s, p).Some?
    ensures Matches(s, MatchAt(s, p).value)
  {
    var m := MatchAt(s, p).value;
    var q := QuestionMarker(s, p).value;
    var b := RunEnd(s, q + 2, Space);
    var e := FirstAnswerMarker(s, b, RunEnd(s, b, Dot)).value;
    assert m == MatchEnding(s, p, b, e);
    QuestionMarkerSound(s, p);
    MatchEndingSound(s, p, q, b, e);
    assert Shape(s, m, RunEnd(s, p, Digit), q, RunEnd(s, e, Space));
  }

  lemma QuestionMarkerSound(s: string, p: nat)
    requires p <= |s| && QuestionMarker(s, p).Some?
    ensures QuestionShape(s, p, RunEnd(s, p, Digit), QuestionMarker(s, p).value)
  {
    var d := RunEnd(s, p, Digit);
    RunEndSpec(s, p, Digit);
    RunEndSpec(s, d + 1, Space);
  }

  lemma MatchEndingSound(s: string, p: nat, q: nat, b: nat, e: nat)
    requires q + 2 <= |s| && b == RunEnd(s, q + 2, Space) && p < b <= e <= RunEnd(s, b, Dot) && AnswerAt(s, e)
    ensures AnswerShape(s, MatchEnding(s, p, b, e), q, RunEnd(s, e, Space))
  {
    var m := MatchEnding(s, p, b, e);
    var f := RunEnd(s, e, Space);
    RunEndSpec(s, q + 2, Space);
    RunEndSpec(s, b, Dot);
    RunEndSpec(s, e, Space);
    RunEndSpec(s, f + 2, Space);
    RunEndSpec(s, m.aStart, Dot);
    assert Run(s, b, e, Dot);
  }

  /** The `Q:` of any match is the one `QuestionMarker` finds. */
  lemma QuestionMarkerFirst(s: string, m: Match, d: nat, q: nat, f: nat)
    requires Shape(s, m, d, q, f)
    ensures QuestionMarker(s, m.start) == Some(q)
  {
    RunEndUnique(s, m.start, d, Digit);
    RunEndUnique(s, d + 1, q, Space);
  }

  /** Given where group 1 ends, group 2 starts as late and ends as late as
      any match allows. */
  lemma MatchEndingFirst(s: string, m: Match, d: nat, q: nat, f: nat, b: nat)
    requires Shape(s, m, d, q, f) && m.start < b <= m.qEnd
    ensures AnswerAt(s, m.qEnd)
    ensures var r := MatchEnding(s, m.start, b, m.qEnd);
      m.aStart <= r.aStart && (m.aStart == r.aStart ==> m.end <= r.end)
  {
    RunEndUnique(s, m.qEnd, f, Space);
    var g := RunEnd(s, f + 2, Space);
    RunEndSpec(s, f + 2, Space);
    RunEndSpec(s, g, Dot);
    if m.aStart == g {
      assert m.end <= RunEnd(s, g, Dot);
    }
  }

  /** `MatchAt` once its `Q:` and the end of group 1 are known. */
  lemma MatchAtIs(s: string, p: nat, q: nat, e: nat)
    requires p <= |s| && QuestionMarker(s, p) == Some(q)
    requires var b := RunEnd(s, q + 2, Space); FirstAnswerMarker(s, b, RunEnd(s, b, Dot)) == Some(e)
    ensures q + 2 <= |s| && RunEnd(s, q + 2, Space) <= e && AnswerAt(s, e)
    ensures MatchAt(s, p) == Some(MatchEnding(s, p, RunEnd(s, q + 2, Space), e))
  {
  }

  /** A run of `p` from `i` ends no later than the greedy run does. */
  lemma RunWithin(s: string, i: nat, j: nat, p: CharClass)
    requires i <= |s| && Run(s, i, j, p)
    ensures j <= RunEnd(s, i, p)
  {
    RunEndSpec(s, i, p);
  }

  /** Given the `Q:` of a match, the lazy group finds an end after which
      `\s*A:` matches, and it is no later than the match's own. */
  lemma AnswerMarkerFound(s: string, m: Match, d: nat, q: nat, f: nat)
    requires Shape(s, m, d, q, f)
    ensures var b := RunEnd(s, q + 2, Space);
      var r := FirstAnswerMarker(s, b, RunEnd(s, b, Dot));
      && m.qStart <= b
      && r.Some?
      && (b <= m.qEnd ==> r.value <= m.qEnd)
      && (m.qEnd < b ==> r.value == b)
  {
    var b := RunEnd(s, q + 2, Space);
    var limit := RunEnd(s, b, Dot);
    RunWithin(s, q + 2, m.qStart, Space);
    FirstAnswerMarkerSpec(s, b, limit);
    RunEndUnique(s, m.qEnd, f, Space);
    assert AnswerAt(s, m.qEnd);
    if m.qEnd < b {
      RunEndFrom(s, q + 2, m.qEnd, Space);
      RunEndSpec(s, q + 2, Space);
      RunEndUnique(s, b, b, Space);
      assert AnswerAt(s, b);
    } else {
      assert Run(s, b, m.qEnd, Dot);
      RunWithin(s, b, m.qEnd, Dot);
    }
  }

  /** Whenever the regular expression matches at a start position in any
      way, `MatchAt` reports a match there, and it is the one Java's
      backtracking order prefers: group 1 starts as late as the greedy
      `\s*` allows, then ends as early as the lazy `.*?` allows, and then
      group 2 starts as late and ends as late as possible. */
  lemma MatchAtFirst(s: string, m: Match, d: nat, q: nat, f: nat)
    requires Shape(s, m, d, q, f)
    ensures MatchAt(s, m.start).Some?
    ensures var r := MatchAt(s, m.start).value;
      && m.qStart <= r.qStart
      && (m.qStart == r.qStart ==> r.qEnd <= m.qEnd)
      && (m.qEnd == r.qEnd ==> m.aStart <= r.aStart)
      && (m.qEnd == r.qEnd && m.aStart == r.aStart ==> m.end <= r.end)
  {
    QuestionMarkerFirst(s, m, d, q, f);
    AnswerMarkerFound(s, m, d, q, f);
    var b := RunEnd(s, q + 2, Space);
    var e := FirstAnswerMarker(s, b, RunEnd(s, b, Dot)).value;
    MatchAtIs(s, m.start, q, e);
    if m.qEnd == e {
      MatchEndingFirst(s, m, d, q, f, b);
    }
  }

  /** `Regex.findAll(s)` from position `from`: try `from`; after a match,
      continue at its end, otherwise at the next position. */
  function FindAll(s: string, from: nat): (ms: seq<Match>)
    requires from <= |s|
    ensures forall i :: 0 <= i < |ms| ==> WellFormed(s, ms[i]) && from <= ms[i].start
    decreases |s| - from
  {
    if from == |s| then []
    else match MatchAt(s, from)
      case Some(m) => [m] + FindAll(s, m.end)
      case None => FindAll(s, from + 1)
  }

  /** Each match ends before the next one starts. */
  ghost predicate Chained(ms: seq<Match>) {
    forall i :: 0 < i < |ms| ==> ms[i - 1].end <= ms[i].start
  }

  lemma {:induction false} FindAllChained(s: string, from: nat)
    requires from <= |s|
    ensures Chained(FindAll(s, from))
    decreases |s| - from
  {
    if from < |s| {
      match MatchAt(s, from)
      case Some(m) =>
        FindAllChained(s, m.end);
        var rest := FindAll(s, m.end);
        assert forall i :: 0 < i < |rest| + 1 ==> ([m] + rest)[i] == rest[i - 1];
      case None =>
        FindAllChained(s, from + 1);
    }
  }

  lemma {:induction false} ChainedOrdered(s: string, ms: seq<Match>, i: nat, j: nat)
    requires Chained(ms) && forall k :: 0 <= k < |ms| ==> WellFormed(s, ms[k])
    requires i < j < |ms|
    ensures ms[i].end <= ms[j].start
    decreases j
  {
    if i < j - 1 {
      ChainedOrdered(s, ms, i, j - 1);
      assert WellFormed(s, ms[j - 1]);
    }
  }

  /** The reported matches come left to right and do not overlap. */
  lemma FindAllOrdered(s: string, from: nat, i: nat, j: nat)
    requires from <= |s| && i < j < |FindAll(s, from)|
    ensures FindAll(s, from)[i].end <= FindAll(s, from)[j].start
  {
    FindAllChained(s, from);
    ChainedOrdered(s, FindAll(s, from), i, j);
  }

  /** Every reported match is a match of the regular expression. */
  lemma FindAllSound(s: string, from: nat)
    requires from <= |s|
    ensures forall m :: m in FindAll(s, from) ==> Matches(s, m)
    decreases |s| - from
  {
    if from < |s| {
      match MatchAt(s, from)
      case Some(m) =>
        MatchAtSound(s, from);
        FindAllSound(s, m.end);
      case None =>
        FindAllSound(s, from + 1);
    }
  }

  /** No match of `ms` covers position `p` past its start. */
  ghost predicate NoneCovers(ms: seq<Match>, p: nat) {
    forall n :: n in ms ==> !(n.start < p < n.end)
  }

  /** The search reaches every start that no reported match covers and
      reports there what `MatchAt` does. */
  lemma {:induction false} FindAllReaches(s: string, from: nat, p: nat)
    requires from <= p <= |s| && MatchAt(s, p).Some?
    requires NoneCovers(FindAll(s, from), p)
    ensures MatchAt(s, p).value in FindAll(s, from)
    decreases |s| - from
  {
    var ms := FindAll(s, from);
    if from == p {
      assert ms[0] == MatchAt(s, p).value;
    } else {
      match MatchAt(s, from)
      case Some(n) =>
        var rest := FindAll(s, n.end);
        assert ms == [n] + rest;
        assert n in ms;
        assert forall x :: x in rest ==> x in ms;
        FindAllReaches(s, n.end, p);
      case None =>
        FindAllReaches(s, from + 1, p);
    }
  }

  /** Nothing is skipped: a position where the regular expression matches,
      and that no reported match covers, is the start of a reported match. */
  lemma FindAllComplete(s: string, from: nat, m: Match, d: nat, q: nat, f: nat)
    requires Shape(s, m, d, q, f) && from <= m.start
    requires forall n :: n in FindAll(s, from) ==> !(n.start < m.start < n.end)
    ensures exists n :: n in FindAll(s, from) && n.start == m.start
  {
    MatchAtFirst(s, m, d, q, f);
    assert NoneCovers(FindAll(s, from), m.start);
    FindAllReaches(s, from, m.start);
  }

  /** The card a match yields before `isNotEmpty` filtering: both groups,
      trimmed. */
  function CardOf(s: string, m: Match): Flashcard
    requires WellFormed(s, m)
  {
    Flashcard(Trim(s[m.qStart..m.qEnd]), Trim(s[m.aStart..m.end]))
  }

  /** A card is kept when both trimmed groups are non-empty. */
  predicate Kept(c: Flashcard) {
    c.question != [] && c.answer != []
  }

  /** The cards of the matches `ms`, in order, omitting those with an empty
      question or answer. */
  function CardsOf(s: string, ms: seq<Match>): (cards: seq<Flashcard>)
    requires forall i :: 0 <= i < |ms| ==> WellFormed(s, ms[i])
    ensures |cards| <= |ms|
    ensures forall c :: c in cards ==> Kept(c)
  {
    if ms == [] then []
    else
      var c := CardOf(s, ms[0]);
      if Kept(c) then [c] + CardsOf(s, ms[1..]) else CardsOf(s, ms[1..])
  }

  /** Every card is the trimmed groups of one of the matches, so its
      question and answer carry no surrounding whitespace. */
  lemma {:induction false} CardsOfTrimmed(s: string, ms: seq<Match>)
    requires forall i :: 0 <= i < |ms| ==> WellFormed(s, ms[i])
    ensures forall c :: c in CardsOf(s, ms) ==> Trim(c.question) == c.question && Trim(c.answer) == c.answer
  {
    if ms != [] {
      var m := ms[0];
      TrimIdempotent(s[m.qStart..m.qEnd]);
      TrimIdempotent(s[m.aStart..m.end]);
      CardsOfTrimmed(s, ms[1..]);
    }
  }

  /** The cards of the matches from the `i`-th on: the `i`-th match's card
      when it is kept, then the cards of the rest. */
  lemma CardsOfSuffix(s: string, ms: seq<Match>, i: nat)
    requires forall k :: 0 <= k < |ms| ==> WellFormed(s, ms[k])
    requires i < |ms| && WellFormed(s, ms[i])
    ensures var c := CardOf(s, ms[i]);
      CardsOf(s, ms[i..]) == (if Kept(c) then [c] else []) + CardsOf(s, ms[i + 1..])
  {
    var t := ms[i..];
    assert t[0] == ms[i] && t[1..] == ms[i + 1..];
  }

  /** One step of the parsing loop: `cards` followed by the cards of the
      matches from the `i`-th on are all the cards; appending the `i`-th
      card when it is kept leaves the cards from the next match on. */
  lemma CardsStep(s: string, ms: seq<Match>, i: nat, cards: seq<Flashcard>, question: string, answer: string)
    requires forall k :: 0 <= k < |ms| ==> WellFormed(s, ms[k])
    requires i < |ms| && WellFormed(s, ms[i])
    requires question == Trim(s[ms[i].qStart..ms[i].qEnd]) && answer == Trim(s[ms[i].aStart..ms[i].end])
    requires cards + CardsOf(s, ms[i..]) == CardsOf(s, ms)
    ensures (if question != [] && answer != [] then cards + [Flashcard(question, answer)] else cards)
      + CardsOf(s, ms[i + 1..]) == CardsOf(s, ms)
  {
    CardsOfSuffix(s, ms, i);
    assert CardOf(s, ms[i]) == Flashcard(question, answer);
    AppendStep(cards, Flashcard(question, answer), question != [] && answer != [],
               CardsOf(s, ms[i..]), CardsOf(s, ms[i + 1..]));
  }

  lemma AppendStep<T>(done: seq<T>, x: T, keep: bool, todo: seq<T>, rest: seq<T>)
    requires todo == (if keep then [x] else []) + rest
    ensures (if keep then done + [x] else done) + rest == done + todo
  {
    if keep {
      assert (done + [x]) + rest == done + ([x] + rest);
    } else {
      assert [] + rest == rest;
    }
  }

  /** The reference parse: the kept cards of every match `findAll` reports. */
  function ParseSpec(s: string): seq<Flashcard> {
    CardsOf(s, FindAll(s, 0))
  }

  /** Text in which the regular expression matches nowhere gives no cards. */
  lemma NoMatchNoCards(s: string)
    requires forall m :: !Matches(s, m)
    ensures ParseSpec(s) == []
  {
    FindAllSound(s, 0);
    HeadIsMember(FindAll(s, 0));
  }

  lemma HeadIsMember<T>(xs: seq<T>)
    ensures |xs| > 0 ==> xs[0] in xs
  {
  }

  /** `parseFlashcardResponse`: one card per reported match whose trimmed
      question and answer are both non-empty, in order. */
  method ParseFlashcardResponse(responseText: string) returns (flashcards: seq<Flashcard>)
    ensures flashcards == ParseSpec(responseText)
    ensures |flashcards| <= |FindAll(responseText, 0)|
    ensures forall c :: c in flashcards ==> Kept(c) && Trim(c.question) == c.question && Trim(c.answer) == c.answer
  {
    var matches := FindAll(responseText, 0);
    flashcards := [];
    var i := 0;
    while i < |matches|
      invariant 0 <= i <= |matches|
      invariant flashcards + CardsOf(responseText, matches[i..]) == CardsOf(responseText, matches)
    {
      var m := matches[i];
      var question := Trim(responseText[m.qStart..m.qEnd]);
      var answer := Trim(responseText[m.aStart..m.end]);
      CardsStep(responseText, matches, i, flashcards, question, answer);
      if question != [] && answer != [] {
        flashcards := flashcards + [Flashcard(question, answer)];
      }
      i := i + 1;
    }
    CardsOfTrimmed(responseText, matches);
  }

  /** The answer group of a reported match runs to the end of its line: it
      holds no line terminator and is followed by one or by the end. */
  lemma AnswerRunsToLineEnd(s: string, i: nat)
    requires i < |FindAll(s, 0)|
    ensures var m := FindAll(s, 0)[i];
      Run(s, m.aStart, m.end, Dot) && (m.end == |s| || !IsDotChar(s[m.end]))
  {
    FindAllIsMatchAt(s, 0, i);
    var m := FindAll(s, 0)[i];
    assert m.end == RunEnd(s, m.aStart, Dot);
    RunEndSpec(s, m.aStart, Dot);
  }

  /** Each reported match is the one `MatchAt` reports at its start. */
  lemma {:induction false} FindAllIsMatchAt(s: string, from: nat, i: nat)
    requires from <= |s| && i < |FindAll(s, from)|
    ensures MatchAt(s, FindAll(s, from)[i].start) == Some(FindAll(s, from)[i])
    decreases |s| - from
  {
    var ms := FindAll(s, from);
    match MatchAt(s, from)
    case Some(m) =>
      var rest := FindAll(s, m.end);
      assert ms == [m] + rest;
      if i > 0 {
        FindAllIsMatchAt(s, m.end, i - 1);
        assert ms[i] == rest[i - 1];
      }
    case None =>
      assert ms == FindAll(s, from + 1);
      FindAllIsMatchAt(s, from + 1, i);
  }

  lemma FirstLine()
    ensures MatchAt("1.Q:a A:b\n2.Q:c A:d", 0) == Some(Match(0, 4, 5, 8, 9))
  {
    var s := "1.Q:a A:b\n2.Q:c A:d";
    assert RunEnd(s, 0, Digit) == 1;
    assert RunEnd(s, 2, Space) == 2;
    assert QuestionMarker(s, 0) == Some(2);
    assert RunEnd(s, 4, Space) == 4;
    assert RunEnd(s, 4, Dot) == 9;
    assert !AnswerAt(s, 4);
    assert RunEnd(s, 5, Space) == 6;
    assert AnswerAt(s, 5);
    assert FirstAnswerMarker(s, 4, 9) == Some(5);
    assert RunEnd(s, 8, Space) == 8;
    assert RunEnd(s, 8, Dot) == 9;
  }

  lemma SecondLine()
    ensures MatchAt("1.Q:a A:b\n2.Q:c A:d", 9) == None
    ensures MatchAt("1.Q:a A:b\n2.Q:c A:d", 10) == Some(Match(10, 14, 15, 18, 19))
  {
    var s := "1.Q:a A:b\n2.Q:c A:d";
    assert RunEnd(s, 9, Digit) == 9;
    assert RunEnd(s, 10, Digit) == 11;
    assert RunEnd(s, 12, Space) == 12;
    assert QuestionMarker(s, 10) == Some(12);
    assert RunEnd(s, 14, Space) == 14;
    assert RunEnd(s, 14, Dot) == 19;
    assert !AnswerAt(s, 14);
    assert RunEnd(s, 15, Space) == 16;
    assert AnswerAt(s, 15);
    assert FirstAnswerMarker(s, 14, 19) == Some(15);
    assert RunEnd(s, 18, Space) == 18;
    assert RunEnd(s, 18, Dot) == 19;
  }

  lemma TwoLinesMatches()
    ensures FindAll("1.Q:a A:b\n2.Q:c A:d", 0) == [Match(0, 4, 5, 8, 9), Match(10, 14, 15, 18, 19)]
  {
    var s := "1.Q:a A:b\n2.Q:c A:d";
    FirstLine();
    SecondLine();
    var m1, m2 := Match(0, 4, 5, 8, 9), Match(10, 14, 15, 18, 19);
    assert FindAll(s, 19) == [];
    assert FindAll(s, 10) == [m2] + FindAll(s, 19);
    assert FindAll(s, 9) == FindAll(s, 10);
    assert FindAll(s, 0) == [m1] + FindAll(s, 9);
  }

  lemma TwoLinesCards()
    ensures CardOf("1.Q:a A:b\n2.Q:c A:d", Match(0, 4, 5, 8, 9)) == Flashcard("a", "b")
    ensures CardOf("1.Q:a A:b\n2.Q:c A:d", Match(10, 14, 15, 18, 19)) == Flashcard("c", "d")
  {
    var s := "1.Q:a A:b\n2.Q:c A:d";
    assert s[4..5] == "a";
    assert s[8..9] == "b";
    assert s[14..15] == "c";
    assert s[18..19] == "d";
    TrimUnpadded("a");
    TrimUnpadded("b");
    TrimUnpadded("c");
    TrimUnpadded("d");
  }

  /** Cards on separate lines are parsed one by one. */
  lemma TwoLines()
    ensures ParseSpec("1.Q:a A:b\n2.Q:c A:d") == [Flashcard("a", "b"), Flashcard("c", "d")]
  {
    var s := "1.Q:a A:b\n2.Q:c A:d";
    TwoLinesMatches();
    TwoLinesCards();
    CardsOfTwo(s, Match(0, 4, 5, 8, 9), Match(10, 14, 15, 18, 19));
  }

  /** Two matches whose cards are both kept give those two cards. */
  lemma CardsOfTwo(s: string, m1: Match, m2: Match)
    requires WellFormed(s, m1) && WellFormed(s, m2)
    ensures CardsOf(s, [m1, m2])
      == (if Kept(CardOf(s, m1)) then [CardOf(s, m1)] else []) + (if Kept(CardOf(s, m2)) then [CardOf(s, m2)] else [])
  {
    assert [m1, m2][1..] == [m2];
    assert [m2][1..] == [];
  }

  lemma SameLineRuns()
    ensures RunEnd("1.Q:a A:b 2.Q:c A:d", 4, Dot) == 19
    ensures RunEnd("1.Q:a A:b 2.Q:c A:d", 8, Dot) == 19
  {
    var s := "1.Q:a A:b 2.Q:c A:d";
    assert forall k :: 4 <= k < 19 ==> IsDotChar(s[k]);
    RunEndUnique(s, 4, 19, Dot);
    RunEndUnique(s, 8, 19, Dot);
  }

  lemma SameLineMatch()
    ensures MatchAt("1.Q:a A:b 2.Q:c A:d", 0) == Some(Match(0, 4, 5, 8, 19))
  {
    var s := "1.Q:a A:b 2.Q:c A:d";
    assert RunEnd(s, 0, Digit) == 1;
    assert RunEnd(s, 2, Space) == 2;
    assert QuestionMarker(s, 0) == Some(2);
    assert RunEnd(s, 4, Space) == 4;
    SameLineRuns();
    assert !AnswerAt(s, 4);
    assert RunEnd(s, 5, Space) == 6;
    assert AnswerAt(s, 5);
    assert FirstAnswerMarker(s, 4, 19) == Some(5);
    assert RunEnd(s, 8, Space) == 8;
  }

  lemma SameLineMatches()
    ensures FindAll("1.Q:a A:b 2.Q:c A:d", 0) == [Match(0, 4, 5, 8, 19)]
  {
    var s := "1.Q:a A:b 2.Q:c A:d";
    SameLineMatch();
    assert FindAll(s, 19) == [];
  }

  lemma SameLineCard()
    ensures CardOf("1.Q:a A:b 2.Q:c A:d", Match(0, 4, 5, 8, 19)) == Flashcard("a", "b 2.Q:c A:d")
  {
    var s := "1.Q:a A:b 2.Q:c A:d";
    assert s[4..5] == "a";
    assert s[8..19] == "b 2.Q:c A:d";
    TrimUnpadded("a");
    TrimUnpadded("b 2.Q:c A:d");
  }

  /** Text that neither starts nor ends with whitespace is its own trim. */
  lemma TrimUnpadded(t: string)
    requires t != [] && !IsWhitespace(t[0]) && !IsWhitespace(t[|t| - 1])
    ensures Trim(t) == t
  {
  }

  /** Cards sharing one line are not separated: the greedy answer group
      takes the rest of the line, so the second card becomes part of the
      first answer. */
  lemma SameLine()
    ensures ParseSpec("1.Q:a A:b 2.Q:c A:d") == [Flashcard("a", "b 2.Q:c A:d")]
  {
    var s := "1.Q:a A:b 2.Q:c A:d";
    var m := Match(0, 4, 5, 8, 19);
    SameLineMatches();
    SameLineCard();
    assert [m][1..] == [];
  }

  /** The prompt's text before the topic. */
  const PromptOpening: string := "Generate 5 flashcards about the following topic: \""

  /** The prompt's text after the topic. */
  const PromptClosing: string :=
    "\".\n"
    + "For each flashcard, provide a question and a concise answer.\n"
    + "Use the following format exactly for each card, with no extra text before or after:\n"
    + "1. Q: [Your Question] A: [Your Answer]\n"
    + "2. Q: [Your Question] A: [Your Answer]\n"
    + "..."

  /** The prompt sent for a topic, after `trimIndent`. */
  function Prompt(topic: string): (prompt: string) {
    PromptOpening + topic + PromptClosing
  }

  /** The prompt quotes the topic verbatim after its fixed opening, and
      the fixed instructions follow it. */
  lemma PromptQuotesTopic(topic: string)
    ensures Prompt(topic)[..|PromptOpening| + |topic|] == PromptOpening + topic
    ensures Prompt(topic)[|PromptOpening| + |topic|..] == PromptClosing
  {
    Join3(PromptOpening, topic, PromptClosing);
  }

  lemma Join3<T>(a: seq<T>, b: seq<T>, c: seq<T>)
    ensures (a + b + c)[..|a| + |b|] == a + b && (a + b + c)[|a| + |b|..] == c
  {
  }

  /** The screen state of a successful generation. */
  ghost predicate ShowsCards(state: UiState) {
    state.Success? ==> state.flashcards != [] && forall c :: c in state.flashcards ==> Kept(c)
  }

  class AiFlashcardViewModel {
    var uiState: UiState

    /** A success state always shows at least one card, each with a question
        and an answer. */
    ghost predicate Valid()
      reads this
    {
      ShowsCards(uiState)
    }

    constructor ()
      ensures Valid() && uiState == Idle
    {
      uiState := Idle;
    }

    /** `generateFlashcards(topic)` up to the model call: a blank topic is an
        error; otherwise the state is Loading and the prompt is returned for
        the model. */
    method GenerateFlashcards(topic: string) returns (prompt: Option<string>)
      requires Valid()
      modifies this
      ensures Valid()
      ensures IsBlank(topic) ==> uiState == Error("Topic cannot be empty.") && prompt == None
      ensures !IsBlank(topic) ==> uiState == Loading && prompt == Some(Prompt(topic))
    {
      if IsBlank(topic) {
        uiState := Error("Topic cannot be empty.");
        return None;
      }
      uiState := Loading;
      prompt := Some(Prompt(topic));
    }

    /** The rest of the coroutine once the model answered: the reply text
        (`""` when null) is parsed; no cards is an error, otherwise success.
        An exception becomes an error carrying its message. */
    method OnModelResponse(reply: ModelReply)
      requires Valid()
      modifies this
      ensures Valid()
      ensures reply.Threw? ==> uiState == Error("An error occurred: " + (if reply.message.Some? then reply.message.value else "null"))
      ensures reply.Replied? ==>
        var cards := ParseSpec(if reply.text.Some? then reply.text.value else "");
        uiState == if cards == [] then Error("The AI couldn't generate flashcards for this topic. Please try being more specific.")
                   else Success(cards)
    {
      match reply
      case Threw(message) =>
        uiState := Error("An error occurred: " + (if message.Some? then message.value else "null"));
      case Replied(text) =>
        var parsed := ParseFlashcardResponse(if text.Some? then text.value else "");
        if parsed == [] {
          uiState := Error("The AI couldn't generate flashcards for this topic. Please try being more specific.");
        } else {
          uiState := Success(parsed);
        }
    }

    /** `resetState`. */
    method ResetState()
      requires Valid()
      modifies this
      ensures Valid() && uiState == Idle
    {
      uiState := Idle;
    }
  }
}
