/**
 * The issue triage of the improvement loop (`tools/improve_loop.py`):
 * every open issue labelled `triage` is scored on four axes from keywords
 * in its title and body and blocked when its first line is not of the form
 * "symptom → expectation"; the best-scoring unblocked issue is queued,
 * otherwise the first issue is blocked.
 */
module ImproveLoop {
  import opened Wrappers
  import opened PyText
  import opened PySort

  /** The fields of a GitHub issue the scoring reads; `body` is null for an issue without text. */
  datatype Issue = Issue(number: int, title: string, body: Option<string>)

  /** The four axes, each from 1 to 5 once clamped. */
  datatype ScoreCard = ScoreCard(impact: int, effort: int, risk: int, measurable: int)
  {
    predicate InRange() {
      && 1 <= impact <= 5 && 1 <= effort <= 5 && 1 <= risk <= 5 && 1 <= measurable <= 5
    }

    /** The `total` property: the sum of the four axes, between 4 and 20 on clamped cards. */
    function Total(): (t: int)
      ensures InRange() ==> 4 <= t <= 20
    {
      impact + effort + risk + measurable
    }
  }

  /** The verdict on one issue. */
  datatype Evaluation = Evaluation(issue: Issue, score: ScoreCard, blocked: bool,
                                   missingInfo: seq<Message>, questions: seq<Message>)

  /** `clamp_score`: `max(1, min(5, n))`. */
  function ClampScore(n: int): (r: int)
    ensures 1 <= r <= 5
    ensures 1 <= n <= 5 ==> r == n
    ensures n < 1 ==> r == 1
    ensures n > 5 ==> r == 5
  {
    if n < 1 then 1 else if n > 5 then 5 else n
  }

  /** Clamping twice is clamping once, and clamping keeps the order of scores. */
  lemma ClampScoreIdempotentMonotone(m: int, n: int)
    ensures ClampScore(ClampScore(n)) == ClampScore(n)
    ensures m <= n ==> ClampScore(m) <= ClampScore(n)
  {
  }

  /** `contains_any`: some word occurs in the lower-cased text (the words themselves are not lower-cased). */
  function ContainsAny(text: string, words: seq<string>): (r: bool)
    ensures r <==> exists i :: 0 <= i < |words| && Contains(Lower(text), words[i])
  {
    AnyOccurs(Lower(text), words)
  }

  /** A word holding an ASCII capital never matches, whatever the text. */
  lemma CapitalWordNeverMatches(text: string, words: seq<string>, i: int, k: int)
    requires 0 <= i < |words| && 0 <= k < |words[i]| && IsAsciiUpper(words[i][k])
    ensures ContainsAny(text, words) <==> ContainsAny(text, words[..i] + words[i + 1..])
  {
    LowerHasNoAsciiUpper(text);
    ContainsNoUpper(Lower(text), words[i], k);
    var rest := words[..i] + words[i + 1..];
    if ContainsAny(text, words) {
      var j :| 0 <= j < |words| && Contains(Lower(text), words[j]);
      if j < i {
        assert rest[j] == words[j];
      } else {
        assert rest[j - 1] == words[j];
      }
    }
    if ContainsAny(text, rest) {
      var j :| 0 <= j < |rest| && Contains(Lower(text), rest[j]);
      if j < i {
        assert rest[j] == words[j];
      } else {
        assert rest[j] == words[j + 1];
      }
    }
  }

  /** The arrow that separates symptom and expectation on the first line. */
  const Arrow := "→"

  /** `s or ""`: a null text reads as empty. */
  function OrEmpty(s: Option<string>): string {
    match s
    case None => ""
    case Some(t) => t
  }

  /**
   * `parse_first_line_expectation`: the stripped first line of the body;
   * well formed when it holds the arrow, and reported as absent when it is
   * empty.
   */
  function ParseFirstLineExpectation(body: Option<string>): (r: (bool, Option<string>))
    ensures r.0 ==> r.1.Some? && Contains(r.1.value, Arrow)
    ensures !r.0 ==> r.1.None? || !Contains(r.1.value, Arrow)
    ensures r.1.Some? <==> OrEmpty(body) != [] && Strip(FirstLine(OrEmpty(body))) != []
    ensures r.1.Some? ==> r.1.value == Strip(FirstLine(OrEmpty(body)))
  {
    var b := OrEmpty(body);
    var firstLine := if b != [] then Strip(FirstLine(b)) else [];
    if Contains(firstLine, Arrow) then (true, Some(firstLine))
    else (false, if firstLine != [] then Some(firstLine) else None)
  }

  /** A body that is null, empty or only white space never has a well-formed first line, and a missing one has none at all. */
  lemma BlankBodyNotWellFormed(body: Option<string>)
    ensures Strip(OrEmpty(body)) == [] ==> !ParseFirstLineExpectation(body).0
    ensures OrEmpty(body) == [] ==> ParseFirstLineExpectation(body) == (false, None)
  {
    assert !Contains([], Arrow);
    if Strip(OrEmpty(body)) != [] {
      return;
    }
    var first := FirstLine(OrEmpty(body));
    assert forall i :: 0 <= i < |first| ==> IsSpace(first[i]) by {
      forall i | 0 <= i < |first| ensures IsSpace(first[i]) {
        assert first[i] == OrEmpty(body)[i];
      }
    }
    assert Strip(first) == [];
  }

  // The keyword lists and messages of `score_issue`.
  const ImpactWords1: seq<string> := ["cv", "cvr", "売上", "収益", "購入", "cta", "離脱", "コンバージョン"]
  const ImpactWords2: seq<string> := ["致命", "大きい", "全ユーザー", "モバイル", "タップしづらい"]
  const EffortEasyWords: seq<string> := ["文言", "css", "レイアウト", "配置", "表示", "markdown"]
  const EffortHardWords: seq<string> := ["全面", "設計変更", "DB", "マイグレーション", "複数画面"]
  const RiskLowWords: seq<string> := ["文言", "css", "表示", "markdown", "小修正"]
  const RiskHighWords: seq<string> := ["決済", "認証", "在庫", "計算", "検索ロジック"]
  const MeasurableWords: seq<string> := ["クリック", "ctr", "cvr", "タップ", "確認", "再現", "比較"]
  const VagueWords: seq<string> := ["なんとなく", "違和感", "気がする"]

  /** The fixed notes and questions `score_issue` can attach to an issue; `Text` gives each one's wording. */
  datatype Message = MissingFormat | MissingBody | AskFormat | AskBody | AskArrow {
    function Text(): (t: string)
      ensures t != []
    {
      match this
      case MissingFormat => "Issue本文の1行目が「症状 → 期待」の形式になっていません。"
      case MissingBody => "Issue本文が空です。"
      case AskFormat => "1行目を『症状 → 期待』の形式で記載してください。"
      case AskBody => "再現条件・対象ページ・期待動作を本文に追記してください。"
      case AskArrow => "1行目に『症状 → 期待』を追記してください。"
    }
  }

  /** `issue.get("body", "") or ""`. */
  function BodyText(issue: Issue): string {
    OrEmpty(issue.body)
  }

  /** The text the keywords are searched in: title, newline, body. */
  function FullText(issue: Issue): string {
    issue.title + "\n" + BodyText(issue)
  }

  /** 1 when some word occurs in the text, else 0. */
  function Hit(text: string, words: seq<string>): int {
    if ContainsAny(text, words) then 1 else 0
  }

  /** What the checks of the body conclude: whether work is blocked, and the notes and questions. */
  datatype BodyReview = BodyReview(blocked: bool, missingInfo: seq<Message>, questions: seq<Message>)

  /**
   * The checks of `score_issue` on the body: the issue is blocked when its
   * first line is not well formed, with a note and a question, and again
   * when its body is blank; a first line without the arrow earns one more
   * question.
   */
  function ReviewBody(body: string): (v: BodyReview)
    ensures v.blocked <==> v.missingInfo != []
    ensures |v.missingInfo| <= 2 && |v.missingInfo| <= |v.questions| <= 3
  {
    var parsed := ParseFirstLineExpectation(Some(body));
    var badFormat := !parsed.0;
    var blank := Strip(body) == [];
    var noArrow := parsed.1.Some? && !Contains(parsed.1.value, Arrow);
    BodyReview(badFormat || blank, Notes(badFormat, blank), Questions(badFormat, blank, noArrow))
  }

  /** The verdict `score_issue` reaches: the four scores of the whole text and the review of the body. */
  function Assess(issue: Issue): (e: Evaluation)
    ensures e.issue == issue
    ensures e.score.InRange() && e.score == ScoreOf(FullText(issue))
  {
    var v := ReviewBody(BodyText(issue));
    Evaluation(issue, ScoreOf(FullText(issue)), v.blocked, v.missingInfo, v.questions)
  }

  /** The notes of a verdict: the format note before the blank-body note. */
  function Notes(badFormat: bool, blank: bool): seq<Message> {
    (if badFormat then [MissingFormat] else []) + (if blank then [MissingBody] else [])
  }

  /** The questions of a verdict: format, then body, then the missing arrow. */
  function Questions(badFormat: bool, blank: bool, noArrow: bool): seq<Message> {
    (if badFormat then [AskFormat] else []) + (if blank then [AskBody] else []) + (if noArrow then [AskArrow] else [])
  }

  /**
   * The verdict in detail: blocked exactly when the first line lacks the
   * arrow, with the notes and questions in the order `score_issue` adds them.
   */
  lemma AssessSpec(issue: Issue)
    ensures var e := Assess(issue);
      var parsed := ParseFirstLineExpectation(Some(BodyText(issue)));
      var blank := Strip(BodyText(issue)) == [];
      && (e.blocked <==> !parsed.0)
      && e.missingInfo == (if !parsed.0 then [MissingFormat] else []) + (if blank then [MissingBody] else [])
      && e.questions == (if !parsed.0 then [AskFormat] else []) + (if blank then [AskBody] else []) +
                        (if parsed.1.Some? && !parsed.0 then [AskArrow] else [])
  {
    BlankBodyNotWellFormed(Some(BodyText(issue)));
  }

  /** The four counters of `score_issue`, each started at 3, moved by its keyword lists, then clamped. */
  method ScoreAxes(fullText: string) returns (score: ScoreCard)
    ensures score == ScoreOf(fullText)
  {
    var impact := Nudge(3, fullText, ImpactWords1, 1);
    impact := Nudge(impact, fullText, ImpactWords2, 1);
    var effort := Nudge(3, fullText, EffortEasyWords, 1);
    effort := Nudge(effort, fullText, EffortHardWords, -2);
    var risk := Nudge(3, fullText, RiskLowWords, 1);
    risk := Nudge(risk, fullText, RiskHighWords, -2);
    var measurable := Nudge(3, fullText, MeasurableWords, 1);
    measurable := Nudge(measurable, fullText, VagueWords, -1);
    score := ScoreCard(ClampScore(impact), ClampScore(effort), ClampScore(risk), ClampScore(measurable));
  }

  /** One `if contains_any(...)` step of `score_issue`: move the counter by `delta` when a word of the list occurs. */
  method Nudge(counter: int, text: string, words: seq<string>, delta: int) returns (r: int)
    ensures r == counter + delta * Hit(text, words)
  {
    r := counter;
    if ContainsAny(text, words) {
      r := r + delta;
    }
  }

  /**
   * `score_issue`: the four counters, then the checks of the body. The
   * source interleaves the two (the format check comes before the counters,
   * the blank-body and arrow checks after); they touch disjoint variables,
   * so running them one after the other gives the same verdict.
   */
  method ScoreIssue(issue: Issue) returns (e: Evaluation)
    ensures e == Assess(issue)
  {
    var score := ScoreAxes(FullText(issue));
    var blocked, missingInfo, questions := CheckBody(BodyText(issue));
    e := Evaluation(issue, score, blocked, missingInfo, questions);
  }

  /** The checks of `score_issue` on the body: parse the first line, test for a blank body and for the arrow. */
  method CheckBody(body: string) returns (blocked: bool, missingInfo: seq<Message>, questions: seq<Message>)
    ensures BodyReview(blocked, missingInfo, questions) == ReviewBody(body)
  {
    var parsed := ParseFirstLineExpectation(Some(body));
    var okFormat, firstLine := parsed.0, parsed.1;
    var blank := Strip(body) == [];
    var noArrow := firstLine.Some? && !Contains(firstLine.value, Arrow);
    blocked, missingInfo, questions := RecordFindings(!okFormat, blank, noArrow);
  }

  /** The flag and the lists of `score_issue`, updated in the order the source updates them. */
  method RecordFindings(badFormat: bool, blank: bool, noArrow: bool)
    returns (blocked: bool, missingInfo: seq<Message>, questions: seq<Message>)
    ensures blocked == (badFormat || blank)
    ensures missingInfo == Notes(badFormat, blank)
    ensures questions == Questions(badFormat, blank, noArrow)
  {
    missingInfo, questions := [], [];
    blocked := false;
    if badFormat {
      blocked := true;
      missingInfo := missingInfo + [MissingFormat];
      questions := questions + [AskFormat];
    }
    NotesStart(badFormat);
    if blank {
      blocked := true;
      missingInfo := missingInfo + [MissingBody];
      questions := questions + [AskBody];
      BlankBodyStep(badFormat);
    }
    if noArrow {
      questions := questions + [AskArrow];
      NoArrowStep(badFormat, blank);
    }
  }

  /** The lists after the format check. */
  lemma NotesStart(badFormat: bool)
    ensures Notes(badFormat, false) == (if badFormat then [MissingFormat] else [])
    ensures Questions(badFormat, false, false) == (if badFormat then [AskFormat] else [])
  {
  }

  /** The blank-body check appends its note and its question. */
  lemma BlankBodyStep(badFormat: bool)
    ensures Notes(badFormat, false) + [MissingBody] == Notes(badFormat, true)
    ensures Questions(badFormat, false, false) + [AskBody] == Questions(badFormat, true, false)
  {
  }

  /** The arrow check appends its question last. */
  lemma NoArrowStep(badFormat: bool, blank: bool)
    ensures Questions(badFormat, blank, false) + [AskArrow] == Questions(badFormat, blank, true)
  {
  }

  /** The four axes of `score_issue`, each clamped. */
  function ScoreOf(text: string): (c: ScoreCard)
    ensures c.InRange()
  {
    var impact := 3 + Hit(text, ImpactWords1) + Hit(text, ImpactWords2);
    var effort := 3 + Hit(text, EffortEasyWords) - 2 * Hit(text, EffortHardWords);
    var risk := 3 + Hit(text, RiskLowWords) - 2 * Hit(text, RiskHighWords);
    var measurable := 3 + Hit(text, MeasurableWords) - Hit(text, VagueWords);
    ScoreCard(ClampScore(impact), ClampScore(effort), ClampScore(risk), ClampScore(measurable))
  }

  /**
   * Each axis starts at 3: impact gains one per list of impact words found,
   * effort gains one for an easy word and loses two for a hard one, risk
   * likewise, measurability gains one for a measurable word and loses one
   * for a vague one. Clamping never bites, since the raw axes already lie
   * in 3..5, 1..4, 1..4 and 2..4; the total lies in 7..17.
   */
  lemma ScoreOfSpec(text: string)
    ensures var c := ScoreOf(text);
      && c.impact == 3 + Hit(text, ImpactWords1) + Hit(text, ImpactWords2)
      && c.effort == 3 + Hit(text, EffortEasyWords) - 2 * Hit(text, EffortHardWords)
      && c.risk == 3 + Hit(text, RiskLowWords) - 2 * Hit(text, RiskHighWords)
      && c.measurable == 3 + Hit(text, MeasurableWords) - Hit(text, VagueWords)
      && 3 <= c.impact <= 5 && 1 <= c.effort <= 4 && 1 <= c.risk <= 4 && 2 <= c.measurable <= 4
      && 7 <= c.Total() <= 17
  {
  }

  /** The `DB` keyword of the effort list can never lower the effort score. */
  lemma EffortIgnoresDb(text: string)
    ensures ContainsAny(text, EffortHardWords) <==> ContainsAny(text, ["全面", "設計変更", "マイグレーション", "複数画面"])
  {
    CapitalWordNeverMatches(text, EffortHardWords, 2, 0);
    assert EffortHardWords[..2] + EffortHardWords[3..] == ["全面", "設計変更", "マイグレーション", "複数画面"];
  }

  /** An issue without body text is blocked, and is told both that the format is wrong and that the body is empty. */
  lemma EmptyBodyBlocked(number: int, title: string)
    ensures var e := Assess(Issue(number, title, None));
      && e.blocked
      && e.missingInfo == [MissingFormat, MissingBody]
      && e.questions == [AskFormat, AskBody]
  {
    assert BodyText(Issue(number, title, None)) == "";
    EmptyBodyReview();
  }

  /** The review of the empty body: both checks fail. */
  lemma EmptyBodyReview()
    ensures ReviewBody("") == BodyReview(true, [MissingFormat, MissingBody], [AskFormat, AskBody])
  {
    BlankBodyNotWellFormed(Some(""));
    assert Strip("") == [];
    NotesStart(true);
    BlankBodyStep(true);
  }

  /** `build_checklist`: the three steps for a blocked issue, the five steps for one ready to work on. */
  function BuildChecklist(blocked: bool): (r: seq<string>)
    ensures blocked ==> |r| == 3
    ensures !blocked ==> |r| == 5
  {
    if blocked then
      [ "Issue 1行目を『症状 → 期待』形式で追記する",
        "再現手順と対象ページを明記する",
        "完了条件（確認観点）を3点以内で追加する" ]
    else
      [ "Issue本文の受け入れ条件を満たす",
        "影響範囲を最小化して実装する",
        "はてな向けMarkdownの表示崩れがないことを確認する",
        "Discord通知とログにエラーがないことを確認する",
        "PRに変更点・確認手順を簡潔に記載する" ]
  }

  // ---------------------------------------------------------------------
  // Selection in `main`
  // ---------------------------------------------------------------------

  /** The evaluations that are not blocked, in their order. */
  function NonBlocked(evals: seq<Evaluation>): (r: seq<Evaluation>)
    ensures |r| <= |evals|
  {
    if evals == [] then []
    else (if evals[0].blocked then [] else [evals[0]]) + NonBlocked(evals[1..])
  }

  /** The filter keeps exactly the evaluations that are not blocked. */
  lemma {:induction false} NonBlockedMembers(evals: seq<Evaluation>)
    ensures forall e :: e in NonBlocked(evals) <==> e in evals && !e.blocked
  {
    if evals != [] {
      NonBlockedMembers(evals[1..]);
      assert evals == [evals[0]] + evals[1..];
    }
  }

  /** The sort key of `sorted(…, key=total, reverse=True)`, as an ascending key. */
  function NegTotal(e: Evaluation): real {
    -(e.score.Total() as real)
  }

  /** What `main` does with the open triage issues. */
  datatype Decision =
    | NoIssues                      // nothing to evaluate
    | Queue(selected: Evaluation)   // labelled `queued`
    | Block(selected: Evaluation)   // labelled `blocked`

  /** `[score_issue(issue) for issue in issues]`, each verdict as `ScoreIssue` reaches it. */
  function Evaluate(issues: seq<Issue>): (evals: seq<Evaluation>)
    ensures |evals| == |issues|
    ensures forall i :: 0 <= i < |issues| ==> evals[i] == Assess(issues[i])
  {
    seq(|issues|, i requires 0 <= i < |issues| => Assess(issues[i]))
  }

  /** The selection rule of `main`. */
  function Triage(issues: seq<Issue>): Decision {
    if issues == [] then NoIssues
    else
      var evals := Evaluate(issues);
      var open := NonBlocked(evals);
      if open != [] then Queue(SortBy(open, NegTotal)[0]) else Block(evals[0])
  }

  /** `e` is the first evaluation that is not blocked and whose total is the highest among those. */
  predicate IsFirstBest(evals: seq<Evaluation>, e: Evaluation) {
    && !e.blocked
    && (forall k :: 0 <= k < |evals| && !evals[k].blocked ==> evals[k].score.Total() <= e.score.Total())
    && exists i :: && 0 <= i < |evals| && evals[i] == e
                   && forall k :: 0 <= k < i && !evals[k].blocked ==> evals[k].score.Total() < e.score.Total()
  }

  /** A first least element past the head is a first least element of the tail, below the head. */
  lemma FirstMinPastHead(evals: seq<Evaluation>, i: int)
    requires evals != [] && 0 < i && IsFirstMin(evals, NegTotal, i)
    ensures IsFirstMin(evals[1..], NegTotal, i - 1)
    ensures NegTotal(evals[i]) < NegTotal(evals[0])
  {
    forall j | 0 <= j < |evals| - 1 ensures evals[1..][j] == evals[j + 1] { }
  }

  /** A bound on the keys of the unblocked evaluations, read back on the whole sequence. */
  lemma NonBlockedBound(evals: seq<Evaluation>, b: real)
    requires forall j :: 0 <= j < |NonBlocked(evals)| ==> b <= NegTotal(NonBlocked(evals)[j])
    ensures forall k :: 0 <= k < |evals| && !evals[k].blocked ==> b <= NegTotal(evals[k])
  {
    NonBlockedMembers(evals);
    forall k | 0 <= k < |evals| && !evals[k].blocked ensures b <= NegTotal(evals[k]) {
      assert evals[k] in NonBlocked(evals);
    }
  }

  /** Past the head, the first least element of the filtered sequence is one of the filtered tail. */
  lemma FirstMinInTail(evals: seq<Evaluation>, i: int) returns (i': int)
    requires IsFirstMin(NonBlocked(evals), NegTotal, i)
    requires evals[0].blocked || i != 0
    ensures IsFirstMin(NonBlocked(evals[1..]), NegTotal, i')
    ensures NonBlocked(evals[1..])[i'] == NonBlocked(evals)[i]
    ensures !evals[0].blocked ==> NegTotal(NonBlocked(evals)[i]) < NegTotal(evals[0])
  {
    var r := NonBlocked(evals);
    var tail := NonBlocked(evals[1..]);
    assert r == (if evals[0].blocked then [] else [evals[0]]) + tail;
    if evals[0].blocked {
      assert r == tail;
      i' := i;
    } else {
      i' := i - 1;
      assert r[1..] == tail;
      FirstMinPastHead(r, i);
    }
  }

  /** An index that comes first in the tail comes first in the whole when the head is blocked or worse. */
  lemma LiftFirstIndex(evals: seq<Evaluation>, e: Evaluation, j: int)
    requires evals != [] && 0 <= j < |evals| - 1 && evals[1..][j] == e
    requires forall k :: 0 <= k < j && !evals[1..][k].blocked ==> NegTotal(e) < NegTotal(evals[1..][k])
    requires !evals[0].blocked ==> NegTotal(e) < NegTotal(evals[0])
    ensures evals[j + 1] == e
    ensures forall k :: 0 <= k < j + 1 && !evals[k].blocked ==> NegTotal(e) < NegTotal(evals[k])
  {
    forall k | 0 < k < j + 1 ensures evals[k] == evals[1..][k - 1] { }
  }

  /** The first least element of the filtered sequence comes first among the best unblocked evaluations. */
  lemma {:induction false} NonBlockedFirstMinIndex(evals: seq<Evaluation>, i: int)
    requires IsFirstMin(NonBlocked(evals), NegTotal, i)
    ensures exists j :: && 0 <= j < |evals| && evals[j] == NonBlocked(evals)[i]
                        && forall k :: 0 <= k < j && !evals[k].blocked ==> NegTotal(evals[j]) < NegTotal(evals[k])
    decreases |evals|
  {
    assert evals != [];
    var e := NonBlocked(evals)[i];
    if !evals[0].blocked && i == 0 {
      assert NonBlocked(evals)[0] == evals[0];
    } else {
      var i' := FirstMinInTail(evals, i);
      NonBlockedFirstMinIndex(evals[1..], i');
      var j :| && 0 <= j < |evals[1..]| && evals[1..][j] == e
               && forall k :: 0 <= k < j && !evals[1..][k].blocked ==> NegTotal(evals[1..][j]) < NegTotal(evals[1..][k]);
      LiftFirstIndex(evals, e, j);
    }
  }

  /** The first least element of the filtered sequence is the first best unblocked evaluation of the whole. */
  lemma NonBlockedFirstMin(evals: seq<Evaluation>, i: int)
    requires IsFirstMin(NonBlocked(evals), NegTotal, i)
    ensures IsFirstBest(evals, NonBlocked(evals)[i])
  {
    var e := NonBlocked(evals)[i];
    NonBlockedMembers(evals);
    assert e in NonBlocked(evals);
    NonBlockedBound(evals, NegTotal(e));
    NonBlockedFirstMinIndex(evals, i);
  }

  /**
   * No issues, nothing to do; otherwise the queued issue is the first of
   * the unblocked ones with the highest total, and when every issue is
   * blocked the first issue is the one blocked.
   */
  lemma TriageSpec(issues: seq<Issue>)
    ensures Triage(issues).NoIssues? <==> issues == []
    ensures Triage(issues).Queue? <==> exists i :: 0 <= i < |issues| && !Assess(issues[i]).blocked
    ensures Triage(issues).Queue? ==> IsFirstBest(Evaluate(issues), Triage(issues).selected)
    ensures Triage(issues).Block? ==> Triage(issues).selected == Assess(issues[0]) && Triage(issues).selected.blocked
  {
    if issues != [] {
      var evals := Evaluate(issues);
      var open := NonBlocked(evals);
      NonBlockedMembers(evals);
      if open != [] {
        SortByHeadIsFirstMin(open, NegTotal);
        var i :| IsFirstMin(open, NegTotal, i) && SortBy(open, NegTotal)[0] == open[i];
        NonBlockedFirstMin(evals, i);
        assert open[i] in evals;
      } else {
        assert evals[0] !in open;
        forall i | 0 <= i < |issues| ensures Assess(issues[i]).blocked {
          assert evals[i] in evals;
        }
      }
    }
  }
}
