/** Mock-interview sessions (frontend/src/services/interviewService.js): a
    session draws a shuffled selection from the question bank, is answered one
    question at a time, and is completed with the mean of its question scores.
    The localStorage list of sessions is the `sessions` field of `SessionStore`;
    the session id (`Date.now()`), the signed-in user and the clock are
    parameters. */
module Interview {
  import opened Wrappers
  import Seqs
  import QuestionBank

  /** Milliseconds since the epoch; the source stores ISO-8601 strings of the same instant. */
  type Timestamp = int

  datatype Status = InProgress | Completed

  datatype Question = Question(id: int, question: string, answer: string, feedback: string, score: int)

  datatype Session = Session(id: string, userId: string, jobRole: string, interviewType: string,
                             difficulty: string, questions: seq<Question>, currentQuestionIndex: int,
                             status: Status, startTime: Timestamp, endTime: Option<Timestamp>,
                             overallScore: real, createdAt: Timestamp)

  /** The `config` argument of `createInterviewSession`; an absent key takes its default. */
  datatype SessionConfig = SessionConfig(jobRole: Option<string>, interviewType: Option<string>,
                                         difficulty: Option<string>)

  const DefaultRole: string := "Software Engineer"
  const DefaultType: string := "mixed"
  const DefaultDifficulty: string := "intermediate"

  /** Why `submitAnswer` or `completeSession` threw: the explicit "Session not found",
      or the TypeError of writing to a question that does not exist. */
  datatype Failure = SessionNotFound | QuestionNotFound

  datatype Result<T> = Ok(value: T) | Err(failure: Failure)

  function Min(a: int, b: int): (m: int)
    ensures m <= a && m <= b && (m == a || m == b)
  {
    if a <= b then a else b
  }

  // ---------------------------------------------------------------------------
  // Creating a session
  // ---------------------------------------------------------------------------

  /** The question count for a difficulty. */
  function NumQuestions(difficulty: string): (n: nat)
    ensures n == 5 <==> difficulty == "easy"
    ensures n == 10 <==> difficulty == "hard"
    ensures n == 7 <==> difficulty != "easy" && difficulty != "hard"
  {
    if difficulty == "easy" then 5 else if difficulty == "hard" then 10 else 7
  }

  /** `shuffleArray`: a Fisher-Yates pass over a copy; `Math.random` becomes an arbitrary
      choice of `j` in [0, i]. The input, a value, is left as it was. */
  method ShuffleArray<T>(items: seq<T>) returns (shuffled: seq<T>)
    ensures |shuffled| == |items|
    ensures multiset(shuffled) == multiset(items)
  {
    var a := new T[|items|](k requires 0 <= k < |items| => items[k]);
    assert a[..] == items;
    var i := a.Length - 1;
    while i > 0
      invariant -1 <= i < a.Length
      invariant multiset(a[..]) == multiset(items)
    {
      var j :| 0 <= j <= i;
      ghost var before := a[..];
      a[i], a[j] := a[j], a[i];
      assert a[..] == before[i := before[j]][j := before[i]];
      i := i - 1;
    }
    shuffled := a[..];
  }

  /** `.slice(0, numQuestions).map((q, index) => ({ id: index + 1, question: q, answer: '', feedback: '', score: 0 }))`. */
  function SelectQuestions(shuffled: seq<string>, count: nat): (qs: seq<Question>)
    ensures |qs| == Min(count, |shuffled|)
    ensures forall k :: 0 <= k < |qs| ==> qs[k] == Question(k + 1, shuffled[k], "", "", 0)
  {
    seq(Min(count, |shuffled|), k requires 0 <= k < Min(count, |shuffled|) => Question(k + 1, shuffled[k], "", "", 0))
  }

  function QuestionTexts(qs: seq<Question>): (ts: seq<string>)
    ensures |ts| == |qs| && forall k :: 0 <= k < |qs| ==> ts[k] == qs[k].question
  {
    seq(|qs|, k requires 0 <= k < |qs| => qs[k].question)
  }

  /** A selection from a shuffle of the pool asks only questions of the pool, none more often than the pool holds it. */
  lemma SelectionDrawsFromPool(shuffled: seq<string>, pool: seq<string>, count: nat)
    requires multiset(shuffled) == multiset(pool)
    ensures multiset(QuestionTexts(SelectQuestions(shuffled, count))) <= multiset(pool)
  {
    var m := Min(count, |shuffled|);
    assert QuestionTexts(SelectQuestions(shuffled, count)) == shuffled[..m];
    assert shuffled == shuffled[..m] + shuffled[m..];
    assert multiset(shuffled) == multiset(shuffled[..m]) + multiset(shuffled[m..]);
  }

  /** With ten questions in every bank list, a session has 5, 10 or 7 questions by difficulty. */
  lemma QuestionCountByDifficulty(interviewType: string, jobRole: string, difficulty: string)
    ensures var n := Min(NumQuestions(difficulty), |QuestionBank.QuestionsFor(interviewType, jobRole)|);
            (difficulty == "easy" ==> n == 5) && (difficulty == "hard" ==> n == 10) &&
            (difficulty != "easy" && difficulty != "hard" ==> n == 7)
  {
  }

  /** The question list a configuration draws from, its absent keys defaulted. */
  function PoolFor(config: SessionConfig): (pool: seq<string>)
    ensures |pool| == 10
    ensures pool == QuestionBank.QuestionsFor(config.interviewType.GetOr(DefaultType), config.jobRole.GetOr(DefaultRole))
  {
    QuestionBank.QuestionsFor(config.interviewType.GetOr(DefaultType), config.jobRole.GetOr(DefaultRole))
  }

  ghost predicate IsShuffleOf(shuffled: seq<string>, pool: seq<string>)
  {
    |shuffled| == |pool| && multiset(shuffled) == multiset(pool)
  }

  /** The session object `createInterviewSession` builds from a shuffled pool. */
  function NewSession(config: SessionConfig, id: string, userId: string, now: Timestamp,
                      shuffled: seq<string>): (s: Session)
    ensures s.id == id && s.userId == userId
    ensures s.jobRole == config.jobRole.GetOr(DefaultRole)
    ensures s.interviewType == config.interviewType.GetOr(DefaultType)
    ensures s.difficulty == config.difficulty.GetOr(DefaultDifficulty)
    ensures |s.questions| == Min(NumQuestions(s.difficulty), |shuffled|)
    ensures forall k :: 0 <= k < |s.questions| ==>
              s.questions[k].id == k + 1 && s.questions[k].question == shuffled[k] &&
              s.questions[k].answer == "" && s.questions[k].feedback == "" && s.questions[k].score == 0
    ensures s.currentQuestionIndex == 0 && s.status == InProgress && s.overallScore == 0.0
    ensures s.startTime == now && s.createdAt == now && s.endTime == None
    ensures WellFormed(s)
  {
    var difficulty := config.difficulty.GetOr(DefaultDifficulty);
    Session(id, userId, config.jobRole.GetOr(DefaultRole), config.interviewType.GetOr(DefaultType),
            difficulty, SelectQuestions(shuffled, NumQuestions(difficulty)), 0, InProgress, now, None, 0.0, now)
  }

  // ---------------------------------------------------------------------------
  // Answering and scoring
  // ---------------------------------------------------------------------------

  /** The characters JavaScript's `\s` and `String.prototype.trim` treat as white space. */
  predicate IsSpace(c: char)
  {
    c == ' ' || c == '\t' || c == '\n' || c == '\r' || c == '\U{0B}' || c == '\U{0C}' ||
    c == '\U{A0}' || c == '\U{1680}' || ('\U{2000}' <= c <= '\U{200A}') || c == '\U{2028}' ||
    c == '\U{2029}' || c == '\U{202F}' || c == '\U{205F}' || c == '\U{3000}' || c == '\U{FEFF}'
  }

  /** The number of maximal runs of non-space characters. */
  function Words(s: string): nat
  {
    if |s| == 0 then 0
    else
      var last := s[|s| - 1];
      var startsWord := !IsSpace(last) && (|s| == 1 || IsSpace(s[|s| - 2]));
      Words(s[..|s| - 1]) + (if startsWord then 1 else 0)
  }

  /** `answer.trim().split(/\s+/).length`: the number of words, except that a blank
      answer splits into one empty string and so counts as one. */
  function WordCount(answer: string): (n: nat)
    ensures n >= 1
    ensures Words(answer) > 0 ==> n == Words(answer)
    ensures Words(answer) == 0 ==> n == 1
  {
    if Words(answer) == 0 then 1 else Words(answer)
  }

  /** A blank answer contains no word. */
  lemma {:induction false} BlankHasNoWords(s: string)
    requires forall k :: 0 <= k < |s| ==> IsSpace(s[k])
    ensures Words(s) == 0
  {
    if |s| > 0 {
      BlankHasNoWords(s[..|s| - 1]);
    }
  }

  /** A string with a non-space character contains a word. */
  lemma {:induction false} NonBlankHasWords(s: string, k: int)
    requires 0 <= k < |s| && !IsSpace(s[k])
    ensures Words(s) > 0
  {
    var last := |s| - 1;
    if k < last {
      NonBlankHasWords(s[..last], k);
    } else if last > 0 && !IsSpace(s[last - 1]) {
      NonBlankHasWords(s[..last], last - 1);
    }
  }

  /** Adding a separated word adds one to the count. */
  lemma AppendWord(s: string, sep: char, w: char)
    requires IsSpace(sep) && !IsSpace(w)
    ensures Words(s + [sep, w]) == Words(s) + 1
  {
    assert (s + [sep, w])[..|s| + 1] == s + [sep];
    assert (s + [sep])[..|s|] == s;
  }

  /** One point per ten words, at most ten. */
  function AnswerScore(answer: string): (score: int)
    ensures 0 <= score <= 10
    ensures score == Min(10, WordCount(answer) / 10)
  {
    Min(10, WordCount(answer) / 10)
  }

  /** An empty or all-space answer scores zero. */
  lemma BlankAnswerScoresZero(answer: string)
    requires forall k :: 0 <= k < |answer| ==> IsSpace(answer[k])
    ensures WordCount(answer) == 1
    ensures AnswerScore(answer) == 0
  {
    BlankHasNoWords(answer);
  }

  const ExcellentFeedback := "Excellent answer! You provided comprehensive details and demonstrated strong understanding."
  const GoodFeedback := "Good answer! Consider adding more specific examples or technical details."
  const FairFeedback := "Fair answer. Try to elaborate more and provide concrete examples."
  const WeakFeedback := "Your answer could be improved. Provide more details and specific examples."

  /** `generateFeedback`: one of four texts by the 8 / 6 / 4 thresholds. */
  function GenerateFeedback(score: int): (f: string)
    ensures f == ExcellentFeedback <==> score >= 8
    ensures f == GoodFeedback <==> 6 <= score < 8
    ensures f == FairFeedback <==> 4 <= score < 6
    ensures f == WeakFeedback <==> score < 4
  {
    if score >= 8 then ExcellentFeedback
    else if score >= 6 then GoodFeedback
    else if score >= 4 then FairFeedback
    else WeakFeedback
  }

  /** What `submitAnswer` does to the session it loaded, for an index that names a question. */
  function Answered(s: Session, questionIndex: int, answer: string): (t: Session)
    requires 0 <= questionIndex < |s.questions|
    ensures |t.questions| == |s.questions|
    ensures var q := s.questions[questionIndex];
            var score := AnswerScore(answer);
            t.questions[questionIndex] == q.(answer := answer, score := score, feedback := GenerateFeedback(score))
    ensures forall k :: 0 <= k < |s.questions| && k != questionIndex ==> t.questions[k] == s.questions[k]
    ensures t.currentQuestionIndex == Min(questionIndex + 1, |s.questions|)
    ensures 0 < t.currentQuestionIndex <= |t.questions|
    ensures 0 <= t.questions[questionIndex].score <= 10
    ensures t == s.(questions := t.questions, currentQuestionIndex := t.currentQuestionIndex)
  {
    var q := s.questions[questionIndex];
    var score := AnswerScore(answer);
    var q' := q.(answer := answer, score := score, feedback := GenerateFeedback(score));
    s.(questions := s.questions[questionIndex := q'],
       currentQuestionIndex := Min(questionIndex + 1, |s.questions|))
  }

  // ---------------------------------------------------------------------------
  // Completing a session
  // ---------------------------------------------------------------------------

  function QuestionScores(qs: seq<Question>): (ss: seq<int>)
    ensures |ss| == |qs| && forall k :: 0 <= k < |qs| ==> ss[k] == qs[k].score
  {
    seq(|qs|, k requires 0 <= k < |qs| => qs[k].score)
  }

  /** The average question score, or 0 for a session without questions. */
  function MeanScore(qs: seq<Question>): (m: real)
    ensures |qs| == 0 ==> m == 0.0
    ensures |qs| > 0 ==> m * (|qs| as real) == Seqs.Sum(QuestionScores(qs)) as real
  {
    if |qs| == 0 then 0.0 else Seqs.Sum(QuestionScores(qs)) as real / (|qs| as real)
  }

  /** Question scores in [0, 10] give a mean in [0, 10]. */
  lemma MeanScoreBounded(qs: seq<Question>)
    requires forall k :: 0 <= k < |qs| ==> 0 <= qs[k].score <= 10
    ensures 0.0 <= MeanScore(qs) <= 10.0
  {
    if |qs| > 0 {
      Seqs.SumBounds(QuestionScores(qs), 0, 10);
      MeanBounds(Seqs.Sum(QuestionScores(qs)) as real, |qs| as real, 10.0);
    }
  }

  /** A total of n values each in [0, hi] has a mean in [0, hi]. */
  lemma MeanBounds(total: real, n: real, hi: real)
    requires n > 0.0 && 0.0 <= total <= n * hi
    ensures 0.0 <= total / n <= hi
  {
    var m := total / n;
    assert m * n == total;
    if m > hi {
      assert m * n > hi * n;
    }
  }

  /** What `completeSession` does to the session it loaded. */
  function CompletedSession(s: Session, now: Timestamp): (t: Session)
    ensures t.status == Completed && t.endTime == Some(now) && t.overallScore == MeanScore(s.questions)
    ensures t.questions == s.questions && t.currentQuestionIndex == s.currentQuestionIndex
    ensures t == s.(status := Completed, endTime := Some(now), overallScore := t.overallScore)
  {
    s.(status := Completed, endTime := Some(now), overallScore := MeanScore(s.questions))
  }

  /** The invariant every stored session keeps: the index stays within the questions, questions
      are numbered from 1, and every question score and the overall score lie in [0, 10]. */
  predicate WellFormed(s: Session)
  {
    && 0 <= s.currentQuestionIndex <= |s.questions|
    && (forall k :: 0 <= k < |s.questions| ==> s.questions[k].id == k + 1 && 0 <= s.questions[k].score <= 10)
    && 0.0 <= s.overallScore <= 10.0
  }

  lemma AnsweredKeepsWellFormed(s: Session, questionIndex: int, answer: string)
    requires WellFormed(s) && 0 <= questionIndex < |s.questions|
    ensures WellFormed(Answered(s, questionIndex, answer))
  {
    var t := Answered(s, questionIndex, answer);
    forall k | 0 <= k < |t.questions|
      ensures t.questions[k].id == k + 1 && 0 <= t.questions[k].score <= 10
    {
      if k == questionIndex {
        assert t.questions[k].id == s.questions[k].id;
      }
    }
  }

  /** Completing a well-formed session gives an overall score in [0, 10]. */
  lemma CompletedKeepsWellFormed(s: Session, now: Timestamp)
    requires WellFormed(s)
    ensures WellFormed(CompletedSession(s, now))
    ensures 0.0 <= CompletedSession(s, now).overallScore <= 10.0
  {
    MeanScoreBounded(s.questions);
  }

  // ---------------------------------------------------------------------------
  // Lookup and upsert
  // ---------------------------------------------------------------------------

  /** `sessions.findIndex(s => s.id === id)`. */
  function IndexOfSession(sessions: seq<Session>, id: string): (k: int)
    ensures -1 <= k < |sessions|
    ensures k == -1 <==> forall j :: 0 <= j < |sessions| ==> sessions[j].id != id
    ensures k >= 0 ==> sessions[k].id == id && forall j :: 0 <= j < k ==> sessions[j].id != id
  {
    if |sessions| == 0 then -1
    else if sessions[0].id == id then 0
    else
      var k := IndexOfSession(sessions[1..], id);
      if k < 0 then -1 else k + 1
  }

  /** `getSession`: `sessions.find(s => s.id === sessionId)`. */
  function GetSession(sessions: seq<Session>, id: string): (r: Option<Session>)
    ensures r == None <==> forall j :: 0 <= j < |sessions| ==> sessions[j].id != id
    ensures r.Some? ==> r.value.id == id && r.value == sessions[IndexOfSession(sessions, id)]
  {
    var k := IndexOfSession(sessions, id);
    if k < 0 then None else Some(sessions[k])
  }

  /** `saveSession` on the list: replace the first session with this id, or append. */
  function Upsert(sessions: seq<Session>, s: Session): (r: seq<Session>)
    ensures var k := IndexOfSession(sessions, s.id);
            if k >= 0 then |r| == |sessions| && r[k] == s &&
                           forall j :: 0 <= j < |sessions| && j != k ==> r[j] == sessions[j]
            else r == sessions + [s]
  {
    var k := IndexOfSession(sessions, s.id);
    if k >= 0 then sessions[k := s] else sessions + [s]
  }

  /** A saved session is what a lookup by its id returns ... */
  lemma UpsertThenGet(sessions: seq<Session>, s: Session)
    ensures GetSession(Upsert(sessions, s), s.id) == Some(s)
  {
    var k := IndexOfSession(sessions, s.id);
    var r := Upsert(sessions, s);
    if k < 0 {
      assert r[|sessions|] == s;
    } else {
      assert r[k] == s;
    }
  }

  /** ... and lookups of every other id are unaffected. */
  lemma UpsertKeepsOthers(sessions: seq<Session>, s: Session, other: string)
    requires other != s.id
    ensures GetSession(Upsert(sessions, s), other) == GetSession(sessions, other)
  {
    var r := Upsert(sessions, s);
    var k := IndexOfSession(sessions, other);
    var k' := IndexOfSession(r, other);
    if k >= 0 {
      assert r[k].id == other;
    }
    if k' >= 0 {
      assert k' < |sessions| && sessions[k'].id == other;
    }
  }

  /** Saving the same session twice is saving it once. */
  lemma UpsertIdempotent(sessions: seq<Session>, s: Session)
    ensures Upsert(Upsert(sessions, s), s) == Upsert(sessions, s)
  {
    var r := Upsert(sessions, s);
    var k := IndexOfSession(sessions, s.id);
    var k' := IndexOfSession(r, s.id);
    if k < 0 {
      assert r[|sessions|].id == s.id;
      assert k' == |sessions|;
    } else {
      assert r[k].id == s.id;
      assert k' == k;
    }
  }

  /** Saving a well-formed session into a well-formed list keeps every entry well-formed. */
  lemma UpsertKeepsWellFormed(sessions: seq<Session>, s: Session)
    requires forall j :: 0 <= j < |sessions| ==> WellFormed(sessions[j])
    requires WellFormed(s)
    ensures var r := Upsert(sessions, s); forall j :: 0 <= j < |r| ==> WellFormed(r[j])
  {
  }

  // ---------------------------------------------------------------------------
  // The store
  // ---------------------------------------------------------------------------

  class SessionStore {
    var sessions: seq<Session>

    /** Every stored session is well-formed. */
    ghost predicate Valid()
      reads this
    {
      forall j :: 0 <= j < |sessions| ==> WellFormed(sessions[j])
    }

    /** A browser profile where the key has never been written. */
    constructor ()
      ensures sessions == [] && Valid()
    {
      sessions := [];
    }

    /** `saveSession`: replace the stored session with the same id in place, or push a new one. */
    method SaveSession(session: Session)
      modifies this
      ensures sessions == Upsert(old(sessions), session)
      ensures GetSession(sessions, session.id) == Some(session)
      ensures old(Valid()) && WellFormed(session) ==> Valid()
    {
      ghost var before := sessions;
      var index := IndexOfSession(sessions, session.id);
      if index >= 0 {
        sessions := sessions[index := session];
      } else {
        sessions := sessions + [session];
      }
      UpsertThenGet(before, session);
      if (forall j :: 0 <= j < |before| ==> WellFormed(before[j])) && WellFormed(session) {
        UpsertKeepsWellFormed(before, session);
      }
    }

    /** `createInterviewSession`: look up the pool, shuffle it, take as many questions as the
        difficulty asks for, and save a fresh in-progress session. */
    method CreateInterviewSession(config: SessionConfig, id: string, userId: string, now: Timestamp)
      returns (session: Session)
      modifies this
      ensures exists shuffled :: IsShuffleOf(shuffled, PoolFor(config)) &&
                                 session == NewSession(config, id, userId, now, shuffled)
      ensures multiset(QuestionTexts(session.questions)) <= multiset(PoolFor(config))
      ensures sessions == Upsert(old(sessions), session)
      ensures old(Valid()) ==> Valid()
    {
      var pool := PoolFor(config);
      var shuffled := ShuffleArray(pool);
      session := NewSession(config, id, userId, now, shuffled);
      SelectionDrawsFromPool(shuffled, pool, NumQuestions(session.difficulty));
      assert IsShuffleOf(shuffled, pool);
      SaveSession(session);
    }

    /** `submitAnswer`: record the answer, its score and feedback, advance the index and save.
        An unknown session, or an index that names no question, throws before anything is saved. */
    method SubmitAnswer(sessionId: string, questionIndex: int, answer: string) returns (r: Result<Session>)
      modifies this
      ensures match GetSession(old(sessions), sessionId)
              case None => r == Err(SessionNotFound) && sessions == old(sessions)
              case Some(s) =>
                if 0 <= questionIndex < |s.questions| then
                  r == Ok(Answered(s, questionIndex, answer)) && sessions == Upsert(old(sessions), r.value)
                else
                  r == Err(QuestionNotFound) && sessions == old(sessions)
      ensures old(Valid()) ==> Valid()
    {
      var found := GetSession(sessions, sessionId);
      if found.None? {
        return Err(SessionNotFound);
      }
      var s := found.value;
      if !(0 <= questionIndex < |s.questions|) {
        return Err(QuestionNotFound);
      }
      var updated := Answered(s, questionIndex, answer);
      if Valid() {
        AnsweredKeepsWellFormed(s, questionIndex, answer);
      }
      SaveSession(updated);
      r := Ok(updated);
    }

    /** `completeSession`: mark the session completed with the mean question score and save it. */
    method CompleteSession(sessionId: string, now: Timestamp) returns (r: Result<Session>)
      modifies this
      ensures match GetSession(old(sessions), sessionId)
              case None => r == Err(SessionNotFound) && sessions == old(sessions)
              case Some(s) => r == Ok(CompletedSession(s, now)) && sessions == Upsert(old(sessions), r.value)
      ensures old(Valid()) ==> Valid()
    {
      var found := GetSession(sessions, sessionId);
      if found.None? {
        return Err(SessionNotFound);
      }
      var s := found.value;
      var updated := CompletedSession(s, now);
      if Valid() {
        CompletedKeepsWellFormed(s, now);
      }
      SaveSession(updated);
      r := Ok(updated);
    }
  }

  // ---------------------------------------------------------------------------
  // History
  // ---------------------------------------------------------------------------

  function BelongsTo(userId: string): Session -> bool
  {
    (s: Session) => s.userId == userId
  }

  function IsCompleted(s: Session): bool
  {
    s.status == Completed
  }

  predicate SortedByNewest(list: seq<Session>)
  {
    forall i, j :: 0 <= i < j < |list| ==> list[i].createdAt >= list[j].createdAt
  }

  /** Insert one session into a newest-first list, ahead of every session that is not newer. */
  function InsertByNewest(s: Session, list: seq<Session>): (r: seq<Session>)
    ensures |r| == |list| + 1
    ensures multiset(r) == multiset(list) + multiset{s}
  {
    if |list| == 0 || s.createdAt >= list[0].createdAt then [s] + list
    else
      assert list == [list[0]] + list[1..];
      [list[0]] + InsertByNewest(s, list[1..])
  }

  /** Inserting into a newest-first list keeps it newest-first. */
  lemma {:induction false} InsertKeepsOrder(s: Session, list: seq<Session>)
    requires SortedByNewest(list)
    ensures SortedByNewest(InsertByNewest(s, list))
  {
    if |list| > 0 && s.createdAt < list[0].createdAt {
      var rest := InsertByNewest(s, list[1..]);
      InsertKeepsOrder(s, list[1..]);
      forall k | 0 <= k < |rest| ensures list[0].createdAt >= rest[k].createdAt {
        assert rest[k] in multiset(rest);
        if rest[k] != s {
          assert rest[k] in list[1..];
          var j :| 0 <= j < |list[1..]| && list[1..][j] == rest[k];
          assert list[j + 1] == rest[k];
        }
      }
      var r := [list[0]] + rest;
      assert InsertByNewest(s, list) == r;
      forall i, j | 0 <= i < j < |r| ensures r[i].createdAt >= r[j].createdAt {
        assert r[j] == rest[j - 1];
        if i > 0 {
          assert r[i] == rest[i - 1];
        }
      }
    }
  }

  /** `sort((a, b) => new Date(b.createdAt) - new Date(a.createdAt))`: newest first, holding
      the same sessions as often as the input does. */
  function SortByNewest(list: seq<Session>): (r: seq<Session>)
    ensures SortedByNewest(r)
    ensures multiset(r) == multiset(list)
    ensures |r| == |list|
  {
    if |list| == 0 then []
    else
      assert list == [list[0]] + list[1..];
      var rest := SortByNewest(list[1..]);
      InsertKeepsOrder(list[0], rest);
      InsertByNewest(list[0], rest)
  }

  function TotalOverall(list: seq<Session>): real
  {
    if |list| == 0 then 0.0 else list[0].overallScore + TotalOverall(list[1..])
  }

  lemma {:induction false} TotalOverallBounds(list: seq<Session>)
    requires forall k :: 0 <= k < |list| ==> 0.0 <= list[k].overallScore <= 10.0
    ensures 0.0 <= TotalOverall(list) <= (|list| as real) * 10.0
  {
    if |list| > 0 {
      TotalOverallBounds(list[1..]);
    }
  }

  /** `Math.max(...list.map(s => s.overallScore))` on a non-empty list. */
  function TopOverall(list: seq<Session>): (m: real)
    requires |list| > 0
    ensures forall k :: 0 <= k < |list| ==> list[k].overallScore <= m
    ensures exists k :: 0 <= k < |list| && list[k].overallScore == m
  {
    if |list| == 1 then list[0].overallScore
    else
      var rest := TopOverall(list[1..]);
      if list[0].overallScore >= rest then list[0].overallScore else rest
  }

  function TotalQuestions(list: seq<Session>): nat
  {
    if |list| == 0 then 0 else |list[0].questions| + TotalQuestions(list[1..])
  }

  /** The number of questions of each session, in order. */
  function QuestionCounts(list: seq<Session>): (cs: seq<int>)
    ensures |cs| == |list| && forall k :: 0 <= k < |list| ==> cs[k] == |list[k].questions|
  {
    seq(|list|, k requires 0 <= k < |list| => |list[k].questions|)
  }

  /** The running total of `totalQuestions` is the sum of the sessions' question counts. */
  lemma {:induction false} TotalQuestionsIsSum(list: seq<Session>)
    ensures TotalQuestions(list) == Seqs.Sum(QuestionCounts(list))
  {
    if |list| > 0 {
      assert QuestionCounts(list)[1..] == QuestionCounts(list[1..]);
      TotalQuestionsIsSum(list[1..]);
    }
  }

  /** `sessions.filter(s => s.userId === userId)`. */
  function UserSessions(sessions: seq<Session>, userId: string): (mine: seq<Session>)
    ensures forall k :: 0 <= k < |mine| ==> mine[k].userId == userId && mine[k] in sessions
    ensures forall k :: 0 <= k < |sessions| && sessions[k].userId == userId ==> sessions[k] in mine
  {
    Seqs.Filter(BelongsTo(userId), sessions)
  }

  /** `userSessions.filter(s => s.status === 'completed')`. */
  function CompletedOf(list: seq<Session>): (done: seq<Session>)
    ensures forall k :: 0 <= k < |done| ==> done[k].status == Completed && done[k] in list
    ensures forall k :: 0 <= k < |list| && list[k].status == Completed ==> list[k] in done
  {
    Seqs.Filter(IsCompleted, list)
  }

  datatype HistoryStats = HistoryStats(totalSessions: nat, averageScore: real, totalQuestions: nat, topScore: real)
  datatype History = History(sessions: seq<Session>, stats: HistoryStats)

  /** The `stats` object over the completed sessions. */
  function HistoryStatsOf(done: seq<Session>): (st: HistoryStats)
    ensures st.totalSessions == |done|
    ensures |done| == 0 ==> st == HistoryStats(0, 0.0, 0, 0.0)
    ensures |done| > 0 ==> st.averageScore * (|done| as real) == TotalOverall(done)
    ensures forall k :: 0 <= k < |done| ==> done[k].overallScore <= st.topScore
    ensures |done| > 0 ==> exists k :: 0 <= k < |done| && done[k].overallScore == st.topScore
    ensures st.totalQuestions == Seqs.Sum(QuestionCounts(done))
  {
    TotalQuestionsIsSum(done);
    var n := |done|;
    HistoryStats(n, if n > 0 then TotalOverall(done) / (n as real) else 0.0, TotalQuestions(done),
                 if n > 0 then TopOverall(done) else 0.0)
  }

  /** `getInterviewHistory` for the signed-in user: their sessions newest first, and
      statistics over those of them that are completed. */
  function GetInterviewHistory(sessions: seq<Session>, userId: string): (h: History)
    ensures SortedByNewest(h.sessions)
    ensures multiset(h.sessions) == multiset(UserSessions(sessions, userId))
    ensures h.stats == HistoryStatsOf(CompletedOf(UserSessions(sessions, userId)))
  {
    var mine := UserSessions(sessions, userId);
    History(SortByNewest(mine), HistoryStatsOf(CompletedOf(mine)))
  }

  /** The history lists each of the user's sessions as often as the store holds it, and no one else's. */
  lemma HistoryIsTheUsersSessions(sessions: seq<Session>, userId: string, s: Session)
    ensures multiset(GetInterviewHistory(sessions, userId).sessions)[s] ==
            if s.userId == userId then multiset(sessions)[s] else 0
  {
    Seqs.FilterMultiplicity(BelongsTo(userId), sessions, s);
  }

  /** The top score bounds every completed session of the user, and is 0 when there is none. */
  lemma HistoryTopScore(sessions: seq<Session>, userId: string)
    ensures var st := GetInterviewHistory(sessions, userId).stats;
            forall k :: 0 <= k < |sessions| && sessions[k].userId == userId && sessions[k].status == Completed ==>
              sessions[k].overallScore <= st.topScore
    ensures var st := GetInterviewHistory(sessions, userId).stats;
            st.totalSessions == 0 ==> st.topScore == 0.0 && st.averageScore == 0.0 && st.totalQuestions == 0
  {
    var mine := UserSessions(sessions, userId);
    var done := CompletedOf(mine);
    forall k | 0 <= k < |sessions| && sessions[k].userId == userId && sessions[k].status == Completed
      ensures sessions[k] in done
    {
      assert sessions[k] in mine;
      var j :| 0 <= j < |mine| && mine[j] == sessions[k];
    }
  }

  /** `totalSessions` is zero exactly when the user has no completed session. */
  lemma HistoryCountsCompleted(sessions: seq<Session>, userId: string)
    ensures GetInterviewHistory(sessions, userId).stats.totalSessions == 0 <==>
            forall k :: 0 <= k < |sessions| ==> !(sessions[k].userId == userId && sessions[k].status == Completed)
  {
    var mine := UserSessions(sessions, userId);
    var done := CompletedOf(mine);
    forall k | 0 <= k < |sessions| && sessions[k].userId == userId && sessions[k].status == Completed
      ensures sessions[k] in done
    {
      assert sessions[k] in mine;
      var j :| 0 <= j < |mine| && mine[j] == sessions[k];
    }
    if |done| > 0 {
      assert done[0] in mine;
      var j :| 0 <= j < |mine| && mine[j] == done[0];
      assert mine[j] in sessions;
      var i :| 0 <= i < |sessions| && sessions[i] == mine[j];
    }
  }

  /** Over a store of well-formed sessions, the history's average and top score lie in [0, 10]. */
  lemma HistoryScoresBounded(sessions: seq<Session>, userId: string)
    requires forall j :: 0 <= j < |sessions| ==> WellFormed(sessions[j])
    ensures var st := GetInterviewHistory(sessions, userId).stats;
            0.0 <= st.averageScore <= 10.0 && 0.0 <= st.topScore <= 10.0
  {
    var mine := UserSessions(sessions, userId);
    var done := CompletedOf(mine);
    forall k | 0 <= k < |done| ensures WellFormed(done[k]) {
      assert done[k] in mine;
      var j :| 0 <= j < |mine| && mine[j] == done[k];
      assert mine[j] in sessions;
    }
    if |done| > 0 {
      TotalOverallBounds(done);
      MeanBounds(TotalOverall(done), |done| as real, 10.0);
    }
  }
}
