/** The browser-side store of resume analyses, interview history and user
    preferences (frontend/src/services/storageService.js). The three
    localStorage keys become the three fields of `AnalysisStore`; reading a key
    that was never written yields the empty list or the empty object, which is
    how the store starts. */
module Storage {
  import opened Wrappers
  import Seqs

  /** Milliseconds since the epoch; the source stores ISO-8601 strings of the same instant. */
  type Timestamp = int

  /** What a caller hands to `saveAnalysis`: the analysis result object. Its own
      `id` key, if present, survives the spread and wins over the generated one. */
  datatype AnalysisInput = AnalysisInput(id: Option<string>, overallScore: Option<int>, details: map<string, string>)

  /** A stored analysis record. */
  datatype Analysis = Analysis(id: string, overallScore: Option<int>, details: map<string, string>,
                               createdAt: Timestamp, updatedAt: Timestamp)

  /** What a caller hands to `saveInterviewSession`, and the stored record. */
  datatype HistoryInput = HistoryInput(id: Option<string>, details: map<string, string>)
  datatype HistoryEntry = HistoryEntry(id: string, details: map<string, string>, createdAt: Timestamp)

  type Preferences = map<string, string>

  /** The argument of `importData`: each key may be absent. */
  datatype ImportPayload = ImportPayload(analyses: Option<seq<Analysis>>,
                                         interviewHistory: Option<seq<HistoryEntry>>,
                                         preferences: Option<Preferences>)

  /** The result of `exportData`. */
  datatype ExportBundle = ExportBundle(analyses: seq<Analysis>, interviewHistory: seq<HistoryEntry>,
                                       preferences: Preferences, exportedAt: Timestamp)

  /** The contents of the three storage keys. */
  datatype StoreState = StoreState(analyses: seq<Analysis>, interviewHistory: seq<HistoryEntry>, preferences: Preferences)

  /** `{ id: generateId(), ...analysis, createdAt, updatedAt }`. */
  function StampAnalysis(input: AnalysisInput, generatedId: string, now: Timestamp): (a: Analysis)
    ensures a.id == input.id.GetOr(generatedId)
    ensures input.id == None ==> a.id == generatedId
    ensures a.overallScore == input.overallScore && a.details == input.details
    ensures a.createdAt == now && a.updatedAt == now
  {
    Analysis(input.id.GetOr(generatedId), input.overallScore, input.details, now, now)
  }

  /** `{ id: generateId(), ...session, createdAt }`. */
  function StampHistory(input: HistoryInput, generatedId: string, now: Timestamp): (e: HistoryEntry)
    ensures e.id == input.id.GetOr(generatedId) && e.details == input.details && e.createdAt == now
  {
    HistoryEntry(input.id.GetOr(generatedId), input.details, now)
  }

  /** `analyses.find(a => a.id === id) || null`: the first record with this id. */
  function FindAnalysis(analyses: seq<Analysis>, id: string): (r: Option<Analysis>)
    ensures r == None <==> forall k :: 0 <= k < |analyses| ==> analyses[k].id != id
    ensures r.Some? ==> exists k :: 0 <= k < |analyses| && analyses[k] == r.value && r.value.id == id &&
                                    forall j :: 0 <= j < k ==> analyses[j].id != id
  {
    if |analyses| == 0 then None
    else if analyses[0].id == id then Some(analyses[0])
    else
      var r := FindAnalysis(analyses[1..], id);
      if r.Some? then
        ghost var k :| 0 <= k < |analyses| - 1 && analyses[1..][k] == r.value && r.value.id == id &&
                       forall j :: 0 <= j < k ==> analyses[1..][j].id != id;
        assert analyses[k + 1] == r.value;
        r
      else r
  }

  /** The filter test of `deleteAnalysis`. */
  function OtherThan(id: string): Analysis -> bool
  {
    (a: Analysis) => a.id != id
  }

  /** `analyses.filter(a => a.id !== id)`. */
  function RemoveId(analyses: seq<Analysis>, id: string): (r: seq<Analysis>)
    ensures forall k :: 0 <= k < |r| ==> r[k].id != id && r[k] in analyses
    ensures forall k :: 0 <= k < |analyses| && analyses[k].id != id ==> analyses[k] in r
    ensures FindAnalysis(r, id) == None
  {
    Seqs.Filter(OtherThan(id), analyses)
  }

  /** Deleting keeps every other record exactly as often as it was stored. */
  lemma RemoveIdKeepsOthers(analyses: seq<Analysis>, id: string, a: Analysis)
    ensures multiset(RemoveId(analyses, id))[a] == if a.id == id then 0 else multiset(analyses)[a]
  {
    Seqs.FilterMultiplicity(OtherThan(id), analyses, a);
  }

  /** Deleting keeps the remaining records in their stored order. */
  lemma RemoveIdPreservesOrder(front: seq<Analysis>, back: seq<Analysis>, id: string)
    ensures RemoveId(front + back, id) == RemoveId(front, id) + RemoveId(back, id)
  {
    Seqs.FilterAppend(OtherThan(id), front, back);
  }

  /** Deleting the same id twice is deleting it once. */
  lemma RemoveIdIdempotent(analyses: seq<Analysis>, id: string)
    ensures RemoveId(RemoveId(analyses, id), id) == RemoveId(analyses, id)
  {
    Seqs.FilterIdempotent(OtherThan(id), analyses);
  }

  /** `a.overallScore || 0`. */
  function ScoreOf(a: Analysis): (s: int)
    ensures a.overallScore == None ==> s == 0
    ensures a.overallScore.Some? ==> s == a.overallScore.value
  {
    a.overallScore.GetOr(0)
  }

  /** `analyses.map(a => a.overallScore || 0)`. */
  function Scores(analyses: seq<Analysis>): (s: seq<int>)
    ensures |s| == |analyses|
    ensures forall k :: 0 <= k < |s| ==> s[k] == ScoreOf(analyses[k])
  {
    seq(|analyses|, k requires 0 <= k < |analyses| => ScoreOf(analyses[k]))
  }

  /** `Math.round(sum / n)` for n > 0: the integer nearest the mean, halves rounded up. */
  function RoundedMean(sum: int, n: int): (m: int)
    requires n > 0
    ensures 2 * n * m - n <= 2 * sum < 2 * n * m + n
  {
    var m := (2 * sum + n) / (2 * n);
    assert 2 * sum + n == (2 * n) * m + (2 * sum + n) % (2 * n);
    m
  }

  /** The four score bands of `calculateScoreDistribution`. */
  datatype Band = Excellent | Good | Fair | Poor

  function BandOf(score: int): (b: Band)
    ensures b == Excellent <==> score >= 80
    ensures b == Good <==> 60 <= score < 80
    ensures b == Fair <==> 40 <= score < 60
    ensures b == Poor <==> score < 40
  {
    if score >= 80 then Excellent
    else if score >= 60 then Good
    else if score >= 40 then Fair
    else Poor
  }

  /** How many of the scores fall in band `b`. */
  function CountInBand(scores: seq<int>, b: Band): nat
  {
    if |scores| == 0 then 0
    else CountInBand(scores[..|scores| - 1], b) + (if BandOf(scores[|scores| - 1]) == b then 1 else 0)
  }

  datatype Distribution = Distribution(excellent: nat, good: nat, fair: nat, poor: nat)

  /** The distribution the counting loop produces, stated band by band. */
  function DistributionOf(scores: seq<int>): Distribution
  {
    Distribution(CountInBand(scores, Excellent), CountInBand(scores, Good),
                 CountInBand(scores, Fair), CountInBand(scores, Poor))
  }

  /** Every score lands in exactly one band, so the four counts add up to the number of scores. */
  lemma {:induction false} DistributionTotal(scores: seq<int>)
    ensures var d := DistributionOf(scores); d.excellent + d.good + d.fair + d.poor == |scores|
  {
    if |scores| > 0 {
      DistributionTotal(scores[..|scores| - 1]);
    }
  }

  /** The `forEach` loop that increments one counter per score. */
  method CalculateScoreDistribution(scores: seq<int>) returns (d: Distribution)
    ensures d == DistributionOf(scores)
  {
    d := Distribution(0, 0, 0, 0);
    var i := 0;
    while i < |scores|
      invariant 0 <= i <= |scores|
      invariant d == DistributionOf(scores[..i])
    {
      var score := scores[i];
      if score >= 80 {
        d := d.(excellent := d.excellent + 1);
      } else if score >= 60 {
        d := d.(good := d.good + 1);
      } else if score >= 40 {
        d := d.(fair := d.fair + 1);
      } else {
        d := d.(poor := d.poor + 1);
      }
      assert scores[..i + 1][..i] == scores[..i];
      i := i + 1;
    }
    assert scores[..i] == scores;
  }

  /** The result of `getStatistics`. The empty store's result has no `scoreDistribution` key. */
  datatype Statistics = Statistics(totalAnalyses: nat, averageScore: int, topScore: int,
                                   recentAnalyses: seq<Analysis>, scoreDistribution: Option<Distribution>)

  const RecentCount: nat := 5

  function GetStatistics(analyses: seq<Analysis>): (st: Statistics)
    ensures |analyses| == 0 ==> st == Statistics(0, 0, 0, [], None)
    ensures st.totalAnalyses == |analyses|
    ensures forall k :: 0 <= k < |analyses| ==> ScoreOf(analyses[k]) <= st.topScore
    ensures |analyses| > 0 ==> exists k :: 0 <= k < |analyses| && ScoreOf(analyses[k]) == st.topScore
    ensures |analyses| > 0 ==> var n := |analyses|; var sum := Seqs.Sum(Scores(analyses));
                                2 * n * st.averageScore - n <= 2 * sum < 2 * n * st.averageScore + n
    ensures st.recentAnalyses == analyses[..if |analyses| < RecentCount then |analyses| else RecentCount]
    ensures |analyses| > 0 ==> st.scoreDistribution == Some(DistributionOf(Scores(analyses)))
  {
    if |analyses| == 0 then Statistics(0, 0, 0, [], None)
    else
      var scores := Scores(analyses);
      var top := Seqs.Max(scores);
      assert forall k :: 0 <= k < |analyses| ==> ScoreOf(analyses[k]) == scores[k];
      Statistics(|analyses|, RoundedMean(Seqs.Sum(scores), |scores|), top,
                 analyses[..if |analyses| < RecentCount then |analyses| else RecentCount],
                 Some(DistributionOf(scores)))
  }

  /** With a distribution present, its bands account for every stored analysis. */
  lemma StatisticsDistributionCoversAll(analyses: seq<Analysis>)
    requires |analyses| > 0
    ensures var d := GetStatistics(analyses).scoreDistribution.value;
            d.excellent + d.good + d.fair + d.poor == GetStatistics(analyses).totalAnalyses
  {
    DistributionTotal(Scores(analyses));
  }

  /** The state after `importData`: a key is overwritten exactly when the payload carries it. */
  function ApplyImport(st: StoreState, data: ImportPayload): (r: StoreState)
    ensures r.analyses == if data.analyses.Some? then data.analyses.value else st.analyses
    ensures r.interviewHistory == if data.interviewHistory.Some? then data.interviewHistory.value else st.interviewHistory
    ensures r.preferences == if data.preferences.Some? then data.preferences.value else st.preferences
  {
    StoreState(data.analyses.GetOr(st.analyses), data.interviewHistory.GetOr(st.interviewHistory),
               data.preferences.GetOr(st.preferences))
  }

  /** The payload that re-imports an export. */
  function AsPayload(bundle: ExportBundle): ImportPayload
  {
    ImportPayload(Some(bundle.analyses), Some(bundle.interviewHistory), Some(bundle.preferences))
  }

  /** Importing what was exported restores the store, whatever it held in between. */
  lemma ExportImportRoundTrip(exported: StoreState, now: Timestamp, current: StoreState)
    ensures ApplyImport(current, AsPayload(ExportBundle(exported.analyses, exported.interviewHistory,
                                                        exported.preferences, now))) == exported
  {
  }

  /** An import that carries no key changes nothing. */
  lemma EmptyImportIsNoop(st: StoreState)
    ensures ApplyImport(st, ImportPayload(None, None, None)) == st
  {
  }

  class AnalysisStore {
    var analyses: seq<Analysis>
    var interviewHistory: seq<HistoryEntry>
    var preferences: Preferences

    function State(): StoreState
      reads this
    {
      StoreState(analyses, interviewHistory, preferences)
    }

    /** A browser profile where none of the three keys has been written. */
    constructor ()
      ensures analyses == [] && interviewHistory == [] && preferences == map[]
    {
      analyses := [];
      interviewHistory := [];
      preferences := map[];
    }

    /** `saveAnalysis`: the new record goes to the front of the list. */
    method SaveAnalysis(input: AnalysisInput, generatedId: string, now: Timestamp) returns (saved: Analysis)
      modifies this
      ensures saved == StampAnalysis(input, generatedId, now)
      ensures analyses == [saved] + old(analyses)
      ensures |analyses| == |old(analyses)| + 1 && analyses[0] == saved && analyses[1..] == old(analyses)
      ensures interviewHistory == old(interviewHistory) && preferences == old(preferences)
    {
      saved := StampAnalysis(input, generatedId, now);
      analyses := [saved] + analyses;
    }

    /** `deleteAnalysis`: the filtered list replaces the stored one. The
        write cannot fail in this model, so the status is always true. */
    method DeleteAnalysis(id: string) returns (ok: bool)
      modifies this
      ensures ok
      ensures analyses == RemoveId(old(analyses), id)
      ensures interviewHistory == old(interviewHistory) && preferences == old(preferences)
    {
      analyses := RemoveId(analyses, id);
      ok := true;
    }

    /** `clearAllAnalyses`: removing the key reads back as the empty list. */
    method ClearAllAnalyses()
      modifies this
      ensures analyses == []
      ensures interviewHistory == old(interviewHistory) && preferences == old(preferences)
    {
      analyses := [];
    }

    /** `saveInterviewSession`: the new entry goes to the front of the history. */
    method SaveInterviewSession(input: HistoryInput, generatedId: string, now: Timestamp) returns (saved: HistoryEntry)
      modifies this
      ensures saved == StampHistory(input, generatedId, now)
      ensures interviewHistory == [saved] + old(interviewHistory)
      ensures analyses == old(analyses) && preferences == old(preferences)
    {
      saved := StampHistory(input, generatedId, now);
      interviewHistory := [saved] + interviewHistory;
    }

    /** `savePreferences`: the whole object is replaced. */
    method SavePreferences(prefs: Preferences)
      modifies this
      ensures preferences == prefs
      ensures analyses == old(analyses) && interviewHistory == old(interviewHistory)
    {
      preferences := prefs;
    }

    /** `exportData`. */
    method ExportData(now: Timestamp) returns (bundle: ExportBundle)
      ensures bundle == ExportBundle(analyses, interviewHistory, preferences, now)
    {
      bundle := ExportBundle(analyses, interviewHistory, preferences, now);
    }

    /** `importData`: each present key overwrites its list or object; absent keys are left alone. */
    method ImportData(data: ImportPayload)
      modifies this
      ensures State() == ApplyImport(old(State()), data)
    {
      if data.analyses.Some? {
        analyses := data.analyses.value;
      }
      if data.interviewHistory.Some? {
        interviewHistory := data.interviewHistory.value;
      }
      if data.preferences.Some? {
        preferences := data.preferences.value;
      }
    }
  }

  /** A freshly saved analysis is what a lookup by its id returns. */
  lemma SavedAnalysisIsFound(saved: Analysis, before: seq<Analysis>)
    ensures FindAnalysis([saved] + before, saved.id) == Some(saved)
  {
  }

  /** A freshly saved analysis heads the recent list of the statistics. */
  lemma SavedAnalysisIsMostRecent(saved: Analysis, before: seq<Analysis>)
    ensures GetStatistics([saved] + before).recentAnalyses[0] == saved
    ensures GetStatistics([saved] + before).totalAnalyses == |before| + 1
  {
  }
}
